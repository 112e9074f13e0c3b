/** The battery probe (getBatteryInfo): a record computed from the sticky
    ACTION_BATTERY_CHANGED intent. The same record is what the battery stream pushes. */
module Battery {
  import opened Wrappers
  import opened Device
  import opened Values

  datatype BatteryRecord = BatteryRecord(batteryLevel: int, isCharging: bool, health: string, temperature: real)
  {
    function ToValue(): Value {
      Record(map[
        "batteryLevel" := Int(batteryLevel),
        "isCharging" := Bool(isCharging),
        "health" := Str(health),
        "temperature" := Real(temperature)])
    }
  }

  /** `batteryStatus?.getIntExtra(key, -1) ?: -1`: the extra, or -1 when it is missing
      or when there is no battery intent at all. */
  function Extra(battery: Option<BatteryIntent>, key: string): (r: int)
    ensures battery.None? ==> r == -1
    ensures battery.Some? && key !in battery.value.extras ==> r == -1
    ensures battery.Some? && key in battery.value.extras ==> r == battery.value.extras[key]
  {
    if battery.Some? && key in battery.value.extras then battery.value.extras[key] else -1
  }

  /** The `when` over BatteryManager health codes: five named codes, everything else "Unknown". */
  function HealthName(code: int): (name: string)
    ensures name == "Good" <==> code == BatteryHealthGood
    ensures name == "Overheat" <==> code == BatteryHealthOverheat
    ensures name == "Dead" <==> code == BatteryHealthDead
    ensures name == "Over Voltage" <==> code == BatteryHealthOverVoltage
    ensures name == "Unspecified Failure" <==> code == BatteryHealthUnspecifiedFailure
    ensures name == "Unknown" <==> code !in {BatteryHealthGood, BatteryHealthOverheat, BatteryHealthDead,
                                             BatteryHealthOverVoltage, BatteryHealthUnspecifiedFailure}
  {
    if code == BatteryHealthGood then "Good"
    else if code == BatteryHealthOverheat then "Overheat"
    else if code == BatteryHealthDead then "Dead"
    else if code == BatteryHealthOverVoltage then "Over Voltage"
    else if code == BatteryHealthUnspecifiedFailure then "Unspecified Failure"
    else "Unknown"
  }

  /** getBatteryInfo. The percentage goes through the platform's float arithmetic
      (`floatPercent`) only when neither level nor scale is the -1 sentinel. */
  function BatteryInfo(d: Snapshot): (r: BatteryRecord)
    ensures (Extra(d.stickyBattery, ExtraLevel) == -1 || Extra(d.stickyBattery, ExtraScale) == -1)
      ==> r.batteryLevel == -1
    ensures (Extra(d.stickyBattery, ExtraLevel) != -1 && Extra(d.stickyBattery, ExtraScale) != -1)
      ==> r.batteryLevel == d.floatPercent(Extra(d.stickyBattery, ExtraLevel), Extra(d.stickyBattery, ExtraScale))
    ensures r.isCharging <==> Extra(d.stickyBattery, ExtraStatus) in {BatteryStatusCharging, BatteryStatusFull}
    ensures r.health == HealthName(Extra(d.stickyBattery, ExtraHealth))
    ensures r.temperature * 10.0 == Extra(d.stickyBattery, ExtraTemperature) as real
    ensures d.stickyBattery.None? ==> r == BatteryRecord(-1, false, "Unknown", -0.1)
  {
    var battery := d.stickyBattery;
    var level := Extra(battery, ExtraLevel);
    var scale := Extra(battery, ExtraScale);
    var pct := if level != -1 && scale != -1 then d.floatPercent(level, scale) else -1;
    var status := Extra(battery, ExtraStatus);
    var health := Extra(battery, ExtraHealth);
    var temperature := Extra(battery, ExtraTemperature);
    BatteryRecord(
      pct,
      status == BatteryStatusCharging || status == BatteryStatusFull,
      HealthName(health),
      temperature as real / 10.0)
  }
}
