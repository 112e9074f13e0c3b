/** The system probes: device name and id, memory and storage, CPU, system health and
    app usage statistics, with the integer unit conversions they apply. */
module System {
  import opened Wrappers
  import opened Device
  import opened Values

  /** `1024 * 1024`: bytes per megabyte. */
  const BytesPerMegabyte := 1048576

  /** `TimeUnit.DAYS.toMillis(1)`. */
  const MillisPerDay := 86400000

  /** Long division of a byte count by 1024 * 1024; byte counts are never negative,
      so Kotlin's truncation and Dafny's division agree here. */
  function Megabytes(bytes: nat): (mb: nat)
    ensures mb * BytesPerMegabyte <= bytes < (mb + 1) * BytesPerMegabyte
  {
    bytes / BytesPerMegabyte
  }

  /** Euclidean division of a natural number brackets it between two multiples of the divisor. */
  lemma DivisionBrackets(n: nat, divisor: int)
    requires divisor > 0
    ensures 0 <= n / divisor
    ensures (n / divisor) * divisor <= n < (n / divisor + 1) * divisor
  {
    var q, rem := n / divisor, n % divisor;
    assert n == q * divisor + rem && 0 <= rem < divisor;
    assert (q + 1) * divisor == q * divisor + divisor;
  }

  /** Kotlin's `Long / Long` for a positive divisor: the quotient truncated toward zero. */
  function TruncDiv(n: int, divisor: int): (q: int)
    requires divisor > 0
    ensures n >= 0 ==> 0 <= q && q * divisor <= n < (q + 1) * divisor
    ensures n < 0 ==> q <= 0 && (q - 1) * divisor < n <= q * divisor
  {
    var magnitude: nat := if n >= 0 then n else -n;
    DivisionBrackets(magnitude, divisor);
    var quotient := magnitude / divisor;
    assert (-quotient - 1) * divisor == -((quotient + 1) * divisor);
    assert -quotient * divisor == -(quotient * divisor);
    if n >= 0 then quotient else -quotient
  }

  /** getDeviceName: the DEVICE_NAME setting, or Build.DEVICE when that setting is null.
      A failing settings read propagates. */
  function DeviceName(d: Snapshot): (r: Outcome<string>)
    ensures r.Ok? <==> d.globalDeviceName.Ok?
    ensures r.Ok? && d.globalDeviceName.value.Some? ==> r.value == d.globalDeviceName.value.value
    ensures r.Ok? && d.globalDeviceName.value.None? ==> r.value == d.buildDevice
    ensures !r.Ok? ==> SameFailure(r, d.globalDeviceName)
  {
    var setting :- d.globalDeviceName;
    Ok(if setting.Some? then setting.value else d.buildDevice)
  }

  /** getDeviceId: ANDROID_ID, or null when reading it throws anything. */
  function DeviceId(d: Snapshot): (r: Option<string>)
    ensures d.androidId.Ok? ==> r == d.androidId.value
    ensures !d.androidId.Ok? ==> r.None?
  {
    CatchAll(d.androidId, None)
  }

  /** getTotalMemory: the runtime's total memory in whole megabytes. */
  function TotalMemory(d: Snapshot): (mb: nat)
    ensures mb * BytesPerMegabyte <= d.runtimeTotalMemory < (mb + 1) * BytesPerMegabyte
  {
    Megabytes(d.runtimeTotalMemory)
  }

  /** getAvailableStorage: the data partition's available bytes in whole megabytes. */
  function AvailableStorage(d: Snapshot): (r: Outcome<int>)
    ensures r.Ok? <==> d.dataStat.Ok?
    ensures r.Ok? ==> r.value >= 0 && r.value * BytesPerMegabyte <= d.dataStat.value.availableBytes
                                    < (r.value + 1) * BytesPerMegabyte
    ensures !r.Ok? ==> SameFailure(r, d.dataStat)
  {
    var stat :- d.dataStat;
    Ok(Megabytes(stat.availableBytes))
  }

  datatype StorageRecord = StorageRecord(totalStorage: int, externalStorageAvailable: bool, externalStorage: int)
  {
    function ToValue(): Value {
      Record(map[
        "totalStorage" := Int(totalStorage),
        "externalStorageAvailable" := Bool(externalStorageAvailable),
        "externalStorage" := Int(externalStorage)])
    }
  }

  /** getStorageInfo: total data storage, and available external storage or -1 when the
      external storage is not mounted. */
  function StorageInfo(d: Snapshot): (r: Outcome<StorageRecord>)
    ensures r.Ok? <==> d.dataStat.Ok? && (d.externalStorageState == MediaMounted ==> d.externalStat.Ok?)
    ensures r.Ok? ==> r.value.totalStorage == Megabytes(d.dataStat.value.totalBytes)
    ensures r.Ok? ==> (r.value.externalStorageAvailable <==> r.value.externalStorage != -1)
    ensures r.Ok? ==> (r.value.externalStorageAvailable <==> d.externalStorageState == MediaMounted)
    ensures (r.Ok? && d.externalStorageState == MediaMounted)
      ==> r.value.externalStorage == Megabytes(d.externalStat.value.availableBytes)
    // The data partition is read first; the external one only after it and only when mounted.
    ensures !d.dataStat.Ok? ==> SameFailure(r, d.dataStat)
    ensures d.dataStat.Ok? && d.externalStorageState == MediaMounted && !d.externalStat.Ok? ==>
              SameFailure(r, d.externalStat)
  {
    var stat :- d.dataStat;
    var totalStorage := Megabytes(stat.totalBytes);
    var externalStorage :- if d.externalStorageState == MediaMounted then
                             var extStat :- d.externalStat;
                             Ok(Megabytes(extStat.availableBytes) as int)
                           else
                             Ok(-1);
    Ok(StorageRecord(totalStorage, externalStorage != -1, externalStorage))
  }

  datatype CpuRecord = CpuRecord(coreCount: int, maxFrequency: int, loadAverage: real)
  {
    function ToValue(): Value {
      Record(map[
        "coreCount" := Int(coreCount),
        "maxFrequency" := Int(maxFrequency),
        "loadAverage" := Real(loadAverage)])
    }
  }

  /** getCpuInfo: the maximum frequency is the kHz value of cpuinfo_max_freq divided by 1000,
      truncating; it and the load average are -1 when reading or parsing throws. */
  function CpuInfo(d: Snapshot): (r: CpuRecord)
    ensures r.coreCount == d.availableProcessors
    ensures (d.cpuMaxFreq.Ok? && d.cpuMaxFreq.value.Some?)
      ==> r.maxFrequency == TruncDiv(d.cpuMaxFreq.value.value, 1000)
    ensures !(d.cpuMaxFreq.Ok? && d.cpuMaxFreq.value.Some?) ==> r.maxFrequency == -1
    ensures d.loadAverage.Ok? && d.loadAverage.value.Some? ==> r.loadAverage == d.loadAverage.value.value
    ensures !(d.loadAverage.Ok? && d.loadAverage.value.Some?) ==> r.loadAverage == -1.0
  {
    var freq := CatchAll(d.cpuMaxFreq, None);
    var maxFreq := if freq.Some? then TruncDiv(freq.value, 1000) else -1;
    var load := CatchAll(d.loadAverage, None);
    CpuRecord(d.availableProcessors, maxFreq, if load.Some? then load.value else -1.0)
  }

  /** getSystemHealth: a fixed answer; CPU temperature is not monitored. */
  function SystemHealth(): (v: Value)
    ensures v.Record? && v.fields.Keys == {"cpuTemperature", "status"}
    ensures v.fields["cpuTemperature"] == Real(-1.0)
  {
    Record(map["cpuTemperature" := Real(-1.0), "status" := Str("Temperature monitoring not supported")])
  }

  datatype UsageRecord = UsageRecord(packageName: string, totalTimeInForeground: nat)
  {
    function ToValue(): Value {
      Record(map["packageName" := Str(packageName), "totalTimeInForeground" := Int(totalTimeInForeground)])
    }
  }

  /** Milliseconds to whole seconds, truncating. */
  function Seconds(millis: nat): (s: nat)
    ensures s * 1000 <= millis < (s + 1) * 1000
  {
    millis / 1000
  }

  function UsageRecordOf(stat: UsageStat): UsageRecord {
    UsageRecord(stat.packageName, Seconds(stat.totalTimeInForeground))
  }

  /** getAppUsageStats: one record per UsageStats entry of the daily query over the last 24 hours,
      in the order the query returns them; an empty list when the query returns null. */
  function AppUsageStats(d: Snapshot): (r: Outcome<seq<UsageRecord>>)
    ensures var q := d.queryUsageStats(IntervalDaily, d.nowMillis - MillisPerDay, d.nowMillis);
            && (r.Ok? <==> q.Ok?)
            && (!r.Ok? ==> SameFailure(r, q))
            && (r.Ok? && q.value.None? ==> r.value == [])
            && (r.Ok? && q.value.Some? ==>
                  && |r.value| == |q.value.value|
                  && forall i :: 0 <= i < |r.value| ==>
                       && r.value[i].packageName == q.value.value[i].packageName
                       && r.value[i].totalTimeInForeground * 1000 <= q.value.value[i].totalTimeInForeground
                       && q.value.value[i].totalTimeInForeground < (r.value[i].totalTimeInForeground + 1) * 1000)
  {
    var endTime := d.nowMillis;
    var startTime := endTime - MillisPerDay;
    var stats :- d.queryUsageStats(IntervalDaily, startTime, endTime);
    if stats.None? then Ok([])
    else Ok(seq(|stats.value|, i requires 0 <= i < |stats.value| => UsageRecordOf(stats.value[i])))
  }
}
