/** The telephony probes: getNetworkOperator, getSimInfo, and the classifiers of the
    data network type and the SIM state. */
module Telephony {
  import opened Wrappers
  import opened Device
  import opened Values

  /** The data network type as getNetworkInfo names it. */
  function NetworkTypeName(t: int): (name: string)
    ensures name == "LTE" <==> t == NetworkTypeLte
    ensures name == "5G" <==> t == NetworkTypeNr
    ensures name == "3G" <==> t == NetworkTypeHspa || t == NetworkTypeHspap
    ensures name == "Unknown" <==> t !in {NetworkTypeLte, NetworkTypeNr, NetworkTypeHspa, NetworkTypeHspap}
  {
    if t == NetworkTypeLte then "LTE"
    else if t == NetworkTypeNr then "5G"
    else if t == NetworkTypeHspa || t == NetworkTypeHspap then "3G"
    else "Unknown"
  }

  /** The data network type as getSimInfo names it: the same table without the 3G row. */
  function SimNetworkTypeName(t: int): (name: string)
    ensures name == "LTE" <==> t == NetworkTypeLte
    ensures name == "5G" <==> t == NetworkTypeNr
    ensures name == "Unknown" <==> t != NetworkTypeLte && t != NetworkTypeNr
  {
    if t == NetworkTypeLte then "LTE"
    else if t == NetworkTypeNr then "5G"
    else "Unknown"
  }

  /** The two tables agree except on the HSPA types, which only getNetworkInfo calls "3G". */
  lemma NetworkTypeTablesAgree(t: int)
    ensures NetworkTypeName(t) == SimNetworkTypeName(t) <==> t != NetworkTypeHspa && t != NetworkTypeHspap
  {
  }

  function SimStateName(state: int): (name: string)
    ensures name == "Ready" <==> state == SimStateReady
    ensures name == "Absent" <==> state == SimStateAbsent
    ensures name == "Unknown" <==> state != SimStateReady && state != SimStateAbsent
  {
    if state == SimStateReady then "Ready"
    else if state == SimStateAbsent then "Absent"
    else "Unknown"
  }

  /** getNetworkOperator: the operator name, null on a security exception; any other
      exception propagates to the caller. */
  function NetworkOperator(d: Snapshot): (r: Outcome<Option<string>>)
    ensures d.networkOperatorName.SecEx? ==> r == Ok(None)
    ensures d.networkOperatorName.Ok? ==> r == d.networkOperatorName
    ensures !r.Ok? <==> d.networkOperatorName.OtherEx?
    ensures !r.Ok? ==> SameFailure(r, d.networkOperatorName)
  {
    CatchSecurity(d.networkOperatorName)
  }

  datatype SimRecord = SimRecord(
    carrierName: Option<string>,
    simState: Option<string>,
    networkType: Option<string>,
    isRoaming: Option<bool>,
    imei: Option<string>)
  {
    function ToValue(): Value {
      Record(map[
        "carrierName" := OptStr(carrierName),
        "simState" := OptStr(simState),
        "networkType" := OptStr(networkType),
        "isRoaming" := OptBool(isRoaming),
        "imei" := OptStr(imei)])
    }
  }

  /** The record getSimInfo returns when a security exception stops it: the five keys, all null. */
  const AllNullSim := SimRecord(None, None, None, None, None)

  /** The body of getSimInfo's try block: the telephony reads in the order the map is built.
      The device id is not read at all from Android Q on. */
  function SimReads(d: Snapshot): (r: Outcome<SimRecord>)
    ensures r.Ok? <==> SimReadsOk(d)
    ensures r.Ok? ==> r.value.simState.Some? && r.value.networkType.Some? && r.value.isRoaming.Some?
  {
    var carrier :- d.networkOperatorName;
    var state :- d.simState;
    var netType :- d.dataNetworkType;
    var roaming :- d.isNetworkRoaming;
    var imei :- if d.sdkInt >= VersionQ then Ok(None) else d.telephonyDeviceId;
    Ok(SimRecord(carrier, Some(SimStateName(state)), Some(SimNetworkTypeName(netType)), Some(roaming), imei))
  }

  /** Every read of getSimInfo succeeds (the device id only counts before Android Q). */
  predicate SimReadsOk(d: Snapshot) {
    && d.networkOperatorName.Ok?
    && d.simState.Ok?
    && d.dataNetworkType.Ok?
    && d.isNetworkRoaming.Ok?
    && (d.sdkInt < VersionQ ==> d.telephonyDeviceId.Ok?)
  }

  /** getSimInfo: a security exception from any read yields the all-null record;
      any other exception propagates. */
  function SimInfo(d: Snapshot): (r: Outcome<SimRecord>)
    ensures SimReadsOk(d) ==> r == Ok(SimRecord(
      d.networkOperatorName.value,
      Some(SimStateName(d.simState.value)),
      Some(SimNetworkTypeName(d.dataNetworkType.value)),
      Some(d.isNetworkRoaming.value),
      if d.sdkInt >= VersionQ then None else d.telephonyDeviceId.value))
    // Each read in map order: with every earlier read fine, a security exception from it
    // gives the all-null record and any other exception from it propagates unchanged.
    ensures d.networkOperatorName.SecEx? ==> r == Ok(AllNullSim)
    ensures d.networkOperatorName.OtherEx? ==> SameFailure(r, d.networkOperatorName)
    ensures d.networkOperatorName.Ok? && d.simState.SecEx? ==> r == Ok(AllNullSim)
    ensures d.networkOperatorName.Ok? && d.simState.OtherEx? ==> SameFailure(r, d.simState)
    ensures d.networkOperatorName.Ok? && d.simState.Ok? && d.dataNetworkType.SecEx? ==> r == Ok(AllNullSim)
    ensures d.networkOperatorName.Ok? && d.simState.Ok? && d.dataNetworkType.OtherEx? ==>
              SameFailure(r, d.dataNetworkType)
    ensures d.networkOperatorName.Ok? && d.simState.Ok? && d.dataNetworkType.Ok? && d.isNetworkRoaming.SecEx? ==>
              r == Ok(AllNullSim)
    ensures d.networkOperatorName.Ok? && d.simState.Ok? && d.dataNetworkType.Ok? && d.isNetworkRoaming.OtherEx? ==>
              SameFailure(r, d.isNetworkRoaming)
    ensures (d.networkOperatorName.Ok? && d.simState.Ok? && d.dataNetworkType.Ok? && d.isNetworkRoaming.Ok?
             && d.sdkInt < VersionQ && d.telephonyDeviceId.SecEx?) ==>
              r == Ok(AllNullSim)
    ensures (d.networkOperatorName.Ok? && d.simState.Ok? && d.dataNetworkType.Ok? && d.isNetworkRoaming.Ok?
             && d.sdkInt < VersionQ && d.telephonyDeviceId.OtherEx?) ==>
              SameFailure(r, d.telephonyDeviceId)
    ensures r.Ok? && d.sdkInt >= VersionQ ==> r.value.imei.None?
    ensures r.Ok? ==> (r.value.simState.None? <==> r.value == AllNullSim)
    ensures !r.Ok? ==> r.OtherEx? && !SimReadsOk(d)
  {
    var attempt := SimReads(d);
    if attempt.SecEx? then Ok(AllNullSim) else attempt
  }

  /** From Android Q on the device id is never read: getSimInfo does not depend on it. */
  lemma ImeiNeverReadFromQ(d: Snapshot, id: Outcome<Option<string>>)
    requires d.sdkInt >= VersionQ
    ensures SimInfo(d.(telephonyDeviceId := id)) == SimInfo(d)
  {
  }

  /** Before Android Q, a security exception from the device id read blanks the whole record,
      even though every other read succeeded. */
  lemma DeviceIdDenialBlanksSim(d: Snapshot)
    requires d.sdkInt < VersionQ
    requires d.networkOperatorName.Ok? && d.simState.Ok? && d.dataNetworkType.Ok? && d.isNetworkRoaming.Ok?
    requires d.telephonyDeviceId.SecEx?
    ensures SimInfo(d) == Ok(AllNullSim)
  {
  }
}
