/** The method-channel dispatcher (onMethodCall) and the aggregate probe (getPhoneInfo). */
module Dispatcher {
  import opened Wrappers
  import opened Device
  import opened Values
  import Battery
  import Telephony
  import Network
  import System
  import Hardware
  import Security

  /** The 25 single-field routes; each is also one key of the aggregate record. */
  datatype Field =
    | IsConnected | ConnectionType | NetworkOperator | SignalStrength | DeviceName
    | Manufacturer | Model | OsVersion | Architecture | DeviceId
    | TotalMemory | AvailableStorage | BatteryInfo | CpuInfo | NetworkInfo
    | ScreenInfo | SensorInfo | StorageInfo | CameraInfo | BiometricInfo
    | SimInfo | SystemHealth | AccessibilityInfo | SecurityInfo | AppUsageStats

  /** Every operation the dispatcher knows. */
  datatype Route = GetPhoneInfo | GetPlatformVersion | Get(field: Field)

  /** What the caller receives: `result.success`, `result.notImplemented` or `result.error`
      (whose details are always null). */
  datatype Response = Success(value: Value) | NotImplemented | Error(code: string, message: string)

  const PermissionDenied := "PERMISSION_DENIED"
  const UnknownError := "UNKNOWN_ERROR"

  /** The key under which getPhoneInfo stores a field. */
  function FieldKey(f: Field): string {
    match f
    case IsConnected => "isConnected"
    case ConnectionType => "connectionType"
    case NetworkOperator => "networkOperator"
    case SignalStrength => "signalStrength"
    case DeviceName => "deviceName"
    case Manufacturer => "manufacturer"
    case Model => "model"
    case OsVersion => "osVersion"
    case Architecture => "architecture"
    case DeviceId => "deviceId"
    case TotalMemory => "totalMemory"
    case AvailableStorage => "availableStorage"
    case BatteryInfo => "batteryInfo"
    case CpuInfo => "cpuInfo"
    case NetworkInfo => "networkInfo"
    case ScreenInfo => "screenInfo"
    case SensorInfo => "sensorInfo"
    case StorageInfo => "storageInfo"
    case CameraInfo => "cameraInfo"
    case BiometricInfo => "biometricInfo"
    case SimInfo => "simInfo"
    case SystemHealth => "systemHealth"
    case AccessibilityInfo => "accessibilityInfo"
    case SecurityInfo => "securityInfo"
    case AppUsageStats => "appUsageStats"
  }

  /** Distinct fields are stored under distinct keys. */
  lemma FieldKeyInjective(f: Field, g: Field)
    requires FieldKey(f) == FieldKey(g)
    ensures f == g
  {
  }

  /** The operation name of a route, as the `when` of onMethodCall spells it. */
  function RouteName(r: Route): string {
    match r
    case GetPhoneInfo => "getPhoneInfo"
    case GetPlatformVersion => "getPlatformVersion"
    case Get(f) =>
      match f
      case IsConnected => "getIsConnected"
      case ConnectionType => "getConnectionType"
      case NetworkOperator => "getNetworkOperator"
      case SignalStrength => "getSignalStrength"
      case DeviceName => "getDeviceName"
      case Manufacturer => "getManufacturer"
      case Model => "getModel"
      case OsVersion => "getOsVersion"
      case Architecture => "getArchitecture"
      case DeviceId => "getDeviceId"
      case TotalMemory => "getTotalMemory"
      case AvailableStorage => "getAvailableStorage"
      case BatteryInfo => "getBatteryInfo"
      case CpuInfo => "getCpuInfo"
      case NetworkInfo => "getNetworkInfo"
      case ScreenInfo => "getScreenInfo"
      case SensorInfo => "getSensorInfo"
      case StorageInfo => "getStorageInfo"
      case CameraInfo => "getCameraInfo"
      case BiometricInfo => "getBiometricInfo"
      case SimInfo => "getSimInfo"
      case SystemHealth => "getSystemHealth"
      case AccessibilityInfo => "getAccessibilityInfo"
      case SecurityInfo => "getSecurityInfo"
      case AppUsageStats => "getAppUsageStats"
  }

  /** Distinct routes have distinct names. */
  lemma RouteNameInjective(r: Route, s: Route)
    requires RouteName(r) == RouteName(s)
    ensures r == s
  {
  }

  /** The branches of `when (call.method)`, in their order. */
  const WhenBranches: seq<Route> := [
    GetPhoneInfo, GetPlatformVersion, Get(IsConnected), Get(ConnectionType), Get(NetworkOperator),
    Get(SignalStrength), Get(DeviceName), Get(Manufacturer), Get(Model), Get(OsVersion),
    Get(Architecture), Get(DeviceId), Get(TotalMemory), Get(AvailableStorage), Get(BatteryInfo),
    Get(CpuInfo), Get(Field.NetworkInfo), Get(ScreenInfo), Get(SensorInfo), Get(StorageInfo),
    Get(CameraInfo), Get(BiometricInfo), Get(SimInfo), Get(SystemHealth), Get(AccessibilityInfo),
    Get(SecurityInfo), Get(AppUsageStats)]

  /** The first branch whose name matches, as `when` picks it. */
  function FirstMatch(branches: seq<Route>, name: string): (r: Option<Route>)
    ensures r.Some? ==> r.value in branches && RouteName(r.value) == name
    ensures r.None? <==> forall b :: b in branches ==> RouteName(b) != name
  {
    if branches == [] then None
    else if RouteName(branches[0]) == name then Some(branches[0])
    else FirstMatch(branches[1..], name)
  }

  /** The route an operation name selects, if any. */
  function ParseRoute(name: string): Option<Route> {
    FirstMatch(WhenBranches, name)
  }

  /** Every route has a branch of its own. */
  lemma EveryRouteHasABranch(r: Route)
    ensures r in WhenBranches
  {
    var i := match r
      case GetPhoneInfo => 0
      case GetPlatformVersion => 1
      case Get(f) =>
        match f
        case IsConnected => 2 case ConnectionType => 3 case NetworkOperator => 4 case SignalStrength => 5
        case DeviceName => 6 case Manufacturer => 7 case Model => 8 case OsVersion => 9
        case Architecture => 10 case DeviceId => 11 case TotalMemory => 12 case AvailableStorage => 13
        case BatteryInfo => 14 case CpuInfo => 15 case NetworkInfo => 16 case ScreenInfo => 17
        case SensorInfo => 18 case StorageInfo => 19 case CameraInfo => 20 case BiometricInfo => 21
        case SimInfo => 22 case SystemHealth => 23 case AccessibilityInfo => 24 case SecurityInfo => 25
        case AppUsageStats => 26;
    assert WhenBranches[i] == r;
  }

  /** Every route is selected by its own name, and only names of routes select anything. */
  lemma ParseRouteName(r: Route)
    ensures ParseRoute(RouteName(r)) == Some(r)
  {
    EveryRouteHasABranch(r);
    var p := ParseRoute(RouteName(r));
    RouteNameInjective(p.value, r);
  }

  function CameraList(cs: seq<Hardware.CameraRecord>): Value {
    List(seq(|cs|, i requires 0 <= i < |cs| => cs[i].ToValue()))
  }

  function UsageList(us: seq<System.UsageRecord>): Value {
    List(seq(|us|, i requires 0 <= i < |us| => us[i].ToValue()))
  }

  /** The fields whose probes read only build constants, the runtime or the sticky battery
      intent, or catch every exception. */
  const NeverFailing: set<Field> := {
    Manufacturer, Model, OsVersion, Architecture, DeviceId,
    TotalMemory, BatteryInfo, CpuInfo, SystemHealth, SecurityInfo}

  /** The value of one field, exactly as its single-field route computes it. */
  function FieldValue(f: Field, d: Snapshot): (r: Outcome<Value>)
    ensures f in NeverFailing ==> r.Ok?
  {
    match f
    case IsConnected => var b :- Network.IsConnected(d); Ok(Bool(b))
    case ConnectionType => var s :- Network.ConnectionType(d); Ok(Str(s))
    case NetworkOperator => var s :- Telephony.NetworkOperator(d); Ok(OptStr(s))
    case SignalStrength => var s :- Network.SignalStrength(d); Ok(OptInt(s))
    case DeviceName => var s :- System.DeviceName(d); Ok(Str(s))
    case Manufacturer => Ok(Str(d.manufacturer))
    case Model => Ok(Str(d.model))
    case OsVersion => Ok(Str(d.release))
    case Architecture => Ok(OptStr(d.osArch))
    case DeviceId => Ok(OptStr(System.DeviceId(d)))
    case TotalMemory => Ok(Int(System.TotalMemory(d)))
    case AvailableStorage => var n :- System.AvailableStorage(d); Ok(Int(n))
    case BatteryInfo => Ok(Battery.BatteryInfo(d).ToValue())
    case CpuInfo => Ok(System.CpuInfo(d).ToValue())
    case NetworkInfo => var n :- Network.NetworkInfo(d); Ok(n.ToValue())
    case ScreenInfo => var s :- Hardware.ScreenInfo(d); Ok(s.ToValue())
    case SensorInfo => var vs :- Hardware.SensorInfo(d); Ok(List(vs))
    case StorageInfo => var s :- System.StorageInfo(d); Ok(s.ToValue())
    case CameraInfo => var cs :- Hardware.CameraInfo(d); Ok(CameraList(cs))
    case BiometricInfo => var b :- Hardware.BiometricInfo(d); Ok(b.ToValue())
    case SimInfo => var s :- Telephony.SimInfo(d); Ok(s.ToValue())
    case SystemHealth => Ok(System.SystemHealth())
    case AccessibilityInfo => var ids :- Hardware.AccessibilityInfo(d); Ok(StrList(ids))
    case SecurityInfo => Ok(Security.SecurityInfo(d).ToValue())
    case AppUsageStats => var us :- System.AppUsageStats(d); Ok(UsageList(us))
  }

  /** The order in which getPhoneInfo's `mapOf` evaluates its entries. */
  const AggregateOrder: seq<Field> := [
    IsConnected, ConnectionType, NetworkOperator, SignalStrength, DeviceName,
    Manufacturer, Model, OsVersion, Architecture, DeviceId,
    TotalMemory, AvailableStorage, BatteryInfo, CpuInfo, Field.NetworkInfo,
    ScreenInfo, SensorInfo, StorageInfo, CameraInfo, BiometricInfo,
    SimInfo, SystemHealth, AccessibilityInfo, SecurityInfo, AppUsageStats]

  /** Every field has an entry in the aggregate. */
  lemma EveryFieldAggregated(f: Field)
    ensures f in AggregateOrder
  {
    var i := match f
      case IsConnected => 0 case ConnectionType => 1 case NetworkOperator => 2 case SignalStrength => 3
      case DeviceName => 4 case Manufacturer => 5 case Model => 6 case OsVersion => 7
      case Architecture => 8 case DeviceId => 9 case TotalMemory => 10 case AvailableStorage => 11
      case BatteryInfo => 12 case CpuInfo => 13 case NetworkInfo => 14 case ScreenInfo => 15
      case SensorInfo => 16 case StorageInfo => 17 case CameraInfo => 18 case BiometricInfo => 19
      case SimInfo => 20 case SystemHealth => 21 case AccessibilityInfo => 22 case SecurityInfo => 23
      case AppUsageStats => 24;
    assert AggregateOrder[i] == f;
  }

  /** `mapOf(key to value, ...)`: the entries are evaluated left to right and the first
      exception aborts the whole map. */
  function Collect(fs: seq<Field>, probe: Field -> Outcome<Value>): (r: Outcome<map<string, Value>>)
    ensures r.Ok? ==> forall k :: k in r.value ==> exists f :: f in fs && FieldKey(f) == k
  {
    if fs == [] then Ok(map[])
    else
      var v :- probe(fs[0]);
      var rest :- Collect(fs[1..], probe);
      Ok(map[FieldKey(fs[0]) := v] + rest)
  }

  /** The map is built exactly when every entry's probe succeeds, and then holds each entry's
      value under its key. */
  lemma {:induction false} CollectOk(fs: seq<Field>, probe: Field -> Outcome<Value>)
    ensures Collect(fs, probe).Ok? <==> forall f :: f in fs ==> probe(f).Ok?
    ensures Collect(fs, probe).Ok? ==>
              forall f :: f in fs ==> FieldKey(f) in Collect(fs, probe).value
                                      && Collect(fs, probe).value[FieldKey(f)] == probe(f).value
  {
    if fs != [] {
      var tail := fs[1..];
      CollectOk(tail, probe);
      assert forall f :: f in fs <==> f == fs[0] || f in tail;
      if Collect(fs, probe).Ok? {
        var m := Collect(fs, probe).value;
        var rest := Collect(tail, probe).value;
        forall f | f in fs
          ensures FieldKey(f) in m && m[FieldKey(f)] == probe(f).value
        {
          if f !in tail {
            if FieldKey(f) in rest {
              var g :| g in tail && FieldKey(g) == FieldKey(f);
              FieldKeyInjective(f, g);
            }
          }
        }
      }
    }
  }

  /** When the map is not built, the exception is that of the first entry whose probe failed. */
  lemma {:induction false} CollectFailure(fs: seq<Field>, probe: Field -> Outcome<Value>)
    requires !Collect(fs, probe).Ok?
    ensures exists i :: 0 <= i < |fs| && SameFailure(Collect(fs, probe), probe(fs[i]))
                        && forall j :: 0 <= j < i ==> probe(fs[j]).Ok?
  {
    if !probe(fs[0]).Ok? {
      assert SameFailure(Collect(fs, probe), probe(fs[0]));
    } else {
      var tail := fs[1..];
      CollectFailure(tail, probe);
      var i :| 0 <= i < |tail| && SameFailure(Collect(tail, probe), probe(tail[i]))
               && forall j :: 0 <= j < i ==> probe(tail[j]).Ok?;
      assert SameFailure(Collect(fs, probe), probe(fs[i + 1]));
      assert forall j :: 1 <= j < i + 1 ==> fs[j] == tail[j - 1];
    }
  }

  /** The aggregate's entries as one function from field to value. */
  function Probe(d: Snapshot): Field -> Outcome<Value> {
    f => FieldValue(f, d)
  }

  /** getPhoneInfo. */
  function PhoneInfo(d: Snapshot): (r: Outcome<Value>)
    ensures r.Ok? ==> r.value.Record?
    ensures r.Ok? ==> forall k :: k in r.value.fields ==> exists f :: f in AggregateOrder && FieldKey(f) == k
  {
    var fields :- Collect(AggregateOrder, Probe(d));
    Ok(Record(fields))
  }

  /** What a route computes before the dispatcher reports it. */
  function RouteResult(r: Route, d: Snapshot): (res: Outcome<Value>)
    ensures r.GetPlatformVersion? ==> res.Ok? && res.value.Str?
    ensures r.Get? && r.field in NeverFailing ==> res.Ok?
  {
    match r
    case GetPhoneInfo => PhoneInfo(d)
    case GetPlatformVersion => Ok(Str("Android " + d.release))
    case Get(f) => FieldValue(f, d)
  }

  /** `${e.message}`: a null message is rendered as "null". */
  function MessageText(msg: Option<string>): string {
    if msg.Some? then msg.value else "null"
  }

  /** The try/catch around the `when`: success, or the exception classified by its kind. */
  function Respond(o: Outcome<Value>): (r: Response)
    ensures o.Ok? <==> r.Success?
    ensures o.Ok? ==> r.value == o.value
    ensures o.SecEx? ==> r == Error(PermissionDenied, "Permission denied: " + MessageText(o.msg))
    ensures o.OtherEx? ==> r == Error(UnknownError, "An error occurred: " + MessageText(o.msg))
  {
    match o
    case Ok(v) => Success(v)
    case SecEx(msg) => Error(PermissionDenied, "Permission denied: " + MessageText(msg))
    case OtherEx(msg) => Error(UnknownError, "An error occurred: " + MessageText(msg))
  }

  /** onMethodCall: exactly one response for every call. */
  function Dispatch(name: string, d: Snapshot): (r: Response)
    ensures r.Error? ==> r.code == PermissionDenied || r.code == UnknownError
  {
    match ParseRoute(name)
    case None => NotImplemented
    case Some(route) => Respond(RouteResult(route, d))
  }

  /** A name is not implemented exactly when it is no route's name. */
  lemma DispatchNotImplemented(name: string, d: Snapshot)
    ensures Dispatch(name, d).NotImplemented? <==> forall route :: RouteName(route) != name
  {
    if ParseRoute(name).None? {
      forall route ensures RouteName(route) != name {
        EveryRouteHasABranch(route);
      }
    }
  }

  /** The response depends only on the exception's kind and message. */
  lemma RespondSameFailure(a: Outcome<Value>, b: Outcome<Value>)
    requires SameFailure(a, b)
    ensures Respond(a) == Respond(b)
  {
  }

  /** Each known name answers with its own route's result, classified by exception kind. */
  lemma DispatchKnownRoute(r: Route, d: Snapshot)
    ensures Dispatch(RouteName(r), d) == Respond(RouteResult(r, d))
  {
    ParseRouteName(r);
  }

  /** `mapOf` over the aggregate's entries, for any probe: it succeeds exactly when every field's
      probe does, and then maps each field's key to that field's value and holds no other key. */
  lemma CollectAggregate(probe: Field -> Outcome<Value>)
    ensures Collect(AggregateOrder, probe).Ok? <==> forall f :: probe(f).Ok?
    ensures Collect(AggregateOrder, probe).Ok? ==>
              && (forall k :: k in Collect(AggregateOrder, probe).value <==> exists f :: FieldKey(f) == k)
              && (forall f :: FieldKey(f) in Collect(AggregateOrder, probe).value
                               && Collect(AggregateOrder, probe).value[FieldKey(f)] == probe(f).value)
    ensures !Collect(AggregateOrder, probe).Ok? ==> exists f :: SameFailure(Collect(AggregateOrder, probe), probe(f))
  {
    forall f ensures f in AggregateOrder {
      EveryFieldAggregated(f);
    }
    CollectOk(AggregateOrder, probe);
    if !Collect(AggregateOrder, probe).Ok? {
      CollectFailure(AggregateOrder, probe);
    }
  }

  /** A field's probe is that field's own route. */
  lemma ProbeIsRoute(d: Snapshot, f: Field)
    ensures Probe(d)(f) == RouteResult(Get(f), d)
  {
  }

  /** getPhoneInfo succeeds exactly when every field's probe does; it then holds exactly one
      key per field, each with the value that field's own route computes. */
  lemma PhoneInfoShape(d: Snapshot)
    ensures PhoneInfo(d).Ok? <==> forall f :: RouteResult(Get(f), d).Ok?
    ensures PhoneInfo(d).Ok? ==>
              && PhoneInfo(d).value.Record?
              && (forall k :: k in PhoneInfo(d).value.fields <==> exists f :: FieldKey(f) == k)
              && (forall f :: FieldKey(f) in PhoneInfo(d).value.fields
                               && PhoneInfo(d).value.fields[FieldKey(f)] == RouteResult(Get(f), d).value)
  {
    CollectAggregate(Probe(d));
    forall f ensures Probe(d)(f) == RouteResult(Get(f), d) {
      ProbeIsRoute(d, f);
    }
  }

  /** The aggregate and the single-field routes answer alike under the same snapshot. */
  lemma PhoneInfoMatchesSingleRoutes(d: Snapshot, f: Field)
    requires PhoneInfo(d).Ok?
    ensures FieldKey(f) in PhoneInfo(d).value.fields
    ensures Dispatch(RouteName(Get(f)), d) == Success(PhoneInfo(d).value.fields[FieldKey(f)])
  {
    PhoneInfoShape(d);
    DispatchKnownRoute(Get(f), d);
  }

  /** When getPhoneInfo fails, the caller gets the same error as from the single-field route
      of the first field, in `mapOf` order, whose probe failed. */
  lemma PhoneInfoFailure(d: Snapshot)
    requires !PhoneInfo(d).Ok?
    ensures Dispatch(RouteName(GetPhoneInfo), d).Error?
    ensures exists i :: 0 <= i < |AggregateOrder|
                        && !RouteResult(Get(AggregateOrder[i]), d).Ok?
                        && (forall j :: 0 <= j < i ==> RouteResult(Get(AggregateOrder[j]), d).Ok?)
                        && Dispatch(RouteName(GetPhoneInfo), d) == Dispatch(RouteName(Get(AggregateOrder[i])), d)
  {
    var probe := Probe(d);
    CollectFailure(AggregateOrder, probe);
    var i :| 0 <= i < |AggregateOrder| && SameFailure(Collect(AggregateOrder, probe), probe(AggregateOrder[i]))
             && forall j :: 0 <= j < i ==> probe(AggregateOrder[j]).Ok?;
    forall j | 0 <= j <= i ensures probe(AggregateOrder[j]) == RouteResult(Get(AggregateOrder[j]), d) {
      ProbeIsRoute(d, AggregateOrder[j]);
    }
    RespondSameFailure(RouteResult(GetPhoneInfo, d), RouteResult(Get(AggregateOrder[i]), d));
    DispatchKnownRoute(GetPhoneInfo, d);
    DispatchKnownRoute(Get(AggregateOrder[i]), d);
  }

  /** A security exception in the operator or Wi-Fi reads degrades the field to null, and one in
      the SIM reads blanks the SIM record, instead of reaching the caller. */
  lemma PermissionDenialDegrades(d: Snapshot)
    ensures d.networkOperatorName.SecEx? ==> RouteResult(Get(NetworkOperator), d) == Ok(Null)
    ensures d.wifiEnabled.SecEx? ==> RouteResult(Get(SignalStrength), d) == Ok(Null)
    ensures d.networkOperatorName.SecEx? ==> RouteResult(Get(SimInfo), d) == Ok(Telephony.AllNullSim.ToValue())
  {
  }

  /** One failing field is enough to fail getPhoneInfo. */
  lemma FailingFieldFailsAggregate(d: Snapshot, f: Field)
    requires !RouteResult(Get(f), d).Ok?
    ensures !PhoneInfo(d).Ok?
  {
    var probe := Probe(d);
    ProbeIsRoute(d, f);
    assert !probe(f).Ok?;
    CollectAggregate(probe);
  }

  /** A security exception from a probe that does not catch it fails its own route with that
      exception, and fails getPhoneInfo too. */
  lemma UnguardedDenialSurfaces(d: Snapshot, msg: Option<string>)
    requires d.sensors == SecEx(msg)
    ensures RouteResult(Get(SensorInfo), d) == SecEx(msg)
    ensures !PhoneInfo(d).Ok?
  {
    assert RouteResult(Get(SensorInfo), d) == SecEx(msg);
    FailingFieldFailsAggregate(d, SensorInfo);
  }
}
