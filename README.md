# phone_info: a Dafny model of the Android plugin core

This project models the Android side of the `phone_info` Flutter plugin, `PhoneInfoPlugin.kt`.
The plugin answers method-channel calls by name: `getPhoneInfo`, `getPlatformVersion` and 25
single-field routes such as `getBatteryInfo` or `getSimInfo`. It also runs a battery event
stream that pushes a battery record to a listener on every battery-changed broadcast.

What the model covers:

- **The device is a value.** Everything a probe reads from Android is one field of
  `Device.Snapshot`: build constants, system services, settings, files, the clock and the
  usage-stats query.
- **Reads that can throw return an `Outcome`.** It is `Ok(value)`, `SecEx(message)` for a
  `SecurityException`, or `OtherEx(message)` for any other exception.
- **Exceptions propagate with `:-`.** Kotlin's rule is that the first exception aborts the
  enclosing expression; Dafny's `:-` does the same on `Outcome`. Each probe's own
  `try`/`catch` becomes `CatchSecurity` (a security exception becomes null) or `CatchAll`
  (every exception becomes a fallback).
- **The probes are pure functions of the snapshot**, one per Kotlin method:
  - `Network`: connectivity, Wi-Fi and addresses.
  - `Telephony`: operator and SIM.
  - `System`: names, memory, storage, CPU, usage statistics.
  - `Hardware`: screen, sensors, cameras, biometrics, accessibility.
  - `Security`: root heuristic and encryption.
  - `Battery`: the battery record.
- **Answers are channel values.** `Values.Value` is the codec's value type: null, booleans,
  integers, reals, strings, lists and string-keyed maps.
- **The dispatcher.** `Dispatcher.Dispatch` models `onMethodCall`: the `when` table,
  `result.notImplemented()` for unknown names, and the two `catch` clauses that turn
  exceptions into `PERMISSION_DENIED` and `UNKNOWN_ERROR` responses.
- **The aggregate.** `Dispatcher.PhoneInfo` models `getPhoneInfo`'s `mapOf`. It evaluates
  its 25 entries left to right, and the first exception aborts the whole map.
- **The battery stream.** `BatteryStream.BatteryEventSource` is a class. Its fields are the
  stream handler's state: the current sink and whether the battery receiver is registered.
  `onListen`, `onCancel` and the receiver's `onReceive` are methods that update these fields.

A caller might expect `getPhoneInfo` never to fail and cancelling the battery stream to be
harmless. The code does neither, and the model follows the code:

- **`getPhoneInfo` can fail.** In the code,
  every probe that does not catch all exceptions can abort it:
  - the probes that catch nothing: device name, screen, sensors, cameras, biometrics,
    accessibility, usage statistics, storage, and the connectivity reads;
  - the probes that catch only a SecurityException, on any other exception: operator,
    signal strength, network type and SIM.
  The error response is then the same one the failing field's own route gives
  (`Dispatcher.PhoneInfoFailure`).
- **Cancelling when nothing is registered throws.** In the code, `onCancel` first unregisters the receiver, and Android throws
  `IllegalArgumentException` when that receiver was never registered
  (`BatteryEventSource.OnCancel`). This is about `onCancel` called directly. Whether the
  Flutter channel can call it with no active stream depends on the channel wiring, which is
  not part of this model.

## Model

| member | source | states |
|---|---|---|
| Dispatcher.FirstMatch | android/src/main/kotlin/me/bipul/phone_info/phone_info_plugin/PhoneInfoPlugin.kt:55-84 | the `when` picks a branch whose name equals the call's method name, and falls through to `else` exactly when no branch has that name |
| Dispatcher.EveryRouteHasABranch | android/src/main/kotlin/me/bipul/phone_info/phone_info_plugin/PhoneInfoPlugin.kt:55-83 | every one of the 27 operations has a branch in the `when` |
| Dispatcher.RouteNameInjective | android/src/main/kotlin/me/bipul/phone_info/phone_info_plugin/PhoneInfoPlugin.kt:55-83 | no two branches share a method name |
| Dispatcher.ParseRouteName | android/src/main/kotlin/me/bipul/phone_info/phone_info_plugin/PhoneInfoPlugin.kt:55-83 | each operation's name selects that operation and no other |
| Dispatcher.Respond | android/src/main/kotlin/me/bipul/phone_info/phone_info_plugin/PhoneInfoPlugin.kt:54-89 | a result is reported as success with the same value; a SecurityException gives `PERMISSION_DENIED` with "Permission denied: " and the message; any other exception gives `UNKNOWN_ERROR` with "An error occurred: " and the message (a null message reads "null") |
| Dispatcher.Dispatch | android/src/main/kotlin/me/bipul/phone_info/phone_info_plugin/PhoneInfoPlugin.kt:53-90 | every error response carries one of the two codes `PERMISSION_DENIED` or `UNKNOWN_ERROR` |
| Dispatcher.DispatchNotImplemented | android/src/main/kotlin/me/bipul/phone_info/phone_info_plugin/PhoneInfoPlugin.kt:84 | a call is answered `notImplemented` if and only if its name is not one of the 27 operation names |
| Dispatcher.DispatchKnownRoute | android/src/main/kotlin/me/bipul/phone_info/phone_info_plugin/PhoneInfoPlugin.kt:53-89 | calling an operation by its name answers with that operation's result, classified by exception kind |
| Dispatcher.FieldValue | android/src/main/kotlin/me/bipul/phone_info/phone_info_plugin/PhoneInfoPlugin.kt:57-83 | the routes for manufacturer, model, OS version, architecture, device id, total memory, battery, CPU, system health and security never fail |
| Dispatcher.FieldKeyInjective | android/src/main/kotlin/me/bipul/phone_info/phone_info_plugin/PhoneInfoPlugin.kt:111-136 | the 25 keys of the aggregate map are pairwise distinct |
| Dispatcher.EveryFieldAggregated | android/src/main/kotlin/me/bipul/phone_info/phone_info_plugin/PhoneInfoPlugin.kt:111-136 | every single-field route has an entry in the aggregate |
| Dispatcher.Collect | android/src/main/kotlin/me/bipul/phone_info/phone_info_plugin/PhoneInfoPlugin.kt:110-138 | the built map holds no key other than its entries' keys |
| Dispatcher.CollectOk | android/src/main/kotlin/me/bipul/phone_info/phone_info_plugin/PhoneInfoPlugin.kt:110-138 | `mapOf` returns if and only if every entry's value is computed without an exception, and then maps each entry's key to that entry's value |
| Dispatcher.CollectFailure | android/src/main/kotlin/me/bipul/phone_info/phone_info_plugin/PhoneInfoPlugin.kt:110-138 | when `mapOf` throws, it throws the exception of the first entry, in argument order, whose value threw; all entries before it succeeded |
| Dispatcher.CollectAggregate | android/src/main/kotlin/me/bipul/phone_info/phone_info_plugin/PhoneInfoPlugin.kt:110-138 | over the aggregate's 25 entries the map is built if and only if every field's value is; its keys are exactly the field keys, each holding that field's value; a failure is some field's failure |
| Dispatcher.ProbeIsRoute | android/src/main/kotlin/me/bipul/phone_info/phone_info_plugin/PhoneInfoPlugin.kt:110-138 | each aggregate entry is the same call as its single-field route's branch; this holds by construction, as in the source, where both call the same probe method |
| Dispatcher.PhoneInfoShape | android/src/main/kotlin/me/bipul/phone_info/phone_info_plugin/PhoneInfoPlugin.kt:110-138 | `getPhoneInfo` succeeds if and only if every single-field route does, and then returns a map whose keys are exactly the 25 field keys, each holding that route's value |
| Dispatcher.PhoneInfoMatchesSingleRoutes | android/src/main/kotlin/me/bipul/phone_info/phone_info_plugin/PhoneInfoPlugin.kt:55-138 | when `getPhoneInfo` succeeds, calling any single-field route on the same device answers success with the value stored under that field's key |
| Dispatcher.PhoneInfoFailure | android/src/main/kotlin/me/bipul/phone_info/phone_info_plugin/PhoneInfoPlugin.kt:53-138 | when `getPhoneInfo` fails, its error response is the one the first failing field's own route gives |
| Dispatcher.FailingFieldFailsAggregate | android/src/main/kotlin/me/bipul/phone_info/phone_info_plugin/PhoneInfoPlugin.kt:110-138 | one failing field is enough to fail `getPhoneInfo` |
| Dispatcher.PhoneInfo | android/src/main/kotlin/me/bipul/phone_info/phone_info_plugin/PhoneInfoPlugin.kt:110-138 | `getPhoneInfo` returns a map holding no key other than the 25 field keys (its other properties are PhoneInfoShape and PhoneInfoFailure) |
| Dispatcher.RouteResult | android/src/main/kotlin/me/bipul/phone_info/phone_info_plugin/PhoneInfoPlugin.kt:56-82 | the branch bodies: `getPlatformVersion` always answers a string, and the ten never-failing fields' routes always succeed |
| Dispatcher.PermissionDenialDegrades | android/src/main/kotlin/me/bipul/phone_info/phone_info_plugin/PhoneInfoPlugin.kt:157-177 | a SecurityException from the operator read makes the operator route answer null and the SIM route answer the all-null record; a SecurityException from the Wi-Fi read makes the signal route answer null |
| Dispatcher.UnguardedDenialSurfaces | android/src/main/kotlin/me/bipul/phone_info/phone_info_plugin/PhoneInfoPlugin.kt:312-324 | a SecurityException from the sensor list fails the sensor route with that exception and fails `getPhoneInfo` too |
| BatteryStream.BatteryEventSource.constructor | android/src/main/kotlin/me/bipul/phone_info/phone_info_plugin/PhoneInfoPlugin.kt:43 | a new handler has no sink, no registered receiver and no deliveries |
| BatteryStream.BatteryEventSource.OnListen | android/src/main/kotlin/me/bipul/phone_info/phone_info_plugin/PhoneInfoPlugin.kt:92-96 | the sink becomes the one passed in (possibly null) and the receiver is registered; a sink is only held while the receiver is registered |
| BatteryStream.BatteryEventSource.OnCancel | android/src/main/kotlin/me/bipul/phone_info/phone_info_plugin/PhoneInfoPlugin.kt:98-101 | it throws if and only if the receiver was not registered; afterwards no receiver is registered and no sink is held |
| BatteryStream.BatteryEventSource.OnBroadcast | android/src/main/kotlin/me/bipul/phone_info/phone_info_plugin/PhoneInfoPlugin.kt:103-108 | a broadcast delivers exactly one event, the battery record read at that moment, to the current sink, and nothing when there is no sink |
| BatteryStream.ListenReceiveCancel | android/src/main/kotlin/me/bipul/phone_info/phone_info_plugin/PhoneInfoPlugin.kt:92-108 | a listener receives one event per broadcast while listening and none after cancelling; a second cancel throws |
| BatteryStream.CancelWithoutListen | android/src/main/kotlin/me/bipul/phone_info/phone_info_plugin/PhoneInfoPlugin.kt:98-101 | cancelling before any listen throws |
| Battery.Extra | android/src/main/kotlin/me/bipul/phone_info/phone_info_plugin/PhoneInfoPlugin.kt:206-213 | `getIntExtra(key, -1) ?: -1`: the extra's value, or -1 when it or the whole intent is missing (the contract is the definition, used by BatteryInfo's) |
| Battery.HealthName | android/src/main/kotlin/me/bipul/phone_info/phone_info_plugin/PhoneInfoPlugin.kt:218-225 | each of the five named health codes has its own name, and every other code is "Unknown" |
| Battery.BatteryInfo | android/src/main/kotlin/me/bipul/phone_info/phone_info_plugin/PhoneInfoPlugin.kt:201-228 | the level is -1 when level or scale is missing, else the percentage; charging if and only if the status is CHARGING or FULL; the temperature is the tenths-of-a-degree extra divided by ten; with no intent the record is (-1, false, "Unknown", -0.1) |
| Telephony.NetworkTypeName | android/src/main/kotlin/me/bipul/phone_info/phone_info_plugin/PhoneInfoPlugin.kt:265-276 | LTE, NR, and HSPA or HSPAP are named "LTE", "5G" and "3G"; every other type is "Unknown" |
| Telephony.SimNetworkTypeName | android/src/main/kotlin/me/bipul/phone_info/phone_info_plugin/PhoneInfoPlugin.kt:387-391 | only LTE and NR are named; every other type is "Unknown" |
| Telephony.NetworkTypeTablesAgree | android/src/main/kotlin/me/bipul/phone_info/phone_info_plugin/PhoneInfoPlugin.kt:267-272 | the network-info table and the SIM table name a type the same way exactly when it is not HSPA or HSPA+, which only the network-info table calls "3G" |
| Telephony.SimStateName | android/src/main/kotlin/me/bipul/phone_info/phone_info_plugin/PhoneInfoPlugin.kt:382-386 | READY is "Ready", ABSENT is "Absent", and every other state is "Unknown" |
| Telephony.SimReads | android/src/main/kotlin/me/bipul/phone_info/phone_info_plugin/PhoneInfoPlugin.kt:380-394 | the body of the `try`: it succeeds if and only if every read it makes succeeds (the device id only before Android Q), and then fills the state, network type and roaming fields |
| Telephony.NetworkOperator | android/src/main/kotlin/me/bipul/phone_info/phone_info_plugin/PhoneInfoPlugin.kt:157-164 | the operator name, or null on a SecurityException; it fails if and only if the read throws another exception |
| Telephony.SimInfo | android/src/main/kotlin/me/bipul/phone_info/phone_info_plugin/PhoneInfoPlugin.kt:377-404 | with every read succeeding, the full record (no IMEI from Android Q on); reading in map order, the first read that throws decides: a SecurityException gives the five-null record, any other exception propagates with its message; the SIM state is null only in the five-null record |
| Telephony.ImeiNeverReadFromQ | android/src/main/kotlin/me/bipul/phone_info/phone_info_plugin/PhoneInfoPlugin.kt:393 | from Android Q on, the SIM record does not depend on the device-id read |
| Telephony.DeviceIdDenialBlanksSim | android/src/main/kotlin/me/bipul/phone_info/phone_info_plugin/PhoneInfoPlugin.kt:377-404 | before Android Q, a SecurityException from the device-id read alone blanks the whole SIM record |
| Network.IsConnected | android/src/main/kotlin/me/bipul/phone_info/phone_info_plugin/PhoneInfoPlugin.kt:140-144 | connected if and only if there is an active network |
| Network.ConnectionTypeName | android/src/main/kotlin/me/bipul/phone_info/phone_info_plugin/PhoneInfoPlugin.kt:149-154 | "None" exactly when there is no connected network; otherwise "Wi-Fi", "Mobile Data" or "Unknown" by transport type |
| Network.ConnectionType | android/src/main/kotlin/me/bipul/phone_info/phone_info_plugin/PhoneInfoPlugin.kt:146-155 | the connection type of the active network info; a failing read propagates |
| Network.SignalStrength | android/src/main/kotlin/me/bipul/phone_info/phone_info_plugin/PhoneInfoPlugin.kt:166-177 | the RSSI if and only if Wi-Fi is enabled and the RSSI read succeeds; null when Wi-Fi is off or on a SecurityException; it fails exactly on other exceptions |
| Network.WifiRssi | android/src/main/kotlin/me/bipul/phone_info/phone_info_plugin/PhoneInfoPlugin.kt:167-173 | the body of the `try`: the RSSI exactly when Wi-Fi is enabled, null when it is disabled; a failing Wi-Fi-enabled read, or a failing RSSI read while enabled, propagates |
| Network.Flatten | android/src/main/kotlin/me/bipul/phone_info/phone_info_plugin/PhoneInfoPlugin.kt:255 | an address is in the flattened list if and only if some interface has it |
| Network.FirstIpv4Concat | android/src/main/kotlin/me/bipul/phone_info/phone_info_plugin/PhoneInfoPlugin.kt:255-256 | the first IPv4 address of two concatenated lists comes from the first list when it has one, else from the second |
| Network.FirstIpv4OfFlatten | android/src/main/kotlin/me/bipul/phone_info/phone_info_plugin/PhoneInfoPlugin.kt:255-256 | `flatMap` keeps interface order: the local IP is the first IPv4 address of the first interface that has one, and null exactly when no interface has one |
| Network.FirstIpv4 | android/src/main/kotlin/me/bipul/phone_info/phone_info_plugin/PhoneInfoPlugin.kt:255-256 | null if and only if there is no IPv4 address; otherwise the first IPv4 address in order |
| Network.NetworkInfo | android/src/main/kotlin/me/bipul/phone_info/phone_info_plugin/PhoneInfoPlugin.kt:251-283 | it fails if and only if the data-network-type read throws something other than a SecurityException; the network type is "Unknown" on a SecurityException; the local IP is the first IPv4 address, or null when the interfaces cannot be listed; the DNS is the DHCP text, and null exactly when the DHCP read throws |
| Network.DnsText | android/src/main/kotlin/me/bipul/phone_info/phone_info_plugin/PhoneInfoPlugin.kt:261 | `dhcpInfo?.dns1?.toString() ?: "Unknown"`: "Unknown" when `dhcpInfo` is null, otherwise the decimal text of `dns1` (which is "0" when no DNS server is known), text that parses back to `dns1` |
| System.Megabytes | android/src/main/kotlin/me/bipul/phone_info/phone_info_plugin/PhoneInfoPlugin.kt:193 | the number of whole megabytes in a byte count, rounded down |
| System.TotalMemory | android/src/main/kotlin/me/bipul/phone_info/phone_info_plugin/PhoneInfoPlugin.kt:192-194 | the runtime's total memory in whole megabytes |
| System.AvailableStorage | android/src/main/kotlin/me/bipul/phone_info/phone_info_plugin/PhoneInfoPlugin.kt:196-199 | the data partition's available bytes in whole megabytes; a failing stat propagates |
| System.StorageInfo | android/src/main/kotlin/me/bipul/phone_info/phone_info_plugin/PhoneInfoPlugin.kt:326-341 | external storage is reported available if and only if its figure is not -1, if and only if it is mounted; the figures are whole megabytes |
| System.TruncDiv | android/src/main/kotlin/me/bipul/phone_info/phone_info_plugin/PhoneInfoPlugin.kt:233 | Kotlin's `Long` division by a positive divisor, truncating toward zero for negative values too |
| System.CpuInfo | android/src/main/kotlin/me/bipul/phone_info/phone_info_plugin/PhoneInfoPlugin.kt:230-249 | the core count; the max frequency in MHz (kHz divided by 1000, truncated) or -1 when the file cannot be read or parsed; the load average or -1 |
| System.DeviceName | android/src/main/kotlin/me/bipul/phone_info/phone_info_plugin/PhoneInfoPlugin.kt:179-182 | the DEVICE_NAME setting, or Build.DEVICE when that setting is null |
| System.DeviceId | android/src/main/kotlin/me/bipul/phone_info/phone_info_plugin/PhoneInfoPlugin.kt:184-190 | ANDROID_ID, or null when reading it throws anything |
| System.SystemHealth | android/src/main/kotlin/me/bipul/phone_info/phone_info_plugin/PhoneInfoPlugin.kt:406-411 | a constant record with the two keys `cpuTemperature` (-1.0) and `status` |
| System.Seconds | android/src/main/kotlin/me/bipul/phone_info/phone_info_plugin/PhoneInfoPlugin.kt:451 | milliseconds to whole seconds, rounded down |
| System.AppUsageStats | android/src/main/kotlin/me/bipul/phone_info/phone_info_plugin/PhoneInfoPlugin.kt:443-454 | the daily query over the 24 hours before now, one record per entry in order with foreground time in whole seconds; empty when the query returns null |
| Hardware.ScreenInfo | android/src/main/kotlin/me/bipul/phone_info/phone_info_plugin/PhoneInfoPlugin.kt:285-310 | the resolution is "width" + "x" + "height"; the refresh rate is -1 below Android M; HDR only from Android O and the notch only from Android P; it fails exactly when the display read fails from Android M on |
| Hardware.SensorInfo | android/src/main/kotlin/me/bipul/phone_info/phone_info_plugin/PhoneInfoPlugin.kt:312-324 | one record per sensor, in order |
| Hardware.CameraRecordOf | android/src/main/kotlin/me/bipul/phone_info/phone_info_plugin/PhoneInfoPlugin.kt:347-358 | front-facing if and only if LENS_FACING is FRONT; megapixels are width times height over a million, null exactly when the size is unknown; flash false when unknown |
| Hardware.CameraRecords | android/src/main/kotlin/me/bipul/phone_info/phone_info_plugin/PhoneInfoPlugin.kt:345-360 | one record per camera id in order if and only if every camera's characteristics can be read; otherwise the first failing camera's exception |
| Hardware.CameraInfo | android/src/main/kotlin/me/bipul/phone_info/phone_info_plugin/PhoneInfoPlugin.kt:343-361 | the camera records of the listed ids; a failing id list propagates |
| Hardware.BiometricInfo | android/src/main/kotlin/me/bipul/phone_info/phone_info_plugin/PhoneInfoPlugin.kt:363-375 | fingerprint and face recognition are equal and true if and only if strong or weak biometrics can authenticate; iris is always false |
| Hardware.AccessibilityInfo | android/src/main/kotlin/me/bipul/phone_info/phone_info_plugin/PhoneInfoPlugin.kt:413-416 | the ids of the installed accessibility services, in order |
| Security.AnyExistsMeansSomePathExists | android/src/main/kotlin/me/bipul/phone_info/phone_info_plugin/PhoneInfoPlugin.kt:440 | `any` over the paths is true if and only if some path exists |
| Security.CheckRootIffSuperuserPath | android/src/main/kotlin/me/bipul/phone_info/phone_info_plugin/PhoneInfoPlugin.kt:433-441 | rooted if and only if one of the four superuser paths exists |
| Security.CheckRoot | android/src/main/kotlin/me/bipul/phone_info/phone_info_plugin/PhoneInfoPlugin.kt:433-441 | rooted if and only if a path at some position of the four superuser paths exists |
| Security.CheckRootIgnoresOtherFiles | android/src/main/kotlin/me/bipul/phone_info/phone_info_plugin/PhoneInfoPlugin.kt:433-441 | files other than the four superuser paths do not change the verdict |
| Security.SecurityInfo | android/src/main/kotlin/me/bipul/phone_info/phone_info_plugin/PhoneInfoPlugin.kt:418-431 | rooted is the root heuristic; encrypted if and only if the device policy service lookup returns a service |
| Values.NatToStringDigits | android/src/main/kotlin/me/bipul/phone_info/phone_info_plugin/PhoneInfoPlugin.kt:261 | a number's decimal text is non-empty, all digits, and parses back to the number |
| Values.IntToString | android/src/main/kotlin/me/bipul/phone_info/phone_info_plugin/PhoneInfoPlugin.kt:261 | `Int.toString()` is non-empty, starts with a minus sign exactly for negative numbers, and is all digits otherwise |
| Values.IntToStringRoundTrip | android/src/main/kotlin/me/bipul/phone_info/phone_info_plugin/PhoneInfoPlugin.kt:261 | an integer's `toString` parses back to the same integer |
| Values.ResolutionInjective | android/src/main/kotlin/me/bipul/phone_info/phone_info_plugin/PhoneInfoPlugin.kt:304 | the "WxH" resolution text determines width and height |
| Wrappers.CatchSecurity | android/src/main/kotlin/me/bipul/phone_info/phone_info_plugin/PhoneInfoPlugin.kt:159-163 | `try { ... } catch (e: SecurityException) { null }`: a security exception becomes null, anything else is unchanged (the contract is the definition, used by the probes' contracts) |
| Wrappers.CatchAll | android/src/main/kotlin/me/bipul/phone_info/phone_info_plugin/PhoneInfoPlugin.kt:185-189 | `try { ... } catch (e: Exception) { fallback }`: the value, or the fallback on any exception (the contract is the definition, used by the probes' contracts) |

## Left out

- Plugin wiring is left out: `onAttachedToEngine` and `onDetachedFromEngine` (lines 45-51 and 456-459), the channel names, and the Flutter codec's byte encoding. The model starts at a method name and a device snapshot.
- BatteryStream.BatteryEventSource.OnListen: a second `onListen` is assumed to leave the receiver registered once, so that one `onCancel` unregisters it. This is how Android is taken to track receivers; the plugin's code does not show it.
- Threads and timing are left out. Each call sees one immutable snapshot, so a device that changes during a call is not modelled.
- The code catches `Exception` only. A `Throwable` that is not an `Exception`, such as an `Error`, is not modelled.
- These reads are treated as infallible: `registerReceiver` in `onListen` (line 95; if it threw, the sink would already be set with no receiver registered), `Build` constants, `Runtime` memory and processor count, the `os.arch` property, the external storage state, display metrics, `File.exists`, and the sticky battery intent.
- The failure of `getSystemService` casts is not modelled.
- Battery.BatteryInfo: the percentage `level / scale.toFloat() * 100` then `toInt()` is a snapshot function `floatPercent(level, scale)`, because IEEE float rounding, division by a zero scale and saturation are not modelled. The contract states only where that function is used.
- Battery.BatteryInfo: the temperature, and the megapixels in Hardware.CameraRecordOf, are exact reals rather than IEEE doubles.
- Hardware.CameraRecordOf: the Kotlin `Int` product `width * height` can wrap around above 2^31 - 1. The model uses unbounded integers.
- Hardware.ScreenInfo: the three `defaultDisplay` reads are one read in the model. Which of them throws first is not distinguished.
- Float inputs are opaque reals: refresh rate, density, sensor range and resolution, and the load average. Parsing `/proc/loadavg` and `cpuinfo_max_freq` is reduced to "a value, or an exception".
- The `linux` and `windows` plugin sources and the build files are not part of this model.
