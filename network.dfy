/** The connectivity probes: isConnected, getConnectionType, getSignalStrength and getNetworkInfo. */
module Network {
  import opened Wrappers
  import opened Device
  import opened Values
  import Telephony

  /** isConnected: there is an active network. A failing read propagates. */
  function IsConnected(d: Snapshot): (r: Outcome<bool>)
    ensures r.Ok? <==> d.activeNetwork.Ok?
    ensures r.Ok? ==> (r.value <==> d.activeNetwork.value.Some?)
    ensures !r.Ok? ==> SameFailure(r, d.activeNetwork)
  {
    var network :- d.activeNetwork;
    Ok(network.Some?)
  }

  /** The `when` of getConnectionType. "None" is decided before the transport type is looked at. */
  function ConnectionTypeName(info: Option<NetworkInfo>): (name: string)
    ensures name == "None" <==> info.None? || !info.value.isConnected
    ensures name == "Wi-Fi" <==> info.Some? && info.value.isConnected && info.value.netType == TypeWifi
    ensures name == "Mobile Data" <==> info.Some? && info.value.isConnected && info.value.netType == TypeMobile
    ensures name == "Unknown" <==> info.Some? && info.value.isConnected && info.value.netType !in {TypeWifi, TypeMobile}
  {
    if info.None? || !info.value.isConnected then "None"
    else if info.value.netType == TypeWifi then "Wi-Fi"
    else if info.value.netType == TypeMobile then "Mobile Data"
    else "Unknown"
  }

  function ConnectionType(d: Snapshot): (r: Outcome<string>)
    ensures r.Ok? <==> d.activeNetworkInfo.Ok?
    ensures r.Ok? ==> r.value == ConnectionTypeName(d.activeNetworkInfo.value)
    ensures !r.Ok? ==> SameFailure(r, d.activeNetworkInfo)
  {
    var info :- d.activeNetworkInfo;
    Ok(ConnectionTypeName(info))
  }

  /** The body of getSignalStrength's try block: the RSSI only while Wi-Fi is enabled. */
  function WifiRssi(d: Snapshot): (r: Outcome<Option<int>>)
    ensures r.Ok? <==> d.wifiEnabled.Ok? && (d.wifiEnabled.value ==> d.wifiRssi.Ok?)
    ensures r.Ok? ==> (r.value.Some? <==> d.wifiEnabled.value)
    ensures r.Ok? && r.value.Some? ==> r.value.value == d.wifiRssi.value
    ensures !d.wifiEnabled.Ok? ==> SameFailure(r, d.wifiEnabled)
    ensures d.wifiEnabled == Ok(true) && !d.wifiRssi.Ok? ==> SameFailure(r, d.wifiRssi)
  {
    var enabled :- d.wifiEnabled;
    if enabled then
      var rssi :- d.wifiRssi;
      Ok(Some(rssi))
    else
      Ok(None)
  }

  /** getSignalStrength: null while Wi-Fi is disabled and on a security exception. */
  function SignalStrength(d: Snapshot): (r: Outcome<Option<int>>)
    ensures (r.Ok? && r.value.Some?) <==> (d.wifiEnabled == Ok(true) && d.wifiRssi.Ok?)
    ensures r.Ok? && r.value.Some? ==> r.value.value == d.wifiRssi.value
    ensures d.wifiEnabled == Ok(false) ==> r == Ok(None)
    ensures d.wifiEnabled.SecEx? ==> r == Ok(None)
    ensures d.wifiEnabled == Ok(true) && d.wifiRssi.SecEx? ==> r == Ok(None)
    ensures !r.Ok? <==> d.wifiEnabled.OtherEx? || (d.wifiEnabled == Ok(true) && d.wifiRssi.OtherEx?)
    ensures d.wifiEnabled.OtherEx? ==> SameFailure(r, d.wifiEnabled)
    ensures d.wifiEnabled == Ok(true) && d.wifiRssi.OtherEx? ==> SameFailure(r, d.wifiRssi)
  {
    CatchSecurity(WifiRssi(d))
  }

  /** The addresses of all interfaces, interface by interface (Kotlin's `flatMap`). */
  function Flatten(ifaces: seq<NetworkInterface>): (addrs: seq<InetAddress>)
    ensures forall a :: a in addrs <==> exists i :: 0 <= i < |ifaces| && a in ifaces[i].addresses
  {
    if ifaces == [] then [] else ifaces[0].addresses + Flatten(ifaces[1..])
  }

  /** `filterIsInstance<Inet4Address>().firstOrNull()?.hostAddress`. */
  function FirstIpv4(addrs: seq<InetAddress>): (r: Option<string>)
    ensures r.None? <==> forall i :: 0 <= i < |addrs| ==> !addrs[i].Inet4?
    ensures r.Some? ==> exists i :: 0 <= i < |addrs| && addrs[i] == Inet4(r.value)
                                 && forall j :: 0 <= j < i ==> !addrs[j].Inet4?
  {
    if addrs == [] then None
    else if addrs[0].Inet4? then Some(addrs[0].hostAddress)
    else
      var rest := FirstIpv4(addrs[1..]);
      assert forall i :: 1 <= i < |addrs| ==> addrs[i] == addrs[1..][i - 1];
      rest
  }

  /** The first IPv4 address of a concatenation comes from the first part when it has one. */
  lemma {:induction false} FirstIpv4Concat(a: seq<InetAddress>, b: seq<InetAddress>)
    ensures FirstIpv4(a + b) == if FirstIpv4(a).Some? then FirstIpv4(a) else FirstIpv4(b)
  {
    if a == [] {
      assert a + b == b;
    } else {
      assert (a + b)[1..] == a[1..] + b;
      FirstIpv4Concat(a[1..], b);
    }
  }

  /** `flatMap` keeps interface order: the local IP is the first IPv4 address of the first
      interface that has one, and null when no interface has one. */
  lemma {:induction false} FirstIpv4OfFlatten(ifaces: seq<NetworkInterface>)
    ensures FirstIpv4(Flatten(ifaces)).None? <==>
              forall k :: 0 <= k < |ifaces| ==> FirstIpv4(ifaces[k].addresses).None?
    ensures forall k :: 0 <= k < |ifaces| && FirstIpv4(ifaces[k].addresses).Some?
                        && (forall j :: 0 <= j < k ==> FirstIpv4(ifaces[j].addresses).None?) ==>
              FirstIpv4(Flatten(ifaces)) == FirstIpv4(ifaces[k].addresses)
  {
    if ifaces != [] {
      var tail := ifaces[1..];
      FirstIpv4OfFlatten(tail);
      FirstIpv4Concat(ifaces[0].addresses, Flatten(tail));
      assert forall k :: 1 <= k < |ifaces| ==> ifaces[k] == tail[k - 1];
    }
  }

  datatype NetworkRecord = NetworkRecord(localIp: Option<string>, dns: Option<string>, networkType: string)
  {
    function ToValue(): Value {
      Record(map[
        "localIp" := OptStr(localIp),
        "dns" := OptStr(dns),
        "networkType" := Str(networkType)])
    }
  }

  /** `wifiManager.dhcpInfo?.dns1?.toString() ?: "Unknown"`. */
  function DnsText(dhcpDns1: Option<int>): (s: string)
    ensures dhcpDns1.None? ==> s == "Unknown"
    ensures dhcpDns1.Some? ==> ParseInt(s) == Some(dhcpDns1.value)
  {
    if dhcpDns1.Some? then
      IntToStringRoundTrip(dhcpDns1.value);
      IntToString(dhcpDns1.value)
    else "Unknown"
  }

  /** getNetworkInfo. The address and DNS reads catch every exception; the network type read
      catches only a security exception (giving "Unknown"), so any other exception there
      is the only way this probe fails. */
  function NetworkInfo(d: Snapshot): (r: Outcome<NetworkRecord>)
    ensures r.Ok? <==> !d.dataNetworkType.OtherEx?
    ensures !r.Ok? ==> SameFailure(r, d.dataNetworkType)
    ensures r.Ok? && d.dataNetworkType.Ok? ==> r.value.networkType == Telephony.NetworkTypeName(d.dataNetworkType.value)
    ensures d.dataNetworkType.SecEx? ==> r.Ok? && r.value.networkType == "Unknown"
    ensures r.Ok? && !d.networkInterfaces.Ok? ==> r.value.localIp.None?
    ensures r.Ok? && d.networkInterfaces.Ok? ==> r.value.localIp == FirstIpv4(Flatten(d.networkInterfaces.value))
    ensures r.Ok? ==> (r.value.dns.None? <==> !d.dhcpDns1.Ok?)
    ensures r.Ok? && d.dhcpDns1.Ok? ==> r.value.dns == Some(DnsText(d.dhcpDns1.value))
  {
    var ip := if d.networkInterfaces.Ok? then FirstIpv4(Flatten(d.networkInterfaces.value)) else None;
    var dns := if d.dhcpDns1.Ok? then Some(DnsText(d.dhcpDns1.value)) else None;
    var networkType :- if d.dataNetworkType.SecEx? then Ok("Unknown")
                       else var t :- d.dataNetworkType; Ok(Telephony.NetworkTypeName(t));
    Ok(NetworkRecord(ip, dns, networkType))
  }
}
