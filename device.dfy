/** What the plugin reads from Android, gathered into one immutable snapshot.
    Each read that can throw is an `Outcome`; the platform constants the plugin compares
    against are named here with their Android values. */
module Device {
  import opened Wrappers

  // android.os.Build.VERSION_CODES
  const VersionM := 23
  const VersionO := 26
  const VersionP := 28
  const VersionQ := 29

  // android.net.ConnectivityManager
  const TypeMobile := 0
  const TypeWifi := 1

  // android.telephony.TelephonyManager
  const NetworkTypeHspa := 10
  const NetworkTypeLte := 13
  const NetworkTypeHspap := 15
  const NetworkTypeNr := 20
  const SimStateAbsent := 1
  const SimStateReady := 5

  // android.os.BatteryManager: intent extra keys, status and health codes
  const ExtraLevel := "level"
  const ExtraScale := "scale"
  const ExtraStatus := "status"
  const ExtraHealth := "health"
  const ExtraTemperature := "temperature"
  const BatteryStatusCharging := 2
  const BatteryStatusFull := 5
  const BatteryHealthGood := 2
  const BatteryHealthOverheat := 3
  const BatteryHealthDead := 4
  const BatteryHealthOverVoltage := 5
  const BatteryHealthUnspecifiedFailure := 6

  // android.hardware.camera2.CameraCharacteristics.LENS_FACING_FRONT
  const LensFacingFront := 0

  // androidx.biometric.BiometricManager.BIOMETRIC_SUCCESS
  const BiometricSuccess := 0

  // android.os.Environment.MEDIA_MOUNTED
  const MediaMounted := "mounted"

  // android.app.usage.UsageStatsManager.INTERVAL_DAILY
  const IntervalDaily := 0

  /** The active network, as far as the plugin looks at it (ConnectivityManager.activeNetworkInfo). */
  datatype NetworkInfo = NetworkInfo(isConnected: bool, netType: int)

  /** A handle on ConnectivityManager.activeNetwork; only its presence is used. */
  datatype Network = Network(handle: nat)

  /** One StatFs over a mount point; byte counts are never negative. */
  datatype StatFs = StatFs(availableBytes: nat, totalBytes: nat)

  /** The sticky ACTION_BATTERY_CHANGED intent: its integer extras by key. */
  datatype BatteryIntent = BatteryIntent(extras: map<string, int>)

  /** The default display, read through WindowManager. */
  datatype Display = Display(refreshRate: real, isHdr: bool, hasCutout: bool)

  datatype DisplayMetrics = DisplayMetrics(widthPixels: int, heightPixels: int, density: real)

  datatype Sensor = Sensor(name: string, sensorType: int, vendor: string, maximumRange: real, resolution: real)

  datatype PixelArraySize = PixelArraySize(width: int, height: int)

  datatype CameraCharacteristics = CameraCharacteristics(
    lensFacing: Option<int>,
    pixelArraySize: Option<PixelArraySize>,
    flashAvailable: Option<bool>)

  /** One entry of CameraManager.cameraIdList, with what getCameraCharacteristics(id) gives. */
  datatype Camera = Camera(id: string, characteristics: Outcome<CameraCharacteristics>)

  datatype InetAddress = Inet4(hostAddress: string) | Inet6(hostAddress: string)

  /** One network interface and its addresses, in enumeration order. */
  datatype NetworkInterface = NetworkInterface(addresses: seq<InetAddress>)

  datatype AccessibilityService = AccessibilityService(id: string)

  /** One UsageStats entry; totalTimeInForeground is in milliseconds. */
  datatype UsageStat = UsageStat(packageName: string, totalTimeInForeground: nat)

  /** Everything the plugin can observe at one moment. */
  datatype Snapshot = Snapshot(
    // android.os.Build and system properties
    sdkInt: int,
    release: string,
    manufacturer: string,
    model: string,
    buildDevice: string,
    osArch: Option<string>,
    // connectivity
    activeNetwork: Outcome<Option<Network>>,
    activeNetworkInfo: Outcome<Option<NetworkInfo>>,
    networkInterfaces: Outcome<seq<NetworkInterface>>,
    // telephony
    networkOperatorName: Outcome<Option<string>>,
    simState: Outcome<int>,
    dataNetworkType: Outcome<int>,
    isNetworkRoaming: Outcome<bool>,
    telephonyDeviceId: Outcome<Option<string>>,
    // Wi-Fi
    wifiEnabled: Outcome<bool>,
    wifiRssi: Outcome<int>,
    // `dhcpInfo?.dns1`: None when `dhcpInfo` is null. `dns1` itself is a plain int, which is 0
    // when no DNS server is known.
    dhcpDns1: Outcome<Option<int>>,
    // Settings
    globalDeviceName: Outcome<Option<string>>,
    androidId: Outcome<Option<string>>,
    // runtime
    runtimeTotalMemory: nat,
    availableProcessors: int,
    // pseudo-files: cpuinfo_max_freq read and parsed as a long, first field of /proc/loadavg as a float
    cpuMaxFreq: Outcome<Option<int>>,
    loadAverage: Outcome<Option<real>>,
    existingFiles: set<string>,
    // storage
    dataStat: Outcome<StatFs>,
    externalStorageState: string,
    externalStat: Outcome<StatFs>,
    // battery: the sticky intent, and the platform's `(level / scale.toFloat() * 100).toInt()`
    stickyBattery: Option<BatteryIntent>,
    floatPercent: (int, int) -> int,
    // screen
    metrics: DisplayMetrics,
    display: Outcome<Display>,
    // sensors, cameras, biometrics, accessibility, device policy
    sensors: Outcome<seq<Sensor>>,
    cameras: Outcome<seq<Camera>>,
    canAuthenticate: Outcome<int>,
    accessibilityServices: Outcome<seq<AccessibilityService>>,
    devicePolicyService: Outcome<bool>,
    // usage statistics: the wall clock, and queryUsageStats(interval, begin, end), which may return null
    nowMillis: int,
    queryUsageStats: (int, int, int) -> Outcome<Option<seq<UsageStat>>>)
}
