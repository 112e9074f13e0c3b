/** The hardware probes: getScreenInfo, getSensorInfo, getCameraInfo, getBiometricInfo and
    getAccessibilityInfo. None of them catches anything: a failing read aborts the probe. */
module Hardware {
  import opened Wrappers
  import opened Device
  import opened Values

  datatype ScreenRecord = ScreenRecord(
    resolution: string,
    density: real,
    refreshRate: real,
    hdrSupport: bool,
    notchPresent: bool)
  {
    function ToValue(): Value {
      Record(map[
        "resolution" := Str(resolution),
        "density" := Real(density),
        "refreshRate" := Real(refreshRate),
        "hdrSupport" := Bool(hdrSupport),
        "notchPresent" := Bool(notchPresent)])
    }
  }

  /** getScreenInfo. The default display is consulted only from Android M on, for the refresh
      rate; HDR from Android O on and the cutout from Android P on; below those versions the
      fields keep their fallbacks (-1, false, false). */
  function ScreenInfo(d: Snapshot): (r: Outcome<ScreenRecord>)
    ensures d.sdkInt < VersionM ==> r.Ok? && r.value.refreshRate == -1.0
    ensures r.Ok? <==> d.sdkInt < VersionM || d.display.Ok?
    ensures !r.Ok? ==> SameFailure(r, d.display)
    ensures r.Ok? ==> r.value.resolution == Resolution(d.metrics.widthPixels, d.metrics.heightPixels)
    ensures r.Ok? ==> r.value.density == d.metrics.density
    ensures r.Ok? && d.sdkInt >= VersionM ==> r.value.refreshRate == d.display.value.refreshRate
    ensures r.Ok? ==> (r.value.hdrSupport <==> d.sdkInt >= VersionO && d.display.value.isHdr)
    ensures r.Ok? ==> (r.value.notchPresent <==> d.sdkInt >= VersionP && d.display.value.hasCutout)
  {
    var resolution := Resolution(d.metrics.widthPixels, d.metrics.heightPixels);
    if d.sdkInt < VersionM then
      Ok(ScreenRecord(resolution, d.metrics.density, -1.0, false, false))
    else
      var display :- d.display;
      Ok(ScreenRecord(
        resolution,
        d.metrics.density,
        display.refreshRate,
        d.sdkInt >= VersionO && display.isHdr,
        d.sdkInt >= VersionP && display.hasCutout))
  }

  function SensorValue(s: Sensor): Value {
    Record(map[
      "name" := Str(s.name),
      "type" := Int(s.sensorType),
      "vendor" := Str(s.vendor),
      "maxRange" := Real(s.maximumRange),
      "resolution" := Real(s.resolution)])
  }

  /** getSensorInfo: one record per sensor, in the sensor manager's order. */
  function SensorInfo(d: Snapshot): (r: Outcome<seq<Value>>)
    ensures r.Ok? <==> d.sensors.Ok?
    ensures !r.Ok? ==> SameFailure(r, d.sensors)
    ensures r.Ok? ==> |r.value| == |d.sensors.value|
                      && forall i :: 0 <= i < |r.value| ==> r.value[i] == SensorValue(d.sensors.value[i])
  {
    var sensors :- d.sensors;
    Ok(seq(|sensors|, i requires 0 <= i < |sensors| => SensorValue(sensors[i])))
  }

  datatype CameraRecord = CameraRecord(id: string, isFront: bool, megapixels: Option<real>, hasFlash: bool)
  {
    function ToValue(): Value {
      Record(map[
        "id" := Str(id),
        "isFront" := Bool(isFront),
        "megapixels" := OptReal(megapixels),
        "hasFlash" := Bool(hasFlash)])
    }
  }

  /** The record of one camera: front-facing when LENS_FACING is FRONT, megapixels from the
      pixel array size when it is known, flash false when unknown. */
  function CameraRecordOf(id: string, c: CameraCharacteristics): (r: CameraRecord)
    ensures r.id == id
    ensures r.isFront <==> c.lensFacing == Some(LensFacingFront)
    ensures r.megapixels.Some? <==> c.pixelArraySize.Some?
    ensures r.megapixels.Some? ==>
              r.megapixels.value * 1000000.0 == (c.pixelArraySize.value.width * c.pixelArraySize.value.height) as real
    ensures r.hasFlash <==> c.flashAvailable == Some(true)
  {
    var megapixels := if c.pixelArraySize.Some?
                      then Some((c.pixelArraySize.value.width * c.pixelArraySize.value.height) as real / 1000000.0)
                      else None;
    CameraRecord(id, c.lensFacing == Some(LensFacingFront), megapixels, if c.flashAvailable.Some? then c.flashAvailable.value else false)
  }

  /** `cameraIds.map { ... getCameraCharacteristics(id) ... }`: the first camera whose
      characteristics cannot be read aborts the whole list with that exception. */
  function CameraRecords(cams: seq<Camera>): (r: Outcome<seq<CameraRecord>>)
    ensures r.Ok? <==> forall i :: 0 <= i < |cams| ==> cams[i].characteristics.Ok?
    ensures r.Ok? ==> |r.value| == |cams|
                      && forall i :: 0 <= i < |cams| ==>
                           r.value[i] == CameraRecordOf(cams[i].id, cams[i].characteristics.value)
    ensures !r.Ok? ==> exists i :: 0 <= i < |cams| && SameFailure(r, cams[i].characteristics)
                                 && forall j :: 0 <= j < i ==> cams[j].characteristics.Ok?
  {
    if cams == [] then Ok([])
    else
      var c :- cams[0].characteristics;
      var rest :- CameraRecords(cams[1..]);
      assert forall i :: 1 <= i < |cams| ==> cams[i] == cams[1..][i - 1];
      Ok([CameraRecordOf(cams[0].id, c)] + rest)
  }

  /** getCameraInfo. */
  function CameraInfo(d: Snapshot): (r: Outcome<seq<CameraRecord>>)
    ensures d.cameras.Ok? ==> r == CameraRecords(d.cameras.value)
    ensures !d.cameras.Ok? ==> SameFailure(r, d.cameras)
  {
    var cams :- d.cameras;
    CameraRecords(cams)
  }

  datatype BiometricRecord = BiometricRecord(fingerprint: bool, faceRecognition: bool, irisScanner: bool)
  {
    function ToValue(): Value {
      Record(map[
        "fingerprint" := Bool(fingerprint),
        "faceRecognition" := Bool(faceRecognition),
        "irisScanner" := Bool(irisScanner)])
    }
  }

  /** getBiometricInfo: fingerprint and face recognition both report whether strong or weak
      biometrics can authenticate; the iris scanner is always reported absent. */
  function BiometricInfo(d: Snapshot): (r: Outcome<BiometricRecord>)
    ensures r.Ok? <==> d.canAuthenticate.Ok?
    ensures !r.Ok? ==> SameFailure(r, d.canAuthenticate)
    ensures r.Ok? ==> r.value.fingerprint == r.value.faceRecognition
    ensures r.Ok? ==> (r.value.fingerprint <==> d.canAuthenticate.value == BiometricSuccess)
    ensures r.Ok? ==> !r.value.irisScanner
  {
    var canAuthenticate :- d.canAuthenticate;
    Ok(BiometricRecord(canAuthenticate == BiometricSuccess, canAuthenticate == BiometricSuccess, false))
  }

  /** getAccessibilityInfo: the ids of the installed accessibility services, in order. */
  function AccessibilityInfo(d: Snapshot): (r: Outcome<seq<string>>)
    ensures r.Ok? <==> d.accessibilityServices.Ok?
    ensures !r.Ok? ==> SameFailure(r, d.accessibilityServices)
    ensures r.Ok? ==> |r.value| == |d.accessibilityServices.value|
                      && forall i :: 0 <= i < |r.value| ==> r.value[i] == d.accessibilityServices.value[i].id
  {
    var services :- d.accessibilityServices;
    Ok(seq(|services|, i requires 0 <= i < |services| => services[i].id))
  }
}
