/**
 The configuration parser: schema versions 2 to 7 are migrated while they are read, version 8 is
 read as it is. Each section parser answers `None` for SYS_CONFIG_INVALID and otherwise states that
 its result lies in the section's domain.
 */
module ConfigParser {
  import opened Wrappers
  import opened JsonTree
  import opened ConfigModel

  datatype ConfigError = Invalid | SchemaUnsupported

  /** The contents of a file: not a JSON text at all, or the tree it denotes. */
  datatype Document = Malformed | Tree(root: Json)

  const MAX_UINT32: nat := 0xFFFF_FFFF

  function EnumValue<E>(text: string, choices: seq<(string, E)>): Option<E> {
    if choices == [] then None
    else if text == choices[0].0 then Some(choices[0].1)
    else EnumValue(text, choices[1..])
  }

  function ParseRoi(j: Json): (r: Option<RoiConfig>)
    ensures r.Some? ==> ValidCameraRoi(r.value)
  {
    var o :- ExactFields(j, {Key.Width, Key.Height, Key.OffsetX, Key.OffsetY});
    var width :- UnsignedField(o, Key.Width, 1, 16384);
    var height :- UnsignedField(o, Key.Height, 1, 16384);
    var x :- UnsignedField(o, Key.OffsetX, 0, 16383);
    var y :- UnsignedField(o, Key.OffsetY, 0, 16383);
    if x + width > 16384 || y + height > 16384 then None
    else Some(RoiConfig(width, height, x, y))
  }

  function ParseAlgorithmRoi(j: Json): (r: Option<RoiConfig>)
    ensures r.Some? ==> ValidAlgorithmRoi(r.value)
  {
    var o :- ExactFields(j, {Key.Width, Key.Height, Key.OffsetX, Key.OffsetY});
    var width :- UnsignedField(o, Key.Width, 0, 16384);
    var height :- UnsignedField(o, Key.Height, 0, 16384);
    var x :- UnsignedField(o, Key.OffsetX, 0, 16383);
    var y :- UnsignedField(o, Key.OffsetY, 0, 16383);
    var fullFrame := width == 0 && height == 0;
    if (width == 0) != (height == 0) || (fullFrame && (x != 0 || y != 0)) then None
    else if !fullFrame && (x + width > 16384 || y + height > 16384) then None
    else Some(RoiConfig(width, height, x, y))
  }

  function PathField(o: Fields, name: Key, normalize: Normalizer): (r: Option<string>)
    ensures r.Some? ==> ValidPath(r.value, normalize)
  {
    var text :- StringField(o, name, 1024);
    if '\0' in text || StartsWith(text, "\\\\.\\") || StartsWith(text, "\\\\?\\") then None
    else
      var path := normalize(text);
      if path.parts == [] then None
      else if path.relative && path.parts[0] == ".." then None
      else Some(text)
  }

  function ParseSystem(j: Json): (r: Option<SystemConfig>)
    ensures r.Some? ==> ValidSystem(r.value)
  {
    var o :- ExactFields(j, {Key.MachineId, Key.ProductionLineId, Key.ShutdownTimeoutMs});
    var machine :- StringField(o, Key.MachineId, 64);
    var line :- StringField(o, Key.ProductionLineId, 64);
    var shutdown :- UnsignedField(o, Key.ShutdownTimeoutMs, 1000, 300000);
    if !ValidIdentifier(machine) || !ValidIdentifier(line) then None
    else Some(SystemConfig(machine, line, shutdown))
  }

  // ---------------------------------------------------------------- cameras

  const PIXEL_FORMATS: seq<(string, PixelFormat)> :=
    [("Mono8", Mono8), ("Mono10", Mono10), ("Mono12", Mono12), ("BayerRG8", BayerRg8)]
  const EXPOSURE_MODES: seq<(string, ExposureAutoMode)> :=
    [("Off", Off), ("Once", Once), ("Continuous", AlwaysOn)]
  const TRIGGER_MODES: seq<(string, TriggerMode)> :=
    [("Continuous", Continuous), ("Hardware", Hardware), ("Software", Software)]
  const ACTIVE_LEVELS: seq<(string, ActiveLevel)> := [("High", High), ("Low", Low)]

  function ParseLineIo(j: Json): (r: Option<LineIoConfig>)
    ensures r.Some? ==> ValidLineIo(r.value)
  {
    var o :- ExactFields(j, {Key.AlarmInputEnabled, Key.AlarmActiveLevel, Key.StrobeOutputEnabled,
                             Key.StrobeDurationUs, Key.StrobePreDelayUs, Key.StrobePostDelayUs});
    var alarmInput :- BoolField(o, Key.AlarmInputEnabled);
    var levelText :- StringField(o, Key.AlarmActiveLevel, 8);
    var strobe :- BoolField(o, Key.StrobeOutputEnabled);
    var duration :- UnsignedField(o, Key.StrobeDurationUs, 0, 60000000);
    var preDelay :- UnsignedField(o, Key.StrobePreDelayUs, 0, 60000000);
    var postDelay :- UnsignedField(o, Key.StrobePostDelayUs, 0, 60000000);
    var level :- EnumValue(levelText, ACTIVE_LEVELS);
    if strobe && duration == 0 then None
    else Some(LineIoConfig(alarmInput, level, strobe, duration, preDelay, postDelay))
  }

  const LINE_IO_DEFAULT := Object(map[
    Key.AlarmInputEnabled := Bool(false), Key.AlarmActiveLevel := Text("High"),
    Key.StrobeOutputEnabled := Bool(false), Key.StrobeDurationUs := Unsigned(0),
    Key.StrobePreDelayUs := Unsigned(0), Key.StrobePostDelayUs := Unsigned(0)])

  /** The fields older schema versions leave out; the mirror flags may be missing in every version. */
  function MigrateCamera(j: Json, schema: nat): Json {
    if !j.Object? then j
    else
      var o1 := WithDefault(WithDefault(j.fields, Key.ReverseX, Bool(false)), Key.ReverseY, Bool(false));
      var o2 := if schema < 4 then WithDefault(o1, Key.AutoExposure, Text("Off")) else o1;
      Object(if schema == 2 then WithDefault(o2, Key.LineIo, LINE_IO_DEFAULT) else o2)
  }

  const CAMERA_FIELDS: set<Key> :=
    {Key.Id, Key.Enabled, Key.SerialNumber, Key.Location, Key.ExposureUs, Key.AutoExposure, Key.GainDb,
     Key.FrameRate, Key.Roi, Key.PixelFormat, Key.TriggerMode, Key.TriggerSource, Key.TriggerDelayUs,
     Key.PacketSizeBytes, Key.InterPacketDelayNs, Key.ReverseX, Key.ReverseY, Key.LineIo}

  datatype CameraIdentity = CameraIdentity(id: string, enabled: bool, serial: string, location: string)

  datatype CameraImaging = CameraImaging(
    exposureUs: real, exposureMode: ExposureAutoMode, gainDb: real, frameRate: real, roi: RoiConfig, reverseX: bool,
    reverseY: bool, pixel: PixelFormat)

  datatype CameraTrigger = CameraTrigger(
    mode: TriggerMode, source: string, delayUs: nat, packetBytes: nat, interPacketNs: nat)

  function ReadIdentity(o: Fields): (r: Option<CameraIdentity>)
    ensures r.Some? ==> CanonicalCameraId(r.value.id) && |r.value.serial| <= 128 && 1 <= |r.value.location| <= 128
                        && (r.value.enabled ==> r.value.serial != "")
  {
    var id :- StringField(o, Key.Id, 5);
    var enabled :- BoolField(o, Key.Enabled);
    var serial :- StringField(o, Key.SerialNumber, 128, true);
    var location :- StringField(o, Key.Location, 128);
    if !CanonicalCameraId(id) then None
    else if enabled && serial == "" then None
    else Some(CameraIdentity(id, enabled, serial, location))
  }

  function ReadImaging(o: Fields): (r: Option<CameraImaging>)
    ensures r.Some? ==> 1.0 <= r.value.exposureUs <= 10000000.0 && -24.0 <= r.value.gainDb <= 48.0
                        && 0.1 <= r.value.frameRate <= 1000.0 && ValidCameraRoi(r.value.roi)
  {
    var exposure :- NumberField(o, Key.ExposureUs, 1.0, 10000000.0);
    var modeText :- StringField(o, Key.AutoExposure, 16);
    var gain :- NumberField(o, Key.GainDb, -24.0, 48.0);
    var rate :- NumberField(o, Key.FrameRate, 0.1, 1000.0);
    var roiJson :- if Key.Roi in o then Some(o[Key.Roi]) else None;
    var roi :- ParseRoi(roiJson);
    var reverseX :- BoolField(o, Key.ReverseX);
    var reverseY :- BoolField(o, Key.ReverseY);
    var pixelText :- StringField(o, Key.PixelFormat, 32);
    var pixel :- EnumValue(pixelText, PIXEL_FORMATS);
    var mode :- EnumValue(modeText, EXPOSURE_MODES);
    Some(CameraImaging(exposure, mode, gain, rate, roi, reverseX, reverseY, pixel))
  }

  function ReadTrigger(o: Fields): (r: Option<CameraTrigger>)
    ensures r.Some? ==> |r.value.source| <= 64 && r.value.delayUs <= 60000000 && 576 <= r.value.packetBytes <= 9000
                        && r.value.interPacketNs <= 1000000000 && (r.value.mode == Hardware ==> r.value.source != "")
  {
    var modeText :- StringField(o, Key.TriggerMode, 32);
    var source :- StringField(o, Key.TriggerSource, 64, true);
    var delay :- UnsignedField(o, Key.TriggerDelayUs, 0, 60000000);
    var packet :- UnsignedField(o, Key.PacketSizeBytes, 576, 9000);
    var interPacket :- UnsignedField(o, Key.InterPacketDelayNs, 0, 1000000000);
    var mode :- EnumValue(modeText, TRIGGER_MODES);
    if mode == Hardware && source == "" then None
    else Some(CameraTrigger(mode, source, delay, packet, interPacket))
  }

  function MakeCamera(i: CameraIdentity, m: CameraImaging, t: CameraTrigger, l: LineIoConfig): CameraConfig {
    CameraConfig(i.id, i.enabled, i.serial, i.location, m.exposureUs, m.exposureMode, m.gainDb, m.frameRate, m.roi,
                 m.reverseX, m.reverseY, m.pixel, t.mode, t.source, t.delayUs, t.packetBytes, t.interPacketNs, l)
  }

  /** One camera on its own; uniqueness among the cameras is checked by the caller. */
  function ParseCamera(j: Json): (r: Option<CameraConfig>)
    ensures r.Some? ==> ValidCamera(r.value)
  {
    var o :- ExactFields(j, CAMERA_FIELDS);
    var identity :- ReadIdentity(o);
    var imaging :- ReadImaging(o);
    var trigger :- ReadTrigger(o);
    var lineIo :- ParseLineIo(o[Key.LineIo]);
    if !identity.enabled && (lineIo.alarmInputEnabled || lineIo.strobeOutputEnabled) then None
    else Some(MakeCamera(identity, imaging, trigger, lineIo))
  }

  /** One camera among others whose ids and enabled serial numbers are taken. */
  function ParseNextCamera(item: Json, schema: nat, ids: set<string>, serials: set<string>): (r: Option<CameraConfig>)
    ensures r.Some? ==> ValidCamera(r.value) && AvoidTaken([r.value], ids, serials)
  {
    var camera :- ParseCamera(MigrateCamera(item, schema));
    if camera.id in ids then None
    else if camera.enabled && camera.serialNumber in serials then None
    else Some(camera)
  }

  function AddSerial(serials: set<string>, camera: CameraConfig): set<string> {
    if camera.enabled then serials + {camera.serialNumber} else serials
  }

  function ParseCamerasFrom(items: seq<Json>, schema: nat, ids: set<string>, serials: set<string>)
    : Option<seq<CameraConfig>>
  {
    if items == [] then Some([])
    else
      var camera :- ParseNextCamera(items[0], schema, ids, serials);
      var rest :- ParseCamerasFrom(items[1..], schema, ids + {camera.id}, AddSerial(serials, camera));
      Some([camera] + rest)
  }

  /** None of the cameras takes an id or, when enabled, a serial number of the two sets. */
  predicate AvoidTaken(cs: seq<CameraConfig>, ids: set<string>, serials: set<string>) {
    forall i | 0 <= i < |cs| :: cs[i].id !in ids && (cs[i].enabled ==> cs[i].serialNumber !in serials)
  }

  lemma ConsKeepsDistinct(camera: CameraConfig, rest: seq<CameraConfig>, ids: set<string>, serials: set<string>)
    requires ValidCamera(camera) && ValidCameras(rest) && |rest| < MAXIMUM_CAMERA_COUNT
    requires AvoidTaken([camera], ids, serials)
    requires AvoidTaken(rest, ids + {camera.id}, AddSerial(serials, camera))
    ensures ValidCameras([camera] + rest) && AvoidTaken([camera] + rest, ids, serials)
  {
    var cs := [camera] + rest;
    assert [camera][0] == camera;
    assert cs[1..] == rest;
    assert forall i | 1 <= i < |cs| :: cs[i] == rest[i - 1];
  }

  lemma {:induction false} ParsedCamerasAreDistinct(items: seq<Json>, schema: nat, ids: set<string>,
      serials: set<string>)
    requires |items| <= MAXIMUM_CAMERA_COUNT
    requires ParseCamerasFrom(items, schema, ids, serials).Some?
    ensures var cs := ParseCamerasFrom(items, schema, ids, serials).value;
            |cs| == |items| && ValidCameras(cs) && AvoidTaken(cs, ids, serials)
  {
    if items != [] {
      var camera := ParseNextCamera(items[0], schema, ids, serials).value;
      var rest := ParseCamerasFrom(items[1..], schema, ids + {camera.id}, AddSerial(serials, camera)).value;
      ParsedCamerasAreDistinct(items[1..], schema, ids + {camera.id}, AddSerial(serials, camera));
      ConsKeepsDistinct(camera, rest, ids, serials);
    }
  }

  function ParseCameras(j: Json, schema: nat): (r: Option<seq<CameraConfig>>)
    ensures r.Some? ==> ValidCameras(r.value)
  {
    if !j.Array? || |j.items| > MAXIMUM_CAMERA_COUNT then None
    else
      var r := ParseCamerasFrom(j.items, schema, {}, {});
      if r.None? then None
      else
        ParsedCamerasAreDistinct(j.items, schema, {}, {});
        r
  }

  function Prepend(done: seq<CameraConfig>, rest: Option<seq<CameraConfig>>): Option<seq<CameraConfig>> {
    if rest.None? then None else Some(done + rest.value)
  }

  lemma PrependNothing(done: seq<CameraConfig>, rest: Option<seq<CameraConfig>>)
    ensures Prepend([], rest) == rest
    ensures Prepend(done, Some([])) == Some(done)
  {
    if rest.Some? {
      assert [] + rest.value == rest.value;
    }
    assert done + [] == done;
  }

  lemma ParseCamerasStep(items: seq<Json>, index: nat, schema: nat, ids: set<string>, serials: set<string>,
                         done: seq<CameraConfig>)
    requires index < |items|
    ensures Prepend(done, ParseCamerasFrom(items[index..], schema, ids, serials))
         == match ParseNextCamera(items[index], schema, ids, serials)
            case None => None
            case Some(camera) =>
              Prepend(done + [camera],
                      ParseCamerasFrom(items[index + 1..], schema, ids + {camera.id}, AddSerial(serials, camera)))
  {
    assert items[index..][1..] == items[index + 1..];
    var camera := ParseNextCamera(items[index], schema, ids, serials);
    if camera.Some? {
      var rest := ParseCamerasFrom(items[index + 1..], schema, ids
          + {camera.value.id}, AddSerial(serials, camera.value));
      if rest.Some? {
        assert done + ([camera.value] + rest.value) == done + [camera.value] + rest.value;
      }
    }
  }

  /** The loop that fills the two sets and the result list computes `ParseCamerasFrom`. */
  method ReadCameras(items: seq<Json>, schema: nat) returns (r: Option<seq<CameraConfig>>)
    ensures r == ParseCamerasFrom(items, schema, {}, {})
  {
    var ids: set<string> := {};
    var serials: set<string> := {};
    var cameras: seq<CameraConfig> := [];
    var index := 0;
    assert items[0..] == items;
    PrependNothing([], ParseCamerasFrom(items, schema, {}, {}));
    while index < |items|
      invariant 0 <= index <= |items|
      invariant ParseCamerasFrom(items, schema, {}, {})
             == Prepend(cameras, ParseCamerasFrom(items[index..], schema, ids, serials))
    {
      ParseCamerasStep(items, index, schema, ids, serials, cameras);
      var camera := ParseNextCamera(items[index], schema, ids, serials);
      if camera.None? {
        return None;
      }
      ids := ids + {camera.value.id};
      serials := AddSerial(serials, camera.value);
      cameras := cameras + [camera.value];
      index := index + 1;
    }
    PrependNothing(cameras, Some([]));
    r := Some(cameras);
  }

  // ---------------------------------------------------------------- the other sections

  function MigrateAcquisition(j: Json): Json {
    if !j.Object? then j
    else Object(WithDefault(WithDefault(WithDefault(j.fields,
                Key.AutoStart, Bool(false)),
                Key.StartupRetryIntervalMs, Unsigned(1000)),
                Key.StartupRetryCount, Unsigned(3)))
  }

  function ParseAcquisition(j: Json): (r: Option<AcquisitionConfig>)
    ensures r.Some? ==> ValidAcquisition(r.value)
  {
    var o :- ExactFields(MigrateAcquisition(j),
                         {Key.AutoStart, Key.StartupRetryIntervalMs, Key.StartupRetryCount, Key.FramePoolCapacity,
                          Key.QueueCapacity, Key.ReceiveTimeoutMs, Key.ThreadPriority});
    var autoStart :- BoolField(o, Key.AutoStart);
    var retryInterval :- UnsignedField(o, Key.StartupRetryIntervalMs, 1, 60000);
    var retryCount :- UnsignedField(o, Key.StartupRetryCount, 0, 10);
    var pool :- UnsignedField(o, Key.FramePoolCapacity, 1, 4096);
    var queue :- UnsignedField(o, Key.QueueCapacity, 1, 4096);
    var timeout :- UnsignedField(o, Key.ReceiveTimeoutMs, 1, 60000);
    var priority :- StringField(o, Key.ThreadPriority, 16);
    if priority != "low" && priority != "normal" && priority != "high" then None
    else if pool < queue then None
    else Some(AcquisitionConfig(autoStart, retryInterval, retryCount, pool, queue, timeout, priority))
  }

  function ParsePreview(j: Json): (r: Option<PreviewConfig>)
    ensures r.Some? ==> ValidPreview(r.value)
  {
    var o :- ExactFields(j, {Key.Enabled, Key.Fps, Key.MaxWidth, Key.MaxHeight, Key.JpegQuality});
    var enabled :- BoolField(o, Key.Enabled);
    var fps :- NumberField(o, Key.Fps, 0.1, 30.0);
    var width :- UnsignedField(o, Key.MaxWidth, 64, 8192);
    var height :- UnsignedField(o, Key.MaxHeight, 64, 8192);
    var jpeg :- UnsignedField(o, Key.JpegQuality, 1, 100);
    Some(PreviewConfig(enabled, fps, width, height, jpeg))
  }

  const ALGORITHM_FIELDS_BEFORE_V5: set<Key> :=
    {Key.Enabled, Key.Type, Key.Roi, Key.CandidateThreshold, Key.ConfirmationThreshold, Key.ConsecutiveFrames,
     Key.CooldownMs, Key.ModelReference, Key.ModelVersion, Key.Device, Key.DebugOverlay}
  const ALGORITHM_FIELDS_V5: set<Key> :=
    {Key.Enabled, Key.Type, Key.Roi, Key.DownsampleMode, Key.ProcessingFps, Key.CandidateThreshold,
     Key.ConfirmationThreshold, Key.ConfirmationDurationMs, Key.CooldownMs, Key.ModelReference, Key.ModelVersion,
     Key.Device, Key.DebugOverlay}
  const ALGORITHM_FIELDS: set<Key> :=
    {Key.Enabled, Key.Type, Key.Roi, Key.DownsampleMode, Key.ProcessingFps, Key.CandidateThreshold,
     Key.ConfirmationThreshold, Key.ConfirmationDurationMs, Key.CooldownMs, Key.RearmDurationMs,
     Key.ModelReference, Key.ModelVersion, Key.Device, Key.DebugOverlay}
  const DOWNSAMPLE_MODES: seq<(string, DownsampleMode)> := 
    [("disabled", Disabled), ("half", Half), ("quarter", Quarter)]

  function FpsOf(n: nat): Option<ProcessingFps> {
    match n
    case 15 => Some(Fps15)
    case 30 => Some(Fps30)
    case 60 => Some(Fps60)
    case _ => None
  }

  /** The time of `frames` frames at 60 fps, rounded up to whole milliseconds and then to 10 ms. */
  function ConfirmationFromFrames(frames: nat): nat {
    var rawMs := (frames * 1000 + 59) / 60;
    (rawMs + 9) / 10 * 10
  }

  /** The least multiple of `unit` not below `n / divisor`, for `unit` 1 and 10. */
  lemma CeilingIsLeast(n: nat, divisor: nat, m: nat)
    requires divisor == 60 || divisor == 10
    ensures n <= (n + divisor - 1) / divisor * divisor < n + divisor
    ensures n <= m * divisor ==> (n + divisor - 1) / divisor <= m
  {}

  /** Rounding twice still gives the least multiple of 10 ms not below the exact duration. */
  lemma ConfirmationFromFramesIsLeast(frames: nat, tens: nat)
    ensures ConfirmationFromFrames(frames) % 10 == 0
    ensures frames * 1000 <= ConfirmationFromFrames(frames) * 60
    ensures frames * 1000 <= tens * 10 * 60 ==> ConfirmationFromFrames(frames) <= tens * 10
    ensures 1 <= frames <= 1000 ==> 20 <= ConfirmationFromFrames(frames) <= 16670
  {
    var ms := (frames * 1000 + 59) / 60;
    var units := (ms + 9) / 10;
    assert ConfirmationFromFrames(frames) == units * 10;
    hide ConfirmationFromFrames;
    RoundedTwice(frames * 1000, ms, units, tens);
    TensAreMultiples(units);
  }

  lemma TensAreMultiples(units: nat)
    ensures units * 10 % 10 == 0
  {}

  lemma RoundedTwice(n: nat, ms: nat, units: nat, tens: nat)
    requires ms == (n + 59) / 60 && units == (ms + 9) / 10
    ensures n <= units * 10 * 60
    ensures n <= tens * 10 * 60 ==> units <= tens
    ensures 1000 <= n <= 1_000_000 ==> 20 <= units * 10 <= 16670
  {
    CeilingIsLeast(n, 60, tens * 10);
    CeilingIsLeast(ms, 10, tens);
  }

  /** How densely frames are processed and how long a candidate must last. */
  datatype Sampling = Sampling(mode: DownsampleMode, fps: ProcessingFps, durationMs: nat)

  function ParseSampling(o: Fields, schema: nat): (r: Option<Sampling>)
    ensures r.Some? ==> 10 <= r.value.durationMs <= 60000
  {
    if schema >= 5 then
      var modeText :- StringField(o, Key.DownsampleMode, 16);
      var mode :- EnumValue(modeText, DOWNSAMPLE_MODES);
      var fpsNumber :- UnsignedField(o, Key.ProcessingFps, 15, 60);
      var fps :- FpsOf(fpsNumber);
      var duration :- UnsignedField(o, Key.ConfirmationDurationMs, 10, 60000);
      Some(Sampling(mode, fps, duration))
    else
      var frames :- UnsignedField(o, Key.ConsecutiveFrames, 1, 1000);
      ConfirmationFromFramesIsLeast(frames, 0);
      Some(Sampling(Disabled, Fps60, ConfirmationFromFrames(frames)))
  }

  function ParseAlgorithm(j: Json, schema: nat, cameras: seq<CameraConfig>): (r: Option<AlgorithmConfig>)
    ensures r.Some? ==> ValidAlgorithm(r.value)
    ensures r.Some? ==> RoiFitsEnabledCameras(r.value.roi, cameras)
  {
    var o :- ExactFields(j, if schema >= 6 then ALGORITHM_FIELDS
                            else if schema == 5 then ALGORITHM_FIELDS_V5
                            else ALGORITHM_FIELDS_BEFORE_V5);
    var enabled :- BoolField(o, Key.Enabled);
    var kind :- StringField(o, Key.Type, 64);
    var roi :- ParseAlgorithmRoi(o[Key.Roi]);
    var candidate :- NumberField(o, Key.CandidateThreshold, 0.0, 1.0);
    var confirmation :- NumberField(o, Key.ConfirmationThreshold, 0.0, 1.0);
    var sampling :- ParseSampling(o, schema);
    var cooldown :- UnsignedField(o, Key.CooldownMs, 0, 3600000);
    var rearm :- if schema >= 6 then UnsignedField(o, Key.RearmDurationMs, 0, 3600000) else Some(500);
    var modelReference :- StringField(o, Key.ModelReference, 512, true);
    var modelVersion :- StringField(o, Key.ModelVersion, 128, true);
    var device :- StringField(o, Key.Device, 64);
    var overlay :- BoolField(o, Key.DebugOverlay);
    if confirmation < candidate then None
    else if roi.width != 0 && exists i | 0 <= i < |cameras| :: cameras[i].enabled && !RoiFits(roi, cameras[i]) then None
    else Some(AlgorithmConfig(enabled, kind, roi, sampling.mode, sampling.fps, candidate, confirmation,
                              sampling.durationMs, cooldown, rearm, modelReference, modelVersion, device, overlay))
  }

  function ParseEvent(j: Json, algorithm: AlgorithmConfig): (r: Option<EventConfig>)
    ensures r.Some? ==> ValidEvent(r.value) && ConfirmationFitsEvent(algorithm, r.value)
  {
    var o :- ExactFields(j, {Key.PreEventSeconds, Key.PostEventSeconds, Key.MaxEventSeconds, Key.MergeGapSeconds,
                             Key.KeyFrameCount, Key.SaveRaw, Key.GeneratePreviewVideo, Key.UploadPolicy,
                             Key.RetentionDays});
    var pre :- UnsignedField(o, Key.PreEventSeconds, 0, 600);
    var post :- UnsignedField(o, Key.PostEventSeconds, 0, 600);
    var maximum :- UnsignedField(o, Key.MaxEventSeconds, 1, 3600);
    var merge :- UnsignedField(o, Key.MergeGapSeconds, 0, 3600);
    var keyFrames :- UnsignedField(o, Key.KeyFrameCount, 1, 32);
    var saveRaw :- BoolField(o, Key.SaveRaw);
    var video :- BoolField(o, Key.GeneratePreviewVideo);
    var policy :- StringField(o, Key.UploadPolicy, 32);
    var retention :- UnsignedField(o, Key.RetentionDays, 1, 3650);
    if pre + post > maximum || merge > maximum then None
    else if algorithm.confirmationDurationMs > maximum * 1000 then None
    else if policy != "never" && policy != "confirmed" && policy != "all" then None
    else Some(EventConfig(pre, post, maximum, merge, keyFrames, saveRaw, video, policy, retention))
  }

  function ParseStorage(j: Json, normalize: Normalizer): (r: Option<StorageConfig>)
    ensures r.Some? ==> ValidStorage(r.value, normalize)
  {
    var o :- ExactFields(j, {Key.EventRoot, Key.CacheRoot, Key.RollingCacheEnabled, Key.MaximumCacheStorageGiB,
                             Key.RollingCacheWriteLimitMiBps, Key.RollingCacheIoTimeoutMs, Key.WarningFreeSpaceGiB,
                             Key.CriticalFreeSpaceGiB, Key.StopFreeSpaceGiB, Key.MaximumEventStorageGiB});
    var eventRoot :- PathField(o, Key.EventRoot, normalize);
    var cacheRoot :- PathField(o, Key.CacheRoot, normalize);
    var rolling :- BoolField(o, Key.RollingCacheEnabled);
    var maximumCache :- UnsignedField(o, Key.MaximumCacheStorageGiB, 1, 1000000);
    var writeLimit :- UnsignedField(o, Key.RollingCacheWriteLimitMiBps, 1, 1000000);
    var ioTimeout :- UnsignedField(o, Key.RollingCacheIoTimeoutMs, 100, 600000);
    var warning :- UnsignedField(o, Key.WarningFreeSpaceGiB, 1, 1000000);
    var critical :- UnsignedField(o, Key.CriticalFreeSpaceGiB, 1, 1000000);
    var stop :- UnsignedField(o, Key.StopFreeSpaceGiB, 1, 1000000);
    var maximumEvent :- UnsignedField(o, Key.MaximumEventStorageGiB, 1, 1000000);
    if !(warning > critical && critical > stop) then None
    else if normalize(eventRoot) == normalize(cacheRoot) then None
    else Some(StorageConfig(eventRoot, cacheRoot, rolling, maximumCache, writeLimit, ioTimeout, warning, critical,
                            stop, maximumEvent))
  }

  function ParseUplink(j: Json): (r: Option<UplinkConfig>)
    ensures r.Some? ==> ValidUplink(r.value)
  {
    var o :- ExactFields(j, {Key.Enabled, Key.ServerUrl, Key.HeartbeatSeconds, Key.ChunkBytes, Key.IoTimeoutMs,
                             Key.UploadLimitMiBps, Key.CredentialReference, Key.CertificateReference});
    var enabled :- BoolField(o, Key.Enabled);
    var url :- StringField(o, Key.ServerUrl, 2048, true);
    var heartbeat :- UnsignedField(o, Key.HeartbeatSeconds, 1, 3600);
    var chunk :- UnsignedField(o, Key.ChunkBytes, 64 * 1024, 4 * 1024 * 1024);
    var ioTimeout :- UnsignedField(o, Key.IoTimeoutMs, 100, 60000);
    var limit :- UnsignedField(o, Key.UploadLimitMiBps, 1, 1024);
    var credential :- StringField(o, Key.CredentialReference, 256, true);
    var certificate :- StringField(o, Key.CertificateReference, 256, true);
    if enabled && !StartsWith(url, "http://") then None
    else if enabled && (credential != "" || certificate != "") then None
    else Some(UplinkConfig(enabled, url, heartbeat, chunk, ioTimeout, limit, credential, certificate))
  }

  function ParsePlantIo(j: Json): (r: Option<PlantIoConfig>)
    ensures r.Some? ==> ValidPlantIo(r.value)
  {
    var o :- ExactFields(j, {Key.Enabled, Key.AdapterType, Key.Endpoint, Key.CredentialReference, Key.PollIntervalMs});
    var enabled :- BoolField(o, Key.Enabled);
    var adapter :- StringField(o, Key.AdapterType, 32);
    var endpoint :- StringField(o, Key.Endpoint, 1024, true);
    var credential :- StringField(o, Key.CredentialReference, 256, true);
    var poll :- UnsignedField(o, Key.PollIntervalMs, 10, 60000);
    if adapter != "disabled" && adapter != "mock" then None
    else if enabled && adapter != "mock" then None
    else Some(PlantIoConfig(enabled, adapter, endpoint, credential, poll))
  }

  const LOG_LEVELS: seq<(string, LogLevel)> :=
    [("trace", Trace), ("debug", Debug), ("info", Info), ("warning", Warning), ("error", Error), ("critical", Critical)]

  function ParseLogging(j: Json, normalize: Normalizer): (r: Option<LoggingConfig>)
    ensures r.Some? ==> ValidLogging(r.value, normalize)
  {
    var o :- ExactFields(j, {Key.Level, Key.Directory, Key.RetentionDays, Key.MaximumFileSizeMiB,
                             Key.MaximumFilesPerDay, Key.QueueCapacity});
    var levelText :- StringField(o, Key.Level, 16);
    var directory :- PathField(o, Key.Directory, normalize);
    var retention :- UnsignedField(o, Key.RetentionDays, 1, 3650);
    var maxFile :- UnsignedField(o, Key.MaximumFileSizeMiB, 1, 1024);
    var maxFiles :- UnsignedField(o, Key.MaximumFilesPerDay, 1, 100);
    var queue :- UnsignedField(o, Key.QueueCapacity, 128, 65536);
    var level :- EnumValue(levelText, LOG_LEVELS);
    Some(LoggingConfig(level, directory, retention, maxFile, maxFiles, queue))
  }

  function ParseHealth(j: Json): (r: Option<HealthConfig>)
    ensures r.Some? ==> ValidHealth(r.value)
  {
    var o :- ExactFields(j, {Key.SampleIntervalMs, Key.CpuWarningPercent, Key.MemoryWarningPercent,
                             Key.DroppedFrameWarningRatio, Key.HeartbeatStaleSeconds});
    var sample :- UnsignedField(o, Key.SampleIntervalMs, 100, 60000);
    var cpu :- NumberField(o, Key.CpuWarningPercent, 1.0, 100.0);
    var memory :- NumberField(o, Key.MemoryWarningPercent, 1.0, 100.0);
    var dropped :- NumberField(o, Key.DroppedFrameWarningRatio, 0.0, 1.0);
    var stale :- UnsignedField(o, Key.HeartbeatStaleSeconds, 1, 3600);
    Some(HealthConfig(sample, cpu, memory, dropped, stale))
  }

  const TIME_SYNC_DEFAULT := Object(map[
    Key.SamplePeriodMs := Unsigned(1000), Key.ProbeTimeoutMs := Unsigned(250),
    Key.ReceiveClockUncertaintyNs := Unsigned(50000000), Key.WarningThresholdNs := Unsigned(1000000),
    Key.AlarmThresholdNs := Unsigned(5000000), Key.WarningDurationMs := Unsigned(3000),
    Key.AlarmDurationMs := Unsigned(3000)])

  function ParseTimeSync(j: Json): (r: Option<TimeSyncConfig>)
    ensures r.Some? ==> ValidTimeSync(r.value)
  {
    var o :- ExactFields(j, {Key.SamplePeriodMs, Key.ProbeTimeoutMs, Key.ReceiveClockUncertaintyNs,
                             Key.WarningThresholdNs, Key.AlarmThresholdNs, Key.WarningDurationMs, Key.AlarmDurationMs});
    var period :- UnsignedField(o, Key.SamplePeriodMs, 100, 60000);
    var probe :- UnsignedField(o, Key.ProbeTimeoutMs, 1, 10000);
    var uncertainty :- UnsignedField(o, Key.ReceiveClockUncertaintyNs, 1000000, 60000000000);
    var warning :- UnsignedField(o, Key.WarningThresholdNs, 1, 60000000000);
    var alarm :- UnsignedField(o, Key.AlarmThresholdNs, 1, 60000000000);
    var warningDuration :- UnsignedField(o, Key.WarningDurationMs, 0, 3600000);
    var alarmDuration :- UnsignedField(o, Key.AlarmDurationMs, 0, 3600000);
    if probe >= period then None
    else if warning >= alarm then None
    else Some(TimeSyncConfig(period, probe, uncertainty, warning, alarm, warningDuration, alarmDuration))
  }

  // ---------------------------------------------------------------- the whole document

  const ROOT_FIELDS: set<Key> :=
    {Key.ConfigSchemaVersion, Key.ConfigRevision, Key.ModifiedAt, Key.System, Key.Cameras, Key.Acquisition,
     Key.Preview, Key.Algorithm, Key.Event, Key.Storage, Key.Uplink, Key.PlantIo, Key.Logging, Key.Health,
     Key.TimeSync}

  /** The schema version a document declares, if it declares one at all. */
  function DeclaredSchema(root: Json): Option<nat> {
    if root.Object? && Key.ConfigSchemaVersion in root.fields && root.fields[Key.ConfigSchemaVersion].Unsigned?
    then Some(root.fields[Key.ConfigSchemaVersion].n)
    else None
  }

  /** The member of the version has this number. */
  predicate Declares(text: Document, schema: nat) {
    && text.Tree? && text.root.Object? && Key.ConfigSchemaVersion in text.root.fields
    && text.root.fields[Key.ConfigSchemaVersion] == Unsigned(schema)
  }

  function ParseSections(o: Fields, schema: nat, revision: nat, modifiedAt: string, normalize: Normalizer)
    : (r: Option<EdgeConfig>)
    requires o.Keys == ROOT_FIELDS
    requires 1 <= revision <= MAX_UINT64 && ValidTimestamp(modifiedAt)
    ensures r.Some? ==> ValidConfig(r.value, normalize) && r.value.configRevision == revision
  {
    var system :- ParseSystem(o[Key.System]);
    var cameras :- ParseCameras(o[Key.Cameras], schema);
    var acquisition :- ParseAcquisition(o[Key.Acquisition]);
    var preview :- ParsePreview(o[Key.Preview]);
    var algorithm :- ParseAlgorithm(o[Key.Algorithm], schema, cameras);
    var event :- ParseEvent(o[Key.Event], algorithm);
    var storage :- ParseStorage(o[Key.Storage], normalize);
    var uplink :- ParseUplink(o[Key.Uplink]);
    var plantIo :- ParsePlantIo(o[Key.PlantIo]);
    var logging :- ParseLogging(o[Key.Logging], normalize);
    var health :- ParseHealth(o[Key.Health]);
    var timeSync :- ParseTimeSync(o[Key.TimeSync]);
    Some(EdgeConfig(SCHEMA_VERSION, revision, modifiedAt, system, cameras, acquisition, preview, algorithm, event,
                    storage, uplink, plantIo, logging, health, timeSync))
  }

  /** The document without the search for credentials and the schema range check. */
  function ParseRoot(root: Json, schema: nat, normalize: Normalizer): (r: Option<EdgeConfig>)
    ensures r.Some? ==> ValidConfig(r.value, normalize)
  {
    var o :- ExactFields(root, ROOT_FIELDS);
    var revision :- UnsignedField(o, Key.ConfigRevision, 1, MAX_UINT64);
    var modified :- StringField(o, Key.ModifiedAt, 32);
    if !ValidTimestamp(modified) then None
    else ParseSections(o, schema, revision, modified, normalize)
  }

  function MigrateRoot(root: Json, schema: nat): Json {
    if root.Object? && schema < SCHEMA_VERSION
    then Object(WithDefault(root.fields, Key.TimeSync, TIME_SYNC_DEFAULT))
    else root
  }

  /** Everything accepted satisfies every section and every cross-section constraint at once. */
  function ParseConfig(text: Document, normalize: Normalizer): (r: Result<EdgeConfig, ConfigError>)
    ensures r.Success? ==> ValidConfig(r.value, normalize)
  {
    if text.Malformed? then Failure(Invalid)
    else if ContainsSensitiveKey(text.root) then Failure(Invalid)
    else
      var schema := DeclaredSchema(text.root);
      if schema.None? then Failure(Invalid)
      else if schema.value < 2 || schema.value > SCHEMA_VERSION then
        Failure(if 1 <= schema.value <= MAX_UINT32 then SchemaUnsupported else Invalid)
      else
        var c := ParseRoot(MigrateRoot(text.root, schema.value), schema.value, normalize);
        if c.None? then Failure(Invalid) else Success(c.value)
  }
}
