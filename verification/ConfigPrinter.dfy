/**
 The configuration printer, and the proof that printing and parsing undo each other on exactly the
 valid configurations.
 */
module ConfigPrinter {
  import opened Wrappers
  import opened JsonTree
  import opened ConfigModel
  import opened ConfigParser

  function PixelFormatName(v: PixelFormat): string {
    match v
    case Mono8 => "Mono8"
    case Mono10 => "Mono10"
    case Mono12 => "Mono12"
    case BayerRg8 => "BayerRG8"
  }

  function TriggerModeName(v: TriggerMode): string {
    match v
    case Continuous => "Continuous"
    case Hardware => "Hardware"
    case Software => "Software"
  }

  function ExposureModeName(v: ExposureAutoMode): string {
    match v
    case Off => "Off"
    case Once => "Once"
    case AlwaysOn => "Continuous"
  }

  function ActiveLevelName(v: ActiveLevel): string {
    if v == High then "High" else "Low"
  }

  function LogLevelName(v: LogLevel): string {
    match v
    case Trace => "trace"
    case Debug => "debug"
    case Info => "info"
    case Warning => "warning"
    case Error => "error"
    case Critical => "critical"
  }

  function DownsampleModeName(v: DownsampleMode): string {
    match v
    case Disabled => "disabled"
    case Half => "half"
    case Quarter => "quarter"
  }

  function FpsNumber(v: ProcessingFps): nat {
    match v
    case Fps15 => 15
    case Fps30 => 30
    case Fps60 => 60
  }

  function RoiJson(c: RoiConfig): Json {
    Object(map[Key.Width := Unsigned(c.width), Key.Height := Unsigned(c.height),
               Key.OffsetX := Unsigned(c.offsetX), Key.OffsetY := Unsigned(c.offsetY)])
  }

  function SystemJson(c: SystemConfig): Json {
    Object(map[Key.MachineId := Text(c.machineId), Key.ProductionLineId := Text(c.productionLineId),
               Key.ShutdownTimeoutMs := Unsigned(c.shutdownTimeoutMs)])
  }

  function LineIoJson(c: LineIoConfig): Json {
    Object(map[Key.AlarmInputEnabled := Bool(c.alarmInputEnabled),
               Key.AlarmActiveLevel := Text(ActiveLevelName(c.alarmActiveLevel)),
               Key.StrobeOutputEnabled := Bool(c.strobeOutputEnabled),
               Key.StrobeDurationUs := Unsigned(c.strobeDurationUs),
               Key.StrobePreDelayUs := Unsigned(c.strobePreDelayUs),
               Key.StrobePostDelayUs := Unsigned(c.strobePostDelayUs)])
  }

  function CameraJson(c: CameraConfig): Json {
    Object(map[Key.Id := Text(c.id), Key.Enabled := Bool(c.enabled), Key.SerialNumber := Text(c.serialNumber),
               Key.Location := Text(c.location), Key.ExposureUs := Float(c.exposureUs),
               Key.AutoExposure := Text(ExposureModeName(c.exposureAutoMode)), Key.GainDb := Float(c.gainDb),
               Key.FrameRate := Float(c.frameRate), Key.Roi := RoiJson(c.roi), Key.ReverseX := Bool(c.reverseX),
               Key.ReverseY := Bool(c.reverseY), Key.PixelFormat := Text(PixelFormatName(c.pixelFormat)),
               Key.TriggerMode := Text(TriggerModeName(c.triggerMode)), Key.TriggerSource := Text(c.triggerSource),
               Key.TriggerDelayUs := Unsigned(c.triggerDelayUs), Key.PacketSizeBytes := Unsigned(c.packetSizeBytes),
               Key.InterPacketDelayNs := Unsigned(c.interPacketDelayNs), Key.LineIo := LineIoJson(c.lineIo)])
  }

  function CamerasJson(cs: seq<CameraConfig>): Json {
    Array(seq(|cs|, i requires 0 <= i < |cs| => CameraJson(cs[i])))
  }

  function AcquisitionJson(c: AcquisitionConfig): Json {
    Object(map[Key.AutoStart := Bool(c.autoStart), Key.StartupRetryIntervalMs := Unsigned(c.startupRetryIntervalMs),
               Key.StartupRetryCount := Unsigned(c.startupRetryCount),
               Key.FramePoolCapacity := Unsigned(c.framePoolCapacity), Key.QueueCapacity := Unsigned(c.queueCapacity),
               Key.ReceiveTimeoutMs := Unsigned(c.receiveTimeoutMs), Key.ThreadPriority := Text(c.threadPriority)])
  }

  function PreviewJson(c: PreviewConfig): Json {
    Object(map[Key.Enabled := Bool(c.enabled), Key.Fps := Float(c.fps), Key.MaxWidth := Unsigned(c.maxWidth),
               Key.MaxHeight := Unsigned(c.maxHeight), Key.JpegQuality := Unsigned(c.jpegQuality)])
  }

  function AlgorithmJson(c: AlgorithmConfig): Json {
    Object(map[Key.Enabled := Bool(c.enabled), Key.Type := Text(c.kind), Key.Roi := RoiJson(c.roi),
               Key.DownsampleMode := Text(DownsampleModeName(c.downsampleMode)),
               Key.ProcessingFps := Unsigned(FpsNumber(c.processingFps)),
               Key.CandidateThreshold := Float(c.candidateThreshold),
               Key.ConfirmationThreshold := Float(c.confirmationThreshold),
               Key.ConfirmationDurationMs := Unsigned(c.confirmationDurationMs),
               Key.CooldownMs := Unsigned(c.cooldownMs), Key.RearmDurationMs := Unsigned(c.rearmDurationMs),
               Key.ModelReference := Text(c.modelReference), Key.ModelVersion := Text(c.modelVersion),
               Key.Device := Text(c.device), Key.DebugOverlay := Bool(c.debugOverlay)])
  }

  function EventJson(c: EventConfig): Json {
    Object(map[Key.PreEventSeconds := Unsigned(c.preEventSeconds), Key.PostEventSeconds := Unsigned(c.postEventSeconds),
               Key.MaxEventSeconds := Unsigned(c.maxEventSeconds), Key.MergeGapSeconds := Unsigned(c.mergeGapSeconds),
               Key.KeyFrameCount := Unsigned(c.keyFrameCount), Key.SaveRaw := Bool(c.saveRaw),
               Key.GeneratePreviewVideo := Bool(c.generatePreviewVideo), Key.UploadPolicy := Text(c.uploadPolicy),
               Key.RetentionDays := Unsigned(c.retentionDays)])
  }

  function StorageJson(c: StorageConfig): Json {
    Object(map[Key.EventRoot := Text(c.eventRoot), Key.CacheRoot := Text(c.cacheRoot),
               Key.RollingCacheEnabled := Bool(c.rollingCacheEnabled),
               Key.MaximumCacheStorageGiB := Unsigned(c.maximumCacheStorageGib),
               Key.RollingCacheWriteLimitMiBps := Unsigned(c.rollingCacheWriteLimitMibps),
               Key.RollingCacheIoTimeoutMs := Unsigned(c.rollingCacheIoTimeoutMs),
               Key.WarningFreeSpaceGiB := Unsigned(c.warningFreeSpaceGib),
               Key.CriticalFreeSpaceGiB := Unsigned(c.criticalFreeSpaceGib),
               Key.StopFreeSpaceGiB := Unsigned(c.stopFreeSpaceGib),
               Key.MaximumEventStorageGiB := Unsigned(c.maximumEventStorageGib)])
  }

  function UplinkJson(c: UplinkConfig): Json {
    Object(map[Key.Enabled := Bool(c.enabled), Key.ServerUrl := Text(c.serverUrl),
               Key.HeartbeatSeconds := Unsigned(c.heartbeatSeconds), Key.ChunkBytes := Unsigned(c.chunkBytes),
               Key.IoTimeoutMs := Unsigned(c.ioTimeoutMs), Key.UploadLimitMiBps := Unsigned(c.uploadLimitMibps),
               Key.CredentialReference := Text(c.credentialReference),
               Key.CertificateReference := Text(c.certificateReference)])
  }

  function PlantIoJson(c: PlantIoConfig): Json {
    Object(map[Key.Enabled := Bool(c.enabled), Key.AdapterType := Text(c.adapterType), Key.Endpoint := Text(c.endpoint),
               Key.CredentialReference := Text(c.credentialReference),
                   Key.PollIntervalMs := Unsigned(c.pollIntervalMs)])
  }

  function LoggingJson(c: LoggingConfig): Json {
    Object(map[Key.Level := Text(LogLevelName(c.level)), Key.Directory := Text(c.directory),
               Key.RetentionDays := Unsigned(c.retentionDays), Key.MaximumFileSizeMiB := Unsigned(c.maximumFileSizeMib),
               Key.MaximumFilesPerDay := Unsigned(c.maximumFilesPerDay),
                   Key.QueueCapacity := Unsigned(c.queueCapacity)])
  }

  function HealthJson(c: HealthConfig): Json {
    Object(map[Key.SampleIntervalMs := Unsigned(c.sampleIntervalMs),
        Key.CpuWarningPercent := Float(c.cpuWarningPercent),
               Key.MemoryWarningPercent := Float(c.memoryWarningPercent),
               Key.DroppedFrameWarningRatio := Float(c.droppedFrameWarningRatio),
               Key.HeartbeatStaleSeconds := Unsigned(c.heartbeatStaleSeconds)])
  }

  function TimeSyncJson(c: TimeSyncConfig): Json {
    Object(map[Key.SamplePeriodMs := Unsigned(c.samplePeriodMs), Key.ProbeTimeoutMs := Unsigned(c.probeTimeoutMs),
               Key.ReceiveClockUncertaintyNs := Unsigned(c.receiveClockUncertaintyNs),
               Key.WarningThresholdNs := Unsigned(c.warningThresholdNs),
               Key.AlarmThresholdNs := Unsigned(c.alarmThresholdNs),
               Key.WarningDurationMs := Unsigned(c.warningDurationMs),
                   Key.AlarmDurationMs := Unsigned(c.alarmDurationMs)])
  }

  /** The printed document always declares the current schema version. */
  function SerializeConfig(c: EdgeConfig): Document {
    Tree(Object(map[
      Key.ConfigSchemaVersion := Unsigned(SCHEMA_VERSION), Key.ConfigRevision := Unsigned(c.configRevision),
      Key.ModifiedAt := Text(c.modifiedAt), Key.System := SystemJson(c.system), Key.Cameras := CamerasJson(c.cameras),
      Key.Acquisition := AcquisitionJson(c.acquisition), Key.Preview := PreviewJson(c.preview),
      Key.Algorithm := AlgorithmJson(c.algorithm), Key.Event := EventJson(c.event),
          Key.Storage := StorageJson(c.storage),
      Key.Uplink := UplinkJson(c.uplink), Key.PlantIo := PlantIoJson(c.plantIo), Key.Logging := LoggingJson(c.logging),
      Key.Health := HealthJson(c.health), Key.TimeSync := TimeSyncJson(c.timeSync)]))
  }

  // ---------------------------------------------------------------- section round trips

  lemma EnumNamesRoundTrip(p: PixelFormat, t: TriggerMode, e: ExposureAutoMode, a: ActiveLevel)
    ensures EnumValue(PixelFormatName(p), PIXEL_FORMATS) == Some(p)
    ensures EnumValue(TriggerModeName(t), TRIGGER_MODES) == Some(t)
    ensures EnumValue(ExposureModeName(e), EXPOSURE_MODES) == Some(e)
    ensures EnumValue(ActiveLevelName(a), ACTIVE_LEVELS) == Some(a)
  {}

  lemma MoreEnumNamesRoundTrip(l: LogLevel, d: DownsampleMode, f: ProcessingFps)
    ensures EnumValue(LogLevelName(l), LOG_LEVELS) == Some(l)
    ensures EnumValue(DownsampleModeName(d), DOWNSAMPLE_MODES) == Some(d)
    ensures FpsOf(FpsNumber(f)) == Some(f)
  {}

  lemma RoiRoundTrip(c: RoiConfig)
    ensures ValidCameraRoi(c) ==> ParseRoi(RoiJson(c)) == Some(c)
    ensures ValidAlgorithmRoi(c) ==> ParseAlgorithmRoi(RoiJson(c)) == Some(c)
  {}

  lemma SystemRoundTrip(c: SystemConfig)
    requires ValidSystem(c)
    ensures ParseSystem(SystemJson(c)) == Some(c)
  {}

  lemma LineIoRoundTrip(c: LineIoConfig)
    requires ValidLineIo(c)
    ensures ParseLineIo(LineIoJson(c)) == Some(c)
  {
    EnumNamesRoundTrip(Mono8, Continuous, Off, c.alarmActiveLevel);
  }

  lemma IdentityRoundTrip(o: Fields, c: CameraConfig)
    requires ValidCamera(c) && o == CameraJson(c).fields
    ensures ReadIdentity(o) == Some(CameraIdentity(c.id, c.enabled, c.serialNumber, c.location))
  {}

  predicate ImagingFields(o: Fields, c: CameraConfig) {
    && {Key.ExposureUs, Key.AutoExposure, Key.GainDb, Key.FrameRate, Key.Roi, Key.ReverseX, Key.ReverseY,
        Key.PixelFormat} <= o.Keys
    && o[Key.ExposureUs] == Float(c.exposureUs)
    && o[Key.AutoExposure] == Text(ExposureModeName(c.exposureAutoMode))
    && o[Key.GainDb] == Float(c.gainDb)
    && o[Key.FrameRate] == Float(c.frameRate)
    && o[Key.Roi] == RoiJson(c.roi)
    && o[Key.ReverseX] == Bool(c.reverseX)
    && o[Key.ReverseY] == Bool(c.reverseY)
    && o[Key.PixelFormat] == Text(PixelFormatName(c.pixelFormat))
  }

  lemma PrintedImaging(c: CameraConfig)
    ensures ImagingFields(CameraJson(c).fields, c)
  {}

  lemma ImagingRoundTrip(o: Fields, c: CameraConfig)
    requires ValidCamera(c) && ImagingFields(o, c)
    ensures ReadImaging(o) == Some(CameraImaging(c.exposureUs, c.exposureAutoMode, c.gainDb, c.frameRate, c.roi,
                                                 c.reverseX, c.reverseY, c.pixelFormat))
  {
    EnumNamesRoundTrip(c.pixelFormat, c.triggerMode, c.exposureAutoMode, High);
    RoiRoundTrip(c.roi);
  }

  lemma TriggerRoundTrip(o: Fields, c: CameraConfig)
    requires ValidCamera(c) && o == CameraJson(c).fields
    ensures ReadTrigger(o) == Some(CameraTrigger(c.triggerMode, c.triggerSource, c.triggerDelayUs, c.packetSizeBytes,
                                                 c.interPacketDelayNs))
  {
    EnumNamesRoundTrip(c.pixelFormat, c.triggerMode, c.exposureAutoMode, High);
  }

  lemma PrintedCameraFields(c: CameraConfig)
    ensures CameraJson(c).fields.Keys == CAMERA_FIELDS
    ensures CameraJson(c).fields[Key.LineIo] == LineIoJson(c.lineIo)
  {
    forall k: Key
      ensures k in CameraJson(c).fields <==> k in CAMERA_FIELDS
    {}
  }

  lemma AssembleCamera(o: Fields, c: CameraConfig)
    requires ValidCamera(c) && o.Keys == CAMERA_FIELDS
    requires ReadIdentity(o) == Some(CameraIdentity(c.id, c.enabled, c.serialNumber, c.location))
    requires ReadImaging(o) == Some(CameraImaging(c.exposureUs, c.exposureAutoMode, c.gainDb, c.frameRate, c.roi,
                                                  c.reverseX, c.reverseY, c.pixelFormat))
    requires ReadTrigger(o) == Some(CameraTrigger(c.triggerMode, c.triggerSource, c.triggerDelayUs, c.packetSizeBytes,
                                                  c.interPacketDelayNs))
    requires ParseLineIo(o[Key.LineIo]) == Some(c.lineIo)
    ensures MigrateCamera(Object(o), SCHEMA_VERSION) == Object(o)
    ensures ParseCamera(Object(o)) == Some(c)
  {}

  lemma CameraRoundTrip(c: CameraConfig)
    requires ValidCamera(c)
    ensures MigrateCamera(CameraJson(c), SCHEMA_VERSION) == CameraJson(c)
    ensures ParseCamera(CameraJson(c)) == Some(c)
  {
    var o := CameraJson(c).fields;
    PrintedCameraFields(c);
    IdentityRoundTrip(o, c);
    assert ReadImaging(o) == Some(CameraImaging(c.exposureUs, c.exposureAutoMode, c.gainDb, c.frameRate, c.roi,
                                                c.reverseX, c.reverseY, c.pixelFormat)) by {
      PrintedImaging(c);
      ImagingRoundTrip(o, c);
    }
    TriggerRoundTrip(o, c);
    LineIoRoundTrip(c.lineIo);
    AssembleCamera(o, c);
  }

  /** Reading valid cameras one after the other never meets a duplicate. */
  lemma {:induction false} DistinctCamerasAreRead(items: seq<Json>, schema: nat, cs: seq<CameraConfig>,
                                                  ids: set<string>, serials: set<string>)
    requires |items| == |cs| && ValidCameras(cs) && AvoidTaken(cs, ids, serials)
    requires forall i | 0 <= i < |cs| :: ParseCamera(MigrateCamera(items[i], schema)) == Some(cs[i])
    ensures ParseCamerasFrom(items, schema, ids, serials) == Some(cs)
  {
    if cs != [] {
      assert ParseNextCamera(items[0], schema, ids, serials) == Some(cs[0]);
      DistinctCamerasAreRead(items[1..], schema, cs[1..], ids + {cs[0].id}, AddSerial(serials, cs[0]));
      assert cs == [cs[0]] + cs[1..];
    }
  }

  lemma CamerasRoundTrip(cs: seq<CameraConfig>)
    requires ValidCameras(cs)
    ensures ParseCameras(CamerasJson(cs), SCHEMA_VERSION) == Some(cs)
  {
    var items := CamerasJson(cs).items;
    forall i | 0 <= i < |cs|
      ensures ParseCamera(MigrateCamera(items[i], SCHEMA_VERSION)) == Some(cs[i])
    {
      CameraRoundTrip(cs[i]);
    }
    DistinctCamerasAreRead(items, SCHEMA_VERSION, cs, {}, {});
  }

  lemma AcquisitionRoundTrip(c: AcquisitionConfig)
    requires ValidAcquisition(c)
    ensures ParseAcquisition(AcquisitionJson(c)) == Some(c)
  {
    assert MigrateAcquisition(AcquisitionJson(c)) == AcquisitionJson(c);
  }

  lemma PreviewRoundTrip(c: PreviewConfig)
    requires ValidPreview(c)
    ensures ParsePreview(PreviewJson(c)) == Some(c)
  {}

  predicate SamplingFields(o: Fields, c: AlgorithmConfig) {
    && {Key.DownsampleMode, Key.ProcessingFps, Key.ConfirmationDurationMs} <= o.Keys
    && o[Key.DownsampleMode] == Text(DownsampleModeName(c.downsampleMode))
    && o[Key.ProcessingFps] == Unsigned(FpsNumber(c.processingFps))
    && o[Key.ConfirmationDurationMs] == Unsigned(c.confirmationDurationMs)
  }

  predicate DetectorFields(o: Fields, c: AlgorithmConfig) {
    && {Key.Enabled, Key.Type, Key.Roi, Key.CandidateThreshold, Key.ConfirmationThreshold} <= o.Keys
    && o[Key.Enabled] == Bool(c.enabled)
    && o[Key.Type] == Text(c.kind)
    && o[Key.Roi] == RoiJson(c.roi)
    && o[Key.CandidateThreshold] == Float(c.candidateThreshold)
    && o[Key.ConfirmationThreshold] == Float(c.confirmationThreshold)
  }

  predicate ModelFields(o: Fields, c: AlgorithmConfig) {
    && {Key.CooldownMs, Key.RearmDurationMs, Key.ModelReference, Key.ModelVersion, Key.Device,
        Key.DebugOverlay} <= o.Keys
    && o[Key.CooldownMs] == Unsigned(c.cooldownMs)
    && o[Key.RearmDurationMs] == Unsigned(c.rearmDurationMs)
    && o[Key.ModelReference] == Text(c.modelReference)
    && o[Key.ModelVersion] == Text(c.modelVersion)
    && o[Key.Device] == Text(c.device)
    && o[Key.DebugOverlay] == Bool(c.debugOverlay)
  }

  lemma PrintedSamplingAndDetector(c: AlgorithmConfig)
    ensures SamplingFields(AlgorithmJson(c).fields, c) && DetectorFields(AlgorithmJson(c).fields, c)
  {}

  lemma PrintedModel(c: AlgorithmConfig)
    ensures ModelFields(AlgorithmJson(c).fields, c) && AlgorithmJson(c).fields.Keys == ALGORITHM_FIELDS
  {
    forall k: Key
      ensures k in AlgorithmJson(c).fields <==> k in ALGORITHM_FIELDS
    {}
  }

  lemma SamplingRoundTrip(o: Fields, c: AlgorithmConfig)
    requires ValidAlgorithm(c) && SamplingFields(o, c)
    ensures ParseSampling(o, SCHEMA_VERSION)
        == Some(Sampling(c.downsampleMode, c.processingFps, c.confirmationDurationMs))
  {
    MoreEnumNamesRoundTrip(Info, c.downsampleMode, c.processingFps);
  }

  lemma AssembleAlgorithm(o: Fields, c: AlgorithmConfig, cameras: seq<CameraConfig>)
    requires ValidAlgorithm(c) && RoiFitsEnabledCameras(c.roi, cameras)
    requires o.Keys == ALGORITHM_FIELDS && DetectorFields(o, c) && ModelFields(o, c)
    requires ParseSampling(o, SCHEMA_VERSION)
        == Some(Sampling(c.downsampleMode, c.processingFps, c.confirmationDurationMs))
    requires ParseAlgorithmRoi(o[Key.Roi]) == Some(c.roi)
    ensures ParseAlgorithm(Object(o), SCHEMA_VERSION, cameras) == Some(c)
  {}

  lemma AlgorithmRoundTrip(c: AlgorithmConfig, cameras: seq<CameraConfig>)
    requires ValidAlgorithm(c) && RoiFitsEnabledCameras(c.roi, cameras)
    ensures ParseAlgorithm(AlgorithmJson(c), SCHEMA_VERSION, cameras) == Some(c)
  {
    var o := AlgorithmJson(c).fields;
    PrintedSamplingAndDetector(c);
    PrintedModel(c);
    SamplingRoundTrip(o, c);
    RoiRoundTrip(c.roi);
    AssembleAlgorithm(o, c, cameras);
  }

  lemma EventRoundTrip(c: EventConfig, algorithm: AlgorithmConfig)
    requires ValidEvent(c) && ConfirmationFitsEvent(algorithm, c)
    ensures ParseEvent(EventJson(c), algorithm) == Some(c)
  {}

  lemma StorageRoundTrip(c: StorageConfig, normalize: Normalizer)
    requires ValidStorage(c, normalize)
    ensures ParseStorage(StorageJson(c), normalize) == Some(c)
  {}

  lemma UplinkRoundTrip(c: UplinkConfig)
    requires ValidUplink(c)
    ensures ParseUplink(UplinkJson(c)) == Some(c)
  {}

  lemma PlantIoRoundTrip(c: PlantIoConfig)
    requires ValidPlantIo(c)
    ensures ParsePlantIo(PlantIoJson(c)) == Some(c)
  {}

  lemma LoggingRoundTrip(c: LoggingConfig, normalize: Normalizer)
    requires ValidLogging(c, normalize)
    ensures ParseLogging(LoggingJson(c), normalize) == Some(c)
  {
    MoreEnumNamesRoundTrip(c.level, Half, Fps15);
  }

  lemma HealthRoundTrip(c: HealthConfig)
    requires ValidHealth(c)
    ensures ParseHealth(HealthJson(c)) == Some(c)
  {}

  lemma TimeSyncRoundTrip(c: TimeSyncConfig)
    requires ValidTimeSync(c)
    ensures ParseTimeSync(TimeSyncJson(c)) == Some(c)
  {}

  // ---------------------------------------------------------------- only names of the schema are printed

  lemma RoiUsesSchemaNames(c: RoiConfig)
    ensures SchemaTree(RoiJson(c))
  {}

  lemma LineIoUsesSchemaNames(c: LineIoConfig)
    ensures SchemaTree(LineIoJson(c))
  {}

  lemma CameraUsesSchemaNames(c: CameraConfig)
    ensures SchemaTree(CameraJson(c))
  {
    hide RoiJson, LineIoJson;
    RoiUsesSchemaNames(c.roi);
    LineIoUsesSchemaNames(c.lineIo);
  }

  lemma CamerasUseSchemaNames(cs: seq<CameraConfig>)
    ensures SchemaTree(CamerasJson(cs))
  {
    hide CameraJson;
    forall i | 0 <= i < |cs|
      ensures SchemaTree(CamerasJson(cs).items[i])
    {
      CameraUsesSchemaNames(cs[i]);
    }
  }

  lemma AlgorithmUsesSchemaNames(c: AlgorithmConfig)
    ensures SchemaTree(AlgorithmJson(c))
  {
    hide RoiJson;
    RoiUsesSchemaNames(c.roi);
  }

  lemma SystemUsesSchemaNames(c: SystemConfig)
    ensures SchemaTree(SystemJson(c))
  {}

  lemma AcquisitionUsesSchemaNames(c: AcquisitionConfig)
    ensures SchemaTree(AcquisitionJson(c))
  {}

  lemma PreviewUsesSchemaNames(c: PreviewConfig)
    ensures SchemaTree(PreviewJson(c))
  {}

  lemma EventUsesSchemaNames(c: EventConfig)
    ensures SchemaTree(EventJson(c))
  {}

  lemma StorageUsesSchemaNames(c: StorageConfig)
    ensures SchemaTree(StorageJson(c))
  {}

  lemma UplinkUsesSchemaNames(c: UplinkConfig)
    ensures SchemaTree(UplinkJson(c))
  {}

  lemma PlantIoUsesSchemaNames(c: PlantIoConfig)
    ensures SchemaTree(PlantIoJson(c))
  {}

  lemma LoggingUsesSchemaNames(c: LoggingConfig)
    ensures SchemaTree(LoggingJson(c))
  {}

  lemma HealthUsesSchemaNames(c: HealthConfig)
    ensures SchemaTree(HealthJson(c))
  {}

  lemma TimeSyncUsesSchemaNames(c: TimeSyncConfig)
    ensures SchemaTree(TimeSyncJson(c))
  {}

  // ---------------------------------------------------------------- the whole document

  predicate RootFields(o: Fields, c: EdgeConfig) {
    && o.Keys == ROOT_FIELDS
    && o[Key.ConfigSchemaVersion] == Unsigned(SCHEMA_VERSION)
    && o[Key.ConfigRevision] == Unsigned(c.configRevision)
    && o[Key.ModifiedAt] == Text(c.modifiedAt)
    && o[Key.System] == SystemJson(c.system)
    && o[Key.Cameras] == CamerasJson(c.cameras)
    && o[Key.Acquisition] == AcquisitionJson(c.acquisition)
    && o[Key.Preview] == PreviewJson(c.preview)
  }

  predicate MoreRootFields(o: Fields, c: EdgeConfig)
    requires o.Keys == ROOT_FIELDS
  {
    && o[Key.Algorithm] == AlgorithmJson(c.algorithm)
    && o[Key.Event] == EventJson(c.event)
    && o[Key.Storage] == StorageJson(c.storage)
    && o[Key.Uplink] == UplinkJson(c.uplink)
    && o[Key.PlantIo] == PlantIoJson(c.plantIo)
    && o[Key.Logging] == LoggingJson(c.logging)
    && o[Key.Health] == HealthJson(c.health)
    && o[Key.TimeSync] == TimeSyncJson(c.timeSync)
  }

  lemma PrintedKeys(c: EdgeConfig)
    ensures SerializeConfig(c).root.fields.Keys == ROOT_FIELDS
  {
    forall k: Key
      ensures k in SerializeConfig(c).root.fields <==> k in ROOT_FIELDS
    {}
  }

  lemma PrintedRoot(c: EdgeConfig)
    ensures RootFields(SerializeConfig(c).root.fields, c)
  {
    PrintedKeys(c);
  }

  lemma PrintedRestOfRoot(c: EdgeConfig)
    ensures SerializeConfig(c).root.fields.Keys == ROOT_FIELDS
    ensures MoreRootFields(SerializeConfig(c).root.fields, c)
  {
    PrintedKeys(c);
  }

  lemma ScalarHasNoNames(j: Json)
    requires !j.Object? && !j.Array?
    ensures SchemaTree(j)
  {}

  lemma MemberUsesSchemaNames(o: Fields, c: EdgeConfig, k: Key)
    requires RootFields(o, c) && MoreRootFields(o, c) && k in o
    ensures !k.Foreign? && SchemaTree(o[k])
  {
    hide SystemJson, CamerasJson, AcquisitionJson, PreviewJson, AlgorithmJson, EventJson, StorageJson;
    hide UplinkJson, PlantIoJson, LoggingJson, HealthJson, TimeSyncJson, SchemaTree;
    match k {
      case System => SystemUsesSchemaNames(c.system);
      case Cameras => CamerasUseSchemaNames(c.cameras);
      case Acquisition => AcquisitionUsesSchemaNames(c.acquisition);
      case Preview => PreviewUsesSchemaNames(c.preview);
      case Algorithm => AlgorithmUsesSchemaNames(c.algorithm);
      case Event => EventUsesSchemaNames(c.event);
      case Storage => StorageUsesSchemaNames(c.storage);
      case Uplink => UplinkUsesSchemaNames(c.uplink);
      case PlantIo => PlantIoUsesSchemaNames(c.plantIo);
      case Logging => LoggingUsesSchemaNames(c.logging);
      case Health => HealthUsesSchemaNames(c.health);
      case TimeSync => TimeSyncUsesSchemaNames(c.timeSync);
      case ConfigSchemaVersion => ScalarHasNoNames(o[k]);
      case ConfigRevision => ScalarHasNoNames(o[k]);
      case ModifiedAt => ScalarHasNoNames(o[k]);
    }
  }

  lemma RootUsesSchemaNames(o: Fields, c: EdgeConfig)
    requires RootFields(o, c) && MoreRootFields(o, c)
    ensures SchemaTree(Object(o))
  {
    hide RootFields, MoreRootFields;
    forall k | k in o
      ensures !k.Foreign? && SchemaTree(o[k])
    {
      MemberUsesSchemaNames(o, c, k);
    }
  }

  lemma SectionsRoundTrip(o: Fields, c: EdgeConfig, normalize: Normalizer)
    requires RootFields(o, c) && MoreRootFields(o, c) && ValidConfig(c, normalize)
    ensures ParseSections(o, SCHEMA_VERSION, c.configRevision, c.modifiedAt, normalize) == Some(c)
  {
    SystemRoundTrip(c.system);
    CamerasRoundTrip(c.cameras);
    AcquisitionRoundTrip(c.acquisition);
    PreviewRoundTrip(c.preview);
    AlgorithmRoundTrip(c.algorithm, c.cameras);
    EventRoundTrip(c.event, c.algorithm);
    StorageRoundTrip(c.storage, normalize);
    UplinkRoundTrip(c.uplink);
    PlantIoRoundTrip(c.plantIo);
    LoggingRoundTrip(c.logging, normalize);
    HealthRoundTrip(c.health);
    TimeSyncRoundTrip(c.timeSync);
  }

  lemma RootRoundTrip(o: Fields, c: EdgeConfig, normalize: Normalizer)
    requires RootFields(o, c) && ValidConfig(c, normalize)
    requires ParseSections(o, SCHEMA_VERSION, c.configRevision, c.modifiedAt, normalize) == Some(c)
    ensures DeclaredSchema(Object(o)) == Some(SCHEMA_VERSION)
    ensures ParseRoot(Object(o), SCHEMA_VERSION, normalize) == Some(c)
  {
    hide SystemJson, CamerasJson, AcquisitionJson, PreviewJson, AlgorithmJson, EventJson, StorageJson;
    hide UplinkJson, PlantIoJson, LoggingJson, HealthJson, TimeSyncJson, ParseSections;
  }

  /** A configuration survives printing and parsing if and only if it is valid. */
  lemma SerializeThenParse(c: EdgeConfig, normalize: Normalizer)
    ensures ValidConfig(c, normalize) <==> ParseConfig(SerializeConfig(c), normalize) == Success(c)
  {
    hide SystemJson, CamerasJson, AcquisitionJson, PreviewJson, AlgorithmJson, EventJson, StorageJson;
    hide UplinkJson, PlantIoJson, LoggingJson, HealthJson, TimeSyncJson, SchemaTree, ContainsSensitiveKey;
    if ValidConfig(c, normalize) {
      var o := SerializeConfig(c).root.fields;
      PrintedRoot(c);
      PrintedRestOfRoot(c);
      RootUsesSchemaNames(o, c);
      SchemaTreeIsHarmless(Object(o));
      SectionsRoundTrip(o, c, normalize);
      RootRoundTrip(o, c, normalize);
    }
  }

  /** Whatever document was accepted, in any schema, printing what was read and reading it again changes nothing. */
  lemma ParseSerializeParse(text: Document, normalize: Normalizer)
    ensures var read := ParseConfig(text, normalize);
            read.Success? ==> ParseConfig(SerializeConfig(read.value), normalize) == read
  {
    var read := ParseConfig(text, normalize);
    if read.Success? {
      SerializeThenParse(read.value, normalize);
    }
  }

  /** The migration is complete: the printed form of an accepted older document is a version 8 document. */
  lemma MigrationEndsInCurrentSchema(text: Document, normalize: Normalizer)
    ensures var read := ParseConfig(text, normalize);
            read.Success? ==>
              && text.Tree? && DeclaredSchema(text.root).Some?
              && 2 <= DeclaredSchema(text.root).value <= SCHEMA_VERSION
              && DeclaredSchema(SerializeConfig(read.value).root) == Some(SCHEMA_VERSION)
  {
    var read := ParseConfig(text, normalize);
    if read.Success? {
      PrintedRoot(read.value);
    }
  }
}
