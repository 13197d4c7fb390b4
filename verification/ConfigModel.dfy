/**
 The configuration record and the domain every accepted configuration lies in: field ranges,
 section constraints and the constraints across sections.
 */
module ConfigModel {

  const SCHEMA_VERSION: nat := 8
  const MAXIMUM_CAMERA_COUNT: nat := 6
  const MAX_UINT64: nat := 0xFFFF_FFFF_FFFF_FFFF

  datatype PixelFormat = Mono8 | Mono10 | Mono12 | BayerRg8
  datatype TriggerMode = Continuous | Hardware | Software
  datatype ExposureAutoMode = Off | Once | AlwaysOn
  datatype ActiveLevel = High | Low
  datatype LogLevel = Trace | Debug | Info | Warning | Error | Critical
  datatype DownsampleMode = Disabled | Half | Quarter
  datatype ProcessingFps = Fps15 | Fps30 | Fps60

  datatype RoiConfig = RoiConfig(width: nat, height: nat, offsetX: nat, offsetY: nat)

  datatype SystemConfig = SystemConfig(machineId: string, productionLineId: string, shutdownTimeoutMs: nat)

  datatype LineIoConfig = LineIoConfig(
    alarmInputEnabled: bool, alarmActiveLevel: ActiveLevel, strobeOutputEnabled: bool,
    strobeDurationUs: nat, strobePreDelayUs: nat, strobePostDelayUs: nat)

  datatype CameraConfig = CameraConfig(
    id: string, enabled: bool, serialNumber: string, location: string, exposureUs: real,
    exposureAutoMode: ExposureAutoMode, gainDb: real, frameRate: real, roi: RoiConfig,
    reverseX: bool, reverseY: bool, pixelFormat: PixelFormat, triggerMode: TriggerMode,
    triggerSource: string, triggerDelayUs: nat, packetSizeBytes: nat, interPacketDelayNs: nat,
    lineIo: LineIoConfig)

  datatype AcquisitionConfig = AcquisitionConfig(
    autoStart: bool, startupRetryIntervalMs: nat, startupRetryCount: nat, framePoolCapacity: nat,
    queueCapacity: nat, receiveTimeoutMs: nat, threadPriority: string)

  datatype PreviewConfig = PreviewConfig(
    enabled: bool, fps: real, maxWidth: nat, maxHeight: nat, jpegQuality: nat)

  datatype AlgorithmConfig = AlgorithmConfig(
    enabled: bool, kind: string, roi: RoiConfig, downsampleMode: DownsampleMode,
    processingFps: ProcessingFps, candidateThreshold: real, confirmationThreshold: real,
    confirmationDurationMs: nat, cooldownMs: nat, rearmDurationMs: nat, modelReference: string,
    modelVersion: string, device: string, debugOverlay: bool)

  datatype EventConfig = EventConfig(
    preEventSeconds: nat, postEventSeconds: nat, maxEventSeconds: nat, mergeGapSeconds: nat,
    keyFrameCount: nat, saveRaw: bool, generatePreviewVideo: bool, uploadPolicy: string,
    retentionDays: nat)

  datatype StorageConfig = StorageConfig(
    eventRoot: string, cacheRoot: string, rollingCacheEnabled: bool, maximumCacheStorageGib: nat,
    rollingCacheWriteLimitMibps: nat, rollingCacheIoTimeoutMs: nat, warningFreeSpaceGib: nat,
    criticalFreeSpaceGib: nat, stopFreeSpaceGib: nat, maximumEventStorageGib: nat)

  datatype UplinkConfig = UplinkConfig(
    enabled: bool, serverUrl: string, heartbeatSeconds: nat, chunkBytes: nat, ioTimeoutMs: nat,
    uploadLimitMibps: nat, credentialReference: string, certificateReference: string)

  datatype PlantIoConfig = PlantIoConfig(
    enabled: bool, adapterType: string, endpoint: string, credentialReference: string,
    pollIntervalMs: nat)

  datatype LoggingConfig = LoggingConfig(
    level: LogLevel, directory: string, retentionDays: nat, maximumFileSizeMib: nat,
    maximumFilesPerDay: nat, queueCapacity: nat)

  datatype HealthConfig = HealthConfig(
    sampleIntervalMs: nat, cpuWarningPercent: real, memoryWarningPercent: real,
    droppedFrameWarningRatio: real, heartbeatStaleSeconds: nat)

  datatype TimeSyncConfig = TimeSyncConfig(
    samplePeriodMs: nat, probeTimeoutMs: nat, receiveClockUncertaintyNs: nat,
    warningThresholdNs: nat, alarmThresholdNs: nat, warningDurationMs: nat, alarmDurationMs: nat)

  datatype EdgeConfig = EdgeConfig(
    configSchemaVersion: nat, configRevision: nat, modifiedAt: string, system: SystemConfig,
    cameras: seq<CameraConfig>, acquisition: AcquisitionConfig, preview: PreviewConfig,
    algorithm: AlgorithmConfig, event: EventConfig, storage: StorageConfig, uplink: UplinkConfig,
    plantIo: PlantIoConfig, logging: LoggingConfig, health: HealthConfig, timeSync: TimeSyncConfig)

  /** A normalised path: whether it is relative, and its components. */
  datatype NormalPath = NormalPath(relative: bool, parts: seq<string>)

  type Normalizer = string -> NormalPath

  // ---------------------------------------------------------------- text shapes

  predicate AsciiDigit(c: char) { '0' <= c <= '9' }

  predicate AsciiAlnum(c: char) { AsciiDigit(c) || 'a' <= c <= 'z' || 'A' <= c <= 'Z' }

  /** A letter or digit, then up to 63 letters, digits, dots, underscores and hyphens. */
  predicate ValidIdentifier(s: string) {
    && 1 <= |s| <= 64
    && AsciiAlnum(s[0])
    && forall k | 1 <= k < |s| :: AsciiAlnum(s[k]) || s[k] == '.' || s[k] == '_' || s[k] == '-'
  }

  /** dddd-dd-ddTdd:dd:dd.dddZ */
  predicate ValidTimestamp(s: string) {
    && |s| == 24
    && s[4] == '-' && s[7] == '-' && s[10] == 'T' && s[13] == ':' && s[16] == ':' && s[19] == '.' && s[23] == 'Z'
    && forall k | 0 <= k < 23 && k !in {4, 7, 10, 13, 16, 19} :: AsciiDigit(s[k])
  }

  predicate StartsWith(s: string, prefix: string) {
    |prefix| <= |s| && s[..|prefix|] == prefix
  }

  predicate ValidPath(text: string, normalize: Normalizer) {
    && 1 <= |text| <= 1024
    && '\0' !in text && !StartsWith(text, "\\\\.\\") && !StartsWith(text, "\\\\?\\")
    && var path := normalize(text);
       path.parts != [] && (path.relative ==> path.parts[0] != "..")
  }

  // ---------------------------------------------------------------- section domains

  predicate ValidSystem(c: SystemConfig) {
    && ValidIdentifier(c.machineId)
    && ValidIdentifier(c.productionLineId)
    && 1000 <= c.shutdownTimeoutMs <= 300000
  }

  predicate ValidCameraRoi(c: RoiConfig) {
    && 1 <= c.width && 1 <= c.height
    && c.offsetX + c.width <= 16384
    && c.offsetY + c.height <= 16384
  }

  predicate FullFrame(c: RoiConfig) { c == RoiConfig(0, 0, 0, 0) }

  /** The whole frame, or a non-empty window. */
  predicate ValidAlgorithmRoi(c: RoiConfig) { FullFrame(c) || ValidCameraRoi(c) }

  predicate ValidLineIo(c: LineIoConfig) {
    && c.strobeDurationUs <= 60000000
    && c.strobePreDelayUs <= 60000000
    && c.strobePostDelayUs <= 60000000
    && (c.strobeOutputEnabled ==> c.strobeDurationUs > 0)
  }

  predicate CanonicalCameraId(id: string) {
    |id| == 5 && id[..4] == "CAM0" && '1' <= id[4] <= '6'
  }

  predicate ValidCamera(c: CameraConfig) {
    && CanonicalCameraId(c.id)
    && (c.enabled ==> c.serialNumber != "")
    && |c.serialNumber| <= 128
    && 1 <= |c.location| <= 128
    && 1.0 <= c.exposureUs <= 10000000.0
    && -24.0 <= c.gainDb <= 48.0
    && 0.1 <= c.frameRate <= 1000.0
    && ValidCameraRoi(c.roi)
    && |c.triggerSource| <= 64
    && (c.triggerMode == Hardware ==> c.triggerSource != "")
    && c.triggerDelayUs <= 60000000
    && 576 <= c.packetSizeBytes <= 9000
    && c.interPacketDelayNs <= 1000000000
    && ValidLineIo(c.lineIo)
    && (!c.enabled ==> !c.lineIo.alarmInputEnabled && !c.lineIo.strobeOutputEnabled)
  }

  /** Camera ids are unique, and so are the serial numbers of the enabled cameras. */
  predicate ValidCameras(cs: seq<CameraConfig>) {
    && |cs| <= MAXIMUM_CAMERA_COUNT
    && (forall i | 0 <= i < |cs| :: ValidCamera(cs[i]))
    && (forall i, j | 0 <= i < j < |cs| :: cs[i].id != cs[j].id)
    && (forall i, j | 0 <= i < j < |cs| && cs[i].enabled && cs[j].enabled ::
          cs[i].serialNumber != cs[j].serialNumber)
  }

  predicate ValidAcquisition(c: AcquisitionConfig) {
    && 1 <= c.startupRetryIntervalMs <= 60000
    && c.startupRetryCount <= 10
    && 1 <= c.queueCapacity <= c.framePoolCapacity <= 4096
    && 1 <= c.receiveTimeoutMs <= 60000
    && c.threadPriority in ["low", "normal", "high"]
  }

  predicate ValidPreview(c: PreviewConfig) {
    && 0.1 <= c.fps <= 30.0
    && 64 <= c.maxWidth <= 8192
    && 64 <= c.maxHeight <= 8192
    && 1 <= c.jpegQuality <= 100
  }

  predicate ValidAlgorithm(c: AlgorithmConfig) {
    && 1 <= |c.kind| <= 64
    && ValidAlgorithmRoi(c.roi)
    && 0.0 <= c.candidateThreshold <= c.confirmationThreshold <= 1.0
    && 10 <= c.confirmationDurationMs <= 60000
    && c.cooldownMs <= 3600000
    && c.rearmDurationMs <= 3600000
    && |c.modelReference| <= 512
    && |c.modelVersion| <= 128
    && 1 <= |c.device| <= 64
  }

  predicate ValidEvent(c: EventConfig) {
    && c.preEventSeconds <= 600
    && c.postEventSeconds <= 600
    && 1 <= c.maxEventSeconds <= 3600
    && c.preEventSeconds + c.postEventSeconds <= c.maxEventSeconds
    && c.mergeGapSeconds <= c.maxEventSeconds
    && 1 <= c.keyFrameCount <= 32
    && c.uploadPolicy in ["never", "confirmed", "all"]
    && 1 <= c.retentionDays <= 3650
  }

  predicate ValidStorage(c: StorageConfig, normalize: Normalizer) {
    && ValidPath(c.eventRoot, normalize)
    && ValidPath(c.cacheRoot, normalize)
    && normalize(c.eventRoot) != normalize(c.cacheRoot)
    && 1 <= c.maximumCacheStorageGib <= 1000000
    && 1 <= c.rollingCacheWriteLimitMibps <= 1000000
    && 100 <= c.rollingCacheIoTimeoutMs <= 600000
    && 1 <= c.stopFreeSpaceGib < c.criticalFreeSpaceGib < c.warningFreeSpaceGib <= 1000000
    && 1 <= c.maximumEventStorageGib <= 1000000
  }

  predicate ValidUplink(c: UplinkConfig) {
    && |c.serverUrl| <= 2048
    && 1 <= c.heartbeatSeconds <= 3600
    && 65536 <= c.chunkBytes <= 4194304
    && 100 <= c.ioTimeoutMs <= 60000
    && 1 <= c.uploadLimitMibps <= 1024
    && |c.credentialReference| <= 256
    && |c.certificateReference| <= 256
    && (c.enabled ==> StartsWith(c.serverUrl, "http://") && c.credentialReference == "" && c.certificateReference == "")
  }

  predicate ValidPlantIo(c: PlantIoConfig) {
    && c.adapterType in ["disabled", "mock"]
    && (c.enabled ==> c.adapterType == "mock")
    && |c.endpoint| <= 1024
    && |c.credentialReference| <= 256
    && 10 <= c.pollIntervalMs <= 60000
  }

  predicate ValidLogging(c: LoggingConfig, normalize: Normalizer) {
    && ValidPath(c.directory, normalize)
    && 1 <= c.retentionDays <= 3650
    && 1 <= c.maximumFileSizeMib <= 1024
    && 1 <= c.maximumFilesPerDay <= 100
    && 128 <= c.queueCapacity <= 65536
  }

  predicate ValidHealth(c: HealthConfig) {
    && 100 <= c.sampleIntervalMs <= 60000
    && 1.0 <= c.cpuWarningPercent <= 100.0
    && 1.0 <= c.memoryWarningPercent <= 100.0
    && 0.0 <= c.droppedFrameWarningRatio <= 1.0
    && 1 <= c.heartbeatStaleSeconds <= 3600
  }

  predicate ValidTimeSync(c: TimeSyncConfig) {
    && 100 <= c.samplePeriodMs <= 60000
    && 1 <= c.probeTimeoutMs <= 10000
    && c.probeTimeoutMs < c.samplePeriodMs
    && 1000000 <= c.receiveClockUncertaintyNs <= 60000000000
    && 1 <= c.warningThresholdNs < c.alarmThresholdNs <= 60000000000
    && c.warningDurationMs <= 3600000
    && c.alarmDurationMs <= 3600000
  }

  // ---------------------------------------------------------------- constraints across sections

  /** The algorithm window lies inside the picture of the camera. */
  predicate RoiFits(roi: RoiConfig, camera: CameraConfig) {
    && roi.offsetX + roi.width <= camera.roi.width
    && roi.offsetY + roi.height <= camera.roi.height
  }

  predicate RoiFitsEnabledCameras(roi: RoiConfig, cameras: seq<CameraConfig>) {
    FullFrame(roi) || forall i | 0 <= i < |cameras| && cameras[i].enabled :: RoiFits(roi, cameras[i])
  }

  predicate ConfirmationFitsEvent(algorithm: AlgorithmConfig, event: EventConfig) {
    algorithm.confirmationDurationMs <= event.maxEventSeconds * 1000
  }

  predicate ValidConfig(c: EdgeConfig, normalize: Normalizer) {
    && c.configSchemaVersion == SCHEMA_VERSION
    && 1 <= c.configRevision <= MAX_UINT64
    && ValidTimestamp(c.modifiedAt)
    && ValidSystem(c.system)
    && ValidCameras(c.cameras)
    && ValidAcquisition(c.acquisition)
    && ValidPreview(c.preview)
    && ValidAlgorithm(c.algorithm)
    && ValidEvent(c.event)
    && ValidStorage(c.storage, normalize)
    && ValidUplink(c.uplink)
    && ValidPlantIo(c.plantIo)
    && ValidLogging(c.logging, normalize)
    && ValidHealth(c.health)
    && ValidTimeSync(c.timeSync)
    && RoiFitsEnabledCameras(c.algorithm.roi, c.cameras)
    && ConfirmationFitsEvent(c.algorithm, c.event)
  }
}
