/**
 The JSON tree a configuration file is read into, the typed field readers, and the search for
 field names that look like plain-text credentials.

 A field name of the configuration schema is a constructor of `Key`; any other name is
 `Foreign(name)`. Lexing, numbers out of range and duplicate names are not part of this model.
 */
module JsonTree {
  import opened Wrappers

  datatype Key =
    // root
    | ConfigSchemaVersion | ConfigRevision | ModifiedAt | System | Cameras | Acquisition | Preview
    | Algorithm | Event | Storage | Uplink | PlantIo | Logging | Health | TimeSync
    // system
    | MachineId | ProductionLineId | ShutdownTimeoutMs
    // cameras
    | Id | Enabled | SerialNumber | Location | ExposureUs | AutoExposure | GainDb | FrameRate | Roi
    | PixelFormat | TriggerMode | TriggerSource | TriggerDelayUs | PacketSizeBytes
    | InterPacketDelayNs | ReverseX | ReverseY | LineIo
    | Width | Height | OffsetX | OffsetY
    | AlarmInputEnabled | AlarmActiveLevel | StrobeOutputEnabled | StrobeDurationUs
    | StrobePreDelayUs | StrobePostDelayUs
    // acquisition
    | AutoStart | StartupRetryIntervalMs | StartupRetryCount | FramePoolCapacity | QueueCapacity
    | ReceiveTimeoutMs | ThreadPriority
    // preview
    | Fps | MaxWidth | MaxHeight | JpegQuality
    // algorithm
    | Type | DownsampleMode | ProcessingFps | CandidateThreshold | ConfirmationThreshold
    | ConfirmationDurationMs | ConsecutiveFrames | CooldownMs | RearmDurationMs | ModelReference
    | ModelVersion | Device | DebugOverlay
    // event
    | PreEventSeconds | PostEventSeconds | MaxEventSeconds | MergeGapSeconds | KeyFrameCount
    | SaveRaw | GeneratePreviewVideo | UploadPolicy | RetentionDays
    // storage
    | EventRoot | CacheRoot | RollingCacheEnabled | MaximumCacheStorageGiB
    | RollingCacheWriteLimitMiBps | RollingCacheIoTimeoutMs | WarningFreeSpaceGiB
    | CriticalFreeSpaceGiB | StopFreeSpaceGiB | MaximumEventStorageGiB
    // uplink and plantIo
    | ServerUrl | HeartbeatSeconds | ChunkBytes | IoTimeoutMs | UploadLimitMiBps
    | CredentialReference | CertificateReference | AdapterType | Endpoint | PollIntervalMs
    // logging
    | Level | Directory | MaximumFileSizeMiB | MaximumFilesPerDay
    // health
    | SampleIntervalMs | CpuWarningPercent | MemoryWarningPercent | DroppedFrameWarningRatio
    | HeartbeatStaleSeconds
    // timeSync
    | SamplePeriodMs | ProbeTimeoutMs | ReceiveClockUncertaintyNs | WarningThresholdNs
    | AlarmThresholdNs | WarningDurationMs | AlarmDurationMs
    | Foreign(name: string)

  type Fields = map<Key, Json>

  datatype Json =
    | Null
    | Bool(flag: bool)
    | Unsigned(n: nat)
    | Negative(i: int)
    | Float(x: real)
    | Text(s: string)
    | Array(items: seq<Json>)
    | Object(fields: Fields)

  // ---------------------------------------------------------------- field readers

  function ExactFields(j: Json, names: set<Key>): Option<Fields> {
    if j.Object? && j.fields.Keys == names then Some(j.fields) else None
  }

  function StringField(o: Fields, name: Key, maximum: nat, allowEmpty: bool := false): Option<string> {
    if name in o && o[name].Text? && (allowEmpty || o[name].s != "") && |o[name].s| <= maximum
    then Some(o[name].s)
    else None
  }

  function BoolField(o: Fields, name: Key): Option<bool> {
    if name in o && o[name].Bool? then Some(o[name].flag) else None
  }

  function UnsignedField(o: Fields, name: Key, minimum: nat, maximum: nat): Option<nat> {
    if name in o && o[name].Unsigned? && minimum <= o[name].n <= maximum then Some(o[name].n) else None
  }

  /** Every number kind of the tree converts to a real. */
  function NumberField(o: Fields, name: Key, minimum: real, maximum: real): Option<real> {
    if name !in o then None
    else
      var x :- match o[name]
               case Unsigned(n) => Some(n as real)
               case Negative(i) => Some(i as real)
               case Float(x) => Some(x)
               case _ => None;
      if minimum <= x <= maximum then Some(x) else None
  }

  function WithDefault(o: Fields, name: Key, value: Json): Fields {
    if name in o then o else o[name := value]
  }

  // ---------------------------------------------------------------- credentials in clear

  function Lower(c: char): char {
    if 'A' <= c <= 'Z' then c - 'A' + 'a' else c
  }

  predicate MatchesAt(word: string, text: string, i: nat)
    requires i + |word| <= |text|
  {
    forall k | 0 <= k < |word| :: Lower(text[i + k]) == word[k]
  }

  predicate OccursIgnoringCase(word: string, text: string) {
    exists i | 0 <= i <= |text| - |word| :: MatchesAt(word, text, i)
  }

  /** Only foreign names are searched; none of the schema names listed above contains one of the words. */
  predicate SensitiveKey(key: Key) {
    && key.Foreign?
    && (exists word | word in ["password", "token", "secret", "privatekey", "private-key", "private_key"] ::
          OccursIgnoringCase(word, key.name))
  }

  predicate ContainsSensitiveKey(j: Json) {
    match j
    case Object(fields) => exists k | k in fields :: SensitiveKey(k) || ContainsSensitiveKey(fields[k])
    case Array(items) => exists i | 0 <= i < |items| :: ContainsSensitiveKey(items[i])
    case _ => false
  }

  /** All names in the tree are names of the schema. */
  predicate SchemaTree(j: Json) {
    match j
    case Object(fields) => forall k | k in fields :: !k.Foreign? && SchemaTree(fields[k])
    case Array(items) => forall i | 0 <= i < |items| :: SchemaTree(items[i])
    case _ => true
  }

  lemma {:induction false} SchemaTreeIsHarmless(j: Json)
    requires SchemaTree(j)
    ensures !ContainsSensitiveKey(j)
  {
    match j
    case Object(fields) =>
      forall k | k in fields
        ensures !ContainsSensitiveKey(fields[k])
      {
        SchemaTreeIsHarmless(fields[k]);
      }
    case Array(items) =>
      forall i | 0 <= i < |items|
        ensures !ContainsSensitiveKey(items[i])
      {
        SchemaTreeIsHarmless(items[i]);
      }
    case _ =>
  }
}
