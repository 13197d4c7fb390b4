/**
 Documents of older schema versions: how a configuration is written in each of them, and what is read.
 The values of the members that a version lacks are those its readers worked with.
 */
module ConfigMigration {
  import opened Wrappers
  import opened JsonTree
  import opened ConfigModel
  import opened ConfigParser
  import opened ConfigPrinter

  /**
   What a document leaves out: of each camera, of the acquisition section, and whether `timeSync`.
   `frames` is the confirmation of the versions before 5, which counted frames.
   */
  datatype Lacking = Lacking(cameras: seq<set<Key>>, acquisition: set<Key>, timeSync: bool, frames: nat)

  /** What may be left out: the mirror flags and three acquisition members in every version, the rest in older ones. */
  predicate MayLack(schema: nat, lacking: Lacking) {
    && (forall i | 0 <= i < |lacking.cameras| ::
          lacking.cameras[i]
          <= {Key.ReverseX, Key.ReverseY} + (if schema < 4 then {Key.AutoExposure} else {})
             + (if schema < 3 then {Key.LineIo} else {}))
    && lacking.acquisition <= {Key.AutoStart, Key.StartupRetryIntervalMs, Key.StartupRetryCount}
    && (lacking.timeSync ==> schema < 8)
    && (schema < 5 ==> 1 <= lacking.frames <= 1000)
  }

  // ---------------------------------------------------------------- writing in an older version

  function OlderCamera(c: CameraConfig, lacking: set<Key>): Json {
    Object(CameraJson(c).fields - lacking)
  }

  function OlderCameras(cs: seq<CameraConfig>, lacking: seq<set<Key>>): seq<Json>
    requires |lacking| == |cs|
  {
    seq(|cs|, i requires 0 <= i < |cs| => OlderCamera(cs[i], lacking[i]))
  }

  function OlderAcquisition(c: AcquisitionConfig, lacking: set<Key>): Json {
    Object(AcquisitionJson(c).fields - lacking)
  }

  function OlderAlgorithm(c: AlgorithmConfig, schema: nat, frames: nat): Json {
    if schema >= 6 then AlgorithmJson(c)
    else if schema == 5 then Object(AlgorithmJson(c).fields - {Key.RearmDurationMs})
    else
      Object((AlgorithmJson(c).fields
              - {Key.RearmDurationMs, Key.DownsampleMode, Key.ProcessingFps, Key.ConfirmationDurationMs})
             [Key.ConsecutiveFrames := Unsigned(frames)])
  }

  /** `c` as a document of this schema version. */
  function OlderDocument(c: EdgeConfig, schema: nat, lacking: Lacking): Document
    requires |lacking.cameras| == |c.cameras|
  {
    var o := Rewritten(SerializeConfig(c).root.fields, c, schema, lacking);
    Tree(Object(if lacking.timeSync then o - {Key.TimeSync} else o))
  }

  function Rewritten(o: Fields, c: EdgeConfig, schema: nat, lacking: Lacking): Fields
    requires |lacking.cameras| == |c.cameras|
  {
    o[Key.ConfigSchemaVersion := Unsigned(schema)]
     [Key.Cameras := Array(OlderCameras(c.cameras, lacking.cameras))]
     [Key.Acquisition := OlderAcquisition(c.acquisition, lacking.acquisition)]
     [Key.Algorithm := OlderAlgorithm(c.algorithm, schema, lacking.frames)]
  }

  // ---------------------------------------------------------------- what it means in the current version

  function MigratedCamera(c: CameraConfig, lacking: set<Key>): CameraConfig {
    c.(reverseX := c.reverseX && Key.ReverseX !in lacking,
    reverseY := c.reverseY && Key.ReverseY !in lacking,
    exposureAutoMode := if Key.AutoExposure in lacking then Off else c.exposureAutoMode,
    lineIo := if Key.LineIo in lacking then LineIoConfig(false, High, false, 0, 0, 0) else c.lineIo)
  }

  function MigratedAcquisition(c: AcquisitionConfig, lacking: set<Key>): AcquisitionConfig {
    c.(autoStart := c.autoStart && Key.AutoStart !in lacking,
    startupRetryIntervalMs := if Key.StartupRetryIntervalMs in lacking then 1000 else c.startupRetryIntervalMs,
    startupRetryCount := if Key.StartupRetryCount in lacking then 3 else c.startupRetryCount)
  }

  function MigratedAlgorithm(c: AlgorithmConfig, schema: nat, durationMs: nat): AlgorithmConfig {
    var rearmed := if schema < 6 then c.(rearmDurationMs := 500) else c;
    if schema < 5 then
      rearmed.(downsampleMode := Disabled, processingFps := Fps60, confirmationDurationMs := durationMs)
    else rearmed
  }

  function Migrated(c: EdgeConfig, schema: nat, lacking: Lacking, durationMs: nat): EdgeConfig
    requires |lacking.cameras| == |c.cameras|
  {
    c.(cameras := seq(|c.cameras|, i requires 0 <= i < |c.cameras| =>
                                     MigratedCamera(c.cameras[i], lacking.cameras[i])),
    acquisition := MigratedAcquisition(c.acquisition, lacking.acquisition),
    algorithm := MigratedAlgorithm(c.algorithm, schema, durationMs),
    timeSync := if lacking.timeSync then TimeSyncConfig(1000, 250, 50000000, 1000000, 5000000, 3000, 3000)
                else c.timeSync)
  }

  // ---------------------------------------------------------------- section by section

  lemma PrintedCameraMembers(c: CameraConfig)
    ensures CameraJson(c).Object? && CameraJson(c).fields.Keys == CAMERA_FIELDS
    ensures var o := CameraJson(c).fields;
            && {Key.ReverseX, Key.ReverseY, Key.AutoExposure, Key.LineIo} <= o.Keys
            && o[Key.ReverseX] == Bool(c.reverseX) && o[Key.ReverseY] == Bool(c.reverseY)
            && o[Key.AutoExposure] == Text(ExposureModeName(c.exposureAutoMode))
            && o[Key.LineIo] == LineIoJson(c.lineIo)
  {
    PrintedCameraFields(c);
  }

  lemma OtherCameraMembersAgree(c: CameraConfig, m: CameraConfig, k: Key)
    requires m == c.(reverseX := m.reverseX, reverseY := m.reverseY, exposureAutoMode := m.exposureAutoMode,
                     lineIo := m.lineIo)
    requires k in CameraJson(c).fields && k in CameraJson(m).fields
    requires k !in {Key.ReverseX, Key.ReverseY, Key.AutoExposure, Key.LineIo}
    ensures CameraJson(m).fields[k] == CameraJson(c).fields[k]
  {}

  /** What `MigrateCamera` does to the members of a camera that lacks some of the four. */
  lemma FilledIn(o: Fields, schema: nat, lacking: set<Key>)
    requires 2 <= schema && {Key.ReverseX, Key.ReverseY, Key.AutoExposure, Key.LineIo} <= o.Keys
    requires lacking <= {Key.ReverseX, Key.ReverseY} + (if schema < 4 then {Key.AutoExposure} else {})
                        + (if schema < 3 then {Key.LineIo} else {})
    ensures MigrateCamera(Object(o - lacking), schema).Object?
    ensures var filled := MigrateCamera(Object(o - lacking), schema).fields;
            && filled.Keys == o.Keys
            && filled[Key.ReverseX] == (if Key.ReverseX in lacking then Bool(false) else o[Key.ReverseX])
            && filled[Key.ReverseY] == (if Key.ReverseY in lacking then Bool(false) else o[Key.ReverseY])
            && filled[Key.AutoExposure] == (if Key.AutoExposure in lacking then Text("Off") else o[Key.AutoExposure])
            && filled[Key.LineIo] == (if Key.LineIo in lacking then LINE_IO_DEFAULT else o[Key.LineIo])
            && forall k | k in o
                && k !in {Key.ReverseX, Key.ReverseY, Key.AutoExposure, Key.LineIo} :: filled[k] == o[k]
  {}

  lemma DefaultLineIo()
    ensures LINE_IO_DEFAULT == LineIoJson(LineIoConfig(false, High, false, 0, 0, 0))
  {}

  /** Filling in what is missing gives the printed form of the migrated camera. */
  lemma CameraIsMigrated(c: CameraConfig, schema: nat, lacking: set<Key>)
    requires 2 <= schema
    requires lacking <= {Key.ReverseX, Key.ReverseY} + (if schema < 4 then {Key.AutoExposure} else {})
                        + (if schema < 3 then {Key.LineIo} else {})
    ensures MigrateCamera(OlderCamera(c, lacking), schema) == CameraJson(MigratedCamera(c, lacking))
  {
    hide CameraJson, MigrateCamera, LineIoJson;
    var m := MigratedCamera(c, lacking);
    PrintedCameraMembers(c);
    PrintedCameraMembers(m);
    var o, printed := CameraJson(c).fields, CameraJson(m).fields;
    FilledIn(o, schema, lacking);
    DefaultLineIo();
    var filled := MigrateCamera(OlderCamera(c, lacking), schema).fields;
    forall k | k in printed
      ensures filled[k] == printed[k]
    {
      if k !in {Key.ReverseX, Key.ReverseY, Key.AutoExposure, Key.LineIo} {
        OtherCameraMembersAgree(c, m, k);
      }
    }
    assert filled == printed;
  }

  lemma MigratedCamerasAreValid(cs: seq<CameraConfig>, ms: seq<CameraConfig>, lacking: seq<set<Key>>)
    requires ValidCameras(cs) && |cs| == |ms| == |lacking|
    requires forall i | 0 <= i < |cs| :: ms[i] == MigratedCamera(cs[i], lacking[i])
    ensures ValidCameras(ms)
  {
    hide CanonicalCameraId;
    forall i | 0 <= i < |ms|
      ensures ValidCamera(ms[i])
    {
      assert ValidCamera(cs[i]);
    }
  }

  lemma CamerasAreRead(items: seq<Json>, schema: nat, cs: seq<CameraConfig>, ms: seq<CameraConfig>,
                       lacking: seq<set<Key>>)
    requires ValidCameras(cs) && |items| == |cs| == |ms| == |lacking| && 2 <= schema
    requires forall i | 0 <= i < |cs| :: items[i] == OlderCamera(cs[i], lacking[i])
    requires forall i | 0 <= i < |cs| :: ms[i] == MigratedCamera(cs[i], lacking[i])
    requires forall i | 0 <= i < |cs| ::
               lacking[i] <= {Key.ReverseX, Key.ReverseY} + (if schema < 4 then {Key.AutoExposure} else {})
                             + (if schema < 3 then {Key.LineIo} else {})
    ensures ParseCameras(Array(items), schema) == Some(ms) && ValidCameras(ms)
  {
    hide MigrateCamera, OlderCamera, MigratedCamera, ParseCamera, ValidCamera;
    MigratedCamerasAreValid(cs, ms, lacking);
    forall i | 0 <= i < |ms|
      ensures ParseCamera(MigrateCamera(items[i], schema)) == Some(ms[i])
    {
      CameraIsMigrated(cs[i], schema, lacking[i]);
      CameraRoundTrip(ms[i]);
    }
    DistinctCamerasAreRead(items, schema, ms, {}, {});
  }

  lemma AcquisitionIsMigrated(c: AcquisitionConfig, lacking: set<Key>)
    requires lacking <= {Key.AutoStart, Key.StartupRetryIntervalMs, Key.StartupRetryCount}
    ensures MigrateAcquisition(OlderAcquisition(c, lacking)) == AcquisitionJson(MigratedAcquisition(c, lacking))
  {
    var filled := MigrateAcquisition(OlderAcquisition(c, lacking)).fields;
    var printed := AcquisitionJson(MigratedAcquisition(c, lacking)).fields;
    forall k
      ensures k in filled <==> k in printed
      ensures k in filled ==> filled[k] == printed[k]
    {}
    assert filled == printed;
  }

  lemma AcquisitionIsRead(c: AcquisitionConfig, lacking: set<Key>)
    requires ValidAcquisition(c)
    requires lacking <= {Key.AutoStart, Key.StartupRetryIntervalMs, Key.StartupRetryCount}
    ensures ParseAcquisition(OlderAcquisition(c, lacking)) == Some(MigratedAcquisition(c, lacking))
  {
    hide MigrateAcquisition, OlderAcquisition, AcquisitionJson;
    var m := MigratedAcquisition(c, lacking);
    AcquisitionIsMigrated(c, lacking);
    AcquisitionIsMigrated(m, {});
    assert MigratedAcquisition(m, {}) == m;
    PrintedAcquisition(m);
    AcquisitionRoundTrip(m);
  }

  lemma PrintedAcquisition(c: AcquisitionConfig)
    ensures OlderAcquisition(c, {}) == AcquisitionJson(c)
  {
    assert AcquisitionJson(c).fields - {} == AcquisitionJson(c).fields;
  }

  lemma DefaultTimeSyncIsRead()
    ensures ParseTimeSync(TIME_SYNC_DEFAULT)
         == Some(TimeSyncConfig(1000, 250, 50000000, 1000000, 5000000, 3000, 3000))
  {}

  // ---------------------------------------------------------------- the algorithm section

  predicate OlderModelFields(o: Fields, c: AlgorithmConfig) {
    && {Key.CooldownMs, Key.ModelReference, Key.ModelVersion, Key.Device, Key.DebugOverlay} <= o.Keys
    && o[Key.CooldownMs] == Unsigned(c.cooldownMs)
    && o[Key.ModelReference] == Text(c.modelReference)
    && o[Key.ModelVersion] == Text(c.modelVersion)
    && o[Key.Device] == Text(c.device)
    && o[Key.DebugOverlay] == Bool(c.debugOverlay)
  }

  lemma AssembleOlderAlgorithm(o: Fields, c: AlgorithmConfig, schema: nat, sampling: Sampling,
                               cameras: seq<CameraConfig>)
    requires ValidAlgorithm(c) && RoiFitsEnabledCameras(c.roi, cameras) && schema < 6
    requires o.Keys == if schema == 5 then ALGORITHM_FIELDS_V5 else ALGORITHM_FIELDS_BEFORE_V5
    requires DetectorFields(o, c) && OlderModelFields(o, c)
    requires ParseSampling(o, schema) == Some(sampling) && ParseAlgorithmRoi(o[Key.Roi]) == Some(c.roi)
    ensures ParseAlgorithm(Object(o), schema, cameras)
         == Some(c.(rearmDurationMs := 500, downsampleMode := sampling.mode, processingFps := sampling.fps,
                    confirmationDurationMs := sampling.durationMs))
  {
    hide ParseSampling, ParseAlgorithmRoi;
  }

  lemma VersionsFromSixAgree(j: Json, schema: nat, cameras: seq<CameraConfig>)
    requires schema >= 6
    ensures ParseAlgorithm(j, schema, cameras) == ParseAlgorithm(j, SCHEMA_VERSION, cameras)
  {}

  lemma OlderAlgorithmMembers(c: AlgorithmConfig, schema: nat, frames: nat)
    requires schema < 6
    ensures OlderAlgorithm(c, schema, frames).Object?
    ensures var o := OlderAlgorithm(c, schema, frames).fields;
            && o.Keys == (if schema == 5 then ALGORITHM_FIELDS_V5 else ALGORITHM_FIELDS_BEFORE_V5)
            && DetectorFields(o, c) && OlderModelFields(o, c)
            && (schema == 5 ==> SamplingFields(o, c))
            && (schema < 5 ==> o[Key.ConsecutiveFrames] == Unsigned(frames))
  {
    hide AlgorithmJson;
    PrintedModel(c);
    PrintedSamplingAndDetector(c);
  }

  lemma OlderAlgorithmIsRead(c: AlgorithmConfig, schema: nat, frames: nat, cameras: seq<CameraConfig>)
    requires ValidAlgorithm(c) && RoiFitsEnabledCameras(c.roi, cameras)
    requires 2 <= schema <= SCHEMA_VERSION && (schema < 5 ==> 1 <= frames <= 1000)
    ensures ParseAlgorithm(OlderAlgorithm(c, schema, frames), schema, cameras)
         == Some(MigratedAlgorithm(c, schema, ((frames * 1000 + 59) / 60 + 9) / 10 * 10))
  {
    hide AlgorithmJson, ParseAlgorithm, ParseAlgorithmRoi, RoiFitsEnabledCameras, OlderAlgorithm;
    if schema >= 6 {
      CurrentAlgorithmStays(c, schema, frames);
      AlgorithmRoundTrip(c, cameras);
      VersionsFromSixAgree(AlgorithmJson(c), schema, cameras);
    } else {
      OlderAlgorithmMembers(c, schema, frames);
      var o := OlderAlgorithm(c, schema, frames).fields;
      RoiRoundTrip(c.roi);
      SamplingIsRead(o, c, schema, frames);
      AssembleOlderAlgorithm(o, c, schema, SamplingOf(c, schema, frames), cameras);
    }
  }

  function SamplingOf(c: AlgorithmConfig, schema: nat, frames: nat): Sampling {
    if schema >= 5 then Sampling(c.downsampleMode, c.processingFps, c.confirmationDurationMs)
    else Sampling(Disabled, Fps60, ((frames * 1000 + 59) / 60 + 9) / 10 * 10)
  }

  lemma CurrentAlgorithmStays(c: AlgorithmConfig, schema: nat, frames: nat)
    requires schema >= 6
    ensures OlderAlgorithm(c, schema, frames) == AlgorithmJson(c)
  {}

  lemma SamplingIsRead(o: Fields, c: AlgorithmConfig, schema: nat, frames: nat)
    requires ValidAlgorithm(c) && 2 <= schema <= 5
    requires schema == 5 ==> SamplingFields(o, c)
    requires schema < 5 ==>
               1 <= frames <= 1000 && Key.ConsecutiveFrames in o && o[Key.ConsecutiveFrames] == Unsigned(frames)
    ensures ParseSampling(o, schema) == Some(SamplingOf(c, schema, frames))
  {
    MoreEnumNamesRoundTrip(Info, c.downsampleMode, c.processingFps);
  }

  // ---------------------------------------------------------------- only names of the schema

  lemma WithoutMembers(o: Fields, names: set<Key>)
    requires SchemaTree(Object(o))
    ensures SchemaTree(Object(o - names))
  {}

  lemma WithMember(o: Fields, k: Key, j: Json)
    requires SchemaTree(Object(o)) && !k.Foreign? && SchemaTree(j)
    ensures SchemaTree(Object(o[k := j]))
  {}

  lemma OlderCamerasUseSchemaNames(items: seq<Json>, cs: seq<CameraConfig>, lacking: seq<set<Key>>)
    requires |items| == |cs| == |lacking|
    requires forall i | 0 <= i < |cs| :: items[i] == OlderCamera(cs[i], lacking[i])
    ensures SchemaTree(Array(items))
  {
    hide CameraJson;
    forall i | 0 <= i < |items|
      ensures SchemaTree(items[i])
    {
      CameraUsesSchemaNames(cs[i]);
      PrintedCameraMembers(cs[i]);
      WithoutMembers(CameraJson(cs[i]).fields, lacking[i]);
    }
  }

  lemma OlderAlgorithmUsesSchemaNames(c: AlgorithmConfig, schema: nat, frames: nat)
    ensures SchemaTree(OlderAlgorithm(c, schema, frames))
  {
    hide SchemaTree;
    AlgorithmUsesSchemaNames(c);
    var o := AlgorithmJson(c).fields;
    WithoutMembers(o, {Key.RearmDurationMs});
    var rest := o - {Key.RearmDurationMs, Key.DownsampleMode, Key.ProcessingFps, Key.ConfirmationDurationMs};
    WithoutMembers(o, {Key.RearmDurationMs, Key.DownsampleMode, Key.ProcessingFps, Key.ConfirmationDurationMs});
    ScalarHasNoNames(Unsigned(frames));
    WithMember(rest, Key.ConsecutiveFrames, Unsigned(frames));
  }

  // ---------------------------------------------------------------- the whole document

  lemma RewrittenUsesSchemaNames(o: Fields, c: EdgeConfig, schema: nat, lacking: Lacking)
    requires |lacking.cameras| == |c.cameras| && SchemaTree(Object(o))
    ensures SchemaTree(Object(Rewritten(o, c, schema, lacking)))
  {
    hide SchemaTree, OlderAcquisition, OlderAlgorithm, OlderCamera;
    ScalarHasNoNames(Unsigned(schema));
    WithMember(o, Key.ConfigSchemaVersion, Unsigned(schema));
    var o1 := o[Key.ConfigSchemaVersion := Unsigned(schema)];
    var cameras := Array(OlderCameras(c.cameras, lacking.cameras));
    OlderCamerasUseSchemaNames(cameras.items, c.cameras, lacking.cameras);
    WithMember(o1, Key.Cameras, cameras);
    var o2 := o1[Key.Cameras := cameras];
    OlderAcquisitionUsesSchemaNames(c.acquisition, lacking.acquisition);
    WithMember(o2, Key.Acquisition, OlderAcquisition(c.acquisition, lacking.acquisition));
    var o3 := o2[Key.Acquisition := OlderAcquisition(c.acquisition, lacking.acquisition)];
    OlderAlgorithmUsesSchemaNames(c.algorithm, schema, lacking.frames);
    WithMember(o3, Key.Algorithm, OlderAlgorithm(c.algorithm, schema, lacking.frames));
  }

  lemma OlderDocumentUsesSchemaNames(c: EdgeConfig, schema: nat, lacking: Lacking)
    requires |lacking.cameras| == |c.cameras|
    ensures SchemaTree(OlderDocument(c, schema, lacking).root)
  {
    hide SchemaTree, SerializeConfig, Rewritten, RootFields, MoreRootFields;
    PrintedRoot(c);
    PrintedRestOfRoot(c);
    assert SerializeConfig(c).Tree? && SerializeConfig(c).root.Object? by { PrintedIsObject(c); }
    var o := SerializeConfig(c).root.fields;
    RootUsesSchemaNames(o, c);
    RewrittenUsesSchemaNames(o, c, schema, lacking);
    WithoutMembers(Rewritten(o, c, schema, lacking), {Key.TimeSync});
  }

  lemma OlderAcquisitionUsesSchemaNames(c: AcquisitionConfig, lacking: set<Key>)
    ensures SchemaTree(OlderAcquisition(c, lacking))
  {
    hide SchemaTree;
    AcquisitionUsesSchemaNames(c);
    WithoutMembers(AcquisitionJson(c).fields, lacking);
  }

  predicate OlderMembers(o: Fields, c: EdgeConfig, schema: nat, lacking: Lacking)
    requires |lacking.cameras| == |c.cameras|
  {
    && o.Keys == ROOT_FIELDS
    && o[Key.ConfigRevision] == Unsigned(c.configRevision) && o[Key.ModifiedAt] == Text(c.modifiedAt)
    && o[Key.System] == SystemJson(c.system) && o[Key.Preview] == PreviewJson(c.preview)
    && o[Key.Cameras] == Array(OlderCameras(c.cameras, lacking.cameras))
    && o[Key.Acquisition] == OlderAcquisition(c.acquisition, lacking.acquisition)
    && o[Key.Algorithm] == OlderAlgorithm(c.algorithm, schema, lacking.frames)
    && o[Key.Event] == EventJson(c.event) && o[Key.Storage] == StorageJson(c.storage)
    && o[Key.Uplink] == UplinkJson(c.uplink) && o[Key.PlantIo] == PlantIoJson(c.plantIo)
    && o[Key.Logging] == LoggingJson(c.logging) && o[Key.Health] == HealthJson(c.health)
    && o[Key.TimeSync] == if lacking.timeSync then TIME_SYNC_DEFAULT else TimeSyncJson(c.timeSync)
  }

  lemma RewrittenMembers(o: Fields, c: EdgeConfig, schema: nat, lacking: Lacking)
    requires RootFields(o, c) && MoreRootFields(o, c) && |lacking.cameras| == |c.cameras|
    ensures Rewritten(o, c, schema, lacking).Keys == ROOT_FIELDS
    ensures Rewritten(o, c, schema, lacking)[Key.ConfigSchemaVersion] == Unsigned(schema)
    ensures Rewritten(o, c, schema, lacking)[Key.TimeSync] == TimeSyncJson(c.timeSync)
    ensures OlderMembers(Rewritten(o, c, schema, lacking), c, schema, lacking.(timeSync := false))
  {
    hide SystemJson, PreviewJson, EventJson, StorageJson, UplinkJson, PlantIoJson, LoggingJson, HealthJson;
    hide TimeSyncJson, OlderCameras, OlderAcquisition, OlderAlgorithm, CamerasJson, AcquisitionJson, AlgorithmJson;
  }

  lemma OlderMembersWithTime(o: Fields, c: EdgeConfig, schema: nat, lacking: Lacking, timeSync: Json)
    requires |lacking.cameras| == |c.cameras| && OlderMembers(o, c, schema, lacking.(timeSync := false))
    requires timeSync == if lacking.timeSync then TIME_SYNC_DEFAULT else TimeSyncJson(c.timeSync)
    ensures OlderMembers(o[Key.TimeSync := timeSync], c, schema, lacking)
  {
    hide SystemJson, PreviewJson, EventJson, StorageJson, UplinkJson, PlantIoJson, LoggingJson, HealthJson;
    hide TimeSyncJson, OlderCameras, OlderAcquisition, OlderAlgorithm;
  }

  lemma OlderRoot(c: EdgeConfig, schema: nat, lacking: Lacking)
    requires |lacking.cameras| == |c.cameras| && (lacking.timeSync ==> schema < SCHEMA_VERSION)
    ensures Declares(OlderDocument(c, schema, lacking), schema)
    ensures var root := MigrateRoot(OlderDocument(c, schema, lacking).root, schema);
            root.Object? && OlderMembers(root.fields, c, schema, lacking)
  {
    hide SerializeConfig, OlderMembers, Rewritten, TimeSyncJson, RootFields, MoreRootFields;
    PrintedRoot(c);
    PrintedRestOfRoot(c);
    assert SerializeConfig(c).Tree? && SerializeConfig(c).root.Object? by { PrintedIsObject(c); }
    var o := Rewritten(SerializeConfig(c).root.fields, c, schema, lacking);
    RewrittenMembers(SerializeConfig(c).root.fields, c, schema, lacking);
    var timeSync := if lacking.timeSync then TIME_SYNC_DEFAULT else TimeSyncJson(c.timeSync);
    OlderMembersWithTime(o, c, schema, lacking, timeSync);
    assert MigrateRoot(OlderDocument(c, schema, lacking).root, schema).fields == o[Key.TimeSync := timeSync];
  }

  lemma PrintedIsObject(c: EdgeConfig)
    ensures SerializeConfig(c).Tree? && SerializeConfig(c).root.Object?
  {}

  lemma LongConfirmationIsRefused(c: EventConfig, algorithm: AlgorithmConfig)
    requires !ConfirmationFitsEvent(algorithm, c)
    ensures ParseEvent(EventJson(c), algorithm) == None
  {}

  function DurationOf(frames: nat): nat {
    ((frames * 1000 + 59) / 60 + 9) / 10 * 10
  }

  lemma OlderTimeSyncIsRead(c: TimeSyncConfig, lacks: bool)
    requires ValidTimeSync(c)
    ensures ParseTimeSync(if lacks then TIME_SYNC_DEFAULT else TimeSyncJson(c))
         == Some(if lacks then TimeSyncConfig(1000, 250, 50000000, 1000000, 5000000, 3000, 3000) else c)
  {
    DefaultTimeSyncIsRead();
    TimeSyncRoundTrip(c);
  }

  lemma OlderCamerasAreRead(c: EdgeConfig, schema: nat, lacking: Lacking, durationMs: nat)
    requires ValidCameras(c.cameras) && 2 <= schema && |lacking.cameras| == |c.cameras| && MayLack(schema, lacking)
    ensures var m := Migrated(c, schema, lacking, durationMs);
            && ParseCameras(Array(OlderCameras(c.cameras, lacking.cameras)), schema) == Some(m.cameras)
            && (RoiFitsEnabledCameras(c.algorithm.roi, c.cameras) ==>
                  RoiFitsEnabledCameras(c.algorithm.roi, m.cameras))
  {
    hide ParseCameras, ValidCameras, OlderCamera;
    CamerasAreRead(OlderCameras(c.cameras, lacking.cameras), schema, c.cameras,
                   Migrated(c, schema, lacking, durationMs).cameras, lacking.cameras);
  }

  lemma OlderSectionsAreRead(o: Fields, c: EdgeConfig, schema: nat, lacking: Lacking, normalize: Normalizer)
    requires ValidConfig(c, normalize) && 2 <= schema <= SCHEMA_VERSION
    requires |lacking.cameras| == |c.cameras| && MayLack(schema, lacking) && OlderMembers(o, c, schema, lacking)
    ensures ParseSections(o, schema, c.configRevision, c.modifiedAt, normalize)
         == if schema >= 5 || DurationOf(lacking.frames) <= c.event.maxEventSeconds * 1000
            then Some(Migrated(c, schema, lacking, DurationOf(lacking.frames))) else None
  {
    hide OlderCameras, OlderAcquisition, OlderAlgorithm, SystemJson, PreviewJson, EventJson, StorageJson, UplinkJson;
    hide PlantIoJson, LoggingJson, HealthJson, TimeSyncJson, ParseSystem, ParseCameras, ParseAcquisition, ParsePreview;
    hide ParseAlgorithm, ParseEvent, ParseStorage, ParseUplink, ParsePlantIo, ParseLogging, ParseHealth, ParseTimeSync;
    hide ValidCameras, ValidAlgorithm, ValidEvent, ValidStorage, ValidTimeSync, RoiFitsEnabledCameras;
    var m := Migrated(c, schema, lacking, DurationOf(lacking.frames));
    SystemRoundTrip(c.system);
    OlderCamerasAreRead(c, schema, lacking, DurationOf(lacking.frames));
    AcquisitionIsRead(c.acquisition, lacking.acquisition);
    PreviewRoundTrip(c.preview);
    OlderAlgorithmIsRead(c.algorithm, schema, lacking.frames, m.cameras);
    if ConfirmationFitsEvent(m.algorithm, c.event) {
      EventRoundTrip(c.event, m.algorithm);
    } else {
      LongConfirmationIsRefused(c.event, m.algorithm);
    }
    StorageRoundTrip(c.storage, normalize);
    UplinkRoundTrip(c.uplink);
    PlantIoRoundTrip(c.plantIo);
    LoggingRoundTrip(c.logging, normalize);
    HealthRoundTrip(c.health);
    OlderTimeSyncIsRead(c.timeSync, lacking.timeSync);
  }

  lemma OlderRootIsRead(o: Fields, c: EdgeConfig, schema: nat, lacking: Lacking, normalize: Normalizer)
    requires ValidConfig(c, normalize) && |lacking.cameras| == |c.cameras| && OlderMembers(o, c, schema, lacking)
    ensures ParseRoot(Object(o), schema, normalize)
         == ParseSections(o, schema, c.configRevision, c.modifiedAt, normalize)
  {
    hide OlderCameras, OlderAcquisition, OlderAlgorithm, SystemJson, PreviewJson, EventJson, StorageJson, UplinkJson;
    hide PlantIoJson, LoggingJson, HealthJson, TimeSyncJson, ParseSections;
  }

  lemma OlderTextIsRead(c: EdgeConfig, schema: nat, lacking: Lacking, normalize: Normalizer)
    requires ValidConfig(c, normalize) && 2 <= schema <= 8
    requires |lacking.cameras| == |c.cameras| && MayLack(schema, lacking)
    ensures ParseConfig(OlderDocument(c, schema, lacking), normalize)
         == if schema >= 5 || DurationOf(lacking.frames) <= c.event.maxEventSeconds * 1000
            then Success(Migrated(c, schema, lacking, DurationOf(lacking.frames))) else Failure(Invalid)
  {
    hide OlderDocument, ParseRoot, MigrateRoot, Migrated, OlderMembers, ValidConfig, SchemaTree, ParseConfig;
    hide ContainsSensitiveKey, DurationOf;
    var text := OlderDocument(c, schema, lacking);
    OlderRoot(c, schema, lacking);
    OlderDocumentUsesSchemaNames(c, schema, lacking);
    SchemaTreeIsHarmless(text.root);
    HarmlessIsReadAsDeclared(text, schema, normalize);
    var o := MigrateRoot(text.root, schema).fields;
    OlderRootIsRead(o, c, schema, lacking, normalize);
    OlderSectionsAreRead(o, c, schema, lacking, normalize);
  }

  lemma HarmlessIsReadAsDeclared(text: Document, schema: nat, normalize: Normalizer)
    requires Declares(text, schema) && !ContainsSensitiveKey(text.root) && 2 <= schema <= 8
    ensures var read := ParseRoot(MigrateRoot(text.root, schema), schema, normalize);
            ParseConfig(text, normalize) == if read.None? then Failure(Invalid) else Success(read.value)
  {
    hide ParseRoot, MigrateRoot, ContainsSensitiveKey;
  }

  /**
   Every valid configuration is accepted as written in each of the versions 2 to 8, whichever of the
   members that the version may lack are missing, and read with the values named here in their place;
   the one exception is a document that counts more frames than fit into its longest event.
   */
  lemma OlderDocumentIsRead(c: EdgeConfig, schema: nat, lacking: Lacking, normalize: Normalizer)
    requires ValidConfig(c, normalize) && 2 <= schema <= 8
    requires |lacking.cameras| == |c.cameras| && MayLack(schema, lacking)
    ensures var durationMs := ((lacking.frames * 1000 + 59) / 60 + 9) / 10 * 10;
            ParseConfig(OlderDocument(c, schema, lacking), normalize)
            == if schema >= 5 || durationMs <= c.event.maxEventSeconds * 1000
               then Success(Migrated(c, schema, lacking, durationMs)) else Failure(Invalid)
  {
    hide OlderDocument, ParseConfig, Migrated, ValidConfig, MayLack;
    OlderTextIsRead(c, schema, lacking, normalize);
  }

  /** No other version is accepted. */
  lemma OtherVersionsAreRefused(c: EdgeConfig, schema: nat, lacking: Lacking, normalize: Normalizer)
    requires |lacking.cameras| == |c.cameras| && !(2 <= schema <= 8) && !lacking.timeSync
    ensures ParseConfig(OlderDocument(c, schema, lacking), normalize)
         == Failure(if 1 <= schema <= 0xFFFF_FFFF then SchemaUnsupported else Invalid)
  {
    hide OlderDocument, ParseRoot, MigrateRoot, OlderMembers, SchemaTree, ContainsSensitiveKey;
    OlderRoot(c, schema, lacking);
    OlderDocumentUsesSchemaNames(c, schema, lacking);
    SchemaTreeIsHarmless(OlderDocument(c, schema, lacking).root);
  }
}
