/**
 What changed between two configurations, which changes wait for a restart, and the effective
 configuration that results: restart-only sections stay as they are until the next start.
 */
module ConfigPaths {
  import opened ConfigModel

  /** The paths a change is reported under, in the order of their texts. */
  datatype ConfigPath =
    | AcquisitionPath         // /acquisition
    | AlgorithmPath           // /algorithm
    | CamerasPath             // /cameras
    | CameraParametersPath    // /cameras/parameters
    | EventPath               // /event
    | HealthPath              // /health
    | LoggingLivePath         // /logging/live
    | LoggingRuntimePath      // /logging/runtime
    | PlantIoPath             // /plantIo
    | PreviewPath             // /preview
    | StorageNvmePath         // /storage/nvme
    | StorageRootsPath        // /storage/roots
    | StorageWatermarksPath   // /storage/watermarks
    | SystemPath              // /system
    | TimeSyncPath            // /timeSync
    | UplinkTransportPath     // /uplink/transport

  const PATH_COUNT := 16

  function PathAt(n: nat): ConfigPath
    requires n < PATH_COUNT
  {
    if n < 8 then
      match n
      case 0 => AcquisitionPath
      case 1 => AlgorithmPath
      case 2 => CamerasPath
      case 3 => CameraParametersPath
      case 4 => EventPath
      case 5 => HealthPath
      case 6 => LoggingLivePath
      case _ => LoggingRuntimePath
    else
      match n
      case 8 => PlantIoPath
      case 9 => PreviewPath
      case 10 => StorageNvmePath
      case 11 => StorageRootsPath
      case 12 => StorageWatermarksPath
      case 13 => SystemPath
      case 14 => TimeSyncPath
      case _ => UplinkTransportPath
  }

  function Rank(p: ConfigPath): nat {
    match p
    case AcquisitionPath => 0
    case AlgorithmPath => 1
    case CamerasPath => 2
    case CameraParametersPath => 3
    case EventPath => 4
    case HealthPath => 5
    case LoggingLivePath => 6
    case LoggingRuntimePath => 7
    case PlantIoPath => 8
    case PreviewPath => 9
    case StorageNvmePath => 10
    case StorageRootsPath => 11
    case StorageWatermarksPath => 12
    case SystemPath => 13
    case TimeSyncPath => 14
    case UplinkTransportPath => 15
  }

  lemma RankAndPathAt(n: nat, p: ConfigPath)
    ensures n < PATH_COUNT ==> Rank(PathAt(n)) == n
    ensures Rank(p) < PATH_COUNT && PathAt(Rank(p)) == p
  {}

  lemma OnlyPathAt(n: nat)
    requires n < PATH_COUNT
    ensures forall p | Rank(p) == n :: p == PathAt(n)
    ensures forall p :: Rank(p) < PATH_COUNT
  {
    forall p
      ensures Rank(p) < PATH_COUNT && (Rank(p) == n ==> p == PathAt(n))
    {
      RankAndPathAt(n, p);
    }
  }

  // ---------------------------------------------------------------- what changed

  /** What a camera change may not touch without a restart. */
  function Topology(cs: seq<CameraConfig>): seq<(string, bool, string)> {
    seq(|cs|, i requires 0 <= i < |cs| => (cs[i].id, cs[i].enabled, cs[i].serialNumber))
  }

  predicate SameRoots(a: StorageConfig, b: StorageConfig) {
    a.eventRoot == b.eventRoot && a.cacheRoot == b.cacheRoot
  }

  predicate SameNvme(a: StorageConfig, b: StorageConfig) {
    && a.rollingCacheEnabled == b.rollingCacheEnabled
    && a.maximumCacheStorageGib == b.maximumCacheStorageGib
    && a.rollingCacheWriteLimitMibps == b.rollingCacheWriteLimitMibps
    && a.rollingCacheIoTimeoutMs == b.rollingCacheIoTimeoutMs
  }

  predicate SameWatermarks(a: StorageConfig, b: StorageConfig) {
    && a.warningFreeSpaceGib == b.warningFreeSpaceGib
    && a.criticalFreeSpaceGib == b.criticalFreeSpaceGib
    && a.stopFreeSpaceGib == b.stopFreeSpaceGib
    && a.maximumEventStorageGib == b.maximumEventStorageGib
  }

  predicate SameLoggingRuntime(a: LoggingConfig, b: LoggingConfig) {
    && a.directory == b.directory
    && a.queueCapacity == b.queueCapacity
    && a.maximumFileSizeMib == b.maximumFileSizeMib
    && a.maximumFilesPerDay == b.maximumFilesPerDay
  }

  predicate Changed(p: ConfigPath, a: EdgeConfig, b: EdgeConfig) {
    match p
    case AcquisitionPath => a.acquisition != b.acquisition
    case AlgorithmPath => a.algorithm != b.algorithm
    case CamerasPath => a.cameras != b.cameras && Topology(a.cameras) != Topology(b.cameras)
    case CameraParametersPath => a.cameras != b.cameras && Topology(a.cameras) == Topology(b.cameras)
    case EventPath => a.event != b.event
    case HealthPath => a.health != b.health
    case LoggingLivePath => a.logging != b.logging
    case LoggingRuntimePath => !SameLoggingRuntime(a.logging, b.logging)
    case PlantIoPath => a.plantIo != b.plantIo
    case PreviewPath => a.preview != b.preview
    case StorageNvmePath => !SameNvme(a.storage, b.storage)
    case StorageRootsPath => !SameRoots(a.storage, b.storage)
    case StorageWatermarksPath => !SameWatermarks(a.storage, b.storage)
    case SystemPath => a.system != b.system
    case TimeSyncPath => a.timeSync != b.timeSync
    case UplinkTransportPath => a.uplink != b.uplink
  }

  predicate SortedPaths(s: seq<ConfigPath>) {
    forall i, j | 0 <= i < j < |s| :: Rank(s[i]) < Rank(s[j])
  }

  /** The paths from rank `n` on that satisfy `keep`. */
  function PathsFrom(n: nat, keep: ConfigPath -> bool): (r: seq<ConfigPath>)
    requires n <= PATH_COUNT
    ensures forall p :: p in r <==> n <= Rank(p) && keep(p)
    ensures SortedPaths(r)
    decreases PATH_COUNT - n
  {
    if n == PATH_COUNT then
      assert forall p :: Rank(p) < PATH_COUNT by { OnlyPathAt(0); }
      []
    else
      var rest := PathsFrom(n + 1, keep);
      assert Rank(PathAt(n)) == n by { RankAndPathAt(n, SystemPath); }
      assert forall p | Rank(p) == n :: p == PathAt(n) by { OnlyPathAt(n); }
      if keep(PathAt(n)) then [PathAt(n)] + rest else rest
  }

  function ChangedPaths(a: EdgeConfig, b: EdgeConfig): (r: seq<ConfigPath>)
    ensures forall p :: p in r <==> Changed(p, a, b)
    ensures SortedPaths(r)
  {
    PathsFrom(0, p => Changed(p, a, b))
  }

  predicate SameDevices(a: seq<CameraConfig>, b: seq<CameraConfig>) {
    && |a| == |b|
    && forall i | 0 <= i < |a| ::
         a[i].id == b[i].id && a[i].enabled == b[i].enabled && a[i].serialNumber == b[i].serialNumber
  }

  /** The two differ, and in nothing but what the path is about. */
  predicate DifferIn(p: ConfigPath, a: EdgeConfig, b: EdgeConfig) {
    && a != b
    && match p
       case AcquisitionPath => b == a.(acquisition := b.acquisition)
       case AlgorithmPath => b == a.(algorithm := b.algorithm)
       case CamerasPath => b == a.(cameras := b.cameras) && !SameDevices(a.cameras, b.cameras)
       case CameraParametersPath => b == a.(cameras := b.cameras) && SameDevices(a.cameras, b.cameras)
       case EventPath => b == a.(event := b.event)
       case HealthPath => b == a.(health := b.health)
       case LoggingLivePath =>
         b == a.(logging := a.logging.(level := b.logging.level, retentionDays := b.logging.retentionDays))
       case LoggingRuntimePath =>
         b == a.(logging := b.logging.(level := a.logging.level, retentionDays := a.logging.retentionDays))
       case PlantIoPath => b == a.(plantIo := b.plantIo)
       case PreviewPath => b == a.(preview := b.preview)
       case StorageNvmePath =>
         b == a.(storage := a.storage.(
         rollingCacheEnabled := b.storage.rollingCacheEnabled,
         maximumCacheStorageGib := b.storage.maximumCacheStorageGib,
         rollingCacheWriteLimitMibps := b.storage.rollingCacheWriteLimitMibps,
         rollingCacheIoTimeoutMs := b.storage.rollingCacheIoTimeoutMs))
       case StorageRootsPath =>
         b == a.(storage := a.storage.(eventRoot := b.storage.eventRoot, cacheRoot := b.storage.cacheRoot))
       case StorageWatermarksPath =>
         b == a.(storage := a.storage.(
         warningFreeSpaceGib := b.storage.warningFreeSpaceGib,
         criticalFreeSpaceGib := b.storage.criticalFreeSpaceGib,
         stopFreeSpaceGib := b.storage.stopFreeSpaceGib,
         maximumEventStorageGib := b.storage.maximumEventStorageGib))
       case SystemPath => b == a.(system := b.system)
       case TimeSyncPath => b == a.(timeSync := b.timeSync)
       case UplinkTransportPath => b == a.(uplink := b.uplink)
  }

  lemma TopologyIsDevices(a: seq<CameraConfig>, b: seq<CameraConfig>)
    ensures Topology(a) == Topology(b) <==> SameDevices(a, b)
  {
    var s, t := Topology(a), Topology(b);
    assert |s| == |a| && |t| == |b|;
    if s == t {
      forall i | 0 <= i < |a|
        ensures a[i].id == b[i].id && a[i].enabled == b[i].enabled && a[i].serialNumber == b[i].serialNumber
      {
        assert s[i] == t[i];
      }
    } else if |a| == |b| {
      var i :| 0 <= i < |a| && s[i] != t[i];
    }
  }

  /** A change of one section is reported under its path alone; one of the logging files also as live. */
  lemma OneSectionIsReported(p: ConfigPath, a: EdgeConfig, b: EdgeConfig)
    requires DifferIn(p, a, b)
    ensures forall q :: q in ChangedPaths(a, b) <==> q == p || (p.LoggingRuntimePath? && q.LoggingLivePath?)
  {
    hide Topology, SameDevices, ChangedPaths;
    TopologyIsDevices(a.cameras, b.cameras);
  }

  lemma StorageAgrees(a: EdgeConfig, b: EdgeConfig)
    requires !Changed(StorageRootsPath, a, b) && !Changed(StorageNvmePath, a, b)
    requires !Changed(StorageWatermarksPath, a, b)
    ensures a.storage == b.storage
  {}

  lemma SectionsAgree(a: EdgeConfig, b: EdgeConfig)
    requires !Changed(SystemPath, a, b) && !Changed(CamerasPath, a, b) && !Changed(CameraParametersPath, a, b)
    requires !Changed(AcquisitionPath, a, b) && !Changed(PreviewPath, a, b) && !Changed(AlgorithmPath, a, b)
    requires !Changed(EventPath, a, b) && !Changed(UplinkTransportPath, a, b) && !Changed(PlantIoPath, a, b)
    requires !Changed(LoggingLivePath, a, b) && !Changed(HealthPath, a, b) && !Changed(TimeSyncPath, a, b)
    ensures a.system == b.system && a.cameras == b.cameras && a.acquisition == b.acquisition
    ensures a.preview == b.preview && a.algorithm == b.algorithm && a.event == b.event
    ensures a.uplink == b.uplink && a.plantIo == b.plantIo && a.logging == b.logging && a.health == b.health
    ensures a.timeSync == b.timeSync
  {
    hide Topology;
  }

  /** Nothing is reported exactly when the two are equal but for version, revision and time. */
  lemma UnreportedIsUnchanged(a: EdgeConfig, b: EdgeConfig)
    ensures ChangedPaths(a, b) == [] <==>
              b == a.(configSchemaVersion := b.configSchemaVersion, configRevision := b.configRevision,
                      modifiedAt := b.modifiedAt)
  {
    hide ChangedPaths, Topology;
    var changed := ChangedPaths(a, b);
    if changed == [] {
      hide Changed;
      assert forall p :: p !in changed;
      SectionsAgree(a, b);
      StorageAgrees(a, b);
    } else {
      assert changed[0] in changed;
    }
  }

  /** Sorted lists with the same elements are equal. */
  lemma {:induction false} SortedPathsAreUnique(s: seq<ConfigPath>, t: seq<ConfigPath>)
    requires SortedPaths(s) && SortedPaths(t)
    requires forall p :: p in s <==> p in t
    ensures s == t
  {
    assert t != [] ==> t[0] in s;
    if s != [] {
      assert s[0] in t;
      forall p
        ensures p in s[1..] <==> p in t[1..]
      {
        TailMembers(s, p);
        TailMembers(t, p);
      }
      SortedPathsAreUnique(s[1..], t[1..]);
      assert s == [s[0]] + s[1..] && t == [t[0]] + t[1..];
    }
  }

  lemma TailMembers(s: seq<ConfigPath>, p: ConfigPath)
    requires s != [] && SortedPaths(s)
    ensures p in s[1..] <==> p in s && p != s[0]
  {
    if p in s && p != s[0] {
      var k :| 0 <= k < |s| && s[k] == p;
      assert s[1..][k - 1] == p;
    }
    if p in s[1..] {
      var k :| 0 <= k < |s[1..]| && s[1..][k] == p;
      assert s[k + 1] == p;
    }
  }

  /** The collected paths are sorted by text and duplicates are dropped, here while inserting. */
  method SortUnique(collected: seq<ConfigPath>) returns (r: seq<ConfigPath>)
    ensures SortedPaths(r)
    ensures forall p :: p in r <==> p in collected
  {
    r := [];
    for n := 0 to |collected|
      invariant SortedPaths(r)
      invariant forall p :: p in r <==> p in collected[..n]
    {
      var path := collected[n];
      var k := 0;
      while k < |r| && Rank(r[k]) < Rank(path)
        invariant 0 <= k <= |r|
        invariant forall i | 0 <= i < k :: Rank(r[i]) < Rank(path)
      {
        k := k + 1;
      }
      assert collected[..n + 1] == collected[..n] + [path];
      if k == |r| || r[k] != path {
        ghost var before := r;
        r := r[..k] + [path] + r[k..];
        assert before == before[..k] + before[k..];
      }
    }
    assert collected[..|collected|] == collected;
  }

  function AddIf(paths: seq<ConfigPath>, changed: bool, path: ConfigPath): (r: seq<ConfigPath>)
    ensures forall p :: p in r <==> p in paths || (changed && p == path)
  {
    if changed then paths + [path] else paths
  }

  predicate SystemToRoots(p: ConfigPath) {
    || p == SystemPath || p == CamerasPath || p == CameraParametersPath || p == AcquisitionPath
    || p == PreviewPath || p == AlgorithmPath || p == EventPath || p == StorageRootsPath
  }

  predicate NvmeToTimeSync(p: ConfigPath) {
    || p == StorageNvmePath || p == StorageWatermarksPath || p == UplinkTransportPath || p == PlantIoPath
    || p == LoggingRuntimePath || p == LoggingLivePath || p == HealthPath || p == TimeSyncPath
  }

  lemma EveryPathIsListed(p: ConfigPath)
    ensures SystemToRoots(p) || NvmeToTimeSync(p)
  {
    assert PathAt(Rank(p)) == p by { RankAndPathAt(Rank(p), p); }
  }

  /** One comparison per section, appended in the order of the sections: the first half. */
  method CollectSystemToRoots(current: EdgeConfig, candidate: EdgeConfig) returns (paths: seq<ConfigPath>)
    ensures forall p :: p in paths <==> SystemToRoots(p) && Changed(p, current, candidate)
  {
    hide Changed, AddIf;
    paths := [];
    paths := AddIf(paths, Changed(SystemPath, current, candidate), SystemPath);
    paths := AddIf(paths, Changed(CamerasPath, current, candidate), CamerasPath);
    paths := AddIf(paths, Changed(CameraParametersPath, current, candidate), CameraParametersPath);
    paths := AddIf(paths, Changed(AcquisitionPath, current, candidate), AcquisitionPath);
    paths := AddIf(paths, Changed(PreviewPath, current, candidate), PreviewPath);
    paths := AddIf(paths, Changed(AlgorithmPath, current, candidate), AlgorithmPath);
    paths := AddIf(paths, Changed(EventPath, current, candidate), EventPath);
    paths := AddIf(paths, Changed(StorageRootsPath, current, candidate), StorageRootsPath);
  }

  /** The second half. */
  method CollectNvmeToTimeSync(collected: seq<ConfigPath>, current: EdgeConfig, candidate: EdgeConfig)
    returns (paths: seq<ConfigPath>)
    ensures forall p :: p in paths <==> p in collected || (NvmeToTimeSync(p) && Changed(p, current, candidate))
  {
    hide Changed, AddIf;
    paths := collected;
    paths := AddIf(paths, Changed(StorageNvmePath, current, candidate), StorageNvmePath);
    paths := AddIf(paths, Changed(StorageWatermarksPath, current, candidate), StorageWatermarksPath);
    paths := AddIf(paths, Changed(UplinkTransportPath, current, candidate), UplinkTransportPath);
    paths := AddIf(paths, Changed(PlantIoPath, current, candidate), PlantIoPath);
    paths := AddIf(paths, Changed(LoggingRuntimePath, current, candidate), LoggingRuntimePath);
    paths := AddIf(paths, Changed(LoggingLivePath, current, candidate), LoggingLivePath);
    paths := AddIf(paths, Changed(HealthPath, current, candidate), HealthPath);
    paths := AddIf(paths, Changed(TimeSyncPath, current, candidate), TimeSyncPath);
  }

  method ChangedConfigPaths(current: EdgeConfig, candidate: EdgeConfig) returns (paths: seq<ConfigPath>)
    ensures paths == ChangedPaths(current, candidate)
  {
    paths := CollectSystemToRoots(current, candidate);
    paths := CollectNvmeToTimeSync(paths, current, candidate);
    paths := SortUnique(paths);
    forall p
      ensures p in paths <==> p in ChangedPaths(current, candidate)
    {
      hide Changed, SystemToRoots, NvmeToTimeSync;
      EveryPathIsListed(p);
    }
    SortedPathsAreUnique(paths, ChangedPaths(current, candidate));
  }

  // ---------------------------------------------------------------- what waits for a restart

  predicate RestartRequired(p: ConfigPath) {
    p in {SystemPath, CamerasPath, AcquisitionPath, StorageRootsPath, StorageNvmePath, UplinkTransportPath, PlantIoPath,
          LoggingRuntimePath, TimeSyncPath}
  }

  function KeepRestartRequired(paths: seq<ConfigPath>): (r: seq<ConfigPath>)
    ensures forall p :: p in r <==> p in paths && RestartRequired(p)
  {
    if paths == [] then []
    else
      assert paths == [paths[0]] + paths[1..];
      if RestartRequired(paths[0]) then [paths[0]] + KeepRestartRequired(paths[1..])
      else KeepRestartRequired(paths[1..])
  }

  lemma {:induction false} KeepingStaysSorted(paths: seq<ConfigPath>)
    requires SortedPaths(paths)
    ensures SortedPaths(KeepRestartRequired(paths))
  {
    if paths != [] {
      KeepingStaysSorted(paths[1..]);
      forall p | p in KeepRestartRequired(paths[1..])
        ensures Rank(paths[0]) < Rank(p)
      {
        var k :| 0 <= k < |paths[1..]| && paths[1..][k] == p;
        assert paths[k + 1] == p;
      }
    }
  }

  function PendingPaths(effective: EdgeConfig, candidate: EdgeConfig): (r: seq<ConfigPath>)
    ensures forall p :: p in r <==> Changed(p, effective, candidate) && RestartRequired(p)
    ensures SortedPaths(r)
  {
    KeepingStaysSorted(ChangedPaths(effective, candidate));
    KeepRestartRequired(ChangedPaths(effective, candidate))
  }

  /** Puts one restart-only section back; `/timeSync` and the live paths are left as they are. */
  function RestoreSection(target: EdgeConfig, effective: EdgeConfig, path: ConfigPath): EdgeConfig {
    match path
    case SystemPath => target.(system := effective.system)
    case CamerasPath => target.(cameras := effective.cameras)
    case AcquisitionPath => target.(acquisition := effective.acquisition)
    case StorageRootsPath =>
      target.(storage := target.storage.(eventRoot := effective.storage.eventRoot,
                                         cacheRoot := effective.storage.cacheRoot))
    case StorageNvmePath =>
      target.(storage := target.storage.(
              rollingCacheEnabled := effective.storage.rollingCacheEnabled,
              maximumCacheStorageGib := effective.storage.maximumCacheStorageGib,
              rollingCacheWriteLimitMibps := effective.storage.rollingCacheWriteLimitMibps,
              rollingCacheIoTimeoutMs := effective.storage.rollingCacheIoTimeoutMs))
    case UplinkTransportPath => target.(uplink := effective.uplink)
    case PlantIoPath => target.(plantIo := effective.plantIo)
    case LoggingRuntimePath =>
      target.(logging := target.logging.(
              directory := effective.logging.directory,
              queueCapacity := effective.logging.queueCapacity,
              maximumFileSizeMib := effective.logging.maximumFileSizeMib,
              maximumFilesPerDay := effective.logging.maximumFilesPerDay))
    case _ => target
  }

  function RestoreSections(target: EdgeConfig, effective: EdgeConfig, paths: seq<ConfigPath>): EdgeConfig
    decreases |paths|
  {
    if paths == [] then target
    else RestoreSections(RestoreSection(target, effective, paths[0]), effective, paths[1..])
  }

  function NextCameras(effective: EdgeConfig, candidate: EdgeConfig): seq<CameraConfig> {
    if Topology(effective.cameras) == Topology(candidate.cameras) then candidate.cameras else effective.cameras
  }

  /**
   The effective configuration a candidate leads to, said section by section: restart-only sections
   come from the old effective configuration, everything else from the candidate.
   */
  function NextEffective(effective: EdgeConfig, candidate: EdgeConfig): EdgeConfig {
    candidate.(
    system := effective.system,
    cameras := NextCameras(effective, candidate),
    acquisition := effective.acquisition,
    storage := effective.storage.(
    warningFreeSpaceGib := candidate.storage.warningFreeSpaceGib,
    criticalFreeSpaceGib := candidate.storage.criticalFreeSpaceGib,
    stopFreeSpaceGib := candidate.storage.stopFreeSpaceGib,
    maximumEventStorageGib := candidate.storage.maximumEventStorageGib),
    uplink := effective.uplink,
    plantIo := effective.plantIo,
    logging := effective.logging.(level := candidate.logging.level, retentionDays := candidate.logging.retentionDays))
  }

  /** The sections on which `target` may still differ from `NextEffective` are the restart-only ones in `left`. */
  predicate RestoredExcept(target: EdgeConfig, effective: EdgeConfig, candidate: EdgeConfig, left: set<ConfigPath>) {
    && target.configSchemaVersion == candidate.configSchemaVersion
    && target.configRevision == candidate.configRevision
    && target.modifiedAt == candidate.modifiedAt
    && target.preview == candidate.preview && target.algorithm == candidate.algorithm
    && target.event == candidate.event && target.health == candidate.health && target.timeSync == candidate.timeSync
    && SameWatermarks(target.storage, candidate.storage)
    && target.logging.level == candidate.logging.level
    && target.logging.retentionDays == candidate.logging.retentionDays
    && (SystemPath !in left ==> target.system == effective.system)
    && (AcquisitionPath !in left ==> target.acquisition == effective.acquisition)
    && (UplinkTransportPath !in left ==> target.uplink == effective.uplink)
    && (PlantIoPath !in left ==> target.plantIo == effective.plantIo)
    && (StorageRootsPath !in left ==> SameRoots(target.storage, effective.storage))
    && (StorageNvmePath !in left ==> SameNvme(target.storage, effective.storage))
    && (LoggingRuntimePath !in left ==> SameLoggingRuntime(target.logging, effective.logging))
    && target.cameras == (if CamerasPath in left then candidate.cameras else NextCameras(effective, candidate))
  }

  /** Putting one section back leaves one fewer to restore. */
  lemma RestoreOne(target: EdgeConfig, effective: EdgeConfig, candidate: EdgeConfig, left: set<ConfigPath>,
      p: ConfigPath)
    requires p in left
    requires RestoredExcept(target, effective, candidate, left)
    requires p == CamerasPath ==> Topology(effective.cameras) != Topology(candidate.cameras)
    ensures RestoredExcept(RestoreSection(target, effective, p), effective, candidate, left - {p})
  {
    hide Topology;
  }

  lemma {:induction false} RestoreAllThatIsLeft(target: EdgeConfig, effective: EdgeConfig, candidate: EdgeConfig,
                                                left: seq<ConfigPath>)
    requires RestoredExcept(target, effective, candidate, set p | p in left) && SortedPaths(left)
    requires CamerasPath in left ==> Topology(effective.cameras) != Topology(candidate.cameras)
    ensures RestoredExcept(RestoreSections(target, effective, left), effective, candidate, {})
    decreases |left|
  {
    hide RestoredExcept, Topology, RestoreSection;
    if left == [] {
      assert (set p | p in left) == {};
    } else {
      RestoreOne(target, effective, candidate, (set p | p in left), left[0]);
      forall p
        ensures p in left[1..] <==> p in left && p != left[0]
      {
        TailMembers(left, p);
      }
      assert (set p | p in left[1..]) == (set p | p in left) - {left[0]};
      RestoreAllThatIsLeft(RestoreSection(target, effective, left[0]), effective, candidate, left[1..]);
    }
  }

  lemma NothingLeft(target: EdgeConfig, effective: EdgeConfig, candidate: EdgeConfig)
    requires RestoredExcept(target, effective, candidate, {})
    ensures target == NextEffective(effective, candidate)
  {}

  lemma CandidateIsRestoredExceptPending(effective: EdgeConfig, candidate: EdgeConfig, pending: set<ConfigPath>)
    requires forall p :: p in pending <==> Changed(p, effective, candidate) && RestartRequired(p)
    ensures RestoredExcept(candidate, effective, candidate, pending)
  {
    hide Topology;
    assert SystemPath in pending || !Changed(SystemPath, effective, candidate);
    assert AcquisitionPath in pending || !Changed(AcquisitionPath, effective, candidate);
    assert UplinkTransportPath in pending || !Changed(UplinkTransportPath, effective, candidate);
    assert PlantIoPath in pending || !Changed(PlantIoPath, effective, candidate);
    assert CamerasPath in pending <==> Changed(CamerasPath, effective, candidate);
  }

  /** Restoring the pending sections one after the other gives exactly `NextEffective`. */
  lemma RestoringPendingSections(effective: EdgeConfig, candidate: EdgeConfig)
    ensures RestoreSections(candidate, effective, PendingPaths(effective, candidate))
        == NextEffective(effective, candidate)
  {
    hide NextEffective, RestoredExcept, RestoreSections;
    var pending := PendingPaths(effective, candidate);
    CandidateIsRestoredExceptPending(effective, candidate, set p | p in pending);
    RestoreAllThatIsLeft(candidate, effective, candidate, pending);
    NothingLeft(RestoreSections(candidate, effective, pending), effective, candidate);
  }

  /** The loop that keeps the changed paths that wait for a restart. */
  method CollectPending(effective: EdgeConfig, candidate: EdgeConfig) returns (pending: seq<ConfigPath>)
    ensures pending == PendingPaths(effective, candidate)
  {
    hide Changed, ChangedPaths, SortedPaths, RestartRequired;
    var changed := ChangedConfigPaths(effective, candidate);
    pending := [];
    assert changed[0..] == changed;
    for i := 0 to |changed|
      invariant pending + KeepRestartRequired(changed[i..]) == KeepRestartRequired(changed)
    {
      assert changed[i..][1..] == changed[i + 1..];
      if RestartRequired(changed[i]) {
        pending := pending + [changed[i]];
      }
    }
  }

  /** The loop that puts the pending sections back. */
  method RestorePending(effective: EdgeConfig, candidate: EdgeConfig, pending: seq<ConfigPath>)
    returns (effectiveCandidate: EdgeConfig)
    ensures effectiveCandidate == RestoreSections(candidate, effective, pending)
    ensures pending == PendingPaths(effective, candidate) ==> effectiveCandidate == NextEffective(effective, candidate)
  {
    hide RestoreSection, NextEffective, PendingPaths;
    effectiveCandidate := candidate;
    assert pending[0..] == pending;
    for i := 0 to |pending|
      invariant RestoreSections(effectiveCandidate, effective, pending[i..])
             == RestoreSections(candidate, effective, pending)
    {
      assert pending[i..][1..] == pending[i + 1..];
      effectiveCandidate := RestoreSection(effectiveCandidate, effective, pending[i]);
    }
    RestoringPendingSections(effective, candidate);
  }
}
