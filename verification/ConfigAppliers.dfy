/**
 The components a configuration change is applied to at once. Each has a live setting of one to
 three parts, set one after the other; a change is prepared, applied, and then committed or rolled
 back. Monitoring, logging and event are the three the service registers; `Other` stands for any
 further component, whose commit may fail.
 */
module ConfigAppliers {
  import opened Wrappers
  import opened ConfigModel
  import opened ConfigPaths
  import opened ConfigMemory

  datatype Kind = Monitoring | Logging | Event | Other

  /** An enabled camera as the event pipeline sees it: its ring is sized by its frame rate. */
  datatype Lane = Lane(camera: string, frameRate: real)

  /** What of the restart-only sections goes into the pipeline: frame budgets, the cache, and the names events carry. */
  datatype Site = Site(
    queueCapacity: nat, framePoolCapacity: nat, rollingCache: bool, machineId: string, productionLineId: string)

  /**
   What the event pipeline is built from. The revision it also carries is left out: it is the label of
   the configuration the pipeline was last built from and settles nothing else.
   */
  datatype Plan = Plan(
    lanes: seq<Lane>, previewSlot: bool, event: EventConfig, algorithm: AlgorithmConfig, plantIo: PlantIoConfig,
    site: Site)

  datatype Watermarks = Watermarks(warning: nat, critical: nat, stop: nat, maximumEvent: nat)

  /** One part of a live setting, replaced in one go. */
  datatype Part =
    | HealthLimits(health: HealthConfig, warning: nat, critical: nat, stop: nat)
    | MinimumLevel(level: LogLevel)
    | LogRetention(logDays: nat)
    | EventPipeline(plan: Plan)
    | EventRetention(eventDays: nat)
    | StorageLimits(limits: Watermarks)
    | Everything(config: EdgeConfig)

  function LimitsOf(s: StorageConfig): Watermarks {
    Watermarks(s.warningFreeSpaceGib, s.criticalFreeSpaceGib, s.stopFreeSpaceGib, s.maximumEventStorageGib)
  }

  /** The monitor samples at an interval and warns at levels; staleness and drop ratio are not its options. */
  function HealthOptions(c: EdgeConfig): Part {
    HealthLimits(c.health.(droppedFrameWarningRatio := 0.0, heartbeatStaleSeconds := 0),
                 c.storage.warningFreeSpaceGib, c.storage.criticalFreeSpaceGib, c.storage.stopFreeSpaceGib)
  }

  /** The enabled cameras, in order. */
  function Lanes(cameras: seq<CameraConfig>): seq<Lane> {
    if cameras == [] then []
    else
      var last := cameras[|cameras| - 1];
      Lanes(cameras[..|cameras| - 1]) + if last.enabled then [Lane(last.id, last.frameRate)] else []
  }

  function PlanOf(c: EdgeConfig): Plan {
    Plan(Lanes(c.cameras), c.preview.enabled, c.event, c.algorithm, c.plantIo,
         Site(c.acquisition.queueCapacity, c.acquisition.framePoolCapacity, c.storage.rollingCacheEnabled,
              c.system.machineId, c.system.productionLineId))
  }

  /** The setting of a component that follows configuration `c`. */
  function Setting(kind: Kind, c: EdgeConfig): (r: seq<Part>)
    ensures |r| == Arity(kind)
  {
    match kind
    case Monitoring => [HealthOptions(c)]
    case Logging => [MinimumLevel(c.logging.level), LogRetention(c.logging.retentionDays)]
    case Event =>
      [EventPipeline(PlanOf(c)), EventRetention(c.event.retentionDays), StorageLimits(LimitsOf(c.storage))]
    case Other => [Everything(c)]
  }

  /** Two configurations lead to the same setting exactly when they agree on what the component works with. */
  lemma SettingsAgreeIff(a: EdgeConfig, b: EdgeConfig)
    ensures Setting(Monitoring, a) == Setting(Monitoring, b) <==>
              && a.health.sampleIntervalMs == b.health.sampleIntervalMs
              && a.health.cpuWarningPercent == b.health.cpuWarningPercent
              && a.health.memoryWarningPercent == b.health.memoryWarningPercent
              && a.storage.warningFreeSpaceGib == b.storage.warningFreeSpaceGib
              && a.storage.criticalFreeSpaceGib == b.storage.criticalFreeSpaceGib
              && a.storage.stopFreeSpaceGib == b.storage.stopFreeSpaceGib
    ensures Setting(Logging, a) == Setting(Logging, b) <==>
              a.logging.level == b.logging.level && a.logging.retentionDays == b.logging.retentionDays
    ensures Setting(Event, a) == Setting(Event, b) <==>
              && Lanes(a.cameras) == Lanes(b.cameras) && a.preview.enabled == b.preview.enabled
              && a.event == b.event && a.algorithm == b.algorithm && a.plantIo == b.plantIo
              && a.acquisition.queueCapacity == b.acquisition.queueCapacity
              && a.acquisition.framePoolCapacity == b.acquisition.framePoolCapacity
              && a.storage.rollingCacheEnabled == b.storage.rollingCacheEnabled
              && a.system.machineId == b.system.machineId && a.system.productionLineId == b.system.productionLineId
              && SameWatermarks(a.storage, b.storage)
    ensures Setting(Other, a) == Setting(Other, b) <==> a == b
  {
    hide Lanes;
    assert Setting(Monitoring, a)[0] == HealthOptions(a) && Setting(Monitoring, b)[0] == HealthOptions(b);
    assert Setting(Logging, a)[0] == MinimumLevel(a.logging.level) && Setting(Logging, a)[1].LogRetention?;
    assert Setting(Event, a)[0] == EventPipeline(PlanOf(a))
        && Setting(Event, a)[2] == StorageLimits(LimitsOf(a.storage));
    assert Setting(Other, a)[0] == Everything(a);
  }

  /** And each limit is the one of its name. */
  lemma LimitsAreOfTheirNames(c: EdgeConfig)
    ensures var monitor, event := Setting(Monitoring, c)[0], Setting(Event, c);
            && monitor.HealthLimits? && event[1] == EventRetention(c.event.retentionDays) && event[2].StorageLimits?
            && monitor.warning == event[2].limits.warning == c.storage.warningFreeSpaceGib
            && monitor.critical == event[2].limits.critical == c.storage.criticalFreeSpaceGib
            && monitor.stop == event[2].limits.stop == c.storage.stopFreeSpaceGib
            && event[2].limits.maximumEvent == c.storage.maximumEventStorageGib
  {}

  function Arity(kind: Kind): nat {
    match kind
    case Monitoring => 1
    case Logging => 2
    case Event => 3
    case Other => 1
  }

  /** Only logging and event look at the changed paths; the others always take part. */
  predicate Gated(kind: Kind) { kind == Logging || kind == Event }

  /** The event component builds its pipeline anew only for these sections. */
  predicate RebuildsPipeline(changed: seq<ConfigPath>) {
    EventPath in changed || AlgorithmPath in changed || PlantIoPath in changed
  }

  /** Whether a change of these paths concerns part `i`. */
  predicate Relevant(kind: Kind, i: nat, changed: seq<ConfigPath>) {
    match kind
    case Logging => LoggingLivePath in changed
    case Event =>
      if i < 2 then RebuildsPipeline(changed) else StorageWatermarksPath in changed
    case _ => true
  }

  function Relevance(kind: Kind, changed: seq<ConfigPath>): seq<bool> {
    seq(Arity(kind), i requires 0 <= i < Arity(kind) => Relevant(kind, i, changed))
  }

  lemma NextEffectiveLiveSections(effective: EdgeConfig, candidate: EdgeConfig)
    ensures var next := NextEffective(effective, candidate);
            && next.logging.level == candidate.logging.level
            && next.logging.retentionDays == candidate.logging.retentionDays
            && next.event == candidate.event && next.algorithm == candidate.algorithm
            && next.plantIo == effective.plantIo
            && LimitsOf(next.storage) == LimitsOf(candidate.storage)
  {}

  lemma UnlistedSectionsAreEqual(a: EdgeConfig, b: EdgeConfig, changed: seq<ConfigPath>)
    requires LoggingLivePath in changed <==> Changed(LoggingLivePath, a, b)
    requires EventPath in changed <==> Changed(EventPath, a, b)
    requires AlgorithmPath in changed <==> Changed(AlgorithmPath, a, b)
    requires StorageWatermarksPath in changed <==> Changed(StorageWatermarksPath, a, b)
    ensures LoggingLivePath !in changed ==> a.logging == b.logging
    ensures EventPath !in changed ==> a.event == b.event
    ensures AlgorithmPath !in changed ==> a.algorithm == b.algorithm
    ensures StorageWatermarksPath !in changed ==> LimitsOf(a.storage) == LimitsOf(b.storage)
  {}

  lemma UnchangedLiveSections(booted: EdgeConfig, m: Memory, candidate: EdgeConfig)
    requires Coherent(booted, m)
    ensures var changed := ChangedPaths(m.stored, candidate);
            var next := NextEffective(m.effective, candidate);
            && (LoggingLivePath !in changed ==> next.logging.level == m.effective.logging.level
                                                && next.logging.retentionDays == m.effective.logging.retentionDays)
            && (EventPath !in changed ==> next.event == m.effective.event)
            && (AlgorithmPath !in changed ==> next.algorithm == m.effective.algorithm)
            && next.plantIo == m.effective.plantIo
            && (StorageWatermarksPath !in changed ==> LimitsOf(next.storage) == LimitsOf(m.effective.storage))
  {
    hide Coherent, NextEffective, ChangedPaths, Changed;
    SectionsAfterRun(booted, m);
    NextEffectiveLiveSections(m.effective, candidate);
    UnlistedSectionsAreEqual(m.stored, candidate, ChangedPaths(m.stored, candidate));
  }

  /**
   What else the pipeline is built from and can change without a restart: the rates of its cameras
   and the preview.
   */
  predicate SameLanes(a: EdgeConfig, b: EdgeConfig) {
    Lanes(a.cameras) == Lanes(b.cameras) && a.preview.enabled == b.preview.enabled
  }

  lemma PlansDifferOnlyInLanes(effective: EdgeConfig, candidate: EdgeConfig)
    ensures var plan, next := PlanOf(effective), PlanOf(NextEffective(effective, candidate));
            && next.site == plan.site && next.plantIo == plan.plantIo
            && plan.event == effective.event && plan.algorithm == effective.algorithm
            && next.event == candidate.event && next.algorithm == candidate.algorithm
            && (SameLanes(effective, NextEffective(effective, candidate)) <==>
                  next.lanes == plan.lanes && next.previewSlot == plan.previewSlot)
  {
    hide NextCameras, Lanes;
  }

  /**
   A part that a change does not concern keeps its value, although relevance compares the stored
   configurations and the setting follows the effective ones, with one exception: the event pipeline
   keeps its plan if and only if the change leaves frame rates and preview as they are.
   */
  lemma IrrelevantPartStays(kind: Kind, i: nat, booted: EdgeConfig, m: Memory, candidate: EdgeConfig)
    requires Coherent(booted, m) && i < Arity(kind)
    ensures var next := NextEffective(m.effective, candidate);
            !Relevant(kind, i, ChangedPaths(m.stored, candidate)) ==>
              (Setting(kind, next)[i] == Setting(kind, m.effective)[i] <==>
                kind != Event || i != 0 || SameLanes(m.effective, next))
  {
    hide Coherent, ChangedPaths, SameLanes, PlanOf;
    UnchangedLiveSections(booted, m, candidate);
    PlansDifferOnlyInLanes(m.effective, candidate);
  }

  /** In terms of what a caller can see beforehand: which change leaves the lanes of the pipeline as they are. */
  lemma LanesStay(booted: EdgeConfig, m: Memory, candidate: EdgeConfig)
    requires Coherent(booted, m)
    ensures SameLanes(m.effective, NextEffective(m.effective, candidate)) <==>
              && candidate.preview.enabled == m.stored.preview.enabled
              && (Topology(candidate.cameras) == Topology(booted.cameras) ==>
                    Lanes(candidate.cameras) == Lanes(m.effective.cameras))
  {
    hide Lanes, Topology;
    SectionsAfterRun(booted, m);
  }

  lemma {:induction false} OtherRateOtherLanes(cameras: seq<CameraConfig>, k: nat, rate: real)
    requires k < |cameras| && cameras[k].enabled && cameras[k].frameRate != rate
    ensures Lanes(cameras[k := cameras[k].(frameRate := rate)]) != Lanes(cameras)
  {
    var others := cameras[k := cameras[k].(frameRate := rate)];
    var last := |cameras| - 1;
    if k == last {
      assert others[..last] == cameras[..last];
      assert Lanes(others)[|Lanes(cameras[..last])|] != Lanes(cameras)[|Lanes(cameras[..last])|];
    } else {
      OtherRateOtherLanes(cameras[..last], k, rate);
      assert others[..last] == cameras[..last][k := cameras[k].(frameRate := rate)];
      var a, b := Lanes(others[..last]), Lanes(cameras[..last]);
      if cameras[last].enabled {
        assert Lanes(others)[..|Lanes(others)| - 1] == a && Lanes(cameras)[..|Lanes(cameras)| - 1] == b;
      } else {
        assert Lanes(others) == a && Lanes(cameras) == b;
      }
    }
  }

  lemma NewFrameRateIsValid(c: EdgeConfig, k: nat, rate: real, normalize: Normalizer)
    requires k < |c.cameras| && 0.1 <= rate <= 1000.0 && ValidConfig(c, normalize)
    ensures ValidConfig(c.(cameras := c.cameras[k := c.cameras[k].(frameRate := rate)]), normalize)
  {
    hide ValidStorage, ValidAlgorithm, ValidEvent, ValidPath, ValidTimestamp, ValidIdentifier, CanonicalCameraId;
  }

  lemma NewCamerasAreReported(c: EdgeConfig, candidate: EdgeConfig)
    requires candidate == c.(cameras := candidate.cameras, configRevision := candidate.configRevision,
                             modifiedAt := candidate.modifiedAt)
    requires candidate.cameras != c.cameras && Topology(candidate.cameras) == Topology(c.cameras)
    ensures forall p :: p in ChangedPaths(c, candidate) <==> p == CameraParametersPath
    ensures PendingPaths(c, candidate) == []
    ensures NextEffective(c, candidate) == candidate
  {
    hide Topology, NextEffective, ChangedPaths, PendingPaths;
    NothingPendsIffNoneIsIn(PendingPaths(c, candidate));
    NewCamerasTakeEffect(c, candidate);
  }

  lemma NothingPendsIffNoneIsIn(paths: seq<ConfigPath>)
    ensures paths == [] <==> forall p :: p !in paths
  {
    if paths != [] {
      assert paths[0] in paths;
    }
  }

  lemma NewCamerasTakeEffect(c: EdgeConfig, candidate: EdgeConfig)
    requires candidate == c.(cameras := candidate.cameras, configRevision := candidate.configRevision,
                             modifiedAt := candidate.modifiedAt)
    requires Topology(candidate.cameras) == Topology(c.cameras)
    ensures NextEffective(c, candidate) == candidate
  {
    hide Topology;
  }

  /**
   The event component does not follow every change: a new frame rate of an enabled camera is a valid
   update that waits for no restart and is in effect at once, and yet the component is not concerned
   by it and keeps rings of the old size.
   */
  lemma NewFrameRateIsNotFollowed(c: EdgeConfig, k: nat, rate: real, now: string, normalize: Normalizer)
    requires k < |c.cameras| && c.cameras[k].enabled && rate != c.cameras[k].frameRate
    ensures var parsed := c.(cameras := c.cameras[k := c.cameras[k].(frameRate := rate)]);
            var candidate := Candidate(c, parsed, now);
            var changed, next := ChangedPaths(c, candidate), NextEffective(c, candidate);
            && (ValidConfig(c, normalize) && 0.1 <= rate <= 1000.0 ==> ValidConfig(parsed, normalize))
            && Coherent(c, Boot(c)) && PendingPaths(c, candidate) == [] && next == candidate
            && (forall i | 0 <= i < Arity(Event) :: !Relevant(Event, i, changed))
            && Setting(Event, next)[0] != Setting(Event, c)[0]
  {
    hide ValidConfig, Coherent, ChangedPaths, PendingPaths, NextEffective;
    var parsed := c.(cameras := c.cameras[k := c.cameras[k].(frameRate := rate)]);
    var candidate := Candidate(c, parsed, now);
    BootIsCoherent(c);
    assert Topology(candidate.cameras) == Topology(c.cameras);
    OtherRateOtherLanes(c.cameras, k, rate);
    NewCamerasAreReported(c, candidate);
    if ValidConfig(c, normalize) && 0.1 <= rate <= 1000.0 {
      NewFrameRateIsValid(c, k, rate, normalize);
    }
    assert PlanOf(candidate).lanes != PlanOf(c).lanes;
  }

  /** The setting of `c`, except that the event pipeline may stand on older frame rates or an older preview. */
  predicate FollowsButLanes(kind: Kind, live: seq<Part>, c: EdgeConfig) {
    && |live| == Arity(kind)
    && forall i | 0 <= i < |live| :: live[i] == Setting(kind, c)[i] || (kind == Event && i == 0
        && OlderLanes(live[0], c))
  }

  predicate OlderLanes(pipeline: Part, c: EdgeConfig) {
    && pipeline.EventPipeline?
    && pipeline.plan.(lanes := Lanes(c.cameras), previewSlot := c.preview.enabled) == PlanOf(c)
  }

  class ConfigApplier {
    const kind: Kind
    var live: seq<Part>
    // set by Prepare, forgotten by Commit and Rollback
    var flags: seq<bool>
    var previous: Option<seq<Part>>
    var candidate: Option<seq<Part>>
    ghost var restoreFailures: nat

    ghost predicate Valid()
      reads this
    {
      && |live| == |flags| == Arity(kind)
      && (previous.Some? ==> |previous.value| == Arity(kind))
      && (candidate.Some? ==> |candidate.value| == Arity(kind))
    }

    ghost predicate Follows(c: EdgeConfig)
      reads this
    {
      live == Setting(kind, c)
    }

    /** Whether part `i` takes part in the transaction under way. */
    predicate Active(i: nat)
      reads this
      requires i < |flags|
    {
      !Gated(kind) || flags[i]
    }

    /** Ready to apply `next` over `current`. */
    ghost predicate Prepared(current: EdgeConfig, next: EdgeConfig, changed: seq<ConfigPath>)
      reads this
    {
      && Valid()
      && flags == Relevance(kind, changed)
      && ((exists i | 0 <= i < |flags| :: Active(i)) ==>
            previous == Some(Setting(kind, current)) && candidate == Some(Setting(kind, next)))
    }

    constructor (kind: Kind, config: EdgeConfig)
      ensures Valid() && Follows(config) && this.kind == kind && restoreFailures == 0
    {
      this.kind := kind;
      live := Setting(kind, config);
      flags := seq(Arity(kind), i => false);
      previous := None;
      candidate := None;
      restoreFailures := 0;
    }

    /** Remembers both settings; may fail without touching the live one. */
    method Prepare(current: EdgeConfig, next: EdgeConfig, changed: seq<ConfigPath>) returns (ok: bool)
      requires Valid()
      modifies this`flags, this`previous, this`candidate
      ensures Valid() && live == old(live)
      ensures ok ==> Prepared(current, next, changed)
    {
      ok := *;
      if ok || Gated(kind) || kind == Monitoring {
        ok := true;
        flags := Relevance(kind, changed);
        if !Gated(kind) || (exists i | 0 <= i < |flags| :: flags[i]) {
          previous := Some(Setting(kind, current));
          candidate := Some(Setting(kind, next));
        }
      }
    }

    /** Sets one part; when that fails the part may be left with any value. */
    method SetPart(i: nat, part: Part) returns (ok: bool)
      requires Valid() && i < |live|
      modifies this`live
      ensures Valid()
      ensures forall j | 0 <= j < |live| && j != i :: live[j] == old(live)[j]
      ensures ok ==> live[i] == part
    {
      ok := *;
      var half: Part := *;
      live := live[i := if ok then part else half];
    }

    /** Sets the concerned parts in order and stops at the first failure. */
    method ApplyAndReadback(ghost current: EdgeConfig, ghost next: EdgeConfig, ghost changed: seq<ConfigPath>)
      returns (ok: bool)
      requires Prepared(current, next, changed)
      modifies this`live
      ensures Prepared(current, next, changed)
      ensures forall i | 0 <= i < |live| && !Relevant(kind, i, changed) :: live[i] == old(live)[i]
      ensures ok ==> forall i | 0 <= i < |live| && Relevant(kind, i, changed) :: live[i] == Setting(kind, next)[i]
    {
      for i := 0 to |live|
        invariant Prepared(current, next, changed)
        invariant forall j | 0 <= j < |live| && !Relevant(kind, j, changed) :: live[j] == old(live)[j]
        invariant forall j | 0 <= j < i && Relevant(kind, j, changed) :: live[j] == Setting(kind, next)[j]
      {
        if Active(i) {
          var done := SetPart(i, candidate.value[i]);
          if !done {
            return false;
          }
        }
      }
      ok := true;
    }

    /** Forgets the transaction; only a component outside the service may refuse. */
    method Commit() returns (ok: bool)
      requires Valid()
      modifies this`flags, this`previous, this`candidate
      ensures Valid()
      ensures kind != Other ==> ok
      ensures ok ==> previous == None && candidate == None && flags == seq(Arity(kind), i => false)
      ensures !ok ==> previous == old(previous) && candidate == old(candidate) && flags == old(flags)
    {
      ok := *;
      ok := ok || kind != Other;
      if ok {
        Reset();
      }
    }

    method Reset()
      requires Valid()
      modifies this`flags, this`previous, this`candidate
      ensures Valid() && previous == None && candidate == None && flags == seq(Arity(kind), i => false)
    {
      flags := seq(Arity(kind), i => false);
      previous := None;
      candidate := None;
    }

    /**
     Sets every part of the transaction back to the remembered setting, or to the one of `config`
     when nothing is remembered any more, and forgets the transaction. Failures are not reported.
     */
    method Rollback(config: EdgeConfig)
      requires Valid()
      modifies this
      ensures Valid() && restoreFailures >= old(restoreFailures)
      ensures forall i | 0 <= i < |live| :: !old(Active(i)) ==> live[i] == old(live)[i]
      ensures restoreFailures == old(restoreFailures) ==>
                forall i | 0 <= i < |live| :: old(Active(i)) ==>
                  live[i] == (if old(previous).Some? then old(previous).value else Setting(kind, config))[i]
    {
      var setting := if previous.Some? then previous.value else Setting(kind, config);
      for i := 0 to |live|
        invariant Valid() && flags == old(flags) && restoreFailures >= old(restoreFailures)
        invariant forall j | 0 <= j < |live| && (j >= i || !Active(j)) :: live[j] == old(live)[j]
        invariant restoreFailures == old(restoreFailures) ==>
                    forall j | 0 <= j < i && Active(j) :: live[j] == setting[j]
      {
        if Active(i) {
          var done := SetPart(i, setting[i]);
          if !done {
            restoreFailures := restoreFailures + 1;
          }
        }
      }
      Reset();
    }
  }
}
