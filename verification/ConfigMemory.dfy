/**
 What the repository keeps in memory between calls, and what every run of calls keeps true of it.
 */
module ConfigMemory {
  import opened ConfigModel
  import opened ConfigPaths

  datatype Memory = Memory(
    stored: EdgeConfig, effective: EdgeConfig, pending: seq<ConfigPath>, effectiveRevision: nat)

  /** Equal apart from the revision and the time of the change. */
  predicate SameContent(left: EdgeConfig, right: EdgeConfig) {
    left == right.(configRevision := left.configRevision, modifiedAt := left.modifiedAt)
  }

  /** The counter is 64 bits wide and wraps. */
  function NextRevision(revision: nat): nat {
    (revision + 1) % (MAX_UINT64 + 1)
  }

  function Candidate(stored: EdgeConfig, parsed: EdgeConfig, now: string): EdgeConfig {
    parsed.(configRevision := NextRevision(stored.configRevision), modifiedAt := now)
  }

  function Boot(config: EdgeConfig): Memory {
    Memory(config, config, [], config.configRevision)
  }

  /** The memory after a candidate was committed. */
  function Commit(m: Memory, candidate: EdgeConfig): Memory {
    var pending := PendingPaths(m.effective, candidate);
    Memory(candidate, NextEffective(m.effective, candidate), pending,
           if pending == [] then candidate.configRevision else m.effectiveRevision)
  }

  // ---------------------------------------------------------------- the invariant of every run

  predicate SameExceptCameras(a: EdgeConfig, b: EdgeConfig) {
    a == b.(cameras := a.cameras)
  }

  /**
   The effective configuration is what booting `booted` and then switching to `stored` gives; its
   cameras have the booted topology and equal the stored ones whenever those have it too. The
   pending paths are exact except for `/timeSync`, which is reported but takes effect at once.
   */
  predicate Coherent(booted: EdgeConfig, m: Memory) {
    && SameExceptCameras(m.effective, NextEffective(booted, m.stored))
    && Topology(m.effective.cameras) == Topology(booted.cameras)
    && (Topology(m.stored.cameras) == Topology(booted.cameras) ==> m.effective.cameras == m.stored.cameras)
    && SortedPaths(m.pending)
    && (forall p | p != TimeSyncPath :: p in m.pending <==> Changed(p, m.effective, m.stored) && RestartRequired(p))
    && m.effectiveRevision <= m.stored.configRevision
    && (m.pending == [] <==> m.effectiveRevision == m.stored.configRevision)
  }

  lemma BootIsCoherent(config: EdgeConfig)
    ensures Coherent(config, Boot(config))
  {}

  /** Switching on from an effective configuration is the same as switching on from the booted one. */
  lemma NextEffectiveComposes(booted: EdgeConfig, stored: EdgeConfig, effective: EdgeConfig, candidate: EdgeConfig)
    requires SameExceptCameras(effective, NextEffective(booted, stored))
    ensures SameExceptCameras(NextEffective(effective, candidate), NextEffective(booted, candidate))
  {
    hide Topology;
  }

  /** Once the pending sections are put back, only they still differ from the candidate. */
  lemma PendingStaysExact(effective: EdgeConfig, candidate: EdgeConfig, p: ConfigPath)
    requires p != TimeSyncPath && RestartRequired(p)
    ensures Changed(p, NextEffective(effective, candidate), candidate) <==> Changed(p, effective, candidate)
  {
    hide Topology;
  }

  lemma CommitKeepsCoherent(booted: EdgeConfig, m: Memory, candidate: EdgeConfig)
    requires Coherent(booted, m)
    requires candidate.configRevision == m.stored.configRevision + 1
    ensures Coherent(booted, Commit(m, candidate))
  {
    hide Changed, Topology, RestartRequired, SameExceptCameras;
    NextEffectiveComposes(booted, m.stored, m.effective, candidate);
    forall p | p != TimeSyncPath
      ensures p in Commit(m, candidate).pending
         <==> Changed(p, Commit(m, candidate).effective, candidate) && RestartRequired(p)
    {
      if RestartRequired(p) {
        PendingStaysExact(m.effective, candidate, p);
      }
    }
  }

  /**
   With nothing pending except possibly `/timeSync`, the effective configuration is the stored one,
   and conversely.
   */
  lemma EffectiveIsStored(booted: EdgeConfig, m: Memory)
    requires Coherent(booted, m)
    ensures m.effective == m.stored <==> (forall p | p in m.pending :: p == TimeSyncPath)
    ensures m.effectiveRevision == m.stored.configRevision ==> m.effective == m.stored
  {
    hide Topology;
    if forall p | p in m.pending :: p == TimeSyncPath {
      assert !Changed(SystemPath, m.effective, m.stored);
      assert !Changed(CamerasPath, m.effective, m.stored);
      assert !Changed(AcquisitionPath, m.effective, m.stored);
      assert !Changed(StorageRootsPath, m.effective, m.stored);
      assert !Changed(StorageNvmePath, m.effective, m.stored);
      assert !Changed(UplinkTransportPath, m.effective, m.stored);
      assert !Changed(PlantIoPath, m.effective, m.stored);
      assert !Changed(LoggingRuntimePath, m.effective, m.stored);
    }
    forall p
      ensures !Changed(p, m.stored, m.stored)
    {}
  }

  /** `/timeSync` waits for a restart only until the next change: it is pending iff that very change touched it. */
  lemma TimeSyncIsPendingForOneUpdate(booted: EdgeConfig, m: Memory, candidate: EdgeConfig)
    requires Coherent(booted, m)
    ensures TimeSyncPath in Commit(m, candidate).pending <==> candidate.timeSync != m.stored.timeSync
    ensures Commit(m, candidate).effective.timeSync == candidate.timeSync
  {
    hide Topology, NextCameras;
    SectionsAfterRun(booted, m);
    var pending := Commit(m, candidate).pending;
    assert TimeSyncPath in pending <==> Changed(TimeSyncPath, m.effective, candidate) && RestartRequired(TimeSyncPath);
  }

  // ---------------------------------------------------------------- whole runs

  /** One call as the memory sees it: rejected, failed or without change; or committed. */
  datatype Call = Unchanged | Accepted(parsed: EdgeConfig, now: string)

  function Step(m: Memory, call: Call): Memory {
    match call
    case Unchanged => m
    case Accepted(parsed, now) => Commit(m, Candidate(m.stored, parsed, now))
  }

  function Run(m: Memory, calls: seq<Call>): Memory
    decreases |calls|
  {
    if calls == [] then m else Run(Step(m, calls[0]), calls[1..])
  }

  function Commits(calls: seq<Call>): nat {
    if calls == [] then 0
    else (if calls[0].Accepted? then 1 else 0) + Commits(calls[1..])
  }

  /** The cameras last committed with the topology of `cameras`, or `cameras` themselves. */
  function LastWithTopology(cameras: seq<CameraConfig>, calls: seq<Call>): seq<CameraConfig>
    decreases |calls|
  {
    if calls == [] then cameras
    else
      var next := calls[0];
      LastWithTopology(if next.Accepted? && Topology(next.parsed.cameras) == Topology(cameras)
                       then next.parsed.cameras else cameras,
                       calls[1..])
  }

  lemma NothingCommitted(m: Memory, call: Call)
    requires call.Unchanged?
    ensures Step(m, call) == m
  {}

  lemma CommittedFacts(booted: EdgeConfig, m: Memory, parsed: EdgeConfig, now: string)
    requires Coherent(booted, m) && m.stored.configRevision < MAX_UINT64
    ensures var next := Step(m, Accepted(parsed, now));
            && Coherent(booted, next)
            && next.stored.configRevision == m.stored.configRevision + 1
            && next.effective.cameras == LastWithTopology(m.effective.cameras, [Accepted(parsed, now)])
  {
    hide Coherent, NextEffective, Topology;
    var candidate := Candidate(m.stored, parsed, now);
    CommitKeepsCoherent(booted, m, candidate);
    CommittedCameras(m, candidate);
  }

  /** Any run from a coherent memory ends in one, with one revision more for every commit. */
  lemma {:induction false} RunKeepsCoherent(booted: EdgeConfig, m: Memory, calls: seq<Call>)
    requires Coherent(booted, m)
    requires m.stored.configRevision + Commits(calls) <= MAX_UINT64
    ensures Coherent(booted, Run(m, calls))
    ensures Run(m, calls).stored.configRevision == m.stored.configRevision + Commits(calls)
    ensures Run(m, calls).effective.cameras == LastWithTopology(m.effective.cameras, calls)
    decreases |calls|
  {
    hide Coherent, Step, Topology;
    if calls != [] {
      if calls[0].Accepted? {
        CommittedFacts(booted, m, calls[0].parsed, calls[0].now);
      } else {
        NothingCommitted(m, calls[0]);
      }
      RunKeepsCoherent(booted, Step(m, calls[0]), calls[1..]);
    }
  }

  lemma CommittedCameras(m: Memory, candidate: EdgeConfig)
    ensures Commit(m, candidate).effective.cameras
         == if Topology(candidate.cameras) == Topology(m.effective.cameras) then candidate.cameras
            else m.effective.cameras
  {}

  /**
   Path independence: after any run since boot, the effective configuration is a function of the
   booted configuration, the stored configuration and the last cameras of the booted topology.
   Every intermediate update of a restart-only section has left no trace.
   */
  lemma EffectiveAfterRun(booted: EdgeConfig, calls: seq<Call>)
    requires booted.configRevision + Commits(calls) <= MAX_UINT64
    ensures var m := Run(Boot(booted), calls);
            m.effective == NextEffective(booted, m.stored).(cameras := LastWithTopology(booted.cameras, calls))
  {
    BootIsCoherent(booted);
    RunKeepsCoherent(booted, Boot(booted), calls);
  }

  /** The restart-only sections, one by one, are still the booted ones; the live ones are the stored ones. */
  lemma SectionsAfterRun(booted: EdgeConfig, m: Memory)
    requires Coherent(booted, m)
    ensures m.effective.system == booted.system && m.effective.acquisition == booted.acquisition
    ensures m.effective.uplink == booted.uplink && m.effective.plantIo == booted.plantIo
    ensures SameRoots(m.effective.storage, booted.storage) && SameNvme(m.effective.storage, booted.storage)
    ensures SameLoggingRuntime(m.effective.logging, booted.logging)
    ensures m.effective.preview == m.stored.preview && m.effective.algorithm == m.stored.algorithm
    ensures m.effective.event == m.stored.event && m.effective.health == m.stored.health
    ensures m.effective.timeSync == m.stored.timeSync
    ensures SameWatermarks(m.effective.storage, m.stored.storage)
    ensures m.effective.logging.level == m.stored.logging.level
    ensures m.effective.logging.retentionDays == m.stored.logging.retentionDays
    ensures CamerasPath !in m.pending ==> m.effective.cameras == m.stored.cameras
  {
    assert CamerasPath in m.pending <==> Changed(CamerasPath, m.effective, m.stored);
  }
}
