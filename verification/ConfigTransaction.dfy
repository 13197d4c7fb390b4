/**
 One configuration update as a transaction: it is checked against the stored revision, applied to
 the components, persisted, and committed; each step is undone in reverse order when a later one
 fails.
 */
module ConfigTransaction {
  import opened Wrappers
  import opened ConfigModel
  import opened ConfigParser
  import opened ConfigCodec
  import opened ConfigPaths
  import opened ConfigMemory
  import opened HistoryNames
  import opened ConfigDisk
  import opened ConfigAppliers

  datatype UpdateError = ServiceStopping | NotLoaded | VersionConflict | InvalidText(error: ConfigError)

  /** How an update ended; everything but `Committed` leaves the memory as it was. */
  datatype Outcome =
    | Rejected(error: UpdateError)
    | NoChange
    | AuditFailed
    | PrepareFailed
    | ApplyFailed
    | PersistFailed
    | CommitFailed(index: nat, restored: bool)
    | Committed

  /** What the checks before the first side effect decide. */
  datatype Check = Reject(error: UpdateError) | Same | Proceed(parsed: EdgeConfig)

  function CheckUpdate(accepting: bool, memory: Option<Memory>, text: Document, expected: nat, codec: Codec): Check {
    if !accepting then Reject(ServiceStopping)
    else if memory.None? then Reject(UpdateError.NotLoaded)
    else
      var stored := memory.value.stored;
      if expected != stored.configRevision then Reject(VersionConflict)
      else
        match codec.parse(text)
        case Failure(error) => Reject(InvalidText(error))
        case Success(parsed) =>
          if parsed.configRevision != expected then Reject(VersionConflict)
          else if SameContent(stored, parsed) then Same
          else Proceed(parsed)
  }

  /**
   An update goes on if and only if changes are accepted, a configuration is loaded, caller, store and
   text name one revision, and the text says something new; then it is the text that goes on.
   */
  lemma UpdateGoesOnIff(accepting: bool, memory: Option<Memory>, text: Document, expected: nat, codec: Codec)
    ensures var check, read := CheckUpdate(accepting, memory, text, expected, codec), codec.parse(text);
            && (check.Reject? <==>
                 !(accepting && memory.Some? && read.Success?
                   && expected == memory.value.stored.configRevision == read.value.configRevision))
            && (check.Proceed? <==>
                 !check.Reject? && memory.Some? && read.Success?
                 && read.value != memory.value.stored.(modifiedAt := read.value.modifiedAt))
            && (check.Proceed? ==> read == Success(check.parsed))
            && (check == Reject(ServiceStopping) <==> !accepting)
            && (check == Reject(VersionConflict) <==>
                 && accepting && memory.Some?
                 && (expected != memory.value.stored.configRevision
                     || (read.Success? && read.value.configRevision != expected)))
  {}

  /** Equal in content and revision; only the time of the change may differ. */
  predicate SameConfig(a: EdgeConfig, b: EdgeConfig) {
    SameContent(a, b) && a.configRevision == b.configRevision
  }

  /** The main file is usable and holds the content and revision of `c`. */
  predicate Holds(disk: Disk, c: EdgeConfig, codec: Codec) {
    var main := MainConfig(disk, codec);
    main.Some? && SameConfig(main.value, c)
  }

  /** Valid except that the revision counter may have wrapped. */
  predicate ValidContent(c: EdgeConfig, codec: Codec) {
    codec.valid(Restamped(c, 1, c.modifiedAt)) && c.configRevision <= MAX_UINT64
  }

  lemma ValidHasValidContent(c: EdgeConfig, codec: Codec)
    requires Lawful(codec) && c.configRevision <= MAX_UINT64
    ensures codec.valid(c) ==> ValidContent(c, codec)
    ensures ValidContent(c, codec) ==> (codec.valid(c) <==> 1 <= c.configRevision)
  {
    hide Lawful;
    if codec.valid(c) {
      ValidRevision(codec, c);
      RestampingIsValid(codec, c, 1, c.modifiedAt);
    }
    if ValidContent(c, codec) {
      var first := Restamped(c, 1, c.modifiedAt);
      ValidRevision(codec, first);
      RestampingIsValid(codec, first, c.configRevision, c.modifiedAt);
      assert Restamped(first, c.configRevision, c.modifiedAt) == c;
    }
  }

  /** A candidate can be read back from disk if and only if the revision counter did not wrap. */
  lemma CandidateIsReadable(stored: EdgeConfig, parsed: EdgeConfig, now: string, codec: Codec)
    requires Lawful(codec) && codec.valid(parsed) && ValidTimestamp(now) && stored.configRevision <= MAX_UINT64
    ensures var c := Candidate(stored, parsed, now);
            && ValidContent(c, codec)
            && (codec.valid(c) <==> stored.configRevision < MAX_UINT64)
            && (codec.parse(codec.render(c)) == Success(c) <==> stored.configRevision < MAX_UINT64)
  {
    hide Lawful;
    var c := Candidate(stored, parsed, now);
    RestampingIsValid(codec, parsed, c.configRevision, now);
    RestampingIsValid(codec, parsed, 1, now);
    assert Restamped(parsed, c.configRevision, now) == c;
    assert Restamped(parsed, 1, now) == Restamped(c, 1, c.modifiedAt);
    PrintedIsRead(codec, c);
  }

  lemma SameMainHolds(a: Disk, b: Disk, c: EdgeConfig, codec: Codec)
    requires SameMain(a, b)
    ensures MainConfig(a, codec) == MainConfig(b, codec)
    ensures Holds(a, c, codec) <==> Holds(b, c, codec)
  {
    hide Usable;
  }

  // ---------------------------------------------------------------- writing an update to disk

  /** The superseded configuration joins the pruned history, then the candidate replaces the main file. */
  ghost predicate PersistedFrom(before: Disk, after: Disk, stored: EdgeConfig, candidate: EdgeConfig, limit: nat,
      codec: Codec) {
    exists pruned: Disk ::
      && PrunedFrom(before, pruned)
      && |Numbered(pruned)| < limit
      && (|Numbered(pruned)| == |Numbered(before)| || |Numbered(pruned)| + 1 >= limit)
      && after == pruned[InHistory(HistoryName(stored.configRevision)) := codec.render(stored)]
                        [Main := codec.render(candidate)]
  }

  method Persist(fs: FileSystem, stored: EdgeConfig, candidate: EdgeConfig, limit: nat, codec: Codec) returns (ok: bool)
    requires fs.Valid()
    modifies fs
    ensures fs.Valid() && old(fs.trace) <= fs.trace
    ensures !ok ==> MainKept(fs.trace, |old(fs.trace)|, old(fs.files)) && SameMain(fs.files, old(fs.files))
    ensures ok ==> |fs.trace| > |old(fs.trace)|
                   && MainKept(fs.trace[..|fs.trace| - 1], |old(fs.trace)|, old(fs.files))
                   && PersistedFrom(old(fs.files), fs.files, stored, candidate, limit, codec)
                   && Main in fs.files && fs.files[Main] == codec.render(candidate)
  {
    hide PrunedFrom, Numbered, HistoryName;
    if limit == 0 {
      return false;
    }
    var made := fs.CreateDirectories();
    if !made {
      return false;
    }
    ok := PruneHistory(fs, limit);
    assert SameMain(fs.files, old(fs.files)) by {
      if |fs.trace| > |old(fs.trace)| {
        assert SameMain(fs.trace[|fs.trace| - 1], old(fs.files));
      }
    }
    if !ok {
      return;
    }
    ghost var pruned, soFar := fs.files, fs.trace;
    var written := fs.ReplaceAtomically(InHistory(HistoryName(stored.configRevision)), codec.render(stored));
    if !written {
      return false;
    }
    AppendKeepsMain(soFar, |old(fs.trace)|, old(fs.files), fs.files);
    ghost var withHistory := fs.trace;
    ok := fs.ReplaceAtomically(Main, codec.render(candidate));
    if ok {
      assert fs.trace[..|fs.trace| - 1] == withHistory;
      assert PrunedFrom(old(fs.files), pruned);
    }
  }

  // ---------------------------------------------------------------- applying an update to the components

  function Kinds(appliers: seq<ConfigApplier>): seq<Kind> {
    seq(|appliers|, i requires 0 <= i < |appliers| => appliers[i].kind)
  }

  ghost predicate DistinctAppliers(appliers: seq<ConfigApplier>) {
    forall i, j | 0 <= i < j < |appliers| :: appliers[i] != appliers[j]
  }

  ghost predicate ValidAppliers(appliers: seq<ConfigApplier>)
    reads appliers
  {
    DistinctAppliers(appliers) && forall i | 0 <= i < |appliers| :: appliers[i].Valid()
  }

  /** Every part of the applier a change does not concern, is as it was. */
  twostate predicate IrrelevantPartsKept(a: ConfigApplier, changed: seq<ConfigPath>)
    reads a
  {
    && |a.live| == |old(a.live)| == Arity(a.kind)
    && forall i | 0 <= i < |a.live| && !Relevant(a.kind, i, changed) :: a.live[i] == old(a.live)[i]
  }

  /** Every part of the applier a change concerns, has the value for `c`. */
  ghost predicate RelevantPartsFollow(a: ConfigApplier, c: EdgeConfig, changed: seq<ConfigPath>)
    reads a
  {
    && |a.live| == Arity(a.kind)
    && forall i | 0 <= i < |a.live| && Relevant(a.kind, i, changed) :: a.live[i] == Setting(a.kind, c)[i]
  }

  method PrepareAll(appliers: seq<ConfigApplier>, current: EdgeConfig, next: EdgeConfig, changed: seq<ConfigPath>)
    returns (ok: bool)
    requires ValidAppliers(appliers)
    modifies appliers
    ensures ValidAppliers(appliers)
    ensures forall i | 0 <= i < |appliers| ::
              appliers[i].live == old(appliers[i].live)
                  && appliers[i].restoreFailures == old(appliers[i].restoreFailures)
    ensures ok ==> forall i | 0 <= i < |appliers| :: appliers[i].Prepared(current, next, changed)
  {
    for n := 0 to |appliers|
      invariant ValidAppliers(appliers)
      invariant forall i | 0 <= i < |appliers| ::
                  appliers[i].live == old(appliers[i].live)
                      && appliers[i].restoreFailures == old(appliers[i].restoreFailures)
      invariant forall i | 0 <= i < n :: appliers[i].Prepared(current, next, changed)
    {
      ok := appliers[n].Prepare(current, next, changed);
      if !ok {
        return;
      }
    }
    ok := true;
  }

  /** Applies one component after the other; the index of the first failure, or the number of components. */
  method ApplyAll(appliers: seq<ConfigApplier>, ghost current: EdgeConfig, ghost next: EdgeConfig,
                  ghost changed: seq<ConfigPath>)
    returns (applied: nat)
    requires ValidAppliers(appliers)
    requires forall i | 0 <= i < |appliers| :: appliers[i].Prepared(current, next, changed)
    modifies appliers
    ensures ValidAppliers(appliers) && applied <= |appliers|
    ensures forall i | 0 <= i < |appliers| ::
              && appliers[i].Prepared(current, next, changed)
              && appliers[i].restoreFailures == old(appliers[i].restoreFailures)
              && IrrelevantPartsKept(appliers[i], changed)
              && (i < applied ==> RelevantPartsFollow(appliers[i], next, changed))
              && (i > applied ==> appliers[i].live == old(appliers[i].live))
  {
    applied := 0;
    while applied < |appliers|
      invariant ValidAppliers(appliers) && applied <= |appliers|
      invariant forall i | 0 <= i < |appliers| ::
                  && appliers[i].Prepared(current, next, changed)
                  && appliers[i].restoreFailures == old(appliers[i].restoreFailures)
                  && IrrelevantPartsKept(appliers[i], changed)
                  && (i < applied ==> RelevantPartsFollow(appliers[i], next, changed))
                  && (i >= applied ==> appliers[i].live == old(appliers[i].live))
    {
      var ok := appliers[applied].ApplyAndReadback(current, next, changed);
      if !ok {
        return;
      }
      applied := applied + 1;
    }
  }

  /** Rolls the first `count` components back, last one first; failures are ignored. */
  method RollbackFirst(appliers: seq<ConfigApplier>, count: nat, config: EdgeConfig)
    requires ValidAppliers(appliers) && count <= |appliers|
    modifies appliers
    ensures ValidAppliers(appliers)
    ensures forall i | count <= i < |appliers| ::
              appliers[i].live == old(appliers[i].live)
                  && appliers[i].restoreFailures == old(appliers[i].restoreFailures)
    ensures forall i | 0 <= i < count ::
              appliers[i].restoreFailures == old(appliers[i].restoreFailures) ==>
                forall k | 0 <= k < |appliers[i].live| ::
                  appliers[i].live[k] == if !old(appliers[i].Active(k)) then old(appliers[i].live)[k]
                                         else if old(appliers[i].previous).Some? then old(appliers[i].previous).value[k]
                                         else Setting(appliers[i].kind, config)[k]
  {
    var rollback: nat := count;
    while rollback > 0
      invariant ValidAppliers(appliers) && rollback <= count
      invariant forall i | 0 <= i < |appliers| && (i < rollback || i >= count) ::
                  && appliers[i].live == old(appliers[i].live)
                  && appliers[i].flags == old(appliers[i].flags)
                  && appliers[i].previous == old(appliers[i].previous)
                  && appliers[i].restoreFailures == old(appliers[i].restoreFailures)
      invariant forall i | rollback <= i < count ::
                  appliers[i].restoreFailures == old(appliers[i].restoreFailures) ==>
                    forall k | 0 <= k < |appliers[i].live| ::
                      appliers[i].live[k] == if !old(appliers[i].Active(k)) then old(appliers[i].live)[k]
                                             else if old(appliers[i].previous).Some?
                                                 then old(appliers[i].previous).value[k]
                                             else Setting(appliers[i].kind, config)[k]
    {
      rollback := rollback - 1;
      appliers[rollback].Rollback(config);
    }
  }

  /** Commits one component after the other; the index of the first refusal, or the number of components. */
  method CommitAll(appliers: seq<ConfigApplier>) returns (committed: nat)
    requires ValidAppliers(appliers)
    modifies appliers
    ensures ValidAppliers(appliers) && committed <= |appliers|
    ensures committed < |appliers| ==> appliers[committed].kind == Other
    ensures forall i | 0 <= i < |appliers| ::
              && appliers[i].live == old(appliers[i].live)
              && appliers[i].restoreFailures == old(appliers[i].restoreFailures)
              && (i < committed ==> appliers[i].previous == None
                                    && appliers[i].flags == seq(Arity(appliers[i].kind), k => false))
              && (i >= committed ==> appliers[i].previous == old(appliers[i].previous)
                                     && appliers[i].flags == old(appliers[i].flags))
  {
    committed := 0;
    while committed < |appliers|
      invariant ValidAppliers(appliers) && committed <= |appliers|
      invariant forall i | 0 <= i < |appliers| ::
                  && appliers[i].live == old(appliers[i].live)
                  && appliers[i].restoreFailures == old(appliers[i].restoreFailures)
                  && (i < committed ==> appliers[i].previous == None
                                        && appliers[i].flags == seq(Arity(appliers[i].kind), k => false))
                  && (i >= committed ==> appliers[i].previous == old(appliers[i].previous)
                                         && appliers[i].flags == old(appliers[i].flags))
    {
      var ok := appliers[committed].Commit();
      if !ok {
        return;
      }
      committed := committed + 1;
    }
  }

  /** The live setting a component is left with: what it follows once the update is over. */
  function FollowedAfter(outcome: Outcome, index: nat, kind: Kind, current: EdgeConfig, next: EdgeConfig): EdgeConfig {
    match outcome
    case Committed => next
    case CommitFailed(refused, _) => if index < refused && Gated(kind) then next else current
    case _ => current
  }

  /**
   What an update leaves of a part that was `before`. After a failure ahead of the commits the part is
   untouched or as the effective configuration wants it.
   */
  predicate PartAfter(outcome: Outcome, index: nat, kind: Kind, k: nat, before: Part, now: Part,
                      current: EdgeConfig, next: EdgeConfig, changed: seq<ConfigPath>)
    requires k < Arity(kind)
  {
    if outcome == Committed || outcome.CommitFailed? then
      now == if Relevant(kind, k, changed) then Setting(kind, FollowedAfter(outcome, index, kind, current, next))[k]
             else before
    else
      now == before || (Relevant(kind, k, changed) && now == Setting(kind, current)[k])
  }

  /** What an update leaves of the live setting of the component at `index`. */
  predicate LeftAfter(outcome: Outcome, index: nat, kind: Kind, before: seq<Part>, now: seq<Part>,
                      current: EdgeConfig, next: EdgeConfig, changed: seq<ConfigPath>)
  {
    && |before| == |now| == Arity(kind)
    && forall k | 0 <= k < |now| :: PartAfter(outcome, index, kind, k, before[k], now[k], current, next, changed)
  }

  lemma UntouchedIsLeft(outcome: Outcome, index: nat, kind: Kind, live: seq<Part>, current: EdgeConfig,
                        next: EdgeConfig, changed: seq<ConfigPath>)
    requires |live| == Arity(kind) && outcome != Committed && !outcome.CommitFailed?
    ensures LeftAfter(outcome, index, kind, live, live, current, next, changed)
  {}

  // ---------------------------------------------------------------- which components follow afterwards

  /** An update that fails before its commits leaves what followed the effective configuration following it. */
  lemma FailedUpdateKeepsFollowing(outcome: Outcome, index: nat, kind: Kind, before: seq<Part>, now: seq<Part>,
                                   current: EdgeConfig, next: EdgeConfig, changed: seq<ConfigPath>)
    requires LeftAfter(outcome, index, kind, before, now, current, next, changed)
    requires outcome != Committed && !outcome.CommitFailed?
    ensures before == Setting(kind, current) ==> now == Setting(kind, current)
    ensures FollowsButLanes(kind, before, current) ==> FollowsButLanes(kind, now, current)
  {
    hide Setting, OlderLanes, Relevant;
    assert forall k | 0 <= k < |now| ::
        PartAfter(outcome, index, kind, k, before[k], now[k], current, next, changed);
    if before == Setting(kind, current) {
      assert now == Setting(kind, current);
    }
  }

  /** The parts of the component that the change concerns have the same value under both configurations. */
  predicate ConcernedPartsAgree(kind: Kind, current: EdgeConfig, next: EdgeConfig, changed: seq<ConfigPath>) {
    forall k | 0 <= k < Arity(kind) && Relevant(kind, k, changed) :: Setting(kind, next)[k] == Setting(kind, current)[k]
  }

  /**
   No component that may refuse its commit comes after one that forgets its previous setting when it
   commits, unless that one has nothing to forget.
   */
  predicate RefusalIsUndone(kinds: seq<Kind>, current: EdgeConfig, next: EdgeConfig, changed: seq<ConfigPath>) {
    forall i, j | 0 <= i < j < |kinds| && Gated(kinds[i]) && kinds[j] == Other ::
      ConcernedPartsAgree(kinds[i], current, next, changed)
  }

  /** The live setting after a refused commit, of a component that followed before. */
  function LiveAfterRefusal(refused: nat, index: nat, kind: Kind, current: EdgeConfig, next: EdgeConfig,
                            changed: seq<ConfigPath>): (r: seq<Part>)
    ensures |r| == Arity(kind)
  {
    seq(Arity(kind), k requires 0 <= k < Arity(kind) =>
      if Relevant(kind, k, changed) && index < refused && Gated(kind) then Setting(kind, next)[k]
      else Setting(kind, current)[k])
  }

  lemma RefusalLeaves(refused: nat, restored: bool, index: nat, kind: Kind, now: seq<Part>, current: EdgeConfig,
                      next: EdgeConfig, changed: seq<ConfigPath>)
    ensures var before := Setting(kind, current);
            LeftAfter(CommitFailed(refused, restored), index, kind, before, now, current, next, changed) <==>
              now == LiveAfterRefusal(refused, index, kind, current, next, changed)
  {
    hide Setting, Relevant;
    var live := LiveAfterRefusal(refused, index, kind, current, next, changed);
    if |now| == Arity(kind) {
      forall k | 0 <= k < |now|
        ensures now[k] == live[k] <==>
                  PartAfter(CommitFailed(refused, restored), index, kind, k, Setting(kind, current)[k], now[k],
                            current, next, changed)
      {}
    }
  }

  /**
   Whether a refused commit can be undone is known before the call, from the components that are
   registered: whoever refuses and whatever component is looked at, its live setting is the one from
   before, if and only if `RefusalIsUndone`.
   */
  lemma RefusedCommitIsUndoneIff(kinds: seq<Kind>, current: EdgeConfig, next: EdgeConfig, changed: seq<ConfigPath>)
    ensures RefusalIsUndone(kinds, current, next, changed) <==>
              forall refused: nat, index: nat | refused < |kinds| && kinds[refused] == Other && index < |kinds| ::
                LiveAfterRefusal(refused, index, kinds[index], current, next, changed) == Setting(kinds[index], current)
  {
    hide Setting, Relevant;
    if RefusalIsUndone(kinds, current, next, changed) {
      forall refused: nat, index: nat | refused < |kinds| && kinds[refused] == Other && index < |kinds|
        ensures LiveAfterRefusal(refused, index, kinds[index], current, next, changed) == Setting(kinds[index], current)
      {
        assert index < refused && Gated(kinds[index]) ==> ConcernedPartsAgree(kinds[index], current, next, changed);
      }
    } else {
      var i: nat, j: nat :| i < j < |kinds| && Gated(kinds[i]) && kinds[j] == Other
                            && !ConcernedPartsAgree(kinds[i], current, next, changed);
      var k: nat :| k < Arity(kinds[i]) && Relevant(kinds[i], k, changed)
                    && Setting(kinds[i], next)[k] != Setting(kinds[i], current)[k];
      assert LiveAfterRefusal(j, i, kinds[i], current, next, changed)[k] != Setting(kinds[i], current)[k];
    }
  }

  /** And then a component that had fallen behind in its lanes is no further behind. */
  lemma UndoneRefusalKeepsFollowing(kinds: seq<Kind>, outcome: Outcome, index: nat, before: seq<Part>, now: seq<Part>,
                                    current: EdgeConfig, next: EdgeConfig, changed: seq<ConfigPath>)
    requires outcome.CommitFailed? && index < |kinds| && outcome.index < |kinds| && kinds[outcome.index] == Other
    requires RefusalIsUndone(kinds, current, next, changed)
    requires LeftAfter(outcome, index, kinds[index], before, now, current, next, changed)
    ensures before == Setting(kinds[index], current) ==> now == Setting(kinds[index], current)
    ensures FollowsButLanes(kinds[index], before, current) ==> FollowsButLanes(kinds[index], now, current)
  {
    hide Setting, OlderLanes, Relevant;
    var kind := kinds[index];
    assert index < outcome.index && Gated(kind) ==> ConcernedPartsAgree(kind, current, next, changed);
    forall k | 0 <= k < |now|
      ensures now[k] == before[k] || now[k] == Setting(kind, current)[k]
    {
      assert PartAfter(outcome, index, kind, k, before[k], now[k], current, next, changed);
    }
  }

  lemma NewLogLevelIsConcerned(current: EdgeConfig, next: EdgeConfig, changed: seq<ConfigPath>)
    requires LoggingLivePath in changed && next.logging.level != current.logging.level
    ensures !ConcernedPartsAgree(Logging, current, next, changed)
  {
    assert Relevant(Logging, 0, changed) && Setting(Logging, next)[0] != Setting(Logging, current)[0];
  }

  /** The service with any component behind its logging: a new log level cannot be undone there. */
  lemma NewLogLevelIsNotUndone(current: EdgeConfig, level: LogLevel)
    requires level != current.logging.level
    ensures var next := current.(logging := current.logging.(level := level));
            !RefusalIsUndone([Logging, Other], current, next, ChangedPaths(current, next))
  {
    hide ChangedPaths, ConcernedPartsAgree, Setting, Relevant;
    var next := current.(logging := current.logging.(level := level));
    var changed := ChangedPaths(current, next);
    assert Changed(LoggingLivePath, current, next);
    NewLogLevelIsConcerned(current, next, changed);
    var kinds := [Logging, Other];
    assert Gated(kinds[0]) && kinds[1] == Other;
  }

  /** Prepare and apply; on failure everything touched, the failing component included, is rolled back. */
  method PrepareAndApply(appliers: seq<ConfigApplier>, current: EdgeConfig, next: EdgeConfig, changed: seq<ConfigPath>)
    returns (outcome: Outcome)
    requires ValidAppliers(appliers)
    modifies appliers
    ensures ValidAppliers(appliers)
    ensures outcome in {PrepareFailed, ApplyFailed, Committed}
    ensures outcome != Committed ==>
              forall i | 0 <= i < |appliers| && appliers[i].restoreFailures == old(appliers[i].restoreFailures) ::
                LeftAfter(outcome, i, appliers[i].kind, old(appliers[i].live), appliers[i].live, current, next, changed)
    ensures outcome == Committed ==>
              forall i | 0 <= i < |appliers| ::
                && appliers[i].Prepared(current, next, changed)
                && appliers[i].restoreFailures == old(appliers[i].restoreFailures)
                && IrrelevantPartsKept(appliers[i], changed)
                && RelevantPartsFollow(appliers[i], next, changed)
  {
    var prepared := PrepareAll(appliers, current, next, changed);
    if !prepared {
      return PrepareFailed;
    }
    var applied := ApplyAll(appliers, current, next, changed);
    if applied < |appliers| {
      RollbackFirst(appliers, applied + 1, current);
      return ApplyFailed;
    }
    outcome := Committed;
  }

  /** The main file is the one of `before`, or the printed form of one of the two configurations. */
  predicate MainIsOneOf(disk: Disk, before: Disk, stored: EdgeConfig, candidate: EdgeConfig, codec: Codec) {
    || SameMain(disk, before)
    || (Main in disk && (disk[Main] == codec.render(stored) || disk[Main] == codec.render(candidate)))
  }

  /** What the main file is once the transaction is over. */
  predicate MainAfter(outcome: Outcome, disk: Disk, before: Disk, stored: EdgeConfig, candidate: EdgeConfig,
                      codec: Codec) {
    match outcome
    case Committed => Main in disk && disk[Main] == codec.render(candidate)
    case CommitFailed(_, restored) =>
      Main in disk && disk[Main] == codec.render(if restored then stored else candidate)
    case _ => SameMain(disk, before)
  }

  /** Rolls back components that were applied completely: concerned parts return to `current`. */
  method UndoAll(appliers: seq<ConfigApplier>, current: EdgeConfig, ghost next: EdgeConfig,
      ghost changed: seq<ConfigPath>)
    requires ValidAppliers(appliers)
    requires forall i | 0 <= i < |appliers| :: appliers[i].Prepared(current, next, changed)
    modifies appliers
    ensures ValidAppliers(appliers)
    ensures forall i | 0 <= i < |appliers| ::
              appliers[i].restoreFailures == old(appliers[i].restoreFailures) ==>
                IrrelevantPartsKept(appliers[i], changed) && RelevantPartsFollow(appliers[i], current, changed)
  {
    RollbackFirst(appliers, |appliers|, current);
  }

  /**
   Commits all, or undoes what can still be undone: a logging or event component that has already
   committed has forgotten its previous setting and keeps the new one.
   */
  method CommitOrUndo(fs: FileSystem, appliers: seq<ConfigApplier>, stored: EdgeConfig, current: EdgeConfig,
                      ghost next: EdgeConfig, ghost changed: seq<ConfigPath>, codec: Codec)
    returns (outcome: Outcome)
    requires fs.Valid() && ValidAppliers(appliers)
    requires forall i | 0 <= i < |appliers| ::
               appliers[i].Prepared(current, next, changed) && RelevantPartsFollow(appliers[i], next, changed)
    modifies fs, appliers
    ensures fs.Valid() && ValidAppliers(appliers)
    ensures outcome == Committed || outcome.CommitFailed?
    ensures outcome.CommitFailed? ==> outcome.index < |appliers| && appliers[outcome.index].kind == Other
    ensures outcome == Committed || (outcome.CommitFailed? && !outcome.restored) ==>
              fs.files == old(fs.files) && fs.trace == old(fs.trace)
    ensures outcome.CommitFailed? && outcome.restored ==>
              fs.files == old(fs.files)[Main := codec.render(stored)] && fs.trace == old(fs.trace) + [fs.files]
    ensures forall i | 0 <= i < |appliers| ::
              appliers[i].restoreFailures == old(appliers[i].restoreFailures) ==>
                && IrrelevantPartsKept(appliers[i], changed)
                && RelevantPartsFollow(appliers[i], FollowedAfter(outcome, i, appliers[i].kind, current, next), changed)
  {
    hide Setting;
    var committed := CommitAll(appliers);
    if committed == |appliers| {
      return Committed;
    }
    var restored := fs.ReplaceAtomically(Main, codec.render(stored));
    label undo:
    RollbackFirst(appliers, |appliers|, current);
    outcome := CommitFailed(committed, restored);
    forall i | 0 <= i < |appliers| && appliers[i].restoreFailures == old(appliers[i].restoreFailures)
      ensures IrrelevantPartsKept(appliers[i], changed)
      ensures RelevantPartsFollow(appliers[i], FollowedAfter(outcome, i, appliers[i].kind, current, next), changed)
    {
      var a := appliers[i];
      forall k | 0 <= k < |a.live|
        ensures a.live[k] == if Relevant(a.kind, k, changed)
                             then Setting(a.kind, FollowedAfter(outcome, i, a.kind, current, next))[k]
                             else old(a.live)[k]
      {
        if Relevant(a.kind, k, changed) {
          assert old(a.Active(k)) && old(a.previous) == Some(Setting(a.kind, current));
        }
        assert old@undo(a.Active(k)) <==> !Gated(a.kind) || (i >= committed && Relevant(a.kind, k, changed));
      }
    }
  }

  /**
   The whole transaction after the audit record: prepare, apply, persist, commit, each undone when a
   later one fails.
   */
  method Transact(fs: FileSystem, appliers: seq<ConfigApplier>, stored: EdgeConfig, candidate: EdgeConfig,
                  current: EdgeConfig, next: EdgeConfig, changed: seq<ConfigPath>, limit: nat, codec: Codec)
    returns (outcome: Outcome)
    requires fs.Valid() && ValidAppliers(appliers)
    modifies fs, appliers
    ensures fs.Valid() && ValidAppliers(appliers)
    ensures outcome in {PrepareFailed, ApplyFailed, PersistFailed, Committed} || outcome.CommitFailed?
    ensures outcome.CommitFailed? ==> outcome.index < |appliers| && appliers[outcome.index].kind == Other
    ensures old(fs.trace) <= fs.trace
    ensures forall k | |old(fs.trace)| <= k < |fs.trace| ::
              MainIsOneOf(fs.trace[k], old(fs.files), stored, candidate, codec)
    ensures MainAfter(outcome, fs.files, old(fs.files), stored, candidate, codec)
    ensures outcome == Committed ==> PersistedFrom(old(fs.files), fs.files, stored, candidate, limit, codec)
    ensures forall i | 0 <= i < |appliers| && appliers[i].restoreFailures == old(appliers[i].restoreFailures) ::
              LeftAfter(outcome, i, appliers[i].kind, old(appliers[i].live), appliers[i].live, current, next, changed)
  {
    hide PersistedFrom, Setting;
    outcome := PrepareAndApply(appliers, current, next, changed);
    if outcome != Committed {
      return;
    }
    var persisted := Persist(fs, stored, candidate, limit, codec);
    if !persisted {
      UndoAll(appliers, current, next, changed);
      outcome := PersistFailed;
    } else {
      outcome := CommitOrUndo(fs, appliers, stored, current, next, changed, codec);
    }
  }
}
