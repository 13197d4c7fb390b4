/**
 The versioned configuration store: updates with compare-and-set revisions, loading with schema
 migration and recovery from history, reloading and rolling back from files.
 */
module ConfigRepository {
  import opened Wrappers
  import opened ConfigModel
  import opened ConfigParser
  import opened ConfigCodec
  import opened ConfigPaths
  import opened ConfigMemory
  import opened HistoryNames
  import opened ConfigDisk
  import opened ConfigAppliers
  import opened ConfigTransaction

  // ---------------------------------------------------------------- what a transaction means for disk and components

  /** Whatever state a transaction stops in, the next start reads the old configuration or exactly the candidate. */
  lemma InterruptedMainIsOldOrNew(disk: Disk, before: Disk, stored: EdgeConfig, candidate: EdgeConfig, codec: Codec)
    requires Holds(before, stored, codec) && MainIsOneOf(disk, before, stored, candidate, codec)
    requires Lawful(codec) && codec.valid(stored) && codec.valid(candidate)
    ensures Holds(disk, stored, codec) || MainConfig(disk, codec) == Some(candidate)
  {
    if SameMain(disk, before) {
      SameMainHolds(disk, before, stored, codec);
    } else {
      PrintedIsRead(codec, stored);
      PrintedIsRead(codec, candidate);
    }
  }

  /** After the transaction the main file is the candidate if it was committed, or if restoring the old file failed. */
  lemma FinalMain(outcome: Outcome, disk: Disk, before: Disk, stored: EdgeConfig, candidate: EdgeConfig, codec: Codec)
    requires Holds(before, stored, codec) && MainAfter(outcome, disk, before, stored, candidate, codec)
    requires Lawful(codec) && codec.valid(stored) && codec.valid(candidate)
    ensures if outcome == Committed || (outcome.CommitFailed? && !outcome.restored)
            then MainConfig(disk, codec) == Some(candidate)
            else Holds(disk, stored, codec)
  {
    if SameMain(disk, before) {
      SameMainHolds(disk, before, stored, codec);
    }
    PrintedIsRead(codec, stored);
    PrintedIsRead(codec, candidate);
  }

  /** A text that passes the checks is valid and was judged against a loaded memory. */
  lemma ProceedIsValid(accepting: bool, memory: Option<Memory>, text: Document, expected: nat, codec: Codec)
    requires Lawful(codec) && CheckUpdate(accepting, memory, text, expected, codec).Proceed?
    ensures memory.Some? && codec.valid(CheckUpdate(accepting, memory, text, expected, codec).parsed)
  {
    hide Lawful;
    ReadIsValid(codec, text);
  }

  lemma ContentRevision(c: EdgeConfig, codec: Codec)
    requires ValidContent(c, codec)
    ensures c.configRevision <= MAX_UINT64
  {}

  lemma ReadIsHeld(disk: Disk, c: EdgeConfig, codec: Codec)
    ensures MainConfig(disk, codec) == Some(c) ==> Holds(disk, c, codec)
  {
  }

  /** The change leaves the event pipeline as it is, although its frame rates or the preview have moved on. */
  predicate PipelineFallsBehind(m: Memory, candidate: EdgeConfig) {
    && !RebuildsPipeline(ChangedPaths(m.stored, candidate))
    && !SameLanes(m.effective, NextEffective(m.effective, candidate))
  }

  lemma OlderLanesStayOlder(booted: EdgeConfig, m: Memory, candidate: EdgeConfig, pipeline: Part)
    requires Coherent(booted, m) && !RebuildsPipeline(ChangedPaths(m.stored, candidate))
    requires OlderLanes(pipeline, m.effective)
    ensures OlderLanes(pipeline, NextEffective(m.effective, candidate))
  {
    hide Coherent, ChangedPaths, Lanes, NextEffective, PlanOf;
    UnchangedLiveSections(booted, m, candidate);
    PlansDifferOnlyInLanes(m.effective, candidate);
    PlanHasLanes(m.effective);
    PlanHasLanes(NextEffective(m.effective, candidate));
  }

  lemma PlanHasLanes(c: EdgeConfig)
    ensures PlanOf(c).lanes == Lanes(c.cameras) && PlanOf(c).previewSlot == c.preview.enabled
    ensures PlanOf(c).event == c.event && PlanOf(c).algorithm == c.algorithm
  {}

  /**
   After a committed update a component that followed the effective configuration follows the new one,
   unless it is the event component and its pipeline fell behind; and then only in its lanes.
   */
  lemma CommittedUpdateIsFollowedIff(booted: EdgeConfig, m: Memory, candidate: EdgeConfig, index: nat, kind: Kind,
                                     before: seq<Part>, now: seq<Part>)
    requires Coherent(booted, m)
    requires LeftAfter(Committed, index, kind, before, now, m.effective, NextEffective(m.effective, candidate),
                       ChangedPaths(m.stored, candidate))
    ensures before == Setting(kind, m.effective) ==>
              (now == Setting(kind, NextEffective(m.effective, candidate)) <==>
                kind != Event || !PipelineFallsBehind(m, candidate))
    ensures FollowsButLanes(kind, before, m.effective) ==>
              FollowsButLanes(kind, now, NextEffective(m.effective, candidate))
  {
    hide Coherent, Setting, NextEffective, ChangedPaths, SameLanes, OlderLanes;
    var next, changed := NextEffective(m.effective, candidate), ChangedPaths(m.stored, candidate);
    forall k | 0 <= k < |now|
      ensures now[k] == if Relevant(kind, k, changed) then Setting(kind, next)[k] else before[k]
      ensures !Relevant(kind, k, changed) ==>
                (Setting(kind, next)[k] == Setting(kind, m.effective)[k] <==>
                  kind != Event || k != 0 || SameLanes(m.effective, next))
    {
      assert PartAfter(Committed, index, kind, k, before[k], now[k], m.effective, next, changed);
      IrrelevantPartStays(kind, k, booted, m, candidate);
    }
    if kind == Event && !RebuildsPipeline(changed) && |before| == Arity(kind) {
      SettingIsOlder(m.effective);
      if OlderLanes(before[0], m.effective) {
        OlderLanesStayOlder(booted, m, candidate, before[0]);
      }
    }
    if before == Setting(kind, m.effective) {
      if kind != Event || !PipelineFallsBehind(m, candidate) {
        assert now == Setting(kind, next);
      } else {
        assert now[0] != Setting(kind, next)[0];
      }
    }
  }

  lemma SettingIsOlder(c: EdgeConfig)
    ensures OlderLanes(Setting(Event, c)[0], c)
  {
    hide Lanes;
  }

  datatype FileOutcome = NotLoaded | ReadFailed | Updated(outcome: Outcome) | RestoreFailed(cause: Outcome)

  datatype LoadError = MigrationFailed | HistoryUnreadable | RecoveryFailed | NothingUsable

  datatype LoadOutcome = AlreadyLoaded | Loaded | Recovered | LoadFailed(error: LoadError)

  function DeclaredSchemaOf(text: Document): Option<nat> {
    if text.Tree? then DeclaredSchema(text.root) else None
  }

  /** A numbered history file that parses and carries its own number. */
  predicate Carries(disk: Disk, name: string, codec: Codec) {
    && InHistory(name) in disk && RevisionOf(name).Some?
    && var c := Usable(disk[InHistory(name)], codec);
       c.Some? && c.value.configRevision == RevisionOf(name).value
  }

  /** `c` comes from the newest readable history file that carries its own number. */
  ghost predicate Recovers(disk: Disk, c: EdgeConfig, unreadable: set<string>, codec: Codec) {
    && (exists name :: name in Numbered(disk) - unreadable && Carries(disk, name, codec)
                       && Usable(disk[InHistory(name)], codec) == Some(c))
    && (forall name | name in Numbered(disk) - unreadable && Carries(disk, name, codec) ::
          RevisionOf(name).value <= c.configRevision)
  }

  lemma UsableIsValid(text: Document, c: EdgeConfig, codec: Codec)
    requires Lawful(codec) && Usable(text, codec) == Some(c)
    ensures codec.valid(c) && ValidContent(c, codec) && 1 <= c.configRevision
  {
    hide Lawful;
    ReadIsValid(codec, text);
    ValidHasValidContent(c, codec);
  }

  /** The first usable candidate from the top is the newest one. */
  lemma NewestIsFound(disk: Disk, candidates: seq<string>, at: nat, c: EdgeConfig, unreadable: set<string>,
                      codec: Codec)
    requires Lists(candidates, disk) && at < |candidates| && candidates[at] !in unreadable
    requires Carries(disk, candidates[at], codec) && Usable(disk[InHistory(candidates[at])], codec) == Some(c)
    requires forall i | at < i < |candidates| :: candidates[i] in unreadable || !Carries(disk, candidates[i], codec)
    ensures Recovers(disk, c, unreadable, codec)
  {
    hide Usable, RevisionOf;
    assert candidates[at] in candidates;
    forall name | name in Numbered(disk) - unreadable && Carries(disk, name, codec)
      ensures RevisionOf(name).value <= c.configRevision
    {
      var i :| 0 <= i < |candidates| && candidates[i] == name;
      assert i <= at;
    }
  }

  lemma LoadedIsInStep(disk: Disk, c: EdgeConfig, codec: Codec)
    requires Lawful(codec) && MainConfig(disk, codec) == Some(c)
    ensures Holds(disk, c, codec) && codec.valid(c) && ValidContent(c, codec)
    ensures Coherent(c, Boot(c))
  {
    hide Lawful;
    BootIsCoherent(c);
    UsableIsValid(disk[Main], c, codec);
  }

  lemma WrittenIsHeld(disk: Disk, c: EdgeConfig, codec: Codec)
    requires Main in disk && disk[Main] == codec.render(c) && codec.valid(c) && Lawful(codec)
    ensures MainConfig(disk, codec) == Some(c) && Holds(disk, c, codec)
  {
    PrintedIsRead(codec, c);
  }

  /** A text judged to be without change holds the stored content and revision. */
  lemma SameTextIsHeld(accepting: bool, memory: Option<Memory>, disk: Disk, expected: nat, codec: Codec)
    requires Main in disk && CheckUpdate(accepting, memory, disk[Main], expected, codec).Same?
    ensures Holds(disk, memory.value.stored, codec)
  {
  }

  class Repository {
    const codec: Codec
    const fs: FileSystem
    const historyLimit: nat
    var appliers: seq<ConfigApplier>
    var memory: Option<Memory>
    var accepting: bool
    ghost var booted: Option<EdgeConfig>

    ghost predicate Valid()
      reads this, fs, appliers
    {
      && fs.Valid() && ValidAppliers(appliers) && Lawful(codec)
      && (memory.Some? ==> ValidContent(memory.value.stored, codec))
    }

    /** The memory is what some run since the last start leads to. */
    ghost predicate CoherentMemory()
      reads this
    {
      memory.Some? && booted.Some? && Coherent(booted.value, memory.value)
    }

    /** The main file holds what the memory says is stored. */
    ghost predicate Synced()
      reads this, fs
    {
      memory.Some? && Holds(fs.files, memory.value.stored, codec)
    }

    constructor (normalize: Normalizer, fs: FileSystem, historyLimit: nat)
      requires fs.Valid()
      ensures Valid() && codec == TheCodec(normalize) && this.fs == fs && this.historyLimit == historyLimit
      ensures memory == None && accepting && appliers == []
    {
      codec := TheCodec(normalize);
      this.fs := fs;
      this.historyLimit := historyLimit;
      appliers := [];
      memory := None;
      accepting := true;
      booted := None;
      TheCodecIsLawful(normalize);
    }

    /** Appends a component that is not registered yet; a stopping repository takes no new ones. */
    method RegisterApplier(applier: ConfigApplier) returns (ok: bool)
      requires Valid() && applier.Valid()
      modifies this`appliers
      ensures Valid()
      ensures ok <==> applier in old(appliers) || accepting
      ensures appliers == if applier !in old(appliers) && accepting then old(appliers) + [applier] else old(appliers)
    {
      if applier in appliers {
        return true;
      }
      if !accepting {
        return false;
      }
      assert forall i | 0 <= i < |appliers| :: appliers[i] in appliers;
      appliers := appliers + [applier];
      ok := true;
    }

    method StopAcceptingChanges()
      requires Valid()
      modifies this`accepting
      ensures Valid() && !accepting
    {
      accepting := false;
    }

    ghost function Check(text: Document, expected: nat): Check
      reads this
    {
      CheckUpdate(accepting, memory, text, expected, codec)
    }

    /** The candidate an accepted text leads to. */
    ghost function CandidateOf(check: Check, now: string): EdgeConfig
      reads this
      requires check.Proceed? && memory.Some?
    {
      Candidate(memory.value.stored, check.parsed, now)
    }

    /** How a candidate leaves the components for which no restoring failed. */
    twostate predicate Left(new outcome: Outcome, new candidate: EdgeConfig)
      reads this, appliers
    {
      && appliers == old(appliers) && old(memory).Some?
      && var m := old(memory).value;
         forall i | 0 <= i < |appliers| && appliers[i].restoreFailures == old(appliers[i].restoreFailures) ::
           LeftAfter(outcome, i, appliers[i].kind, old(appliers[i].live), appliers[i].live, m.effective,
                     NextEffective(m.effective, candidate), ChangedPaths(m.stored, candidate))
    }

    /**
     The components for which no restoring failed keep up with the effective configuration: one that
     followed it follows it still, except for an event pipeline that a committed change passes over;
     and none falls behind in anything but its lanes.
     */
    twostate predicate KeptUp(new outcome: Outcome, new check: Check, now: string)
      requires old(memory).Some? && memory.Some?
      reads this, appliers
    {
      && appliers == old(appliers)
      && var effective := old(memory).value.effective;
         forall i | 0 <= i < |appliers| && appliers[i].restoreFailures == old(appliers[i].restoreFailures) ::
           && (old(appliers[i].Follows(effective)) ==>
                 (appliers[i].Follows(memory.value.effective) <==>
                   !(outcome == Committed && check.Proceed? && appliers[i].kind == Event
                     && PipelineFallsBehind(old(memory).value, old(CandidateOf(check, now))))))
           && (FollowsButLanes(appliers[i].kind, old(appliers[i].live), effective) ==>
                 FollowsButLanes(appliers[i].kind, appliers[i].live, memory.value.effective))
    }

    /** If some component refuses this change when committing, the others can be put back; known before the call. */
    ghost predicate UndoesRefusal(check: Check, now: string)
      reads this
    {
      check.Proceed? && memory.Some? &&
      var m, candidate := memory.value, CandidateOf(check, now);
      RefusalIsUndone(Kinds(appliers), m.effective, NextEffective(m.effective, candidate),
                      ChangedPaths(m.stored, candidate))
    }

    /** What the update rules ask of a text: changes are accepted, and file, caller and store name one revision. */
    ghost predicate Admits(text: Document, expected: nat)
      reads this
    {
      && accepting && memory.Some? && expected == memory.value.stored.configRevision
      && codec.parse(text).Success? && codec.parse(text).value.configRevision == expected
    }

    /**
     The text decides what an update does: it is refused if and only if it is not admitted, changes
     nothing if and only if it says what is stored, and once committed it is what is stored, under the
     next revision and with the time of the change.
     */
    twostate predicate Obeys(new outcome: Outcome, text: Document, expected: nat, now: string)
      reads this
    {
      var admitted, read := old(Admits(text, expected)), codec.parse(text);
      && (outcome.Rejected? <==> !admitted)
      && (outcome == NoChange <==>
           admitted && read.value == old(memory).value.stored.(modifiedAt := read.value.modifiedAt))
      && (outcome == Committed ==>
            && admitted && memory.Some?
            && memory.value.stored
            == read.value.(configRevision := (expected + 1) % 0x1_0000_0000_0000_0000, modifiedAt := now))
    }

    /** The part of an update after its checks: audit record, transaction, and the new memory. */
    method ApplyCandidate(parsed: EdgeConfig, now: string) returns (outcome: Outcome)
      requires Valid() && ValidTimestamp(now) && memory.Some? && codec.valid(parsed)
      modifies this`memory, fs, appliers
      ensures Valid()
      ensures !outcome.Rejected? && outcome != NoChange
      ensures outcome == AuditFailed ==> fs.trace == old(fs.trace)
                                         && forall i | 0 <= i < |appliers| :: appliers[i].live == old(appliers[i].live)
      ensures var m := old(memory).value;
              var candidate := Candidate(m.stored, parsed, now);
              && memory == Some(if outcome == Committed then Commit(m, candidate) else m)
              && old(fs.trace) <= fs.trace
              && (forall k | |old(fs.trace)| <= k < |fs.trace| ::
                    MainIsOneOf(fs.trace[k], old(fs.files), m.stored, candidate, codec))
              && MainAfter(outcome, fs.files, old(fs.files), m.stored, candidate, codec)
              && (outcome == Committed ==>
                    PersistedFrom(old(fs.files), fs.files, m.stored, candidate, historyLimit, codec))
      ensures outcome.CommitFailed? ==> outcome.index < |appliers| && appliers[outcome.index].kind == Other
      ensures Left(outcome, old(Candidate(memory.value.stored, parsed, now)))
    {
      hide PersistedFrom, Coherent, NextEffective, Setting, Lawful, ValidContent, MainIsOneOf, LeftAfter, Relevant;
      hide ChangedPaths;
      var m := memory.value;
      var candidate := Candidate(m.stored, parsed, now);
      ContentRevision(m.stored, codec);
      CandidateIsReadable(m.stored, parsed, now, codec);
      var changed := ChangedConfigPaths(m.stored, candidate);
      var pending := CollectPending(m.effective, candidate);
      var effectiveCandidate := RestorePending(m.effective, candidate, pending);
      var audited: bool := *;
      if !audited {
        forall i | 0 <= i < |appliers|
          ensures LeftAfter(AuditFailed, i, appliers[i].kind, appliers[i].live, appliers[i].live, m.effective,
                            effectiveCandidate, changed)
        {
          assert appliers[i].Valid();
          UntouchedIsLeft(AuditFailed, i, appliers[i].kind, appliers[i].live, m.effective, effectiveCandidate, changed);
        }
        return AuditFailed;
      }
      outcome := Transact(fs, appliers, m.stored, candidate, m.effective, effectiveCandidate, changed,
          historyLimit, codec);
      if outcome == Committed {
        memory := Some(Memory(candidate, effectiveCandidate, pending,
                              if pending == [] then candidate.configRevision else m.effectiveRevision));
      }
    }

    /**
     The checks decide alone whether anything happens; the memory changes only when the transaction
     was committed; disk and components are as the transaction left them.
     */
    method UpdateLocked(text: Document, expected: nat, now: string) returns (outcome: Outcome, ghost check: Check)
      requires Valid() && ValidTimestamp(now)
      modifies this`memory, fs, appliers
      ensures Valid()
      ensures check == old(Check(text, expected)) && Obeys(outcome, text, expected, now)
      ensures check.Reject? ==> outcome == Rejected(check.error)
      ensures check.Same? ==> outcome == NoChange
      ensures check.Proceed? ==>
                !outcome.Rejected? && outcome != NoChange && old(memory).Some? && codec.valid(check.parsed)
      ensures outcome.Rejected? || outcome in {NoChange, AuditFailed} ==>
                && fs.files == old(fs.files) && fs.trace == old(fs.trace)
                && forall i | 0 <= i < |appliers| :: appliers[i].live == old(appliers[i].live)
      ensures memory == if outcome == Committed then Some(Commit(old(memory).value, old(CandidateOf(check, now))))
                        else old(memory)
      ensures old(fs.trace) <= fs.trace
      ensures check.Proceed? ==>
                && (forall k | |old(fs.trace)| <= k < |fs.trace| ::
                      MainIsOneOf(fs.trace[k], old(fs.files), old(memory).value.stored,
                            old(CandidateOf(check, now)), codec))
                && MainAfter(outcome, fs.files, old(fs.files), old(memory).value.stored,
                            old(CandidateOf(check, now)), codec)
      ensures outcome == Committed ==>
                PersistedFrom(old(fs.files), fs.files, old(memory).value.stored, old(CandidateOf(check, now)),
                    historyLimit, codec)
      ensures outcome.CommitFailed? ==> outcome.index < |appliers| && appliers[outcome.index].kind == Other
      ensures check.Proceed? ==> Left(outcome, old(CandidateOf(check, now)))
    {
      hide PersistedFrom, Coherent, NextEffective, Setting, Lawful, ValidContent, CheckUpdate, MainIsOneOf, MainAfter,
           FollowedAfter;
      check := Check(text, expected);
      UpdateGoesOnIff(accepting, memory, text, expected, codec);
      match CheckUpdate(accepting, memory, text, expected, codec) {
        case Reject(error) =>
          outcome := Rejected(error);
        case Same =>
          outcome := NoChange;
        case Proceed(parsed) =>
          ProceedIsValid(accepting, memory, text, expected, codec);
          outcome := ApplyCandidate(parsed, now);
      }
    }

    /** Loaded, coherent, and the revision counter is not about to wrap. */
    ghost predicate Running()
      reads this
    {
      CoherentMemory() && 1 <= memory.value.stored.configRevision < MAX_UINT64
    }

    twostate lemma LeftIsKeptUp(new outcome: Outcome, new check: Check, now: string)
      requires old(Running()) && appliers == old(appliers) && booted == old(booted)
      requires memory == if outcome == Committed && check.Proceed?
                         then Some(Commit(old(memory).value, old(CandidateOf(check, now)))) else old(memory)
      requires check.Proceed? ==> Left(outcome, old(CandidateOf(check, now)))
      requires !check.Proceed? ==>
                 outcome != Committed && forall i | 0 <= i < |appliers| :: appliers[i].live == old(appliers[i].live)
      requires outcome.CommitFailed? ==>
                 && outcome.index < |appliers| && appliers[outcome.index].kind == Other
                 && old(UndoesRefusal(check, now))
      ensures KeptUp(outcome, check, now)
    {
      hide Coherent, Setting, ChangedPaths, NextEffective, PipelineFallsBehind, FollowsButLanes, LeftAfter;
      if check.Proceed? {
        var m, candidate := old(memory).value, old(CandidateOf(check, now));
        var next, changed := NextEffective(m.effective, candidate), ChangedPaths(m.stored, candidate);
        forall i | 0 <= i < |appliers| && appliers[i].restoreFailures == old(appliers[i].restoreFailures)
          ensures old(appliers[i].Follows(m.effective)) ==>
                    (appliers[i].Follows(memory.value.effective) <==>
                      !(outcome == Committed && appliers[i].kind == Event && PipelineFallsBehind(m, candidate)))
          ensures FollowsButLanes(appliers[i].kind, old(appliers[i].live), m.effective) ==>
                    FollowsButLanes(appliers[i].kind, appliers[i].live, memory.value.effective)
        {
          var kind, before, live := appliers[i].kind, old(appliers[i].live), appliers[i].live;
          if outcome == Committed {
            CommittedUpdateIsFollowedIff(booted.value, m, candidate, i, kind, before, live);
          } else if outcome.CommitFailed? {
            UndoneRefusalKeepsFollowing(Kinds(appliers), outcome, i, before, live, m.effective, next, changed);
          } else {
            FailedUpdateKeepsFollowing(outcome, i, kind, before, live, m.effective, next, changed);
          }
        }
      }
    }

    /** The main file reads as the stored configuration or as the candidate, wherever the process stops. */
    twostate predicate StaysReadable(new outcome: Outcome, new check: Check, now: string)
      requires old(memory).Some?
      reads this, fs
    {
      && (Synced() || (outcome.CommitFailed? && !outcome.restored))
      && forall k | |old(fs.trace)| <= k < |fs.trace| ::
           || Holds(fs.trace[k], old(memory).value.stored, codec)
           || (check.Proceed? && MainConfig(fs.trace[k], codec) == Some(old(CandidateOf(check, now))))
    }

    twostate lemma TransactionStaysReadable(new outcome: Outcome, new check: Check, now: string)
      requires old(Valid()) && old(Running()) && old(Synced()) && ValidTimestamp(now)
      requires check.Proceed? && codec.valid(check.parsed)
      requires old(fs.trace) <= fs.trace
      requires memory == if outcome == Committed then Some(Commit(old(memory).value, old(CandidateOf(check, now))))
                         else old(memory)
      requires forall k | |old(fs.trace)| <= k < |fs.trace| ::
                 MainIsOneOf(fs.trace[k], old(fs.files), old(memory).value.stored, old(CandidateOf(check, now)), codec)
      requires MainAfter(outcome, fs.files, old(fs.files), old(memory).value.stored, old(CandidateOf(check, now)),
          codec)
      ensures StaysReadable(outcome, check, now)
    {
      hide Lawful, Coherent, NextEffective, Holds, MainConfig, ValidContent, MainIsOneOf, MainAfter, SameConfig;
      var stored, candidate := old(memory).value.stored, old(CandidateOf(check, now));
      CandidateIsReadable(stored, check.parsed, now, codec);
      ValidHasValidContent(stored, codec);
      forall k | |old(fs.trace)| <= k < |fs.trace|
        ensures Holds(fs.trace[k], stored, codec) || MainConfig(fs.trace[k], codec) == Some(candidate)
      {
        InterruptedMainIsOldOrNew(fs.trace[k], old(fs.files), stored, candidate, codec);
      }
      FinalMain(outcome, fs.files, old(fs.files), stored, candidate, codec);
      ReadIsHeld(fs.files, candidate, codec);
    }

    /**
     What every update is followed by. On a running repository in step with its disk: wherever the
     process stops, the main file reads as the old configuration or as exactly the candidate; at the
     end it reads as the stored one, except that a refused commit whose restore failed leaves the
     candidate; the memory stays coherent. Only a component from outside the service can refuse a
     commit; and the components keep up with the effective configuration, also then, provided that
     those registered let a refusal be undone.
     */
    twostate predicate WellUpdated(new outcome: Outcome, new check: Check, now: string)
      reads this, fs, appliers
    {
      && (check.Reject? ==> outcome == Rejected(check.error))
      && (check.Same? ==> outcome == NoChange)
      && (check.Proceed? ==> !outcome.Rejected? && outcome != NoChange)
      && (outcome == Committed ==>
            && check.Proceed? && old(memory).Some? && memory.Some?
            && memory.value.stored == old(CandidateOf(check, now))
            && PersistedFrom(old(fs.files), fs.files, old(memory).value.stored, memory.value.stored, historyLimit,
                             codec))
      && (outcome != Committed ==> memory == old(memory))
      && (old(Running()) ==> CoherentMemory())
      && old(fs.trace) <= fs.trace
      && (old(Running()) && old(Synced()) ==> StaysReadable(outcome, check, now))
      && (outcome.CommitFailed? ==> outcome.index < |appliers| && appliers[outcome.index].kind == Other)
      && (check.Proceed? ==> old(memory).Some? && Left(outcome, old(CandidateOf(check, now))))
      && (old(Running()) && (outcome.CommitFailed? ==> old(UndoesRefusal(check, now))) ==>
            memory.Some? && KeptUp(outcome, check, now))
    }

    /** One update; `check` is what the update rules say of the text. */
    method Update(text: Document, expected: nat, now: string) returns (outcome: Outcome, ghost check: Check)
      requires Valid() && ValidTimestamp(now)
      modifies this`memory, fs, appliers
      ensures Valid()
      ensures check == old(Check(text, expected))
      ensures Obeys(outcome, text, expected, now)
      ensures WellUpdated(outcome, check, now)
    {
      hide Lawful, PersistedFrom, Coherent, NextEffective, Setting, Holds, MainConfig, CheckUpdate;
      hide ValidContent, MainIsOneOf, MainAfter, SameConfig, Repository.Obeys, Repository.Left;
      hide Repository.UndoesRefusal;
      outcome, check := UpdateLocked(text, expected, now);
      if check.Proceed? && old(Running()) {
        CommitKeepsCoherent(booted.value, old(memory).value, old(CandidateOf(check, now)));
        if old(Synced()) {
          TransactionStaysReadable(outcome, check, now);
        }
      }
      if old(Running()) && (outcome.CommitFailed? ==> old(UndoesRefusal(check, now))) {
        LeftIsKeptUp(outcome, check, now);
      }
    }

    /**
     What the main file can be while a text from outside is taken over: that text, the candidate or the
     stored one.
     */
    twostate predicate Between(new disk: Disk, new check: Check, now: string)
      requires old(memory).Some?
      reads fs
    {
      || SameMain(disk, old(fs.files))
      || (Main in disk
          && (disk[Main] == codec.render(old(memory).value.stored)
              || (check.Proceed? && disk[Main] == codec.render(old(CandidateOf(check, now))))))
    }

    /** The update of a reload, before anything is written back. */
    method TakeOver(text: Document, expected: nat, now: string) returns (result: Outcome, ghost check: Check)
      requires Valid() && ValidTimestamp(now) && memory.Some? && Main in fs.files && fs.files[Main] == text
      modifies this`memory, fs, appliers
      ensures Valid() && old(fs.trace) <= fs.trace && check == old(Check(text, expected))
      ensures Obeys(result, text, expected, now)
      ensures forall k | |old(fs.trace)| <= k < |fs.trace| :: Between(fs.trace[k], check, now)
      ensures result == Committed ==>
                && memory.Some?
                && PersistedFrom(old(fs.files), fs.files, old(memory).value.stored, memory.value.stored, historyLimit,
                                 codec)
      ensures result != Committed ==> memory == old(memory)
      ensures check.Proceed? ==> Left(result, old(CandidateOf(check, now)))
      ensures old(Running()) ==> CoherentMemory()
      ensures old(Running()) && result in {Committed, NoChange} ==> Synced()
      ensures old(Running()) && (result.CommitFailed? ==> old(UndoesRefusal(check, now))) ==>
                memory.Some? && KeptUp(result, check, now)
    {
      hide Lawful, PersistedFrom, Coherent, NextEffective, Setting, Holds, MainConfig, CheckUpdate;
      hide ValidContent, SameConfig, ChangedPaths, LeftAfter, FollowsButLanes, PipelineFallsBehind;
      ghost var stored := memory.value.stored;
      result, check := UpdateLocked(text, expected, now);
      if old(Running()) {
        ValidHasValidContent(stored, codec);
        if result.CommitFailed? ==> old(UndoesRefusal(check, now)) {
          LeftIsKeptUp(result, check, now);
        }
        if check.Proceed? {
          ghost var candidate := old(CandidateOf(check, now));
          CandidateIsReadable(stored, check.parsed, now, codec);
          CommitKeepsCoherent(booted.value, old(memory).value, candidate);
          if result == Committed {
            WrittenIsHeld(fs.files, candidate, codec);
          }
        } else if check.Same? {
          SameTextIsHeld(old(accepting), old(memory), fs.files, expected, codec);
        }
      }
    }

    /**
     Takes over what someone else wrote to the main file; when that is refused, the stored
     configuration is written back. Afterwards a running repository is in step with its disk, whatever
     the file held before, unless the read or that last write failed; and the components keep up as
     after any other update.
     */
    method Reload(expected: nat, now: string) returns (outcome: FileOutcome, ghost check: Check)
      requires Valid() && ValidTimestamp(now)
      modifies this`memory, fs, appliers
      ensures Valid() && old(fs.trace) <= fs.trace
      ensures outcome == FileOutcome.NotLoaded <==> old(memory).None?
      ensures outcome in {FileOutcome.NotLoaded, ReadFailed} ==> fs.trace == old(fs.trace)
      ensures outcome.Updated? || outcome.RestoreFailed? ==>
                && old(memory).Some? && Main in old(fs.files) && check == old(Check(fs.files[Main], expected))
                && Obeys(if outcome.Updated?
                    then outcome.outcome else outcome.cause, old(fs.files)[Main], expected, now)
                && forall k | |old(fs.trace)| <= k < |fs.trace| :: Between(fs.trace[k], check, now)
      ensures outcome == Updated(Committed) ==>
                && old(memory).Some? && memory.Some?
                && PersistedFrom(old(fs.files), fs.files, old(memory).value.stored, memory.value.stored, historyLimit,
                                 codec)
      ensures outcome == Updated(Committed) || memory == old(memory)
      ensures old(Running()) ==> CoherentMemory()
      ensures old(Running()) && outcome.Updated? ==> Synced()
      ensures outcome.Updated? && old(Running())
              && (outcome.outcome.CommitFailed? ==> old(UndoesRefusal(check, now))) ==>
                old(memory).Some? && memory.Some? && KeptUp(outcome.outcome, check, now)
    {
      hide Lawful, PersistedFrom, Coherent, NextEffective, Setting, Holds, MainConfig, CheckUpdate;
      hide ValidContent, SameConfig, ChangedPaths, LeftAfter, FollowsButLanes, PipelineFallsBehind;
      hide Repository.Left, Repository.UndoesRefusal;
      check := Same;
      if memory.None? {
        return FileOutcome.NotLoaded, check;
      }
      ghost var stored := memory.value.stored;
      var previous := codec.render(memory.value.stored);
      var text := fs.ReadBounded(Main);
      if text.None? {
        return ReadFailed, check;
      }
      var result;
      result, check := TakeOver(text.value, expected, now);
      if result != NoChange && result != Committed {
        var restored := fs.ReplaceAtomically(Main, previous);
        if !restored {
          return RestoreFailed(result), check;
        }
        if old(Running()) {
          ValidHasValidContent(stored, codec);
          WrittenIsHeld(fs.files, stored, codec);
        }
      }
      outcome := Updated(result);
    }

    /**
     Updates to the text of a history file. The update rules apply to it as to any other text: it is
     refused if and only if they do not admit it.
     */
    method RollbackTo(revision: nat, expected: nat, now: string) returns (outcome: FileOutcome, ghost check: Check)
      requires Valid() && ValidTimestamp(now)
      modifies this`memory, fs, appliers
      ensures Valid()
      ensures outcome == ReadFailed || outcome.Updated?
      ensures outcome == ReadFailed ==> memory == old(memory) && fs.files == old(fs.files)
      ensures var path := InHistory(HistoryName(revision));
              outcome.Updated? ==>
                && path in old(fs.files) && check == old(Check(fs.files[path], expected))
                && Obeys(outcome.outcome, old(fs.files)[path], expected, now)
                && (outcome.outcome != Committed ==> memory == old(memory))
                && WellUpdated(outcome.outcome, check, now)
      ensures old(Running()) ==> CoherentMemory()
    {
      hide Lawful, PersistedFrom, Coherent, NextEffective, Setting, Holds, MainConfig, ValidContent, HistoryName;
      var text := fs.ReadBounded(InHistory(HistoryName(revision)));
      if text.None? {
        return ReadFailed, Same;
      }
      var result;
      result, check := Update(text.value, expected, now);
      outcome := FileOutcome.Updated(result);
    }

    /** Keeps the old text under a legacy name, then writes the current form; both hold `c`. */
    method Migrate(c: EdgeConfig, text: Document) returns (ok: bool)
      requires Valid() && MainConfig(fs.files, codec) == Some(c)
      modifies fs
      ensures Valid()
      ensures old(fs.trace) <= fs.trace
      ensures forall k | |old(fs.trace)| <= k < |fs.trace| :: MainConfig(fs.trace[k], codec) == Some(c)
      ensures MainConfig(fs.files, codec) == Some(c)
      ensures ok ==>
                fs.files == old(fs.files)[InHistory(LegacyName(c.configRevision, 7)) := text][Main := codec.render(c)]
    {
      hide Lawful, Usable, LegacyName, ValidContent;
      var audited: bool := *;
      if !audited {
        return false;
      }
      var made := fs.CreateDirectories();
      if !made {
        return false;
      }
      var kept := fs.ReplaceAtomically(InHistory(LegacyName(c.configRevision, 7)), text);
      SameMainHolds(fs.files, old(fs.files), c, codec);
      if !kept {
        return false;
      }
      ok := fs.ReplaceAtomically(Main, codec.render(c));
      if ok {
        UsableIsValid(old(fs.files)[Main], c, codec);
        WrittenIsHeld(fs.files, c, codec);
      }
    }

    /** Tries the numbered history files, highest revision first. */
    method RecoverFromHistory() returns (outcome: LoadOutcome, ghost unreadable: set<string>)
      requires Valid() && memory.None?
      modifies this`memory, this`booted, fs
      ensures Valid() && old(fs.trace) <= fs.trace
      ensures outcome == Recovered || (outcome.LoadFailed? && outcome.error != MigrationFailed)
      ensures outcome.LoadFailed? ==> memory == None && fs.files == old(fs.files) && fs.trace == old(fs.trace)
      ensures outcome == Recovered ==>
                && CoherentMemory() && Synced() && memory == Some(Boot(booted.value))
                && Recovers(old(fs.files), booted.value, unreadable, codec)
                && fs.files == old(fs.files)[Main := codec.render(booted.value)]
      ensures outcome == LoadFailed(NothingUsable) ==>
                forall name | name in Numbered(old(fs.files)) - unreadable :: !Carries(old(fs.files), name, codec)
    {
      hide Lawful, Usable, ValidContent, RevisionOf, Coherent, Holds;
      unreadable := {};
      var names := fs.ListRegularFiles();
      if names.None? {
        return LoadFailed(HistoryUnreadable), unreadable;
      }
      var candidates := SortedNumbered(names.value, fs.files);
      var left := |candidates|;
      while left > 0
        invariant 0 <= left <= |candidates|
        invariant Valid() && memory.None? && fs.files == old(fs.files) && fs.trace == old(fs.trace)
        invariant forall i | 0 <= i < left :: candidates[i] !in unreadable
        invariant forall i | left <= i < |candidates| ::
                    candidates[i] in unreadable || !Carries(fs.files, candidates[i], codec)
      {
        left := left - 1;
        var name := candidates[left];
        assert name in Numbered(fs.files);
        var text := fs.ReadBounded(InHistory(name));
        if text.None? {
          unreadable := unreadable + {name};
          continue;
        }
        var parsed := Usable(text.value, codec);
        if parsed.None? || Some(parsed.value.configRevision) != RevisionOf(name) {
          continue;
        }
        var c := parsed.value;
        UsableIsValid(text.value, c, codec);
        NewestIsFound(fs.files, candidates, left, c, unreadable, codec);
        var audited: bool := *;
        if !audited {
          return LoadFailed(RecoveryFailed), unreadable;
        }
        var restored := fs.ReplaceAtomically(Main, codec.render(c));
        if !restored {
          return LoadFailed(RecoveryFailed), unreadable;
        }
        WrittenIsHeld(fs.files, c, codec);
        LoadedIsInStep(fs.files, c, codec);
        memory := Some(Boot(c));
        booted := Some(c);
        return Recovered, unreadable;
      }
      outcome := LoadFailed(NothingUsable);
    }

    /**
     The first load reads the main file, or recovers the newest usable history entry. A version 7 file
     is kept under a legacy name and then replaced by its version 8 form; at every point in between the
     main file reads as the same configuration.
     */
    method Load() returns (outcome: LoadOutcome, ghost mainRead: bool, ghost unreadable: set<string>)
      requires Valid()
      modifies this`memory, this`booted, fs
      ensures Valid()
      ensures old(memory).Some? <==> outcome == AlreadyLoaded
      ensures outcome == AlreadyLoaded ==> memory == old(memory) && booted == old(booted) && fs.trace == old(fs.trace)
      ensures outcome.LoadFailed? ==> memory == None
      ensures outcome in {Loaded, Recovered} ==> CoherentMemory() && Synced() && memory == Some(Boot(booted.value))
      ensures outcome == Loaded ==> mainRead && MainConfig(old(fs.files), codec) == booted
      // exactly a version 7 file is replaced, and its text kept
      ensures outcome == Loaded ==>
                && Main in old(fs.files) && booted.Some?
                && var (text, c) := (old(fs.files)[Main], booted.value);
                   fs.files == if Declares(text, 7)
                               then old(fs.files)[InHistory(LegacyName(c.configRevision, 7)) := text]
                                                 [Main := codec.render(c)]
                               else old(fs.files)
      // a main file that was read and is usable is never passed over for the history
      ensures old(memory).None? && mainRead && MainConfig(old(fs.files), codec).Some? ==>
                outcome == Loaded || outcome == LoadFailed(MigrationFailed)
      ensures outcome == LoadFailed(MigrationFailed) ==>
                Main in old(fs.files) && DeclaredSchemaOf(old(fs.files)[Main]) == Some(7)
      ensures outcome == Recovered ==>
                && Recovers(old(fs.files), booted.value, unreadable, codec)
                && fs.files == old(fs.files)[Main := codec.render(booted.value)]
      ensures outcome == LoadFailed(NothingUsable) ==>
                forall name | name in Numbered(old(fs.files)) - unreadable :: !Carries(old(fs.files), name, codec)
      // the migration can be interrupted anywhere
      ensures old(fs.trace) <= fs.trace
      ensures mainRead && MainConfig(old(fs.files), codec).Some? ==>
                forall k | |old(fs.trace)| <= k < |fs.trace| ::
                  MainConfig(fs.trace[k], codec) == MainConfig(old(fs.files), codec)
    {
      hide Lawful, Coherent, Holds, ValidContent, HistoryName, LegacyName, RevisionOf;
      mainRead := false;
      unreadable := {};
      if memory.Some? {
        return AlreadyLoaded, mainRead, unreadable;
      }
      var text := fs.ReadBounded(Main);
      if text.Some? {
        mainRead := true;
        var parsed := codec.parse(text.value);
        if parsed.Success? {
          var c := parsed.value;
          LoadedIsInStep(fs.files, c, codec);
          if DeclaredSchemaOf(text.value) == Some(7) {
            var migrated := Migrate(c, text.value);
            if !migrated {
              return LoadFailed(MigrationFailed), mainRead, unreadable;
            }
            LoadedIsInStep(fs.files, c, codec);
          }
          memory := Some(Boot(c));
          booted := Some(c);
          return Loaded, mainRead, unreadable;
        }
      }
      outcome, unreadable := RecoverFromHistory();
    }
  }

  /**
   The next start on any disk state an interrupted update passes through (`WellUpdated`): once the main
   file is read, what is loaded has the content and revision of the old configuration or is exactly the
   candidate. Only the migration of a version 7 file can still fail, and then the file reads the same.
   */
  method Restart(normalize: Normalizer, disk: Disk, limit: nat, ghost stored: EdgeConfig, ghost candidate: EdgeConfig)
    returns (outcome: LoadOutcome, memory: Option<Memory>, ghost mainRead: bool, ghost after: Disk)
    requires Holds(disk, stored, TheCodec(normalize)) || MainConfig(disk, TheCodec(normalize)) == Some(candidate)
    ensures mainRead ==> outcome == Loaded || outcome == LoadFailed(MigrationFailed)
    ensures outcome == LoadFailed(MigrationFailed) ==>
              Main in disk && DeclaredSchemaOf(disk[Main]) == Some(7)
    ensures outcome == Loaded ==>
              && memory.Some? && memory == Some(Boot(memory.value.stored))
              && (SameConfig(memory.value.stored, stored) || memory.value.stored == candidate)
    ensures mainRead ==> MainConfig(after, TheCodec(normalize)) == MainConfig(disk, TheCodec(normalize))
  {
    hide TheCodec, Lawful, MainConfig, SameConfig, DeclaredSchemaOf, Coherent;
    HeldIsUsable(disk, stored, TheCodec(normalize));
    var fs := new FileSystem(disk);
    var repository := new Repository(normalize, fs, limit);
    ghost var unreadable;
    outcome, mainRead, unreadable := repository.Load();
    memory := repository.memory;
    after := fs.files;
    assert fs.trace[|fs.trace| - 1] == fs.files;
  }

  lemma HeldIsUsable(disk: Disk, c: EdgeConfig, codec: Codec)
    ensures Holds(disk, c, codec) ==>
              MainConfig(disk, codec).Some? && SameConfig(MainConfig(disk, codec).value, c)
  {}
}
