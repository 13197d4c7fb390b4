/**
 What the history directory holds after any number of updates, and what a start recovers from it.
 */
module ConfigHistory {
  import opened Wrappers
  import opened ConfigModel
  import opened ConfigParser
  import opened ConfigMemory
  import opened ConfigCodec
  import opened HistoryNames
  import opened ConfigDisk
  import opened ConfigTransaction
  import opened ConfigRepository

  /** The names of the revisions from `low` up to but not including `high`. */
  function Window(low: nat, high: nat): (names: set<string>)
    requires low <= high <= MAX_UINT64
  {
    set r | low <= r < high :: HistoryName(r)
  }

  lemma {:induction false} WindowSize(low: nat, high: nat)
    requires low <= high <= MAX_UINT64
    ensures |Window(low, high)| == high - low
    decreases high - low
  {
    hide HistoryName;
    if low < high {
      WindowSplit(low, high);
      WindowSize(low + 1, high);
    } else {
      assert Window(low, high) == {};
    }
  }

  lemma InWindow(low: nat, high: nat, r: nat)
    requires low <= high <= MAX_UINT64 && r <= MAX_UINT64
    ensures HistoryName(r) in Window(low, high) <==> low <= r < high
  {
    HistoryNameRevision(r);
    if HistoryName(r) in Window(low, high) {
      var q :| low <= q < high && HistoryName(q) == HistoryName(r);
      HistoryNameRevision(q);
    }
  }

  lemma WindowSplit(low: nat, high: nat)
    requires low < high <= MAX_UINT64
    ensures Window(low, high) == {HistoryName(low)} + Window(low + 1, high)
    ensures HistoryName(low) !in Window(low + 1, high)
  {
    InWindow(low + 1, high, low);
  }

  /** What is left after removing lowest revisions first is the upper end of the window. */
  lemma {:induction false} PrunedWindow(low: nat, high: nat, kept: set<string>)
    requires low <= high <= MAX_UINT64 && kept <= Window(low, high)
    requires forall g, k | low <= g < high && low <= k < high && HistoryName(g) !in kept
        && HistoryName(k) in kept :: g <= k
    ensures |kept| <= high - low && kept == Window(high - |kept|, high)
    decreases high - low
  {
    hide HistoryName;
    WindowSize(low, high);
    if low == high {
    } else if HistoryName(low) in kept {
      forall r | low <= r < high
        ensures HistoryName(r) in kept
      {}
      assert kept == Window(low, high);
    } else {
      WindowSplit(low, high);
      PrunedWindow(low + 1, high, kept);
    }
  }

  /** The history file of revision `r` holds the printed form of the configuration of that revision. */
  predicate HoldsEntry(disk: Disk, r: nat, configs: seq<EdgeConfig>, first: nat, codec: Codec) {
    var path := InHistory(HistoryName(r));
    first <= r < first + |configs| && path in disk && disk[path] == codec.render(configs[r - first])
  }

  /** The numbered files are a window, and each holds the printed form of the configuration of that revision. */
  ghost predicate HistoryIs(disk: Disk, low: nat, high: nat, configs: seq<EdgeConfig>, first: nat, codec: Codec) {
    && first <= low <= high <= MAX_UINT64 && high - first <= |configs|
    && Numbered(disk) == Window(low, high)
    && (forall r | low <= r < high :: HoldsEntry(disk, r, configs, first, codec))
  }

  lemma NumberedAfterPersist(pruned: Disk, after: Disk, stored: EdgeConfig, candidate: EdgeConfig, codec: Codec)
    requires stored.configRevision <= MAX_UINT64
    requires after == pruned[InHistory(HistoryName(stored.configRevision)) := codec.render(stored)]
                            [Main := codec.render(candidate)]
    ensures Numbered(after) == Numbered(pruned) + {HistoryName(stored.configRevision)}
  {
    HistoryNameRevision(stored.configRevision);
    var name := HistoryName(stored.configRevision);
    assert Names(after) == Names(pruned) + {name} by {
      hide HistoryName;
      forall n
        ensures n in Names(after) <==> n in Names(pruned) || n == name
      {
        assert n in Names(after) <==> InHistory(n) in after;
        assert n in Names(pruned) <==> InHistory(n) in pruned;
      }
    }
  }

  /**
   In every run a persisted update leaves at most `limit` numbered files; what it removed is no newer
   than what it kept.
   */
  lemma PersistKeepsLimit(before: Disk, after: Disk, stored: EdgeConfig, candidate: EdgeConfig, limit: nat,
      codec: Codec)
    requires stored.configRevision <= MAX_UINT64 && PersistedFrom(before, after, stored, candidate, limit, codec)
    ensures |Numbered(after)| <= limit && HistoryName(stored.configRevision) in Numbered(after)
    ensures forall gone, kept | gone in Numbered(before) - Numbered(after)
                                && kept in Numbered(after) - {HistoryName(stored.configRevision)} ::
              RevisionOf(gone).value <= RevisionOf(kept).value
  {
    hide HistoryName, RevisionOf;
    var pruned: Disk :|
      && PrunedFrom(before, pruned)
      && |Numbered(pruned)| < limit
      && (|Numbered(pruned)| == |Numbered(before)| || |Numbered(pruned)| + 1 >= limit)
      && after == pruned[InHistory(HistoryName(stored.configRevision)) := codec.render(stored)]
                        [Main := codec.render(candidate)];
    NumberedAfterPersist(pruned, after, stored, candidate, codec);
    forall gone, kept | gone in Numbered(before) - Numbered(after)
                        && kept in Numbered(after) - {HistoryName(stored.configRevision)}
      ensures RevisionOf(gone).value <= RevisionOf(kept).value
    {
      assert gone in Numbered(before) - Numbered(pruned) && kept in Numbered(pruned);
    }
  }

  /** One persisted update moves the window on by one and keeps at most `limit` entries. */
  lemma PersistMovesWindow(before: Disk, after: Disk, low: nat, configs: seq<EdgeConfig>, first: nat, k: nat,
                           limit: nat,
                           codec: Codec)
    requires first + k < MAX_UINT64 && k + 1 < |configs|
    requires configs[k].configRevision == first + k
    requires HistoryIs(before, low, first + k, configs, first, codec) && first + k - low <= limit
    requires PersistedFrom(before, after, configs[k], configs[k + 1], limit, codec)
    ensures var newLow := if first + k + 1 - low <= limit then low else low + 1;
            HistoryIs(after, newLow, first + k + 1, configs, first, codec)
  {
    hide HistoryName, RevisionOf, PrunedFrom, Numbered, HoldsEntry, Window;
    var high := first + k;
    var pruned: Disk :|
      && PrunedFrom(before, pruned)
      && |Numbered(pruned)| < limit
      && (|Numbered(pruned)| == |Numbered(before)| || |Numbered(pruned)| + 1 >= limit)
      && after == pruned[InHistory(HistoryName(configs[k].configRevision)) := codec.render(configs[k])]
                        [Main := codec.render(configs[k + 1])];
    PrunedKeepsWindow(before, pruned, low, high);
    WindowSize(low, high);
    var newLow := high - |Numbered(pruned)|;
    NumberedAfterPersist(pruned, after, configs[k], configs[k + 1], codec);
    WindowGrows(newLow, high);
    forall r | newLow <= r < high + 1
      ensures HoldsEntry(after, r, configs, first, codec)
    {
      if r == high {
        NewEntryIsHeld(pruned, after, configs, first, k, codec);
      } else {
        InWindow(newLow, high, r);
        EntrySurvives(before, pruned, after, r, configs, first, k, codec);
      }
    }
  }

  lemma WindowGrows(low: nat, high: nat)
    requires low <= high < MAX_UINT64
    ensures Window(low, high) + {HistoryName(high)} == Window(low, high + 1)
  {
    hide HistoryName;
  }

  lemma NewEntryIsHeld(pruned: Disk, after: Disk, configs: seq<EdgeConfig>, first: nat, k: nat, codec: Codec)
    requires k + 1 < |configs| && configs[k].configRevision == first + k
    requires after == pruned[InHistory(HistoryName(configs[k].configRevision)) := codec.render(configs[k])]
                            [Main := codec.render(configs[k + 1])]
    ensures HoldsEntry(after, first + k, configs, first, codec)
  {
    hide HistoryName;
  }

  lemma SurvivorIsUnchanged(before: Disk, pruned: Disk, name: string)
    requires PrunedFrom(before, pruned) && name in Numbered(pruned)
    ensures InHistory(name) in pruned && InHistory(name) in before
    ensures pruned[InHistory(name)] == before[InHistory(name)]
  {
    hide RevisionOf;
  }

  lemma OtherPathStays(disk: Disk, entry: Path, entryText: Document, mainText: Document, path: Path)
    requires path in disk && path != entry && path != Main
    ensures var after := disk[entry := entryText][Main := mainText];
            path in after && after[path] == disk[path]
  {
  }

  lemma EntrySurvives(before: Disk, pruned: Disk, after: Disk, r: nat, configs: seq<EdgeConfig>, first: nat, k: nat,
                      codec: Codec)
    requires k + 1 < |configs| && r < configs[k].configRevision <= MAX_UINT64
    requires PrunedFrom(before, pruned) && HistoryName(r) in Numbered(pruned)
    requires after == pruned[InHistory(HistoryName(configs[k].configRevision)) := codec.render(configs[k])]
                            [Main := codec.render(configs[k + 1])]
    requires HoldsEntry(before, r, configs, first, codec)
    ensures HoldsEntry(after, r, configs, first, codec)
  {
    HistoryNameRevision(r);
    HistoryNameRevision(configs[k].configRevision);
    SurvivorIsUnchanged(before, pruned, HistoryName(r));
    hide HistoryName, RevisionOf, PrunedFrom, Numbered;
    OtherPathStays(pruned, InHistory(HistoryName(configs[k].configRevision)), codec.render(configs[k]),
                   codec.render(configs[k + 1]), InHistory(HistoryName(r)));
  }

  lemma PrunedKeepsWindow(before: Disk, pruned: Disk, low: nat, high: nat)
    requires low <= high <= MAX_UINT64
    requires PrunedFrom(before, pruned) && Numbered(before) == Window(low, high)
    ensures |Numbered(pruned)| <= high - low
    ensures Numbered(pruned) == Window(high - |Numbered(pruned)|, high)
  {
    hide HistoryName;
    assert Numbered(pruned) <= Numbered(before) by {
      forall n | n in Numbered(pruned)
        ensures n in Numbered(before)
      {
        assert InHistory(n) in before;
      }
    }
    forall g, k | low <= g < high && low <= k < high && HistoryName(g) !in Numbered(pruned)
        && HistoryName(k) in Numbered(pruned)
      ensures g <= k
    {
      InWindow(low, high, g);
      HistoryNameRevision(g);
      HistoryNameRevision(k);
    }
    PrunedWindow(low, high, Numbered(pruned));
  }

  /** The lower end of the history after `n` updates. */
  function WindowLow(first: nat, n: nat, limit: nat): nat {
    if n <= limit then first else first + n - limit
  }

  /**
   Starting without history, after `n` persisted updates the history holds exactly the last
   `min(n, limit)` superseded configurations, each under its own revision.
   */
  lemma {:induction false} HistoryAfterUpdates(disks: seq<Disk>, configs: seq<EdgeConfig>, n: nat, limit: nat,
      codec: Codec)
    requires n < |disks| == |configs| && configs[0].configRevision + |configs| <= MAX_UINT64
    requires Numbered(disks[0]) == {}
    requires forall i | 0 <= i < |configs| :: configs[i].configRevision == configs[0].configRevision + i
    requires forall i | 0 <= i < |configs| - 1 ::
               PersistedFrom(disks[i], disks[i + 1], configs[i], configs[i + 1], limit, codec)
    ensures var first := configs[0].configRevision;
            HistoryIs(disks[n], WindowLow(first, n, limit), first + n, configs, first, codec)
  {
    hide PersistedFrom, HistoryName;
    var first := configs[0].configRevision;
    if n == 0 {
      assert Window(first, first) == {};
    } else {
      HistoryAfterUpdates(disks, configs, n - 1, limit, codec);
      PersistMovesWindow(disks[n - 1], disks[n], WindowLow(first, n - 1, limit), configs, first, n - 1, limit, codec);
    }
  }

  /**
   When the main file is lost after such a run, a start whose reads succeed recovers the last
   superseded configuration.
   */
  lemma RecoveryAfterUpdates(disk: Disk, low: nat, high: nat, configs: seq<EdgeConfig>, first: nat, c: EdgeConfig,
                             codec: Codec)
    requires Lawful(codec) && HistoryIs(disk, low, high, configs, first, codec) && low < high
    requires forall i | 0 <= i < |configs| :: codec.valid(configs[i]) && configs[i].configRevision == first + i
    requires Recovers(disk, c, {}, codec)
    ensures c == configs[high - 1 - first]
  {
    hide HistoryName, Lawful;
    var last := HistoryName(high - 1);
    InWindow(low, high, high - 1);
    HistoryNameRevision(high - 1);
    PrintedIsRead(codec, configs[high - 1 - first]);
    assert HoldsEntry(disk, high - 1, configs, first, codec);
    assert last in Numbered(disk) - {} && Carries(disk, last, codec);
    var name :| name in Numbered(disk) - {} && Carries(disk, name, codec)
        && Usable(disk[InHistory(name)], codec) == Some(c);
    var r :| low <= r < high && HistoryName(r) == name;
    HistoryNameRevision(r);
    assert HoldsEntry(disk, r, configs, first, codec);
    PrintedIsRead(codec, configs[r - first]);
  }

  /**
   After any number of successful updates every history file carries a superseded revision, so no call
   that would go back to one can commit: whatever revision it expects, it is refused.
   */
  lemma NoWayBack(disk: Disk, low: nat, high: nat, configs: seq<EdgeConfig>, first: nat, m: Memory, revision: nat,
                  expected: nat, accepting: bool, codec: Codec)
    requires Lawful(codec) && HistoryIs(disk, low, high, configs, first, codec)
    requires forall i | 0 <= i < |configs| :: codec.valid(configs[i]) && configs[i].configRevision == first + i
    requires m.stored.configRevision == high && revision <= MAX_UINT64
    requires InHistory(HistoryName(revision)) in disk
    ensures low <= revision < high
    ensures CheckUpdate(accepting, Some(m), disk[InHistory(HistoryName(revision))], expected, codec).Reject?
  {
    hide HistoryName, Lawful;
    HistoryNameRevision(revision);
    var name := HistoryName(revision);
    assert name in Numbered(disk) by {
      assert InHistory(name) in disk;
    }
    var r: nat :| low <= r < high && HistoryName(r) == name;
    HistoryNameRevision(r);
    assert HoldsEntry(disk, r, configs, first, codec);
    PrintedIsRead(codec, configs[r - first]);
  }
}
