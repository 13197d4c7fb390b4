/**
 The files the repository works on: the main configuration file and the history directory. Every
 operation is atomic and may fail; the ghost trace holds every state the disk went through, so a
 property of all of them is a property of every point at which the process can stop.
 */
module ConfigDisk {
  import opened Wrappers
  import opened ConfigModel
  import opened ConfigParser
  import opened ConfigCodec
  import opened HistoryNames

  datatype Path = Main | InHistory(name: string)

  type Disk = map<Path, Document>

  /** The configuration the main file holds, if it is usable. */
  function MainConfig(disk: Disk, codec: Codec): Option<EdgeConfig> {
    if Main in disk then Usable(disk[Main], codec) else None
  }

  function Usable(text: Document, codec: Codec): Option<EdgeConfig> {
    match codec.parse(text)
    case Success(c) => Some(c)
    case Failure(_) => None
  }

  function Names(disk: Disk): set<string> {
    set path | path in disk && path.InHistory? :: path.name
  }

  /** The numbered history files. */
  function Numbered(disk: Disk): set<string> {
    set name | name in Names(disk) && RevisionOf(name).Some?
  }

  class FileSystem {
    var files: Disk
    ghost var trace: seq<Disk>

    ghost predicate Valid()
      reads this
    {
      trace != [] && trace[|trace| - 1] == files
    }

    constructor (files: Disk)
      ensures Valid() && this.files == files && trace == [files]
    {
      this.files := files;
      trace := [files];
    }

    method ReadBounded(path: Path) returns (r: Option<Document>)
      ensures r.Some? ==> path in files && r.value == files[path]
    {
      var ok: bool := *;
      r := if ok && path in files then Some(files[path]) else None;
    }

    method CreateDirectories() returns (ok: bool) {
      ok := *;
    }

    method ListRegularFiles() returns (r: Option<set<string>>)
      ensures r.Some? ==> r.value == Names(files)
    {
      var ok: bool := *;
      r := if ok then Some(Names(files)) else None;
    }

    /** Removing a file that is not there succeeds. */
    method RemoveFile(name: string) returns (ok: bool)
      requires Valid()
      modifies this
      ensures Valid()
      ensures files == if ok then old(files) - {InHistory(name)} else old(files)
      ensures trace == if ok then old(trace) + [files] else old(trace)
    {
      ok := *;
      if ok {
        files := files - {InHistory(name)};
        trace := trace + [files];
      }
    }

    method ReplaceAtomically(path: Path, text: Document) returns (ok: bool)
      requires Valid()
      modifies this
      ensures Valid()
      ensures files == if ok then old(files)[path := text] else old(files)
      ensures trace == if ok then old(trace) + [files] else old(trace)
    {
      ok := *;
      if ok {
        files := files[path := text];
        trace := trace + [files];
      }
    }
  }

  // ---------------------------------------------------------------- pruning

  /** `after` is `before` without some numbered files, none of which is newer than a numbered file that stays. */
  ghost predicate PrunedFrom(before: Disk, after: Disk) {
    && (forall path | path in after :: path in before && after[path] == before[path])
    && (forall path | path in before && path !in after :: path.InHistory? && RevisionOf(path.name).Some?)
    && (forall gone, kept | gone in Numbered(before) - Numbered(after) && kept in Numbered(after) ::
          RevisionOf(gone).value <= RevisionOf(kept).value)
  }

  /** A list of numbered names, lowest revision first. */
  ghost predicate Ascending(names: seq<string>) {
    && (forall i | 0 <= i < |names| :: RevisionOf(names[i]).Some?)
    && (forall i, j | 0 <= i < j < |names| :: RevisionOf(names[i]).value <= RevisionOf(names[j]).value)
    && (forall i, j | 0 <= i < j < |names| :: names[i] != names[j])
  }

  /** Every state since position `from` of the trace has the main file of `disk`. */
  ghost predicate MainKept(trace: seq<Disk>, from: nat, disk: Disk) {
    forall k | from <= k < |trace| :: SameMain(trace[k], disk)
  }

  predicate SameMain(a: Disk, b: Disk) {
    (Main in a <==> Main in b) && (Main in a ==> a[Main] == b[Main])
  }

  /** `names` are the numbered files of `disk`, lowest revision first. */
  ghost predicate Lists(names: seq<string>, disk: Disk) {
    && Ascending(names)
    && (forall name :: name in names <==> name in Numbered(disk))
  }

  method InsertByRevision(sorted: seq<string>, name: string) returns (r: seq<string>)
    requires Ascending(sorted) && name !in sorted && RevisionOf(name).Some?
    ensures Ascending(r)
    ensures forall other :: other in r <==> other in sorted || other == name
  {
    hide RevisionOf;
    var k := 0;
    while k < |sorted| && RevisionOf(sorted[k]).value < RevisionOf(name).value
      invariant 0 <= k <= |sorted|
      invariant forall i | 0 <= i < k :: RevisionOf(sorted[i]).value < RevisionOf(name).value
    {
      k := k + 1;
    }
    r := sorted[..k] + [name] + sorted[k..];
    InsertedStaysAscending(sorted, k, name);
  }

  lemma InsertedStaysAscending(sorted: seq<string>, k: nat, name: string)
    requires Ascending(sorted) && name !in sorted && RevisionOf(name).Some? && k <= |sorted|
    requires forall i | 0 <= i < k :: RevisionOf(sorted[i]).value < RevisionOf(name).value
    requires k < |sorted| ==> RevisionOf(name).value <= RevisionOf(sorted[k]).value
    ensures var r := sorted[..k] + [name] + sorted[k..];
            Ascending(r) && forall other :: other in r <==> other in sorted || other == name
  {
    hide RevisionOf;
    var r := sorted[..k] + [name] + sorted[k..];
    assert forall i | 0 <= i < |r| :: r[i] == if i < k then sorted[i] else if i == k then name else sorted[i - 1];
    forall i | 0 <= i < |sorted|
      ensures sorted[i] != name
    {
      assert sorted[i] in sorted;
    }
    forall i | k <= i < |sorted|
      ensures RevisionOf(name).value <= RevisionOf(sorted[i]).value
    {
      assert i == k || RevisionOf(sorted[k]).value <= RevisionOf(sorted[i]).value;
    }
    assert sorted == sorted[..k] + sorted[k..];
  }

  /** The listing, reduced to the numbered names and sorted by revision. */
  method SortedNumbered(names: set<string>, ghost disk: Disk) returns (sorted: seq<string>)
    requires names == Names(disk)
    ensures Lists(sorted, disk)
  {
    sorted := [];
    var left := names;
    while left != {}
      invariant left <= names
      invariant Ascending(sorted)
      invariant forall name :: name in sorted <==> name in names - left && RevisionOf(name).Some?
      decreases |left|
    {
      hide Ascending, RevisionOf;
      var name :| name in left;
      left := left - {name};
      if RevisionOf(name).Some? {
        sorted := InsertByRevision(sorted, name);
      }
    }
  }

  lemma {:induction false} DistinctCount(names: seq<string>)
    requires forall i, j | 0 <= i < j < |names| :: names[i] != names[j]
    ensures |set name | name in names| == |names|
  {
    if names != [] {
      DistinctCount(names[1..]);
      assert (set name | name in names) == {names[0]} + (set name | name in names[1..]);
    }
  }

  lemma ListedCount(names: seq<string>, disk: Disk)
    requires Lists(names, disk)
    ensures |Numbered(disk)| == |names|
  {
    DistinctCount(names);
    assert Numbered(disk) == set name | name in names;
  }

  lemma TailIsListed(now: Disk, after: Disk, revisions: seq<string>)
    requires revisions != [] && Lists(revisions, now)
    requires after == now - {InHistory(revisions[0])}
    ensures Lists(revisions[1..], after)
    ensures Numbered(after) == Numbered(now) - {revisions[0]}
  {
    hide RevisionOf;
    assert forall name :: name in Names(after) <==> name in Names(now) && name != revisions[0];
    forall name
      ensures name in revisions[1..] <==> name in revisions && name != revisions[0]
    {
      if name in revisions[1..] {
        var k :| 0 <= k < |revisions[1..]| && revisions[1..][k] == name;
        assert revisions[k + 1] == name;
      }
      assert revisions == [revisions[0]] + revisions[1..];
    }
  }

  lemma RemovedFront(before: Disk, now: Disk, after: Disk, revisions: seq<string>)
    requires revisions != [] && Lists(revisions, now)
    requires PrunedFrom(before, now)
    requires after == now - {InHistory(revisions[0])}
    ensures PrunedFrom(before, after)
  {
    TailIsListed(now, after, revisions);
    assert revisions[0] in revisions;
    forall gone, kept | gone in Numbered(before) - Numbered(after) && kept in Numbered(after)
      ensures RevisionOf(gone).value <= RevisionOf(kept).value
    {
      hide RevisionOf;
      assert kept in Numbered(now);
      if gone == revisions[0] {
        var i :| 0 <= i < |revisions| && revisions[i] == kept;
      } else {
        assert gone !in Numbered(now);
      }
    }
  }

  lemma AppendKeepsMain(trace: seq<Disk>, from: nat, disk: Disk, next: Disk)
    requires MainKept(trace, from, disk) && SameMain(next, disk)
    ensures MainKept(trace + [next], from, disk)
  {}

  /** Removes lowest revisions until fewer than `limit` numbered files are left. */
  method PruneHistory(fs: FileSystem, limit: nat) returns (ok: bool)
    requires fs.Valid()
    modifies fs
    ensures fs.Valid()
    ensures old(fs.trace) <= fs.trace && MainKept(fs.trace, |old(fs.trace)|, old(fs.files))
    ensures PrunedFrom(old(fs.files), fs.files)
    ensures |Numbered(fs.files)| == |Numbered(old(fs.files))| || |Numbered(fs.files)| + 1 >= limit
    ensures ok ==> |Numbered(fs.files)| < limit || |Numbered(fs.files)| == 0
  {
    var names := fs.ListRegularFiles();
    if names.None? {
      return false;
    }
    var revisions := SortedNumbered(names.value, fs.files);
    ListedCount(revisions, fs.files);
    while |revisions| >= limit && revisions != []
      invariant fs.Valid()
      invariant old(fs.trace) <= fs.trace && MainKept(fs.trace, |old(fs.trace)|, old(fs.files))
      invariant SameMain(fs.files, old(fs.files))
      invariant PrunedFrom(old(fs.files), fs.files)
      invariant Lists(revisions, fs.files)
      invariant |revisions| == |Numbered(fs.files)|
      invariant |revisions| == |Numbered(old(fs.files))| || |revisions| + 1 >= limit
      decreases |revisions|
    {
      hide MainKept, PrunedFrom, Lists, Numbered, RevisionOf;
      ghost var now, soFar := fs.files, fs.trace;
      ok := fs.RemoveFile(revisions[0]);
      if !ok {
        return false;
      }
      RemovedFront(old(fs.files), now, fs.files, revisions);
      TailIsListed(now, fs.files, revisions);
      AppendKeepsMain(soFar, |old(fs.trace)|, old(fs.files), fs.files);
      revisions := revisions[1..];
      ListedCount(revisions, fs.files);
    }
    ok := true;
  }
}
