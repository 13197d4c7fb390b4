/**
 Who owns a frame buffer. Workers take buffers from the pool, fill them and push them into the ring;
 consumers pop them, share them and let them go. Any number of workers and consumers take part, in
 any interleaving.
 */
module FramePath {
  import opened FramePool
  import opened FrameQueue

  /**
   `held`: one entry for each reference outside the ring. `releasing`: buffers whose last reference
   is gone and that are on their way back into the pool. Of a packet in the ring only its buffer
   matters here.
   */
  datatype Path = Path(pool: PoolState, held: multiset<nat>, releasing: multiset<nat>, ring: QueueState<nat>)
  {
    ghost predicate WellFormed() { pool.WellFormed() && ring.WellFormed() }

    ghost function Refs(b: nat): nat
      requires ring.WellFormed()
    {
      held[b] + multiset(ring.Contents())[b]
    }
  }

  /**
   `b` is in the pool, on its way back or referenced: exactly one of them, or in none when there is
   no such buffer.
   */
  ghost predicate Placed(s: Path, b: nat)
    requires s.WellFormed()
  {
    InPool(s, b) + s.releasing[b] + (if s.Refs(b) > 0 then 1 else 0) == if b < s.pool.capacity then 1 else 0
  }

  /** All `capacity` buffers are somewhere, none is in two places, and those nobody refers to are empty. */
  ghost predicate Owned(s: Path) {
    && s.WellFormed()
    && (forall b: nat :: Placed(s, b))
    && (forall b | b in s.releasing :: b < s.pool.capacity && s.pool.sizes[b] == 0)
  }

  ghost function InPool(s: Path, b: nat): nat {
    if b in s.pool.available then 1 else 0
  }

  ghost function Start(capacity: nat, bytes: nat, slots: nat): Path {
    Path(Fresh(capacity, bytes), multiset{}, multiset{}, Empty(slots))
  }

  datatype Move =
    | Acquire(stop: bool, mayWait: bool)
    | ResumeAcquire(stop: bool)
    // a capture, failed or not, leaves some number of bytes in the buffer
    | Fill(b: nat, size: nat)
    | Share(b: nat)
    | LetGo(b: nat)
    | FinishRelease(b: nat)
    | PushPacket(b: nat)
    | PopPacket(stop: bool, mayWait: bool)
    | ResumePop(stop: bool)
    | ClosePool
    | CloseRing

  ghost predicate Enabled(s: Path, m: Move) {
    match m
    case Fill(b, size) => b in s.held && size <= s.pool.bytes
    case Share(b) => b in s.held
    case LetGo(b) => b in s.held
    case FinishRelease(b) => b in s.releasing
    case PushPacket(b) => b in s.held
    case _ => true
  }

  /** A reference to `b` went away; if it was the last one the buffer is emptied and goes back. */
  ghost function Unreferenced(s: Path, b: nat): Path
    requires s.WellFormed() && b < s.pool.capacity
  {
    if s.Refs(b) > 0 then s else s.(pool := Clear(s.pool, b), releasing := s.releasing + multiset{b})
  }

  ghost function Acquiring(s: Path, answer: (PoolState, AcquireResult)): Path {
    var taken := if answer.1.Acquired? then multiset{answer.1.buffer} else multiset{};
    s.(pool := answer.0, held := s.held + taken)
  }

  ghost function Popping(s: Path, answer: (QueueState<nat>, PopResult<nat>)): Path {
    var taken := if answer.1.Frame? then multiset{answer.1.frame} else multiset{};
    s.(ring := answer.0, held := s.held + taken)
  }

  ghost function Pushing(s: Path, b: nat): Path
    requires Owned(s) && b in s.held
  {
    HeldIsReal(s, b);
    var next := s.(held := s.held - multiset{b}, ring := AfterPush(s.ring, b));
    if s.ring.closed then Unreferenced(next, b)
    else if s.ring.Depth() == s.ring.capacity then
      HeldIsReal(s, s.ring.Contents()[0]);
      Unreferenced(next, s.ring.Contents()[0])
    else next
  }

  ghost function After(s: Path, m: Move): Path
    requires Owned(s) && Enabled(s, m)
  {
    match m
    case Acquire(stop, mayWait) => Acquiring(s, Enter(s.pool, stop, mayWait))
    case ResumeAcquire(stop) => Acquiring(s, Resume(s.pool, stop))
    case Fill(b, size) => HeldIsReal(s, b); s.(pool := s.pool.(sizes := s.pool.sizes[b := size]))
    case Share(b) => s.(held := s.held + multiset{b})
    case LetGo(b) => HeldIsReal(s, b); Unreferenced(s.(held := s.held - multiset{b}), b)
    case FinishRelease(b) => s.(pool := TakeBack(s.pool, b), releasing := s.releasing - multiset{b})
    case PushPacket(b) => Pushing(s, b)
    case PopPacket(stop, mayWait) => Popping(s, AttemptPop(s.ring, stop, mayWait))
    case ResumePop(stop) => Popping(s, FinishPop(s.ring, stop))
    case ClosePool => s.(pool := s.pool.(closed := true))
    case CloseRing => s.(ring := s.ring.(closed := true))
  }

  lemma HeldIsReal(s: Path, b: nat)
    requires Owned(s) && s.Refs(b) > 0
    ensures b < s.pool.capacity && b !in s.pool.available && b !in s.releasing
  {
    assert Placed(s, b);
  }

  // ---------------------------------------------------------------- each move keeps the ownership

  lemma StartIsOwned(capacity: nat, bytes: nat, slots: nat)
    requires capacity > 0 && bytes > 0 && slots > 0
    ensures Owned(Start(capacity, bytes, slots))
  {
    var s := Start(capacity, bytes, slots);
    FreshIsWellFormed(capacity, bytes);
    forall b: nat
      ensures Placed(s, b)
    {
      if b < capacity {
        assert s.pool.available[b] == b;
      }
    }
  }

  lemma AcquiringKeepsOwned(s: Path, stop: bool, mayWait: bool, resumed: bool)
    requires Owned(s)
    ensures var answer := if resumed then Resume(s.pool, stop) else Enter(s.pool, stop, mayWait);
            && Owned(Acquiring(s, answer))
            // what is handed out is a buffer nobody refers to, and it is empty
            && (answer.1.Acquired? ==>
                  && s.Refs(answer.1.buffer) == 0 && Acquiring(s, answer).Refs(answer.1.buffer) == 1
                  && Acquiring(s, answer).pool.sizes[answer.1.buffer] == 0)
  {
    hide Enter, Resume, PoolState.WellFormed, QueueState.WellFormed;
    var answer := if resumed then Resume(s.pool, stop) else Enter(s.pool, stop, mayWait);
    AcquiredIsEmpty(s.pool, stop, mayWait, resumed);
    var t := Acquiring(s, answer);
    assert t.ring == s.ring;
    if answer.1.Acquired? {
      var taken := answer.1.buffer;
      assert Placed(s, taken);
      forall b: nat
        ensures Placed(t, b)
      {
        assert Placed(s, b);
        assert b in s.pool.available <==> b in t.pool.available || b == taken;
      }
    } else {
      forall b: nat
        ensures Placed(t, b)
      {
        assert Placed(s, b);
      }
    }
  }

  /** Letting a reference go, from a state in which only that reference is unaccounted for. */
  lemma UnreferencedKeepsOwned(s: Path, b: nat)
    requires s.WellFormed() && b < s.pool.capacity
    requires forall other: nat | other != b :: Placed(s, other)
    requires b !in s.pool.available && b !in s.releasing
    requires forall other | other in s.releasing :: other < s.pool.capacity && s.pool.sizes[other] == 0
    ensures Owned(Unreferenced(s, b))
  {
    hide QueueState.WellFormed;
    var t := Unreferenced(s, b);
    forall other: nat
      ensures Placed(t, other)
    {
      assert t.Refs(other) == s.Refs(other);
      assert other == b || Placed(s, other);
    }
  }

  lemma LettingGoKeepsOwned(s: Path, b: nat)
    requires Owned(s) && Enabled(s, LetGo(b))
    ensures Owned(After(s, LetGo(b)))
  {
    HeldIsReal(s, b);
    var t := s.(held := s.held - multiset{b});
    forall other: nat | other != b
      ensures Placed(t, other)
    {
      assert Placed(s, other);
      assert t.Refs(other) == s.Refs(other);
    }
    UnreferencedKeepsOwned(t, b);
  }

  lemma FinishingReleaseKeepsOwned(s: Path, b: nat)
    requires Owned(s) && Enabled(s, FinishRelease(b))
    ensures Owned(After(s, FinishRelease(b)))
  {
    var t := After(s, FinishRelease(b));
    assert Placed(s, b);
    NotHeldMeansRoom(s.pool, b);
    forall other: nat
      ensures Placed(t, other)
    {
      assert Placed(s, other);
      assert other in t.pool.available <==> other in s.pool.available || other == b;
      assert t.Refs(other) == s.Refs(other);
    }
  }

  /** What a pop hands out is the first packet held, and nothing else moves. */
  lemma PopContents(q: QueueState<nat>, stop: bool, mayWait: bool, resumed: bool)
    requires q.WellFormed()
    ensures var (r, result) := if resumed then FinishPop(q, stop) else AttemptPop(q, stop, mayWait);
            && r.WellFormed()
            && if result.Frame? then q.Contents() == [result.frame] + r.Contents() else r.Contents() == q.Contents()
  {
  }

  lemma PoppingKeepsOwned(s: Path, stop: bool, mayWait: bool, resumed: bool)
    requires Owned(s)
    ensures Owned(Popping(s, if resumed then FinishPop(s.ring, stop) else AttemptPop(s.ring, stop, mayWait)))
  {
    hide AttemptPop, FinishPop, PoolState.WellFormed;
    PopContents(s.ring, stop, mayWait, resumed);
    var t := Popping(s, if resumed then FinishPop(s.ring, stop) else AttemptPop(s.ring, stop, mayWait));
    forall b: nat
      ensures Placed(t, b)
    {
      assert Placed(s, b);
      assert t.Refs(b) == s.Refs(b);
    }
  }

  /** A push moves one reference into the ring and takes at most one away: the one of the packet that has no place. */
  lemma PushMovesReference(s: Path, b: nat)
    requires s.ring.WellFormed() && b in s.held
    ensures var next := s.(held := s.held - multiset{b}, ring := AfterPush(s.ring, b));
            var full := s.ring.Depth() == s.ring.capacity;
            && forall other: nat :: s.Refs(other) == next.Refs(other)
                 + (if s.ring.closed && other == b then 1
                    else if !s.ring.closed && full && other == s.ring.Contents()[0] then 1 else 0)
  {
    var c := s.ring.Contents();
    if s.ring.closed {
      PushWhenClosed(s.ring, b);
    } else {
      PushContents(s.ring, b);
      assert c != [] ==> c == [c[0]] + c[1..];
    }
  }

  lemma PushingKeepsOwned(s: Path, b: nat)
    requires Owned(s) && Enabled(s, PushPacket(b))
    ensures Owned(After(s, PushPacket(b)))
  {
    HeldIsReal(s, b);
    PushMovesReference(s, b);
    var next := s.(held := s.held - multiset{b}, ring := AfterPush(s.ring, b));
    var full := s.ring.Depth() == s.ring.capacity;
    if s.ring.closed || full {
      var gone := if s.ring.closed then b else s.ring.Contents()[0];
      HeldIsReal(s, gone);
      OthersStay(s, next, gone);
      UnreferencedKeepsOwned(next, gone);
    } else {
      OthersStay(s, next, s.pool.capacity);
      assert Placed(s, s.pool.capacity);
    }
  }

  lemma OthersStay(s: Path, t: Path, b: nat)
    requires Owned(s) && t.WellFormed() && t.pool == s.pool && t.releasing == s.releasing
    requires forall other: nat | other != b :: t.Refs(other) == s.Refs(other)
    ensures forall other: nat | other != b :: Placed(t, other)
  {
    hide PoolState.WellFormed, QueueState.WellFormed, Path.Refs;
    forall other: nat | other != b
      ensures Placed(t, other)
    {
      assert Placed(s, other);
    }
  }

  lemma MoveKeepsOwned(s: Path, m: Move)
    requires Owned(s) && Enabled(s, m)
    ensures Owned(After(s, m))
    ensures After(s, m).pool.capacity == s.pool.capacity && s.pool.highWatermark <= After(s, m).pool.highWatermark
  {
    match m
    case Acquire(stop, mayWait) =>
      AcquiringKeepsOwned(s, stop, mayWait, false);
      AcquiredIsEmpty(s.pool, stop, mayWait, false);
    case ResumeAcquire(stop) =>
      AcquiringKeepsOwned(s, stop, true, true);
      AcquiredIsEmpty(s.pool, stop, true, true);
    case Fill(b, size) => QuietMoveKeepsOwned(s, m);
    case Share(b) => QuietMoveKeepsOwned(s, m);
    case LetGo(b) => LettingGoKeepsOwned(s, b);
    case FinishRelease(b) => FinishingReleaseKeepsOwned(s, b);
    case PushPacket(b) => PushingKeepsOwned(s, b);
    case PopPacket(stop, mayWait) => PoppingKeepsOwned(s, stop, mayWait, false);
    case ResumePop(stop) => PoppingKeepsOwned(s, stop, true, true);
    case ClosePool => QuietMoveKeepsOwned(s, m);
    case CloseRing => QuietMoveKeepsOwned(s, m);
  }

  lemma QuietMoveKeepsOwned(s: Path, m: Move)
    requires Owned(s) && Enabled(s, m) && (m.Fill? || m.Share? || m.ClosePool? || m.CloseRing?)
    ensures Owned(After(s, m))
  {
    var t := After(s, m);
    assert t.ring.Contents() == s.ring.Contents();
    if m.Fill? || m.Share? {
      HeldIsReal(s, m.b);
    }
    forall b: nat
      ensures Placed(t, b)
    {
      assert Placed(s, b);
    }
  }

  // ---------------------------------------------------------------- whole runs

  /** `moves` lead from `s` to `t`. */
  ghost predicate Runs(s: Path, moves: seq<Move>, t: Path)
    requires Owned(s)
    decreases |moves|
  {
    if moves == [] then s == t
    else
      && Enabled(s, moves[0])
      && (MoveKeepsOwned(s, moves[0]); Runs(After(s, moves[0]), moves[1..], t))
  }

  /**
   Ownership after every run, closed or not, with failed captures or not: each buffer is in exactly
   one place, the pool's own count of buffers in use is the number of the others, and it never rose
   above its high watermark nor that above the capacity.
   */
  lemma {:induction false} RunKeepsOwned(s: Path, moves: seq<Move>, t: Path)
    requires Owned(s) && Runs(s, moves, t)
    ensures Owned(t) && t.pool.capacity == s.pool.capacity
    ensures t.pool.InUse() <= t.pool.highWatermark <= t.pool.capacity
    ensures s.pool.highWatermark <= t.pool.highWatermark
    decreases |moves|
  {
    if moves != [] {
      MoveKeepsOwned(s, moves[0]);
      RunKeepsOwned(After(s, moves[0]), moves[1..], t);
    }
  }

  ghost function Referenced(s: Path): set<nat>
    requires s.WellFormed()
  {
    set b | b in Below(s.pool.capacity) && s.Refs(b) > 0
  }

  lemma PartsAddUp(all: set<nat>, a: set<nat>, b: set<nat>, c: set<nat>, m: multiset<nat>)
    requires forall x: nat :: (if x in a then 1 else 0) + m[x] + (if x in c then 1 else 0) == if x in all then 1 else 0
    requires b == set x | x in m
    ensures |a| + |m| + |c| == |all|
  {
    assert m == multiset(b);
    assert all == a + b + c;
  }

  /** Nothing is lost: the pool, the buffers on their way back and the referenced ones add up to the capacity. */
  lemma BuffersAddUp(s: Path)
    requires Owned(s)
    ensures |s.pool.available| + |s.releasing| + |Referenced(s)| == s.pool.capacity
  {
    hide QueueState.WellFormed, Path.Refs;
    var all, pooled, used := Below(s.pool.capacity), Elements(s.pool.available), Referenced(s);
    forall x: nat
      ensures (if x in pooled then 1 else 0) + s.releasing[x]
          + (if x in used then 1 else 0) == if x in all then 1 else 0
    {
      assert Placed(s, x);
    }
    PartsAddUp(all, pooled, (set x | x in s.releasing), used, s.releasing);
  }

  /** Once every reference is gone and every release has finished, the pool holds all its buffers again, empty. */
  lemma EverythingComesBack(s: Path)
    requires Owned(s) && s.held == multiset{} && s.releasing == multiset{} && s.ring.Depth() == 0
    ensures |s.pool.available| == s.pool.capacity
    ensures forall b: nat | b < s.pool.capacity :: b in s.pool.available && s.pool.sizes[b] == 0
  {
    BuffersAddUp(s);
    forall b: nat | b < s.pool.capacity
      ensures b in s.pool.available && s.pool.sizes[b] == 0
    {
      assert Placed(s, b) && s.Refs(b) == 0;
    }
    assert Referenced(s) == {};
  }
}
