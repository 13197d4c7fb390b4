/**
 The fixed pool of frame buffers. A buffer is handed out with a size of zero and comes back when its
 last reference goes; closing the pool refuses new requests but still takes buffers back.
 */
module FramePool {
  import opened Wrappers

  /** `MustAwait`: the caller gives up the lock and comes back with `Resume`. */
  datatype AcquireResult = Acquired(buffer: nat) | Exhausted | TimedOut | Cancelled | PoolClosed | MustAwait

  /** The pool: which buffers it holds, the size of each buffer, and its counters. */
  datatype PoolState = PoolState(
    capacity: nat, bytes: nat, available: seq<nat>, sizes: seq<nat>, highWatermark: nat, acquired: nat,
    exhausted: nat, timedOut: nat, cancelled: nat, closed: bool)
  {
    /** No buffer is held twice, and those held are empty. */
    predicate WellFormed() {
      && |sizes| == capacity
      && |available| <= capacity
      && (forall i | 0 <= i < |available| :: available[i] < capacity && sizes[available[i]] == 0)
      && (forall i, j | 0 <= i < j < |available| :: available[i] != available[j])
      && InUse() <= highWatermark <= capacity
      && (forall b | 0 <= b < capacity :: sizes[b] <= bytes)
    }

    function InUse(): int { capacity - |available| }
  }

  /** Every buffer is available at the start. */
  function Fresh(capacity: nat, bytes: nat): PoolState {
    PoolState(capacity, bytes, seq(capacity, i => i), seq(capacity, _ => 0), 0, 0, 0, 0, 0, false)
  }

  /** The buffer that came back last goes out first. */
  function TakeLast(p: PoolState): (PoolState, AcquireResult)
    requires p.WellFormed() && p.available != []
  {
    var last := |p.available| - 1;
    var rest := p.(available := p.available[..last], acquired := p.acquired + 1);
    (rest.(highWatermark := Max(p.highWatermark, rest.InUse())), Acquired(p.available[last]))
  }

  /** The part of a request before it waits. */
  function Enter(p: PoolState, stop: bool, mayWait: bool): (PoolState, AcquireResult)
    requires p.WellFormed()
  {
    if p.closed then (p, PoolClosed)
    else if stop then (p.(cancelled := p.cancelled + 1), Cancelled)
    else if p.available != [] then TakeLast(p)
    else if !mayWait then (p.(exhausted := p.exhausted + 1), Exhausted)
    else (p, MustAwait)
  }

  /** The part after the wait, which ended because of a buffer, a close, the stop token or the time. */
  function Resume(p: PoolState, stop: bool): (PoolState, AcquireResult)
    requires p.WellFormed()
  {
    if stop then (p.(cancelled := p.cancelled + 1), Cancelled)
    else if p.closed then (p, PoolClosed)
    else if p.available != [] then TakeLast(p)
    else (p.(timedOut := p.timedOut + 1), TimedOut)
  }

  function Clear(p: PoolState, b: nat): PoolState
    requires b < |p.sizes|
  {
    p.(sizes := p.sizes[b := 0])
  }

  function TakeBack(p: PoolState, b: nat): PoolState {
    p.(available := p.available + [b])
  }

  lemma FreshIsWellFormed(capacity: nat, bytes: nat)
    ensures Fresh(capacity, bytes).WellFormed()
  {
  }

  /** Whichever way a request gets its buffer: an empty one, held before and no longer held after. */
  lemma AcquiredIsEmpty(p: PoolState, stop: bool, mayWait: bool, resumed: bool)
    requires p.WellFormed()
    ensures var (r, result) := if resumed then Resume(p, stop) else Enter(p, stop, mayWait);
            && r.WellFormed() && r.sizes == p.sizes && r.capacity == p.capacity && r.closed == p.closed
            && r.highWatermark == (if r.InUse() > p.highWatermark then r.InUse() else p.highWatermark)
            && (result.Acquired? <==> p.available != [] && !stop && !p.closed)
            && (result.Acquired? ==>
                  && result.buffer < p.capacity && p.sizes[result.buffer] == 0
                  && p.available == r.available + [result.buffer] && result.buffer !in r.available
                  && r.acquired == p.acquired + 1)
            && (!result.Acquired? ==> r.available == p.available && r.acquired == p.acquired)
  {
    var (r, result) := if resumed then Resume(p, stop) else Enter(p, stop, mayWait);
    if result.Acquired? {
      assert p.available == r.available + [result.buffer];
    }
  }

  /** Every request that came to an end was counted once, as what it was answered. */
  lemma RequestsAreCounted(p: PoolState, stop: bool, mayWait: bool, resumed: bool)
    requires p.WellFormed()
    ensures var (r, result) := if resumed then Resume(p, stop) else Enter(p, stop, mayWait);
            && r.acquired - p.acquired == (if result.Acquired? then 1 else 0)
            && r.exhausted - p.exhausted == (if result.Exhausted? then 1 else 0)
            && r.timedOut - p.timedOut == (if result.TimedOut? then 1 else 0)
            && r.cancelled - p.cancelled == (if result.Cancelled? then 1 else 0)
            && (result.MustAwait? <==> !stop && !p.closed && p.available == [] && !resumed && mayWait)
            && (result.Exhausted? <==> !stop && !p.closed && p.available == [] && !resumed && !mayWait)
            && (result.TimedOut? <==> !stop && !p.closed && p.available == [] && resumed)
            // a request that has not waited yet sees the close first, one that has waited the stop
            && (result.PoolClosed? <==> p.closed && (resumed ==> !stop))
            && (result.Cancelled? <==> stop && (!resumed ==> !p.closed))
            && (result.MustAwait? || result.PoolClosed? ==> r == p)
  {
  }

  class FrameBufferPool {
    const capacity: nat
    const bytes: nat
    const sizes: array<nat>
    var available: seq<nat>
    var highWatermark: nat
    var acquired: nat
    var exhausted: nat
    var timedOut: nat
    var cancelled: nat
    var closed: bool

    ghost function State(): PoolState
      reads this, sizes
    {
      PoolState(capacity, bytes, available, sizes[..], highWatermark, acquired, exhausted, timedOut, cancelled, closed)
    }

    ghost predicate Valid()
      reads this, sizes
    {
      State().WellFormed()
    }

    constructor (capacity: nat, bytes: nat)
      requires capacity > 0 && bytes > 0
      ensures Valid() && fresh(sizes) && State() == Fresh(capacity, bytes)
    {
      this.capacity := capacity;
      this.bytes := bytes;
      sizes := new nat[capacity](_ => 0);
      available := [];
      highWatermark, acquired, exhausted, timedOut, cancelled, closed := 0, 0, 0, 0, 0, false;
      new;
      assert sizes[..] == seq(capacity, _ => 0);
      for index := 0 to capacity
        modifies this`available
        invariant available == seq(index, i => i)
      {
        available := available + [index];
      }
      FreshIsWellFormed(capacity, bytes);
      assert State().available == Fresh(capacity, bytes).available && State().sizes == Fresh(capacity, bytes).sizes;
    }

    method TakeAvailable() returns (result: AcquireResult)
      requires Valid() && available != []
      modifies this`available, this`acquired, this`highWatermark
      ensures Valid() && (State(), result) == TakeLast(old(State()))
    {
      var buffer := available[|available| - 1];
      available := available[..|available| - 1];
      acquired := acquired + 1;
      var inUse := capacity - |available|;
      highWatermark := if highWatermark < inUse then inUse else highWatermark;
      return Acquired(buffer);
    }

    method Acquire(stop: bool, mayWait: bool) returns (result: AcquireResult)
      requires Valid()
      modifies this
      ensures Valid() && (State(), result) == Enter(old(State()), stop, mayWait)
    {
      if closed {
        return PoolClosed;
      }
      if stop {
        cancelled := cancelled + 1;
        return Cancelled;
      }
      if available != [] {
        result := TakeAvailable();
        return;
      }
      if !mayWait {
        exhausted := exhausted + 1;
        return Exhausted;
      }
      return MustAwait;
    }

    method ResumeAcquire(stop: bool) returns (result: AcquireResult)
      requires Valid()
      modifies this
      ensures Valid() && (State(), result) == Resume(old(State()), stop)
    {
      var ready := closed || available != [];
      if !ready {
        if stop {
          cancelled := cancelled + 1;
          return Cancelled;
        }
        timedOut := timedOut + 1;
        return TimedOut;
      }
      if stop {
        cancelled := cancelled + 1;
        return Cancelled;
      }
      if closed {
        return PoolClosed;
      }
      result := TakeAvailable();
    }

    /** The last reference to a buffer went: it is emptied and taken back, also by a closed pool. */
    method Release(buffer: nat)
      requires Valid() && buffer < capacity && buffer !in available
      modifies this`available, sizes
      ensures Valid() && State() == TakeBack(Clear(old(State()), buffer), buffer)
      ensures State().InUse() == old(State()).InUse() - 1
    {
      NotHeldMeansRoom(State(), buffer);
      sizes[buffer] := 0;
      available := available + [buffer];
    }

    method Close()
      requires Valid()
      modifies this`closed
      ensures Valid() && State() == old(State()).(closed := true)
    {
      closed := true;
    }
  }

  ghost function Below(n: nat): (r: set<nat>)
    ensures |r| == n && forall b :: b in r <==> 0 <= b < n
  {
    if n == 0 then {} else Below(n - 1) + {n - 1}
  }

  ghost function Elements(s: seq<nat>): (r: set<nat>)
    requires forall i, j | 0 <= i < j < |s| :: s[i] != s[j]
    ensures |r| == |s| && forall b :: b in r <==> b in s
  {
    if s == [] then {}
    else
      var rest, last := s[..|s| - 1], s[|s| - 1];
      assert s == rest + [last];
      Elements(rest) + {last}
  }

  /** Distinct numbers below `n` are at most `n` many. */
  lemma DistinctFit(s: seq<nat>, n: nat)
    requires forall i | 0 <= i < |s| :: s[i] < n
    requires forall i, j | 0 <= i < j < |s| :: s[i] != s[j]
    ensures |s| <= n
  {
    var all, some := Below(n), Elements(s);
    assert some <= all && all == some + (all - some);
  }

  lemma NotHeldMeansRoom(p: PoolState, b: nat)
    requires p.WellFormed() && b < p.capacity && b !in p.available
    ensures |p.available| < p.capacity
  {
    DistinctFit(p.available + [b], p.capacity);
  }
}
