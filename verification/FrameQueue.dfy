/**
 The bounded ring between the capture thread and its consumer. When it is full the oldest frame is
 dropped; after it was closed what it holds can still be taken out.
 */
module FrameQueue {
  import opened Wrappers

  datatype Fate = Delivered | Dropped

  datatype PushStatus = Enqueued | EnqueuedAfterDrop | RejectedClosed

  /** `MustWait`: the consumer gives up the lock and comes back with `Resume`. */
  datatype PopResult<T> = Frame(frame: T) | Timeout | Stopped | ClosedEmpty | MustWait

  /**
   The ring as the sequence of everything it ever accepted, together with what became of the part
   that left it again, in order.
   */
  datatype QueueState<T> = QueueState(
    capacity: nat, accepted: seq<T>, fates: seq<Fate>, highWatermark: nat, rejected: nat, timeouts: nat,
    cancelled: nat, closed: bool)
  {
    predicate WellFormed() {
      && capacity > 0
      && |fates| <= |accepted|
      && Depth() <= highWatermark <= capacity
    }

    function Contents(): seq<T>
      requires |fates| <= |accepted|
    {
      accepted[|fates|..]
    }

    function Depth(): nat
      requires |fates| <= |accepted|
    {
      |Contents()|
    }

    function Dequeued(): nat { multiset(fates)[Delivered] }

    function DroppedOldest(): nat { multiset(fates)[Dropped] }
  }

  function Empty<T>(capacity: nat): QueueState<T> {
    QueueState(capacity, [], [], 0, 0, 0, 0, false)
  }

  function AfterPush<T>(q: QueueState<T>, x: T): (r: QueueState<T>)
    requires q.WellFormed()
    ensures r.WellFormed()
  {
    if q.closed then
      q.(rejected := q.rejected + 1)
    else
      var dropped := if q.Depth() == q.capacity then [Dropped] else [];
      var next := q.(accepted := q.accepted + [x], fates := q.fates + dropped);
      next.(highWatermark := Max(q.highWatermark, next.Depth()))
  }

  function PushResult<T>(q: QueueState<T>): PushStatus
    requires q.WellFormed()
  {
    if q.closed then RejectedClosed else if q.Depth() == q.capacity then EnqueuedAfterDrop else Enqueued
  }

  function TakeFirst<T>(q: QueueState<T>): (r: (QueueState<T>, PopResult<T>))
    requires q.WellFormed() && q.Depth() > 0
    ensures r.0.WellFormed()
  {
    (q.(fates := q.fates + [Delivered]), Frame(q.accepted[|q.fates|]))
  }

  /** The part of a pop before it waits. */
  function AttemptPop<T>(q: QueueState<T>, stop: bool, mayWait: bool): (r: (QueueState<T>, PopResult<T>))
    requires q.WellFormed()
    ensures r.0.WellFormed()
  {
    if stop then (q.(cancelled := q.cancelled + 1), Stopped)
    else if q.Depth() > 0 then TakeFirst(q)
    else if q.closed then (q, ClosedEmpty)
    else if !mayWait then (q.(timeouts := q.timeouts + 1), Timeout)
    else (q, MustWait)
  }

  /** The part after the wait, which ended because of a frame, a close, the stop token or the time. */
  function FinishPop<T>(q: QueueState<T>, stop: bool): (r: (QueueState<T>, PopResult<T>))
    requires q.WellFormed()
    ensures r.0.WellFormed()
  {
    if stop then (q.(cancelled := q.cancelled + 1), Stopped)
    else if q.Depth() > 0 then TakeFirst(q)
    else if q.closed then (q, ClosedEmpty)
    else (q.(timeouts := q.timeouts + 1), Timeout)
  }

  /** Which answer a pop gets, and that exactly one counter notes it. */
  lemma PopsAreCounted<T>(q: QueueState<T>, stop: bool, mayWait: bool, resumed: bool)
    requires q.WellFormed()
    ensures var (r, answer) := if resumed then FinishPop(q, stop) else AttemptPop(q, stop, mayWait);
            && (answer.Stopped? <==> stop)
            && (answer.Frame? <==> !stop && q.Depth() > 0)
            && (answer.ClosedEmpty? <==> !stop && q.Depth() == 0 && q.closed)
            && (answer.Timeout? <==> !stop && q.Depth() == 0 && !q.closed && (resumed || !mayWait))
            && r.cancelled - q.cancelled == (if answer.Stopped? then 1 else 0)
            && r.timeouts - q.timeouts == (if answer.Timeout? then 1 else 0)
            && r.Dequeued() - q.Dequeued() == (if answer.Frame? then 1 else 0)
            && r.DroppedOldest() == q.DroppedOldest() && r.rejected == q.rejected && r.accepted == q.accepted
  {
  }

  // ---------------------------------------------------------------- every interleaving

  datatype Op<T> = PushOp(x: T) | TryPopOp(stop: bool, mayWait: bool) | ResumePopOp(stop: bool) | CloseOp

  function Step<T>(q: QueueState<T>, op: Op<T>): (r: QueueState<T>)
    requires q.WellFormed()
    ensures r.WellFormed()
  {
    match op
    case PushOp(x) => AfterPush(q, x)
    case TryPopOp(stop, mayWait) => AttemptPop(q, stop, mayWait).0
    case ResumePopOp(stop) => FinishPop(q, stop).0
    case CloseOp => q.(closed := true)
  }

  function Run<T>(q: QueueState<T>, ops: seq<Op<T>>): (r: QueueState<T>)
    requires q.WellFormed()
    ensures r.WellFormed()
    decreases |ops|
  {
    if ops == [] then q else Run(Step(q, ops[0]), ops[1..])
  }

  lemma {:induction false} EveryFateCounts(fates: seq<Fate>)
    ensures multiset(fates)[Delivered] + multiset(fates)[Dropped] == |fates|
  {
    if fates != [] {
      EveryFateCounts(fates[1..]);
      assert fates == [fates[0]] + fates[1..];
      assert multiset(fates) == multiset{fates[0]} + multiset(fates[1..]);
      assert fates[0] == Delivered || fates[0] == Dropped;
    }
  }

  /** The frames that left are a prefix of the frames that entered, whatever the step. */
  lemma StepOnlyExtends<T>(q: QueueState<T>, op: Op<T>)
    requires q.WellFormed()
    ensures q.accepted <= Step(q, op).accepted && q.fates <= Step(q, op).fates
    ensures q.closed ==> Step(q, op).closed && Step(q, op).accepted == q.accepted
    ensures q.capacity == Step(q, op).capacity && q.highWatermark <= Step(q, op).highWatermark
    // a frame is dropped only by a push into a full ring, and then exactly one
    ensures Step(q, op).DroppedOldest()
         == q.DroppedOldest() + (if op.PushOp? && !q.closed && q.Depth() == q.capacity then 1 else 0)
  {
  }

  /**
   After any interleaving of pushes, pops, wake-ups and closes: every accepted frame was delivered,
   was dropped or is still held, and the depth was never above the high watermark nor that above the
   capacity.
   */
  lemma {:induction false} RunConserves<T>(q: QueueState<T>, ops: seq<Op<T>>)
    requires q.WellFormed()
    ensures var r := Run(q, ops);
            && |r.accepted| == r.Dequeued() + r.DroppedOldest() + r.Depth()
            && q.highWatermark <= r.highWatermark <= r.capacity == q.capacity
            && r.Depth() <= r.highWatermark
            && q.accepted <= r.accepted && q.fates <= r.fates
            && (q.closed ==> r.closed && r.accepted == q.accepted)
    decreases |ops|
  {
    if ops == [] {
      EveryFateCounts(q.fates);
    } else {
      StepOnlyExtends(q, ops[0]);
      RunConserves(Step(q, ops[0]), ops[1..]);
    }
  }

  lemma {:induction false} RunAppends<T>(q: QueueState<T>, a: seq<Op<T>>, b: seq<Op<T>>)
    requires q.WellFormed()
    ensures Run(q, a + b) == Run(Run(q, a), b)
    decreases |a|
  {
    if a == [] {
      assert a + b == b;
    } else {
      assert (a + b)[1..] == a[1..] + b;
      RunAppends(Step(q, a[0]), a[1..], b);
    }
  }

  lemma RunShort<T>(q: QueueState<T>)
    requires q.WellFormed()
    ensures Run(q, []) == q && forall op: Op<T> :: Run(q, [op]) == Step(q, op)
  {
  }

  /** What is pushed in a run, in order. */
  function Pushes<T>(ops: seq<Op<T>>): seq<T>
    decreases |ops|
  {
    if ops == [] then []
    else (if ops[0].PushOp? then [ops[0].x] else []) + Pushes(ops[1..])
  }

  lemma {:induction false} PushesAppend<T>(a: seq<Op<T>>, b: seq<Op<T>>)
    ensures Pushes(a + b) == Pushes(a) + Pushes(b)
    decreases |a|
  {
    if a == [] {
      assert a + b == b;
    } else {
      PushesAppend(a[1..], b);
      assert (a + b)[1..] == a[1..] + b;
    }
  }

  lemma StepAccepts<T>(q: QueueState<T>, op: Op<T>)
    requires q.WellFormed()
    ensures var r := Step(q, op);
            && r.accepted == q.accepted + (if op.PushOp? && !q.closed then [op.x] else [])
            && r.rejected == q.rejected + (if op.PushOp? && q.closed then 1 else 0)
            && (q.closed ==> r.closed)
  {
  }

  /** The ring accepts pushes in order until it is closed, and then rejects and counts all the others. */
  lemma {:induction false} RunAcceptsUntilClosed<T>(q: QueueState<T>, ops: seq<Op<T>>)
    requires q.WellFormed()
    ensures var r := Run(q, ops);
            && q.accepted <= r.accepted
            && |r.accepted| - |q.accepted| <= |Pushes(ops)|
            && r.accepted == q.accepted + Pushes(ops)[..|r.accepted| - |q.accepted|]
            && r.rejected - q.rejected == |Pushes(ops)| - (|r.accepted| - |q.accepted|)
            && (r.rejected > q.rejected ==> r.closed)
            && (q.closed ==> r.closed && r.accepted == q.accepted)
    decreases |ops|
  {
    hide Step, QueueState.WellFormed;
    if ops != [] {
      var next, r := Step(q, ops[0]), Run(q, ops);
      StepAccepts(q, ops[0]);
      RunAcceptsUntilClosed(next, ops[1..]);
      if ops[0].PushOp? {
        var k := |r.accepted| - |next.accepted|;
        assert Pushes(ops) == [ops[0].x] + Pushes(ops[1..]);
        assert !q.closed ==> Pushes(ops)[..k + 1] == [ops[0].x] + Pushes(ops[1..])[..k];
      }
    }
  }

  /** The answers a run gives to its pops. */
  function Answers<T>(q: QueueState<T>, ops: seq<Op<T>>): seq<PopResult<T>>
    requires q.WellFormed()
    decreases |ops|
  {
    if ops == [] then []
    else
      var rest := Answers(Step(q, ops[0]), ops[1..]);
      match ops[0]
      case TryPopOp(stop, mayWait) => [AttemptPop(q, stop, mayWait).1] + rest
      case ResumePopOp(stop) => [FinishPop(q, stop).1] + rest
      case _ => rest
  }

  /** The frames among the answers. */
  function Frames<T>(answers: seq<PopResult<T>>): seq<T> {
    if answers == [] then []
    else (if answers[0].Frame? then [answers[0].frame] else []) + Frames(answers[1..])
  }

  /** The accepted frames with the given fate, in order. */
  function WithFate<T>(frames: seq<T>, fates: seq<Fate>, fate: Fate): seq<T>
    requires |fates| <= |frames|
    decreases |fates|
  {
    if fates == [] then []
    else (if fates[0] == fate then [frames[0]] else []) + WithFate(frames[1..], fates[1..], fate)
  }

  lemma WithFateFromHead<T>(frames: seq<T>, fates: seq<Fate>, k: nat, fate: Fate)
    requires k < |fates| <= |frames|
    ensures WithFate(frames[k..], fates[k..], fate)
         == (if fates[k] == fate then [frames[k]] else []) + WithFate(frames[k + 1..], fates[k + 1..], fate)
  {
    assert frames[k..][1..] == frames[k + 1..] && fates[k..][1..] == fates[k + 1..];
  }

  /** One step: at most one frame leaves, the first one held, and only a pop that answers with it delivers it. */
  lemma StepTakesFirst<T>(q: QueueState<T>, op: Op<T>)
    requires q.WellFormed()
    ensures var r, k := Step(q, op), |q.fates|;
            var delivered := Frames(Answers(q, [op]));
            || (r.fates == q.fates && delivered == [])
            || (r.fates == q.fates + [Dropped] && delivered == [] && k < |q.accepted|)
            || (r.fates == q.fates + [Delivered] && k < |q.accepted| && delivered == [q.accepted[k]])
  {
    assert [op][1..] == [];
  }

  lemma AnswersFromHead<T>(q: QueueState<T>, ops: seq<Op<T>>)
    requires q.WellFormed() && ops != []
    ensures Frames(Answers(q, ops)) == Frames(Answers(q, [ops[0]])) + Frames(Answers(Step(q, ops[0]), ops[1..]))
  {
    hide AttemptPop, FinishPop, AfterPush;
    assert [ops[0]][1..] == [];
    var rest := Answers(Step(q, ops[0]), ops[1..]);
    if ops[0].TryPopOp? || ops[0].ResumePopOp? {
      assert Answers(q, ops)[1..] == rest;
    }
  }

  /**
   First in, first out: the frames a run hands to its consumers are, in the order handed out, the
   accepted frames in the order accepted, without those that were dropped.
   */
  lemma {:induction false} RunDeliversInOrder<T>(q: QueueState<T>, ops: seq<Op<T>>)
    requires q.WellFormed()
    ensures var r := Run(q, ops);
            && |q.fates| <= |r.fates| <= |r.accepted|
            && Frames(Answers(q, ops)) == WithFate(r.accepted[|q.fates|..], r.fates[|q.fates|..], Delivered)
    decreases |ops|
  {
    hide AttemptPop, FinishPop, AfterPush, Step, Answers, Frames, QueueState.DroppedOldest, QueueState.Dequeued;
    RunConserves(q, ops);
    if ops != [] {
      var next, r := Step(q, ops[0]), Run(q, ops);
      RunDeliversInOrder(next, ops[1..]);
      RunConserves(next, ops[1..]);
      StepTakesFirst(q, ops[0]);
      StepOnlyExtends(q, ops[0]);
      AnswersFromHead(q, ops);
      if |q.fates| < |next.fates| {
        WithFateFromHead(r.accepted, r.fates, |q.fates|, Delivered);
      }
    } else {
      NoAnswers(q);
    }
  }

  lemma NoAnswers<T>(q: QueueState<T>)
    requires q.WellFormed()
    ensures Frames(Answers(q, [])) == []
  {
  }

  /** Draining: once closed, `n` undisturbed pops deliver the first `n` frames still held, in order. */
  lemma {:induction false} DrainAfterClose<T>(q: QueueState<T>, n: nat)
    requires q.WellFormed() && q.closed && n <= q.Depth()
    ensures var ops := seq(n, _ => TryPopOp(false, false));
            && Frames(Answers(q, ops)) == q.Contents()[..n]
            && Run(q, ops).Contents() == q.Contents()[n..]
    decreases n
  {
    var ops: seq<Op<T>> := seq(n, _ => TryPopOp(false, false));
    if n > 0 {
      var next := Step(q, ops[0]);
      assert ops[1..] == seq(n - 1, _ => TryPopOp(false, false));
      assert next.Contents() == q.Contents()[1..];
      DrainAfterClose(next, n - 1);
      assert Answers(q, ops)[1..] == Answers(next, ops[1..]);
    }
  }

  // ---------------------------------------------------------------- the ring

  /** The slot of the `i`-th frame from the head. */
  function Slot(head: nat, i: nat, capacity: nat): (s: nat)
    requires head < capacity && i <= capacity
    ensures i < capacity ==> s < capacity
  {
    if head + i < capacity then head + i else head + i - capacity
  }

  lemma SlotIsModulo(head: nat, i: nat, capacity: nat)
    requires head < capacity && i <= capacity
    ensures (head + i) % capacity == Slot(head, i, capacity)
  {
    var x := head + i;
    assert x == (x / capacity) * capacity + x % capacity;
    if x / capacity >= 2 {
      TwiceAtLeast(x / capacity, capacity);
    }
  }

  lemma TwiceAtLeast(k: nat, n: nat)
    requires k >= 2
    ensures k * n >= 2 * n
  {
  }

  /** The answer of a push says what became of the frame and of the oldest one held. */
  lemma PushIsAnswered<T>(q: QueueState<T>, x: T)
    requires q.WellFormed()
    ensures var r, answer := AfterPush(q, x), PushResult(q);
            && (answer.RejectedClosed? <==> q.closed)
            && (answer.RejectedClosed? <==> r.accepted == q.accepted)
            && (answer.EnqueuedAfterDrop? <==> r.DroppedOldest() == q.DroppedOldest() + 1)
  {
  }

  /** A push that finds the ring open: the oldest frame leaves if there is no room, and the new one comes last. */
  lemma PushContents<T>(q: QueueState<T>, x: T)
    requires q.WellFormed() && !q.closed
    ensures var r, full := AfterPush(q, x), q.Depth() == q.capacity;
            && r.Contents() == (if full then q.Contents()[1..] else q.Contents()) + [x]
            && |r.accepted| == |q.accepted| + 1 && r.Dequeued() == q.Dequeued()
            && r.DroppedOldest() == q.DroppedOldest() + (if full then 1 else 0)
            && r.highWatermark == Max(q.highWatermark, r.Depth()) && !r.closed
            && r == q.(accepted := r.accepted, fates := r.fates, highWatermark := r.highWatermark)
  {
  }

  lemma PushWhenClosed<T>(q: QueueState<T>, x: T)
    requires q.WellFormed() && q.closed
    ensures var r := AfterPush(q, x);
            && r == q.(rejected := q.rejected + 1) && r.Contents() == q.Contents()
            && r.Dequeued() == q.Dequeued() && r.DroppedOldest() == q.DroppedOldest()
  {
  }

  class AcquisitionQueue<T> {
    const slots: array<Option<T>>
    var head: nat
    var size: nat
    var depth: nat
    var highWatermark: nat
    var enqueued: nat
    var dequeued: nat
    var droppedOldest: nat
    var rejectedClosed: nat
    var waitTimeouts: nat
    var waitCancelled: nat
    var closed: bool
    ghost var state: QueueState<T>

    /** The slots from the head on hold exactly `contents`, in order; the others are empty. */
    ghost predicate Holds(contents: seq<T>)
      reads this`head, this`size, slots
    {
      && head < slots.Length
      && size == |contents| <= slots.Length
      && (forall i | 0 <= i < size :: slots[Slot(head, i, slots.Length)] == Some(contents[i]))
      && (forall i | size <= i < slots.Length :: slots[Slot(head, i, slots.Length)] == None)
    }

    ghost predicate Valid()
      reads this, slots
    {
      && state.WellFormed()
      && slots.Length == state.capacity
      && Holds(state.Contents())
      && depth == size == state.Depth()
      && highWatermark == state.highWatermark
      && enqueued == |state.accepted|
      && dequeued == state.Dequeued() && droppedOldest == state.DroppedOldest()
      && rejectedClosed == state.rejected && waitTimeouts == state.timeouts && waitCancelled == state.cancelled
      && closed == state.closed
    }

    lemma ValidState()
      requires Valid()
      ensures state.WellFormed() && closed == state.closed
    {
    }

    constructor (capacity: nat)
      requires capacity > 0
      ensures Valid() && fresh(slots) && state == Empty(capacity)
    {
      slots := new Option<T>[capacity](_ => None);
      head, size, depth, highWatermark := 0, 0, 0, 0;
      enqueued, dequeued, droppedOldest, rejectedClosed, waitTimeouts, waitCancelled := 0, 0, 0, 0, 0, 0;
      closed := false;
      state := Empty(capacity);
    }

    /** Empties the head slot, for a pop or for a drop. */
    method RemoveHead(ghost contents: seq<T>) returns (x: T)
      requires Holds(contents) && size == |contents| > 0
      modifies this`head, this`size, slots
      ensures x == contents[0] && Holds(contents[1..]) && size == old(size) - 1
    {
      assert slots[Slot(head, 0, slots.Length)] == Some(contents[0]);
      x := slots[head].value;
      slots[head] := None;
      SlotIsModulo(head, 1, slots.Length);
      ghost var before, n := head, slots.Length;
      head := (head + 1) % slots.Length;
      size := size - 1;
      assert forall i | 0 <= i < n :: Slot(head, i, n) == if i == n - 1 then before else Slot(before, i + 1, n);
    }

    method Append(x: T, ghost contents: seq<T>)
      requires Holds(contents) && size < slots.Length
      modifies this`size, slots
      ensures Holds(contents + [x]) && size == old(size) + 1
    {
      SlotIsModulo(head, size, slots.Length);
      slots[(head + size) % slots.Length] := Some(x);
      size := size + 1;
    }

    method Push(x: T) returns (status: PushStatus)
      requires Valid()
      modifies this, slots
      ensures Valid() && state == AfterPush(old(state), x) && status == PushResult(old(state))
    {
      hide AfterPush, Holds, QueueState.Dequeued, QueueState.DroppedOldest, QueueState.Contents;
      status := Enqueued;
      if closed {
        PushWhenClosed(state, x);
        rejectedClosed := rejectedClosed + 1;
        state := AfterPush(state, x);
        return RejectedClosed;
      }
      ghost var contents := state.Contents();
      if size == slots.Length {
        var oldest := RemoveHead(contents);
        contents := contents[1..];
        droppedOldest := droppedOldest + 1;
        status := EnqueuedAfterDrop;
      }
      Append(x, contents);
      depth := size;
      enqueued := enqueued + 1;
      highWatermark := if highWatermark < size then size else highWatermark;
      PushContents(state, x);
      state := AfterPush(state, x);
    }

    method PopFrame() returns (result: PopResult<T>)
      requires Valid() && size > 0
      modifies this, slots
      ensures Valid() && (state, result) == TakeFirst(old(state))
    {
      ghost var contents := state.Contents();
      var x := RemoveHead(contents);
      depth := size;
      dequeued := dequeued + 1;
      state := TakeFirst(state).0;
      assert state.Contents() == contents[1..];
      return Frame(x);
    }

    method TryPop(stop: bool, mayWait: bool) returns (result: PopResult<T>)
      requires Valid()
      modifies this, slots
      ensures Valid() && (state, result) == AttemptPop(old(state), stop, mayWait)
    {
      if stop {
        waitCancelled := waitCancelled + 1;
        state := state.(cancelled := state.cancelled + 1);
        return Stopped;
      }
      if size > 0 {
        result := PopFrame();
        return;
      }
      if closed {
        return ClosedEmpty;
      }
      if !mayWait {
        waitTimeouts := waitTimeouts + 1;
        state := state.(timeouts := state.timeouts + 1);
        return Timeout;
      }
      return MustWait;
    }

    /** `ready`: the wait ended with the ring closed or holding a frame. */
    method ResumePop(stop: bool) returns (result: PopResult<T>)
      requires Valid()
      modifies this, slots
      ensures Valid() && (state, result) == FinishPop(old(state), stop)
    {
      var ready := closed || size > 0;
      if stop {
        waitCancelled := waitCancelled + 1;
        state := state.(cancelled := state.cancelled + 1);
        return Stopped;
      }
      if !ready {
        waitTimeouts := waitTimeouts + 1;
        state := state.(timeouts := state.timeouts + 1);
        return Timeout;
      }
      if size > 0 {
        result := PopFrame();
        return;
      }
      return ClosedEmpty;
    }

    /** An operation of some other thread. */
    method Apply(op: Op<T>)
      requires Valid()
      modifies this, slots
      ensures Valid() && state == Step(old(state), op)
    {
      match op
      case PushOp(x) => var _ := Push(x);
      case TryPopOp(stop, mayWait) => var _ := TryPop(stop, mayWait);
      case ResumePopOp(stop) => var _ := ResumePop(stop);
      case CloseOp => Close();
    }

    method Close()
      requires Valid()
      modifies this`closed, this`state
      ensures Valid() && state == Step(old(state), CloseOp)
    {
      closed := true;
      state := state.(closed := true);
    }
  }
}
