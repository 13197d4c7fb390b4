/**
 The bounded reconnect schedule and its cancellable wait. A waiter takes a ticket, waits without the
 lock and then asks whether its delay may be used; any number of waiters, schedules, cancels, resets
 and stop requests interleave.
 */
module Reconnect {
  import opened Wrappers

  datatype WaitResult = Ready | Cancelled | NotScheduled

  /** `maximum`: how many retries may follow each other; `delays`: in milliseconds, the last one is kept. */
  datatype Policy = Policy(maximum: nat, delays: seq<nat>)

  predicate ValidPolicy(p: Policy) {
    p.maximum > 0 && p.delays != []
  }

  /** Stop sources are numbered; `stopped` holds those that were asked to stop. */
  datatype ReconnectState = ReconnectState(
    policy: Policy, attempts: nat, next: Option<nat>, source: nat, stopped: set<nat>, generation: nat)
  {
    predicate WellFormed() {
      && ValidPolicy(policy)
      && attempts <= policy.maximum
      && (next.Some? ==> attempts > 0 && next.value == DelayOf(policy, attempts))
    }
  }

  /** What a waiter remembers of the moment it began to wait. */
  datatype Ticket = Ticket(delay: nat, source: nat, generation: nat)

  /** The delay before the `k`-th retry in a row. */
  function DelayOf(p: Policy, k: nat): nat
    requires ValidPolicy(p) && k > 0
  {
    p.delays[if k <= |p.delays| then k - 1 else |p.delays| - 1]
  }

  function Initial(p: Policy): ReconnectState {
    ReconnectState(p, 0, None, 0, {}, 0)
  }

  function Schedule(r: ReconnectState): (s: ReconnectState)
    requires r.WellFormed()
    ensures s.WellFormed()
  {
    if r.next.Some? || r.attempts >= r.policy.maximum then r
    else r.(attempts := r.attempts + 1, next := Some(DelayOf(r.policy, r.attempts + 1)), source := r.source + 1,
            stopped := r.stopped + {r.source}, generation := r.generation + 1)
  }

  function Cancel(r: ReconnectState): (s: ReconnectState)
    requires r.WellFormed()
    ensures s.WellFormed()
  {
    r.(next := None, stopped := r.stopped + {r.source}, generation := r.generation + 1)
  }

  function Reset(r: ReconnectState): (s: ReconnectState)
    requires r.WellFormed()
    ensures s.WellFormed()
  {
    r.(attempts := 0, next := None, source := r.source + 1, stopped := r.stopped + {r.source},
       generation := r.generation + 1)
  }

  function TicketFor(r: ReconnectState): Option<Ticket> {
    if r.next.None? then None else Some(Ticket(r.next.value, r.source, r.generation))
  }

  /** The stop token of a waiter fires. */
  function Interrupt(r: ReconnectState, source: nat): ReconnectState {
    r.(stopped := r.stopped + {source})
  }

  function Complete(r: ReconnectState, t: Ticket, elapsed: bool): (ReconnectState, WaitResult) {
    if t.generation != r.generation || r.next.None? || t.source in r.stopped || !elapsed then (r, Cancelled)
    else (r.(next := None), Ready)
  }

  class ReconnectController {
    const policy: Policy
    var attemptCount: nat
    var nextDelay: Option<nat>
    var waitStopSource: nat
    var stoppedSources: set<nat>
    var waitGeneration: nat

    ghost function State(): ReconnectState
      reads this
    {
      ReconnectState(policy, attemptCount, nextDelay, waitStopSource, stoppedSources, waitGeneration)
    }

    ghost predicate Valid()
      reads this
    {
      State().WellFormed()
    }

    constructor (policy: Policy)
      requires ValidPolicy(policy)
      ensures Valid() && State() == Initial(policy)
    {
      this.policy := policy;
      attemptCount, nextDelay, waitStopSource, stoppedSources, waitGeneration := 0, None, 0, {}, 0;
    }

    method ScheduleNext() returns (delay: Option<nat>)
      requires Valid()
      modifies this
      ensures Valid() && State() == Schedule(old(State())) && delay == nextDelay
      ensures delay.None? <==> old(nextDelay).None? && old(attemptCount) >= policy.maximum
      // the attempts go through the delays in order and stay at the last one
      ensures old(nextDelay).None? && delay.Some? ==>
                && attemptCount == old(attemptCount) + 1
                && (attemptCount <= |policy.delays| ==> delay.value == policy.delays[attemptCount - 1])
                && (attemptCount > |policy.delays| ==> delay.value == policy.delays[|policy.delays| - 1])
                && old(waitStopSource) in stoppedSources
      ensures old(nextDelay).Some? ==> delay == old(nextDelay) && attemptCount == old(attemptCount)
    {
      if nextDelay.Some? {
        return nextDelay;
      }
      if attemptCount >= policy.maximum {
        nextDelay := None;
        return None;
      }
      attemptCount := attemptCount + 1;
      var last := |policy.delays| - 1;
      var delayIndex := if attemptCount - 1 < last then attemptCount - 1 else last;
      nextDelay := Some(policy.delays[delayIndex]);
      stoppedSources := stoppedSources + {waitStopSource};
      waitStopSource := waitStopSource + 1;
      waitGeneration := waitGeneration + 1;
      return nextDelay;
    }

    /** The part of a wait under the first lock. */
    method BeginWait() returns (ticket: Option<Ticket>)
      requires Valid()
      ensures ticket == TicketFor(State())
    {
      if nextDelay.None? {
        return None;
      }
      return Some(Ticket(nextDelay.value, waitStopSource, waitGeneration));
    }

    method StopWaiting(source: nat)
      requires Valid()
      modifies this`stoppedSources
      ensures Valid() && State() == Interrupt(old(State()), source)
    {
      stoppedSources := stoppedSources + {source};
    }

    /** The part of a wait under the second lock; `elapsed` is what the waiter said. */
    method CompleteWait(ticket: Ticket, elapsed: bool) returns (result: WaitResult)
      requires Valid()
      modifies this`nextDelay
      ensures Valid() && (State(), result) == Complete(old(State()), ticket, elapsed)
      ensures result.Ready? <==>
                && elapsed && old(nextDelay).Some? && ticket.generation == waitGeneration
                && ticket.source !in stoppedSources
      ensures nextDelay == if result.Ready? then None else old(nextDelay)
    {
      if ticket.generation != waitGeneration || nextDelay.None? || ticket.source in stoppedSources || !elapsed {
        return Cancelled;
      }
      nextDelay := None;
      return Ready;
    }

    method CancelWait()
      requires Valid()
      modifies this
      ensures Valid() && State() == Cancel(old(State()))
    {
      stoppedSources := stoppedSources + {waitStopSource};
      nextDelay := None;
      waitGeneration := waitGeneration + 1;
    }

    method ResetAttempts()
      requires Valid()
      modifies this
      ensures Valid() && State() == Reset(old(State()))
    {
      stoppedSources := stoppedSources + {waitStopSource};
      waitStopSource := waitStopSource + 1;
      attemptCount := 0;
      nextDelay := None;
      waitGeneration := waitGeneration + 1;
    }
  }

  // ---------------------------------------------------------------- any number of waiters

  datatype Op =
    | ScheduleOp
    | CancelOp
    | ResetOp
    | TakeOp
    | InterruptOp(waiter: nat)
    | CompleteOp(waiter: nat, elapsed: bool)

  /** What happened; waiters are numbered in the order in which they took their tickets. */
  datatype Event = Armed | Dropped | Restarted | Took(waiter: nat) | Stopped(waiter: nat) | Used(waiter: nat) | Nothing

  /** `takenAt`: where in the history each waiter took its ticket. */
  datatype World = World(state: ReconnectState, tickets: seq<Ticket>, takenAt: seq<nat>, history: seq<Event>)

  function Start(p: Policy): World {
    World(Initial(p), [], [], [])
  }

  predicate Possible(w: World, op: Op) {
    (op.InterruptOp? || op.CompleteOp?) ==> op.waiter < |w.tickets|
  }

  /** The new state and the event that goes down in history. */
  function Effect(w: World, op: Op): (r: (ReconnectState, Event))
    requires w.state.WellFormed() && Possible(w, op)
    ensures r.0.WellFormed()
  {
    match op
    case ScheduleOp =>
      var s := Schedule(w.state);
      (s, if s.generation == w.state.generation then Nothing else Armed)
    case CancelOp => (Cancel(w.state), Dropped)
    case ResetOp => (Reset(w.state), Restarted)
    case TakeOp => (w.state, if TicketFor(w.state).None? then Nothing else Took(|w.tickets|))
    case InterruptOp(k) => (Interrupt(w.state, w.tickets[k].source), Stopped(k))
    case CompleteOp(k, elapsed) =>
      var (s, result) := Complete(w.state, w.tickets[k], elapsed);
      (s, if result.Ready? then Used(k) else Nothing)
  }

  function Step(w: World, op: Op): (next: World)
    requires w.state.WellFormed() && Possible(w, op)
    ensures next.state.WellFormed()
  {
    var (s, e) := Effect(w, op);
    var t := TicketFor(w.state);
    if op.TakeOp? && t.Some? then
      World(s, w.tickets + [t.value], w.takenAt + [|w.history|], w.history + [e])
    else
      w.(state := s, history := w.history + [e])
  }

  predicate Changes(e: Event) {
    e.Armed? || e.Dropped? || e.Restarted?
  }

  /** How often the schedule changed hands in a history. */
  function ChangeCount(h: seq<Event>): nat {
    if h == [] then 0 else ChangeCount(h[..|h| - 1]) + if Changes(h[|h| - 1]) then 1 else 0
  }

  /** How many retries were armed since the last restart. */
  function ArmedInARow(h: seq<Event>): nat {
    if h == [] then 0
    else if h[|h| - 1].Restarted? then 0
    else ArmedInARow(h[..|h| - 1]) + if h[|h| - 1].Armed? then 1 else 0
  }

  /** Something was armed and not used since. */
  predicate Open(h: seq<Event>) {
    h != [] && (h[|h| - 1].Armed? || (!h[|h| - 1].Used? && Open(h[..|h| - 1])))
  }

  /** The ticket is of the moment it was taken. */
  ghost predicate TicketFits(tickets: seq<Ticket>, takenAt: seq<nat>, history: seq<Event>, k: nat)
    requires k < |tickets| == |takenAt|
  {
    && takenAt[k] < |history|
    && history[takenAt[k]] == Took(k)
    && tickets[k].generation == ChangeCount(history[..takenAt[k]])
  }

  /**
   A use is of a delay that was armed, was not used before, and whose schedule stood since the ticket was
   taken; and its waiter was not stopped.
   */
  ghost predicate UseIsSound(takenAt: seq<nat>, history: seq<Event>, j: nat)
    requires j < |history| && history[j].Used?
  {
    && Open(history[..j])
    && history[j].waiter < |takenAt| && takenAt[history[j].waiter] < j
    && ChangeCount(history[..takenAt[history[j].waiter]]) == ChangeCount(history[..j])
    && Stopped(history[j].waiter) !in history[..j]
  }

  ghost predicate StateFits(r: ReconnectState, history: seq<Event>) {
    && r.generation == ChangeCount(history)
    && r.attempts == ArmedInARow(history)
    && (r.next.Some? ==> Open(history))
  }

  /** The state is what the history made of it, and every ticket and every use is as it should be. */
  ghost predicate Faithful(w: World) {
    && w.state.WellFormed()
    && StateFits(w.state, w.history)
    && |w.tickets| == |w.takenAt|
    && (forall k | 0 <= k < |w.tickets| :: TicketFits(w.tickets, w.takenAt, w.history, k))
    && (forall k | 0 <= k < |w.tickets| && Stopped(k) in w.history :: w.tickets[k].source in w.state.stopped)
    && (forall k: nat | Stopped(k) in w.history :: k < |w.tickets|)
    && (forall j | 0 <= j < |w.history| && w.history[j].Used? :: UseIsSound(w.takenAt, w.history, j))
  }

  /** What an op does to the state, and that it goes down in history as such. */
  lemma EffectFits(w: World, op: Op)
    requires w.state.WellFormed() && Possible(w, op) && StateFits(w.state, w.history)
    ensures var (s, e) := Effect(w, op);
            && StateFits(s, w.history + [e])
            && (e.Used? ==>
                  && w.state.next.Some? && e.waiter < |w.tickets|
                  && w.tickets[e.waiter].generation == w.state.generation
                  && w.tickets[e.waiter].source !in w.state.stopped)
            && w.state.stopped <= s.stopped
            && (e.Stopped? ==> e.waiter < |w.tickets| && w.tickets[e.waiter].source in s.stopped)
            && (op.TakeOp? && w.state.next.Some? ==> e == Took(|w.tickets|))
  {
    var (s, e) := Effect(w, op);
    assert (w.history + [e])[..|w.history|] == w.history;
  }

  lemma StepIsFaithful(w: World, op: Op)
    requires Faithful(w) && Possible(w, op)
    ensures Faithful(Step(w, op))
  {
    hide Effect, ReconnectState.WellFormed, ArmedInARow;
    var (s, e) := Effect(w, op);
    EffectFits(w, op);
    var next, h := Step(w, op), w.history;
    assert h[..|h|] == h;
    forall k | 0 <= k < |next.tickets|
      ensures TicketFits(next.tickets, next.takenAt, next.history, k)
    {
      assert k < |w.tickets| ==> TicketFits(w.tickets, w.takenAt, w.history, k);
      assert next.history[..next.takenAt[k]] == h[..next.takenAt[k]];
    }
    forall j | 0 <= j < |next.history| && next.history[j].Used?
      ensures UseIsSound(next.takenAt, next.history, j)
    {
      assert next.history[..j] == h[..j];
      var k := next.history[j].waiter;
      if j < |h| {
        assert UseIsSound(w.takenAt, h, j);
        assert next.history[..w.takenAt[k]] == h[..w.takenAt[k]];
      } else {
        assert TicketFits(w.tickets, w.takenAt, h, k);
        assert next.history[..w.takenAt[k]] == h[..w.takenAt[k]];
      }
    }
  }

  predicate PossibleRun(w: World, ops: seq<Op>)
    requires w.state.WellFormed()
    decreases |ops|
  {
    ops == [] || (Possible(w, ops[0]) && PossibleRun(Step(w, ops[0]), ops[1..]))
  }

  function Run(w: World, ops: seq<Op>): World
    requires w.state.WellFormed() && PossibleRun(w, ops)
    decreases |ops|
  {
    if ops == [] then w else Run(Step(w, ops[0]), ops[1..])
  }

  lemma {:induction false} RunIsFaithful(w: World, ops: seq<Op>)
    requires Faithful(w) && PossibleRun(w, ops)
    ensures Faithful(Run(w, ops))
    decreases |ops|
  {
    if ops != [] {
      StepIsFaithful(w, ops[0]);
      RunIsFaithful(Step(w, ops[0]), ops[1..]);
    }
  }

  lemma {:induction false} SameCountMeansNoChange(h: seq<Event>, i: nat, j: nat)
    requires i <= j <= |h|
    ensures ChangeCount(h[..i]) <= ChangeCount(h[..j])
    ensures ChangeCount(h[..i]) == ChangeCount(h[..j]) ==> forall l | i <= l < j :: !Changes(h[l])
    decreases j
  {
    if i < j {
      SameCountMeansNoChange(h, i, j - 1);
      assert h[..j][..j - 1] == h[..j - 1];
    }
  }

  lemma {:induction false} OpenMeansArmedSince(h: seq<Event>, i: nat)
    requires i < |h| && h[i].Used? && Open(h)
    ensures exists l :: i < l < |h| && h[l].Armed?
    decreases |h|
  {
    var last := |h| - 1;
    if !h[last].Armed? {
      OpenMeansArmedSince(h[..last], i);
      var l :| i < l < last && h[..last][l].Armed?;
      assert h[l].Armed?;
    }
  }

  /** Between two uses something was armed, so each delay is used at most once. */
  lemma ArmedBetweenUses(w: World, i: nat, j: nat)
    requires Faithful(w) && i < j < |w.history| && w.history[i].Used? && w.history[j].Used?
    ensures exists l :: i < l < j && w.history[l].Armed?
  {
    hide ReconnectState.WellFormed, Open, ChangeCount, ArmedInARow, TicketFits;
    var h := w.history;
    assert UseIsSound(w.takenAt, h, j);
    OpenMeansArmedSince(h[..j], i);
    var l :| i < l < j && h[..j][l].Armed?;
    assert h[l].Armed?;
  }

  /**
   From the moment the user took its ticket until the use, nothing was armed, cancelled or restarted, and
   the user was not stopped.
   */
  lemma NothingChangedSinceTicket(w: World, j: nat)
    requires Faithful(w) && j < |w.history| && w.history[j].Used?
    ensures exists i :: 0 <= i < j && w.history[i] == Took(w.history[j].waiter)
                        && forall l | i < l < j :: !Changes(w.history[l])
    ensures Stopped(w.history[j].waiter) !in w.history[..j]
  {
    hide ReconnectState.WellFormed, Open, ChangeCount, ArmedInARow;
    var h, k := w.history, w.history[j].waiter;
    assert UseIsSound(w.takenAt, h, j);
    assert TicketFits(w.tickets, w.takenAt, h, k);
    SameCountMeansNoChange(h, w.takenAt[k], j);
    assert h[w.takenAt[k]] == Took(k);
  }

  /**
   The guarded wait, in every run, with any number of waiters; the attempts are those armed since the
   last restart.
   */
  lemma WaitsAreGuarded(p: Policy, ops: seq<Op>)
    requires ValidPolicy(p) && PossibleRun(Start(p), ops)
    ensures var w := Run(Start(p), ops);
            && w.state.attempts == ArmedInARow(w.history) <= p.maximum
            && (w.state.next.Some? ==>
                  && w.state.attempts > 0
                  && w.state.next.value
                  == p.delays[if w.state.attempts <= |p.delays| then w.state.attempts - 1 else |p.delays| - 1])
            && (forall i, j | 0 <= i < j < |w.history| && w.history[i].Used? && w.history[j].Used? ::
                  exists l :: i < l < j && w.history[l].Armed?)
            && (forall j | 0 <= j < |w.history| && w.history[j].Used? ::
                  exists i :: 0 <= i < j && w.history[i] == Took(w.history[j].waiter)
                              && forall l | i < l < j :: !Changes(w.history[l]))
            && (forall j | 0 <= j < |w.history|
                && w.history[j].Used? :: Stopped(w.history[j].waiter) !in w.history[..j])
  {
    hide PossibleRun, Run, Open, ChangeCount, ArmedInARow, TicketFits, UseIsSound;
    var w := Run(Start(p), ops);
    StartIsFaithful(p);
    RunIsFaithful(Start(p), ops);
    PolicyStays(Start(p), ops);
    forall i, j | 0 <= i < j < |w.history| && w.history[i].Used? && w.history[j].Used?
      ensures exists l :: i < l < j && w.history[l].Armed?
    {
      ArmedBetweenUses(w, i, j);
    }
    forall j | 0 <= j < |w.history| && w.history[j].Used?
      ensures exists i :: 0 <= i < j && w.history[i] == Took(w.history[j].waiter)
                          && forall l | i < l < j :: !Changes(w.history[l])
      ensures Stopped(w.history[j].waiter) !in w.history[..j]
    {
      NothingChangedSinceTicket(w, j);
    }
  }

  lemma StartIsFaithful(p: Policy)
    requires ValidPolicy(p)
    ensures Faithful(Start(p))
  {
  }

  lemma {:induction false} PolicyStays(w: World, ops: seq<Op>)
    requires w.state.WellFormed() && PossibleRun(w, ops)
    ensures Run(w, ops).state.policy == w.state.policy
    decreases |ops|
  {
    if ops != [] {
      PolicyStays(Step(w, ops[0]), ops[1..]);
    }
  }
}
