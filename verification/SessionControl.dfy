/**
 The state owner of one camera session: the transition relation and the operations that move along
 it, with the reconnect schedule inside.
 */
module SessionControl {
  import opened Wrappers
  import opened Reconnect

  datatype CameraState = Disabled | Disconnected | Connecting | Connected | Starting | Streaming | Recovering | Faulted

  /** An error of the camera, told apart by a number. */
  datatype Error = Error(code: nat, retryable: bool)

  predicate Allowed(from: CameraState, to: CameraState) {
    from != to &&
    match from
    case Disabled => to.Disconnected?
    case Disconnected => to.Disabled? || to.Connecting?
    case Connecting => to.Disabled? || to.Disconnected? || to.Connected? || to.Recovering? || to.Faulted?
    case Connected => to.Disabled? || to.Disconnected? || to.Starting? || to.Recovering? || to.Faulted?
    case Starting => to.Disabled? || to.Disconnected? || to.Streaming? || to.Recovering? || to.Faulted?
    case Streaming => to.Disabled? || to.Disconnected? || to.Recovering? || to.Faulted?
    case Recovering => to.Disabled? || to.Disconnected? || to.Connecting? || to.Faulted?
    case Faulted => to.Disabled? || to.Disconnected?
  }

  datatype Control = Control(
    state: CameraState, stopRequested: bool, lastError: Option<Error>, sequence: nat, reconnect: ReconnectState)

  /** Every attempt moves the sequence number, also one that is not allowed and changes nothing else. */
  function Transition(c: Control, target: CameraState, cause: Option<Error>): (r: (Control, bool))
    requires c.reconnect.WellFormed()
    ensures r.0.reconnect.WellFormed()
  {
    var numbered := c.(sequence := c.sequence + 1);
    if !Allowed(c.state, target) then (numbered, false)
    else
      var moved := numbered.(state := target, lastError := if cause.Some? then cause else c.lastError);
      (match target
       case Streaming => moved.(reconnect := Reset(c.reconnect), stopRequested := false, lastError := None)
       case Disconnected =>
         if c.state.Faulted? || c.state.Disabled? then
           moved.(reconnect := Reset(c.reconnect), lastError := None,
                  stopRequested := c.stopRequested && !c.state.Disabled?)
         else moved.(reconnect := Cancel(c.reconnect))
       case Disabled => moved.(reconnect := Cancel(c.reconnect))
       case Connecting => moved.(stopRequested := false)
       case _ => moved,
       true)
  }

  /** A retryable error arms the next retry while there is one left; anything else is a fault. */
  function FailureOf(c: Control, e: Error): (r: (Control, bool))
    requires c.reconnect.WellFormed()
    ensures r.0.reconnect.WellFormed()
  {
    if e.retryable && !c.stopRequested then
      if !Allowed(c.state, Recovering) then Transition(c, Recovering, Some(e))
      else
        var armed := c.(reconnect := Schedule(c.reconnect));
        if armed.reconnect.next.Some? then Transition(armed, Recovering, Some(e))
        else Transition(armed, Faulted, Some(e.(retryable := false)))
    else Transition(c, Faulted, Some(e))
  }

  /** What follows a wait that ended with its delay ready. */
  function RetryReady(c: Control): (r: (Control, bool))
    requires c.reconnect.WellFormed()
    ensures r.0.reconnect.WellFormed()
  {
    if c.stopRequested || !c.state.Recovering? then (c, false) else Transition(c, Connecting, None)
  }

  function StopRequest(c: Control, remainEnabled: bool): (r: (Control, bool))
    requires c.reconnect.WellFormed()
    ensures r.0.reconnect.WellFormed()
  {
    var stopped := c.(stopRequested := true, reconnect := Cancel(c.reconnect));
    var target := if remainEnabled then Disconnected else Disabled;
    if c.state == target then (stopped, true) else Transition(stopped, target, None)
  }

  function FaultReset(c: Control): (r: (Control, bool))
    requires c.reconnect.WellFormed()
    ensures r.0.reconnect.WellFormed()
  {
    if !c.state.Faulted? then Transition(c, c.state, None)
    else Transition(c.(stopRequested := false), Disconnected, None)
  }

  function InitialControl(enabled: bool, p: Policy): Control {
    Control(if enabled then Disconnected else Disabled, false, None, 0, Initial(p))
  }

  // ---------------------------------------------------------------- what the operations keep

  datatype Call =
    | TransitionCall(target: CameraState, cause: Option<Error>)
    | FailureCall(error: Error)
    | RetryReadyCall
    | StopCall(remainEnabled: bool)
    | FaultResetCall

  function After(c: Control, call: Call): (r: (Control, bool))
    requires c.reconnect.WellFormed()
    ensures r.0.reconnect.WellFormed()
  {
    match call
    case TransitionCall(target, cause) => Transition(c, target, cause)
    case FailureCall(e) => FailureOf(c, e)
    case RetryReadyCall => RetryReady(c)
    case StopCall(remainEnabled) => StopRequest(c, remainEnabled)
    case FaultResetCall => FaultReset(c)
  }

  /**
   Whatever is called: the state only moves along the relation, a refused call moves nothing but the
   sequence number, and the state is new exactly when the call was accepted, except for a stop that
   finds the session already where it should be.
   */
  lemma CallsMoveAlongTheRelation(c: Control, call: Call)
    requires c.reconnect.WellFormed()
    ensures var (r, accepted) := After(c, call);
            && (r.state != c.state ==> accepted && Allowed(c.state, r.state))
            && (r.state == c.state ==> !accepted || call.StopCall?)
            && (!accepted ==> r == c.(sequence := r.sequence))
            && c.sequence <= r.sequence <= c.sequence + 1
            && (call.TransitionCall? || call.FailureCall? || call.FaultResetCall? ==> r.sequence == c.sequence + 1)
            && (call.StopCall? || call.RetryReadyCall? ==> (r.sequence == c.sequence + 1 <==> r.state != c.state))
  {
    hide Schedule, Cancel, Reset, ReconnectState.WellFormed;
    ScheduleKeepsRoom(c.reconnect);
  }

  /** Where each state can be entered from; a fault and the disabled state are left by their own calls only. */
  lemma EnteredOnlyFrom(c: Control, call: Call)
    requires c.reconnect.WellFormed()
    ensures var r := After(c, call).0;
            r.state != c.state ==>
              match r.state
              case Connecting => c.state.Disconnected? || c.state.Recovering?
              case Connected => c.state.Connecting?
              case Starting => c.state.Connected?
              case Streaming => c.state.Starting?
              case Recovering =>
                c.state.Connecting? || c.state.Connected? || c.state.Starting? || c.state.Streaming?
              case Faulted => !c.state.Disabled? && !c.state.Disconnected?
              case _ => true
    ensures c.state.Faulted? || c.state.Disabled? ==>
              var state := After(c, call).0.state;
              state == c.state || state.Disconnected? || state.Disabled?
  {
    hide Schedule, Cancel, Reset, ReconnectState.WellFormed;
    ScheduleKeepsRoom(c.reconnect);
  }

  /**
   A failure while the session connects or streams leads to a retry exactly when it is worth one, no
   stop was requested and a retry is left; a fault for want of retries is no longer worth one.
   */
  lemma FailureLeadsTo(c: Control, e: Error)
    requires c.reconnect.WellFormed() && c.reconnect.next.None?
    requires c.state.Connecting? || c.state.Connected? || c.state.Starting? || c.state.Streaming?
    ensures var (r, accepted) := FailureOf(c, e);
            var left := c.reconnect.attempts < c.reconnect.policy.maximum;
            && accepted
            && if e.retryable && !c.stopRequested && left then
                 && r.state.Recovering? && r.lastError == Some(e)
                 && r.reconnect.attempts == c.reconnect.attempts + 1
                 && var delays := c.reconnect.policy.delays;
                    r.reconnect.next
                    == Some(delays[if c.reconnect.attempts < |delays| then c.reconnect.attempts else |delays| - 1])
               else
                 && r.state.Faulted? && r.reconnect == c.reconnect
                 && r.lastError == Some(if c.stopRequested then e else e.(retryable := false))
  {
  }

  /** After a stop request no waiter gets its retry, however long it has waited, and no retry is armed. */
  lemma StopEndsWaiting(c: Control, remainEnabled: bool, t: Ticket, elapsed: bool)
    requires c.reconnect.WellFormed() && t.generation <= c.reconnect.generation
    ensures var r := StopRequest(c, remainEnabled).0;
            && r.reconnect.next.None? && Complete(r.reconnect, t, elapsed).1 == Cancelled
            && (!c.state.Disabled? ==> r.stopRequested)
            && r.state == if remainEnabled then Disconnected else Disabled
  {
  }

  /** Entering the stream and resetting a fault both give the session all its retries back. */
  lemma FreshRetries(c: Control)
    requires c.reconnect.WellFormed()
    ensures c.state.Starting? ==>
              var r := Transition(c, Streaming, None).0;
              r.state.Streaming? && r.reconnect.attempts == 0 && r.lastError.None? && !r.stopRequested
    ensures c.state.Faulted? ==>
              var r := FaultReset(c).0;
              r.state.Disconnected? && r.reconnect.attempts == 0 && r.lastError.None? && !r.stopRequested
    ensures c.state.Disabled? ==>
              var r := Transition(c, Disconnected, None).0;
              r.state.Disconnected? && r.reconnect.attempts == 0 && r.lastError.None? && !r.stopRequested
    ensures !c.state.Faulted? ==> FaultReset(c) == (c.(sequence := c.sequence + 1), false)
  {
  }

  lemma ScheduleKeepsRoom(r: ReconnectState)
    requires r.WellFormed()
    ensures Schedule(r).next.Some? <==> r.next.Some? || r.attempts < r.policy.maximum
    ensures Schedule(r).next.None? ==> Schedule(r) == r
  {
  }

  class CameraSessionController {
    const reconnect: ReconnectController
    var state: CameraState
    var lastError: Option<Error>
    var stopRequested: bool
    var transitionSequence: nat

    ghost function Value(): Control
      reads this, reconnect
    {
      Control(state, stopRequested, lastError, transitionSequence, reconnect.State())
    }

    ghost predicate Valid()
      reads this, reconnect
    {
      reconnect.Valid()
    }

    constructor (enabled: bool, policy: Policy)
      requires ValidPolicy(policy)
      ensures Valid() && fresh(reconnect) && Value() == InitialControl(enabled, policy)
    {
      reconnect := new ReconnectController(policy);
      state := if enabled then Disconnected else Disabled;
      lastError, stopRequested, transitionSequence := None, false, 0;
    }

    method ApplyTransition(target: CameraState, cause: Option<Error>) returns (accepted: bool)
      requires Valid()
      modifies this, reconnect
      ensures Valid() && (Value(), accepted) == Transition(old(Value()), target, cause)
    {
      hide ReconnectState.WellFormed, Cancel, Reset;
      var previous := state;
      transitionSequence := transitionSequence + 1;
      if !Allowed(previous, target) {
        return false;
      }
      state := target;
      if cause.Some? {
        lastError := cause;
      }
      if target == Streaming {
        reconnect.ResetAttempts();
        stopRequested := false;
        lastError := None;
      } else if target == Disconnected && (previous == Faulted || previous == Disabled) {
        reconnect.ResetAttempts();
        lastError := None;
        if previous == Disabled {
          stopRequested := false;
        }
      } else if target == Disabled || target == Disconnected {
        reconnect.CancelWait();
      } else if target == Connecting {
        stopRequested := false;
      }
      return true;
    }

    method TransitionTo(target: CameraState, cause: Option<Error>) returns (accepted: bool)
      requires Valid()
      modifies this, reconnect
      ensures Valid() && (Value(), accepted) == Transition(old(Value()), target, cause)
    {
      accepted := ApplyTransition(target, cause);
    }

    method HandleFailure(error: Error) returns (accepted: bool)
      requires Valid()
      modifies this, reconnect
      ensures Valid() && (Value(), accepted) == FailureOf(old(Value()), error)
    {
      hide Transition, ReconnectState.WellFormed, Schedule;
      var target, cause := Faulted, error;
      if error.retryable && !stopRequested {
        if !Allowed(state, Recovering) {
          accepted := ApplyTransition(Recovering, Some(error));
          return;
        }
        var delay := reconnect.ScheduleNext();
        if delay.Some? {
          target := Recovering;
        } else {
          cause := error.(retryable := false);
        }
      }
      AllowedIsAccepted(Value(), target, Some(cause));
      accepted := ApplyTransition(target, Some(cause));
      // so there is never an armed retry to cancel
      assert target == Recovering ==> accepted;
    }

    /** What follows the wait of the reconnect schedule when it was ready. */
    method RetryTransition() returns (ready: bool)
      requires Valid()
      modifies this, reconnect
      ensures Valid() && (Value(), ready) == RetryReady(old(Value()))
    {
      hide Transition, ReconnectState.WellFormed;
      if stopRequested || state != Recovering {
        return false;
      }
      ready := ApplyTransition(Connecting, None);
    }

    method RequestStop(remainEnabled: bool) returns (accepted: bool)
      requires Valid()
      modifies this, reconnect
      ensures Valid() && (Value(), accepted) == StopRequest(old(Value()), remainEnabled)
    {
      hide Transition, ReconnectState.WellFormed;
      stopRequested := true;
      reconnect.CancelWait();
      var target := if remainEnabled then Disconnected else Disabled;
      if state == target {
        return true;
      }
      accepted := ApplyTransition(target, None);
    }

    method ResetFault() returns (accepted: bool)
      requires Valid()
      modifies this, reconnect
      ensures Valid() && (Value(), accepted) == FaultReset(old(Value()))
    {
      hide Transition, ReconnectState.WellFormed;
      if state != Faulted {
        accepted := ApplyTransition(state, None);
      } else {
        stopRequested := false;
        accepted := ApplyTransition(Disconnected, None);
      }
    }
  }

  lemma AllowedIsAccepted(c: Control, target: CameraState, cause: Option<Error>)
    requires c.reconnect.WellFormed()
    ensures Transition(c, target, cause).1 <==> Allowed(c.state, target)
  {
  }
}
