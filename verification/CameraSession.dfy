/**
 One recovering camera session: the thread that connects, streams and recovers, step by step, racing
 with threads that stop it. What the camera does in a step is a choice nobody controls.
 */
module CameraSession {
  import opened Wrappers
  import opened Reconnect
  import opened SessionControl

  /** The next thing the session thread does; each is one step, because each takes a lock at most once. */
  datatype Pc =
    | SessionStart
    | LoopHead
    | CreateDevice
    | Connect
    | EnterConnected
    | EnterStarting
    | StartStream
    | EnterStreaming
    | Capture
    | Recover(error: Error)
    | CheckRecovering
    | BeginWait
    | Waiting(ticket: Ticket)
    | Retry
    | Escaped
    | Finish
    | Done

  /**
   Why the thread finished: a transition was refused, the token was seen between two connections, the
   stream was ended from outside, a failure was not recovered from, a wait did not lead to a retry
   (`elapsed`: although it ran its time), or an exception ended the loop.
   */
  datatype Ending = Refused | AtHead | StreamEnded | GaveUp | WaitEnded(elapsed: bool) | Thrown

  /** `attempts`: connections tried; `streams`: how often streaming was entered. */
  datatype Session = Session(
    pc: Pc, control: Control, token: bool, ringClosed: bool, attempts: nat, streams: nat, ending: Option<Ending>)
  {
    predicate WellFormed() { control.reconnect.WellFormed() }
  }

  /**
   What the camera answers in a step, with which error, whether it throws instead, and whether a wait
   ran its time.
   */
  datatype Choice = Choice(ok: bool, error: Error, throws: bool, elapsed: bool)

  /** A stop request first sets the token, then closes the ring, then tells the controller. */
  datatype Action = RunStep(choice: Choice) | TokenStop | CloseRing | ControllerStop

  function Begin(p: Policy): Session {
    Session(SessionStart, InitialControl(true, p), false, false, 0, 0, None)
  }

  predicate Possible(s: Session, a: Action) {
    match a
    case RunStep(_) => !s.pc.Done?
    case ControllerStop => s.token
    case _ => true
  }

  function Finishing(s: Session, ending: Ending): Session {
    s.(pc := Finish, ending := Some(ending))
  }

  /**
   A transition of the controller. When it is refused, the device that is open by then is closed, which
   may throw, and the thread finishes.
   */
  function Entering(s: Session, target: CameraState, next: Pc, throws: bool): (r: Session)
    requires s.WellFormed()
    ensures r.WellFormed()
  {
    var (c, accepted) := Transition(s.control, target, None);
    var moved := s.(control := c);
    if accepted then moved.(pc := next)
    else if throws then moved.(pc := Escaped)
    else Finishing(moved, Refused)
  }

  /** A call of the camera. */
  function Calling(s: Session, choice: Choice, next: Pc): Session {
    if choice.throws then s.(pc := Escaped)
    else if choice.ok then s.(pc := next)
    else s.(pc := Recover(choice.error))
  }

  function RunOneStep(s: Session, choice: Choice): (r: Session)
    requires s.WellFormed() && !s.pc.Done?
    ensures r.WellFormed()
  {
    match s.pc
    case SessionStart => Entering(s, Connecting, LoopHead, false)
    case LoopHead =>
      if s.token then Finishing(s, AtHead) else s.(attempts := s.attempts + 1, pc := CreateDevice)
    case CreateDevice => Calling(s, choice, Connect)
    case Connect => Calling(s, choice, EnterConnected)
    case EnterConnected => Entering(s, Connected, EnterStarting, choice.throws)
    case EnterStarting => Entering(s, Starting, StartStream, choice.throws)
    case StartStream => Calling(s, choice, EnterStreaming)
    case EnterStreaming =>
      var r := Entering(s, Streaming, Capture, choice.throws);
      if r.pc.Capture? then r.(streams := s.streams + 1) else r
    case Capture =>
      if choice.throws then s.(pc := Escaped)
      else if s.token || s.ringClosed then Finishing(s, StreamEnded)
      else s.(pc := Recover(choice.error))
    case Recover(e) =>
      var (c, accepted) := FailureOf(s.control, e);
      var moved := s.(control := c);
      if accepted then moved.(pc := CheckRecovering) else Finishing(moved, GaveUp)
    case CheckRecovering => if s.control.state.Recovering? then s.(pc := BeginWait) else Finishing(s, GaveUp)
    case BeginWait =>
      var ticket := TicketFor(s.control.reconnect);
      if ticket.None? then Finishing(s, WaitEnded(true))
      else
        var waiting := s.(pc := Waiting(ticket.value));
        if s.token then Interrupted(waiting) else waiting
    case Waiting(ticket) =>
      var (r, result) := Complete(s.control.reconnect, ticket, choice.elapsed);
      var moved := s.(control := s.control.(reconnect := r));
      if result.Ready? then moved.(pc := Retry) else Finishing(moved, WaitEnded(choice.elapsed))
    case Retry =>
      var (c, ready) := RetryReady(s.control);
      var moved := s.(control := c);
      if ready then moved.(pc := LoopHead) else Finishing(moved, WaitEnded(true))
    case Escaped => Finishing(s.(control := FailureOf(s.control, choice.error.(retryable := true)).0), Thrown)
    case Finish => s.(ringClosed := true, pc := Done)
  }

  /** The stop token reaches a thread that waits. */
  function Interrupted(s: Session): (r: Session)
    requires s.WellFormed()
    ensures r.WellFormed()
  {
    if s.pc.Waiting? then
      s.(control := s.control.(reconnect := Interrupt(s.control.reconnect, s.pc.ticket.source)))
    else s
  }

  function Step(s: Session, a: Action): (r: Session)
    requires s.WellFormed() && Possible(s, a)
    ensures r.WellFormed()
  {
    match a
    case RunStep(choice) => RunOneStep(s, choice)
    case TokenStop => Interrupted(s.(token := true))
    case CloseRing => s.(ringClosed := true)
    case ControllerStop => s.(control := StopRequest(s.control, true).0)
  }

  predicate PossibleRun(s: Session, actions: seq<Action>)
    requires s.WellFormed()
    decreases |actions|
  {
    actions == [] || (Possible(s, actions[0]) && PossibleRun(Step(s, actions[0]), actions[1..]))
  }

  function Run(s: Session, actions: seq<Action>): (r: Session)
    requires s.WellFormed() && PossibleRun(s, actions)
    ensures r.WellFormed()
    decreases |actions|
  {
    if actions == [] then s else Run(Step(s, actions[0]), actions[1..])
  }

  // ---------------------------------------------------------------- stop wins

  /** The stop request was served after the session had taken its first transition. */
  predicate Stopped(s: Session) {
    !s.pc.SessionStart? && s.control.state.Disconnected? && s.control.stopRequested
  }

  lemma StepKeepsStopped(s: Session, a: Action)
    requires s.WellFormed() && Possible(s, a) && Stopped(s)
    ensures Stopped(Step(s, a))
  {
    hide ReconnectState.WellFormed, Schedule, Cancel, Reset, Complete;
  }

  /** Nothing the session thread does after that, in any interleaving, leaves `Disconnected`. */
  lemma {:induction false} StopWins(s: Session, actions: seq<Action>)
    requires s.WellFormed() && PossibleRun(s, actions) && Stopped(s)
    ensures Stopped(Run(s, actions))
    decreases |actions|
  {
    if actions != [] {
      StepKeepsStopped(s, actions[0]);
      StopWins(Step(s, actions[0]), actions[1..]);
    }
  }

  lemma ServingStops(s: Session)
    requires s.WellFormed() && s.token && !s.pc.SessionStart? && !s.control.state.Disabled?
    ensures Stopped(Step(s, ControllerStop))
  {
  }

  /** A stop that was served before the first transition is overwritten by it: the session ends `Connecting`. */
  predicate Overwritten(s: Session) {
    && s.token
    && (s.pc.SessionStart? ==> s.control.state.Disconnected?)
    && (!s.pc.SessionStart? ==>
          (s.pc.LoopHead? || s.pc.Finish? || s.pc.Done?) && s.control.state.Connecting? && !s.control.stopRequested)
  }

  lemma {:induction false} EarlyStopIsOverwritten(s: Session, actions: seq<Action>)
    requires s.WellFormed() && PossibleRun(s, actions) && Overwritten(s) && ControllerStop !in actions
    ensures Overwritten(Run(s, actions))
    decreases |actions|
  {
    if actions != [] {
      EarlyStopIsOverwritten(Step(s, actions[0]), actions[1..]);
    }
  }

  // ---------------------------------------------------------------- what every run keeps

  function Maximum(s: Session): nat { s.control.reconnect.policy.maximum }

  function Retries(s: Session): nat { s.control.reconnect.attempts }

  /** The retries that so many starts of the counter allow. */
  function Granted(maximum: nat, starts: nat): nat {
    maximum * starts
  }

  /** How many connections may be tried before the session has entered streaming once more. */
  function Budget(maximum: nat, streams: nat): nat {
    1 + Granted(maximum, streams + 1)
  }

  /** The connections tried are paid for by the streaming entries and by the retries armed since the last one. */
  ghost predicate Paid(s: Session, extra: nat) {
    Stopped(s) || s.attempts <= Granted(Maximum(s), s.streams) + Retries(s) + extra
  }

  ghost predicate Sound(s: Session) {
    && s.WellFormed()
    && !s.control.state.Disabled?
    && (Stopped(s) ==> s.token)
    && s.attempts <= Budget(Maximum(s), s.streams)
    && (s.control.reconnect.next.Some? ==>
          s.pc.CheckRecovering? || s.pc.BeginWait? || s.pc.Waiting? || s.pc.Finish? || s.pc.Done?)
    && match s.pc
       case SessionStart => s.attempts == 0 == s.streams && s.control.state.Disconnected?
       case LoopHead => Paid(s, 0)
       case CheckRecovering => Paid(s, if s.control.state.Recovering? then 0 else 1)
       case BeginWait => Paid(s, 0)
       case Waiting(_) => Paid(s, 0)
       case Retry => Paid(s, 0)
       case Escaped => true
       case Finish => true
       case Done => true
       case _ => Paid(s, 1)
  }

  lemma GrantedGrows(maximum: nat, starts: nat)
    ensures Granted(maximum, starts + 1) == Granted(maximum, starts) + maximum
  {
  }

  lemma EnteringIsSound(s: Session, choice: Choice)
    requires Sound(s) && (s.pc.SessionStart? || s.pc.EnterConnected? || s.pc.EnterStarting?)
    ensures Sound(RunOneStep(s, choice))
  {
    hide Cancel, Schedule, Reset, Complete, Granted;
  }

  lemma EnteringStreamIsSound(s: Session, choice: Choice)
    requires Sound(s) && s.pc.EnterStreaming?
    ensures Sound(RunOneStep(s, choice))
  {
    hide Cancel, Schedule, Complete, Granted;
    GrantedGrows(Maximum(s), s.streams);
    GrantedGrows(Maximum(s), s.streams + 1);
  }

  lemma RecoveringIsSound(s: Session, choice: Choice)
    requires Sound(s) && s.pc.Recover?
    ensures Sound(RunOneStep(s, choice))
  {
    hide Cancel, Reset, Complete, Granted;
  }

  lemma EscapingIsSound(s: Session, choice: Choice)
    requires Sound(s) && s.pc.Escaped?
    ensures Sound(RunOneStep(s, choice))
  {
    hide Cancel, Reset, Complete, Granted;
  }

  lemma WaitingIsSound(s: Session, choice: Choice)
    requires Sound(s) && (s.pc.CheckRecovering? || s.pc.BeginWait? || s.pc.Waiting? || s.pc.Retry?)
    ensures Sound(RunOneStep(s, choice))
  {
    hide Cancel, Schedule, Reset, Granted;
  }

  lemma RunStepIsSound(s: Session, choice: Choice)
    requires Sound(s) && Possible(s, RunStep(choice))
    ensures Sound(RunOneStep(s, choice))
  {
    hide Cancel, Schedule, Reset, Complete, Granted, Transition, FailureOf, RetryReady;
    match s.pc
    case LoopHead =>
      GrantedGrows(Maximum(s), s.streams);
    case CreateDevice =>
    case Connect =>
    case StartStream =>
    case Capture =>
    case Finish =>
    case Recover(_) => RecoveringIsSound(s, choice);
    case Escaped => EscapingIsSound(s, choice);
    case CheckRecovering => WaitingIsSound(s, choice);
    case BeginWait => WaitingIsSound(s, choice);
    case Waiting(_) => WaitingIsSound(s, choice);
    case Retry => WaitingIsSound(s, choice);
    case EnterStreaming => EnteringStreamIsSound(s, choice);
    case _ => EnteringIsSound(s, choice);
  }

  lemma StopStepIsSound(s: Session, a: Action)
    requires Sound(s) && Possible(s, a) && !a.RunStep?
    ensures Sound(Step(s, a))
  {
    hide Granted;
  }

  lemma BeginIsSound(p: Policy)
    requires ValidPolicy(p)
    ensures Sound(Begin(p)) && Maximum(Begin(p)) == p.maximum
  {
  }

  lemma StepKeepsMaximum(s: Session, a: Action)
    requires s.WellFormed() && Possible(s, a)
    ensures Maximum(Step(s, a)) == Maximum(s) && s.streams <= Step(s, a).streams
    ensures s.token ==> Step(s, a).token
    ensures s.pc.SessionStart? <== Step(s, a).pc.SessionStart?
  {
    hide ReconnectState.WellFormed;
  }

  /**
   The retry budget, in every run and whatever stops it: the connections tried never exceed one plus
   the maximum for the start and for each time streaming was entered.
   */
  lemma {:induction false} RunStaysInBudget(s: Session, actions: seq<Action>)
    requires Sound(s) && PossibleRun(s, actions)
    ensures var r := Run(s, actions);
            && Sound(r) && Maximum(r) == Maximum(s) && s.streams <= r.streams
            && r.attempts <= Budget(Maximum(r), r.streams)
            && (s.token ==> r.token)
    decreases |actions|
  {
    hide Step, Granted, Budget;
    if actions != [] {
      if actions[0].RunStep? {
        StepOfThread(s, actions[0].choice);
        RunStepIsSound(s, actions[0].choice);
      } else {
        StopStepIsSound(s, actions[0]);
      }
      StepKeepsMaximum(s, actions[0]);
      RunStaysInBudget(Step(s, actions[0]), actions[1..]);
    }
  }

  lemma StepOfThread(s: Session, choice: Choice)
    requires s.WellFormed() && !s.pc.Done?
    ensures Step(s, RunStep(choice)) == RunOneStep(s, choice)
  {
  }

  /**
   A stop served at `s` holds to the end of the run exactly when the session had taken its first
   transition by then.
   */
  lemma StopHoldsIffServedAfterStart(p: Policy, before: seq<Action>, rest: seq<Action>)
    requires ValidPolicy(p) && PossibleRun(Begin(p), before)
    requires var s := Run(Begin(p), before);
             && s.token && PossibleRun(Step(s, ControllerStop), rest) && ControllerStop !in rest
             && Run(Step(s, ControllerStop), rest).pc.Done?
    ensures var s := Run(Begin(p), before);
            var r := Run(Step(s, ControllerStop), rest);
            && (!s.pc.SessionStart? ==> r.control.state.Disconnected? && r.control.stopRequested)
            && (s.pc.SessionStart? ==> r.control.state.Connecting? && !r.control.stopRequested)
  {
    hide PossibleRun, Run, RunOneStep;
    var s := Run(Begin(p), before);
    BeginIsSound(p);
    RunStaysInBudget(Begin(p), before);
    if s.pc.SessionStart? {
      EarlyStopIsOverwritten(Step(s, ControllerStop), rest);
    } else {
      ServingStops(s);
      StopWins(Step(s, ControllerStop), rest);
    }
  }

  // ---------------------------------------------------------------- the session ends

  function Rank(pc: Pc): nat {
    match pc
    case CreateDevice => 15
    case Connect => 14
    case EnterConnected => 13
    case EnterStarting => 12
    case StartStream => 11
    case EnterStreaming => 10
    case Capture => 9
    case Recover(_) => 8
    case CheckRecovering => 7
    case BeginWait => 6
    case Waiting(_) => 5
    case Retry => 4
    case SessionStart => 4
    case LoopHead => 3
    case Escaped => 2
    case Finish => 1
    case Done => 0
  }

  lemma ThreadStepMakesProgress(s: Session, choice: Choice)
    requires s.WellFormed() && !s.pc.Done?
    ensures var r := RunOneStep(s, choice);
            || (r.attempts == s.attempts && Rank(r.pc) < Rank(s.pc))
            || (r.attempts == s.attempts + 1 && Rank(r.pc) < Rank(s.pc) + 13)
  {
    hide Transition, FailureOf, RetryReady, Complete, ReconnectState.WellFormed;
  }

  lemma OtherStepsStandStill(s: Session, a: Action)
    requires s.WellFormed() && Possible(s, a) && !a.RunStep?
    ensures Step(s, a).attempts == s.attempts && Step(s, a).pc == s.pc && Step(s, a).streams == s.streams
  {
  }

  function ThreadSteps(actions: seq<Action>): nat {
    if actions == [] then 0 else (if actions[0].RunStep? then 1 else 0) + ThreadSteps(actions[1..])
  }

  /**
   The session thread terminates: however it is interleaved with stops, a run that enters streaming
   `streams` times takes at most a number of steps that the retry budget fixes.
   */
  lemma {:induction false} ThreadStepsAreBounded(s: Session, actions: seq<Action>)
    requires Sound(s) && PossibleRun(s, actions)
    ensures var r := Run(s, actions);
            ThreadSteps(actions) + 16 * s.attempts + Rank(r.pc) <= 16 * r.attempts + Rank(s.pc)
    ensures Run(s, actions).attempts <= Budget(Maximum(s), Run(s, actions).streams)
    decreases |actions|
  {
    hide Step, RunOneStep, Rank, Granted, Budget;
    RunStaysInBudget(s, actions);
    if actions != [] {
      var a := actions[0];
      if a.RunStep? {
        StepOfThread(s, a.choice);
        RunStepIsSound(s, a.choice);
        ThreadStepMakesProgress(s, a.choice);
      } else {
        StopStepIsSound(s, a);
        OtherStepsStandStill(s, a);
      }
      ThreadStepsAreBounded(Step(s, a), actions[1..]);
    }
  }

  lemma SessionTerminates(p: Policy, actions: seq<Action>)
    requires ValidPolicy(p) && PossibleRun(Begin(p), actions)
    ensures ThreadSteps(actions) <= 16 * Budget(p.maximum, Run(Begin(p), actions).streams) + 4
  {
    hide Budget, Run, PossibleRun, ThreadSteps;
    BeginIsSound(p);
    ThreadStepsAreBounded(Begin(p), actions);
  }

  // ---------------------------------------------------------------- a camera that never comes back

  /** The camera only fails, each time with an error worth a retry, nothing throws, and every wait runs its time. */
  predicate KeepsFailing(a: Action) {
    a.RunStep? && a.choice.error.retryable && !a.choice.throws && a.choice.elapsed
  }

  /** Where such a session is at each step: every retry in the row was used for one more connection. */
  ghost predicate Failing(s: Session) {
    var r, k := s.control.reconnect, s.attempts;
    && s.WellFormed()
    && !s.token && (s.ringClosed ==> s.pc.Done?) && !s.control.stopRequested && s.streams == 0
    && (forall x | x in r.stopped :: x <= r.source)
    && match s.pc
       case SessionStart => k == 0 == r.attempts && r.next.None? && s.control.state.Disconnected?
       case LoopHead => k == r.attempts && r.next.None? && s.control.state.Connecting?
       case CreateDevice => k == r.attempts + 1 && r.next.None? && s.control.state.Connecting?
       case Connect => k == r.attempts + 1 && r.next.None? && s.control.state.Connecting?
       case EnterConnected => k == r.attempts + 1 && r.next.None? && s.control.state.Connecting?
       case EnterStarting => k == r.attempts + 1 && r.next.None? && s.control.state.Connected?
       case StartStream => k == r.attempts + 1 && r.next.None? && s.control.state.Starting?
       case EnterStreaming => k == r.attempts + 1 && r.next.None? && s.control.state.Starting?
       case Recover(e) =>
         k == r.attempts + 1 && r.next.None? && e.retryable
         && (s.control.state.Connecting? || s.control.state.Starting?)
       case CheckRecovering =>
         if r.next.Some? then k == r.attempts && s.control.state.Recovering? && r.source !in r.stopped
         else k == Maximum(s) + 1 && s.control.state.Faulted?
       case BeginWait => k == r.attempts && r.next.Some? && s.control.state.Recovering? && r.source !in r.stopped
       case Waiting(t) =>
         && k == r.attempts > 0 && r.next.Some? && s.control.state.Recovering? && r.source !in r.stopped
         && Some(t) == TicketFor(r) && t.delay == DelayOf(r.policy, k)
       case Retry => k == r.attempts && r.next.None? && s.control.state.Recovering?
       case Finish => k == Maximum(s) + 1 && s.control.state.Faulted?
       case Done => k == Maximum(s) + 1 && s.control.state.Faulted?
       case _ => false
  }

  lemma FailingGoesOn(s: Session, choice: Choice)
    requires Failing(s) && !s.pc.Done? && KeepsFailing(RunStep(choice))
    ensures var r := RunOneStep(s, choice);
            r.streams == 0 ==> Failing(r) && r.control.reconnect.policy == s.control.reconnect.policy
  {
    match s.pc
    case Recover(_) => FailingRecovers(s, choice);
    case _ =>
  }

  lemma FailingRecovers(s: Session, choice: Choice)
    requires Failing(s) && s.pc.Recover?
    ensures var r := RunOneStep(s, choice);
            Failing(r) && r.control.reconnect.policy == s.control.reconnect.policy
  {
  }

  lemma StreamsOnlyGrow(s: Session, actions: seq<Action>)
    requires s.WellFormed() && PossibleRun(s, actions)
    ensures s.streams <= Run(s, actions).streams
    decreases |actions|
  {
    hide Step;
    if actions != [] {
      StepKeepsMaximum(s, actions[0]);
      StreamsOnlyGrow(Step(s, actions[0]), actions[1..]);
    }
  }

  lemma {:induction false} KeepsOnFailing(s: Session, actions: seq<Action>)
    requires Failing(s) && PossibleRun(s, actions) && Run(s, actions).streams == 0
    requires forall a | a in actions :: KeepsFailing(a)
    ensures Failing(Run(s, actions)) && Run(s, actions).control.reconnect.policy == s.control.reconnect.policy
    decreases |actions|
  {
    hide Step, RunOneStep, Failing;
    assert s.WellFormed() by { FailingIsWellFormed(s); }
    if actions != [] {
      assert KeepsFailing(actions[0]);
      var choice := actions[0].choice;
      StepOfThread(s, choice);
      StreamsOnlyGrow(Step(s, actions[0]), actions[1..]);
      FailingGoesOn(s, choice);
      KeepsOnFailing(Step(s, actions[0]), actions[1..]);
    }
  }

  lemma FailingIsWellFormed(s: Session)
    requires Failing(s)
    ensures s.WellFormed()
  {
  }

  /**
   A session whose camera never comes back tries exactly one connection more than the maximum and ends
   faulted; and before the `k`-th retry it waits the `k`-th delay, or the last one.
   */
  lemma NeverComingBackEndsFaulted(p: Policy, actions: seq<Action>)
    requires ValidPolicy(p) && PossibleRun(Begin(p), actions) && Run(Begin(p), actions).streams == 0
    requires forall a | a in actions :: KeepsFailing(a)
    ensures var r := Run(Begin(p), actions);
            && (r.pc.Done? ==> r.attempts == p.maximum + 1 && r.control.state.Faulted?)
            && (r.pc.Waiting? ==>
                  && r.attempts > 0
                  && (r.attempts <= |p.delays| ==> r.pc.ticket.delay == p.delays[r.attempts - 1])
                  && (r.attempts > |p.delays| ==> r.pc.ticket.delay == p.delays[|p.delays| - 1]))
            && r.attempts <= p.maximum + 1
  {
    KeepsOnFailing(Begin(p), actions);
  }
}
