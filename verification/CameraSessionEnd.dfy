/**
 How a camera session can end: the states a finished session is in, told by what ended it.
 */
module CameraSessionEnd {
  import opened Wrappers
  import Reconnect
  import opened SessionControl
  import opened CameraSession

  /** A retry is armed; unless the stop token was set, nobody has stopped the source a waiter would wait on. */
  predicate Armed(s: Session) {
    var r := s.control.reconnect;
    && s.control.state.Recovering? && r.next.Some?
    && (r.source in r.stopped ==> s.token)
  }

  /** The state of a finished session that no stop request has reached, by what ended it. */
  predicate EndsIn(s: Session, ending: Ending) {
    var r := s.control.reconnect;
    match ending
    case Refused => false
    case AtHead => s.control.state.Connecting? && r.next.None? && s.token
    case StreamEnded => s.control.state.Streaming? && r.next.None?
    case GaveUp => s.control.state.Faulted? && r.next.None?
    case WaitEnded(elapsed) => Armed(s) && (elapsed ==> s.token)
    case Thrown => Armed(s) || (s.control.state.Faulted? && r.next.None? && r.attempts == r.policy.maximum)
  }

  /** Where the controller is at each step of a session that no stop request has reached. */
  predicate OnTrack(s: Session) {
    var state, r := s.control.state, s.control.reconnect;
    && (!s.pc.SessionStart? ==> !s.control.stopRequested)
    && (forall x | x in r.stopped :: x <= r.source)
    && match s.pc
       case SessionStart => state.Disconnected? && r.next.None?
       case LoopHead => state.Connecting? && r.next.None?
       case CreateDevice => state.Connecting? && r.next.None?
       case Connect => state.Connecting? && r.next.None?
       case EnterConnected => state.Connecting? && r.next.None?
       case EnterStarting => state.Connected? && r.next.None?
       case StartStream => state.Starting? && r.next.None?
       case EnterStreaming => state.Starting? && r.next.None?
       case Capture => state.Streaming? && r.next.None?
       case Recover(_) => (state.Connecting? || state.Starting? || state.Streaming?) && r.next.None?
       case Escaped => (state.Connecting? || state.Starting? || state.Streaming?) && r.next.None?
       case CheckRecovering => Armed(s) || (state.Faulted? && r.next.None?)
       case BeginWait => Armed(s)
       case Waiting(t) => Armed(s) && Reconnect.TicketFor(r) == Some(t)
       case Retry => state.Recovering? && r.next.None?
       case Finish => s.ending.Some? && EndsIn(s, s.ending.value)
       case Done => s.ending.Some? && EndsIn(s, s.ending.value)
  }

  ghost predicate Placed(s: Session) {
    s.WellFormed() && (Stopped(s) || OnTrack(s))
  }

  lemma BeginIsPlaced(p: Reconnect.Policy)
    requires Reconnect.ValidPolicy(p)
    ensures Placed(Begin(p))
  {}

  lemma CallIsPlaced(s: Session, choice: Choice)
    requires s.WellFormed() && OnTrack(s)
    requires s.pc.LoopHead? || s.pc.CreateDevice? || s.pc.Connect? || s.pc.StartStream? || s.pc.Capture? || s.pc.Finish?
    ensures OnTrack(RunOneStep(s, choice))
  {
    hide Transition, FailureOf, RetryReady, Reconnect.Complete;
  }

  lemma TransitionIsPlaced(s: Session, choice: Choice)
    requires s.WellFormed() && OnTrack(s)
    requires s.pc.SessionStart? || s.pc.EnterConnected? || s.pc.EnterStarting? || s.pc.EnterStreaming?
    ensures OnTrack(RunOneStep(s, choice))
  {
    hide FailureOf, RetryReady, Reconnect.Complete, Reconnect.Schedule, Reconnect.Cancel;
  }

  lemma FailureIsPlaced(s: Session, choice: Choice)
    requires s.WellFormed() && OnTrack(s) && (s.pc.Recover? || s.pc.Escaped?)
    ensures OnTrack(RunOneStep(s, choice))
  {
    hide RetryReady, Reconnect.Complete, Reconnect.Reset, Reconnect.Cancel;
  }

  lemma WaitIsPlaced(s: Session, choice: Choice)
    requires s.WellFormed() && OnTrack(s)
    requires s.pc.CheckRecovering? || s.pc.BeginWait? || s.pc.Waiting? || s.pc.Retry?
    ensures OnTrack(RunOneStep(s, choice))
  {
    hide FailureOf, Reconnect.Schedule, Reconnect.Reset, Reconnect.Cancel;
  }

  lemma ThreadStepIsPlaced(s: Session, choice: Choice)
    requires Placed(s) && !s.pc.Done?
    ensures Placed(RunOneStep(s, choice))
  {
    hide RunOneStep, OnTrack;
    if Stopped(s) {
      StepOfThread(s, choice);
      StepKeepsStopped(s, RunStep(choice));
    } else {
      match s.pc
      case SessionStart => TransitionIsPlaced(s, choice);
      case EnterConnected => TransitionIsPlaced(s, choice);
      case EnterStarting => TransitionIsPlaced(s, choice);
      case EnterStreaming => TransitionIsPlaced(s, choice);
      case Recover(_) => FailureIsPlaced(s, choice);
      case Escaped => FailureIsPlaced(s, choice);
      case CheckRecovering => WaitIsPlaced(s, choice);
      case BeginWait => WaitIsPlaced(s, choice);
      case Waiting(_) => WaitIsPlaced(s, choice);
      case Retry => WaitIsPlaced(s, choice);
      case _ => CallIsPlaced(s, choice);
    }
  }

  lemma OtherStepIsPlaced(s: Session, a: Action)
    requires Placed(s) && Possible(s, a) && !a.RunStep? && !s.control.state.Disabled?
    ensures Placed(Step(s, a))
  {
  }

  lemma {:induction false} RunIsPlaced(s: Session, actions: seq<Action>)
    requires Placed(s) && Sound(s) && PossibleRun(s, actions)
    ensures Placed(Run(s, actions))
    decreases |actions|
  {
    hide Step, Placed, Sound, RunOneStep;
    if actions != [] {
      var a := actions[0];
      SoundMeans(s);
      if a.RunStep? {
        StepOfThread(s, a.choice);
        RunStepIsSound(s, a.choice);
        ThreadStepIsPlaced(s, a.choice);
      } else {
        StopStepIsSound(s, a);
        OtherStepIsPlaced(s, a);
      }
      RunIsPlaced(Step(s, a), actions[1..]);
    }
  }

  lemma SoundMeans(s: Session)
    requires Sound(s)
    ensures s.WellFormed() && !s.control.state.Disabled? && (Stopped(s) ==> s.token)
  {}

  /**
   However the session is interleaved with stops, once it is finished it is `Disconnected` by a stop
   request, or in the state that belongs to its ending.
   */
  lemma EndStates(p: Reconnect.Policy, actions: seq<Action>)
    requires Reconnect.ValidPolicy(p) && PossibleRun(Begin(p), actions) && Run(Begin(p), actions).pc.Done?
    ensures var r := Run(Begin(p), actions);
            Stopped(r) || (r.ending.Some? && EndsIn(r, r.ending.value))
  {
    hide Run, PossibleRun, Stopped, EndsIn, Sound;
    BeginIsSound(p);
    BeginIsPlaced(p);
    RunIsPlaced(Begin(p), actions);
  }

  lemma TokenEndsConnecting(s: Session, choice: Choice)
    requires s.WellFormed() && !s.pc.Done? && s.token
    ensures RunOneStep(s, choice).attempts == s.attempts && RunOneStep(s, choice).token
  {
    hide Transition, FailureOf, RetryReady, Reconnect.Complete;
  }

  /**
   Once the token is set no further connection is tried, and the thread is finished after at most as
   many of its own steps as the rank of the step it is at, which is 15 or less.
   */
  lemma {:induction false} TokenEndsThread(s: Session, actions: seq<Action>)
    requires s.WellFormed() && s.token && PossibleRun(s, actions)
    ensures var r := Run(s, actions);
            && r.attempts == s.attempts && r.token
            && ThreadSteps(actions) + Rank(r.pc) <= Rank(s.pc) <= 15
    decreases |actions|
  {
    hide Step, RunOneStep;
    if actions != [] {
      var a := actions[0];
      if a.RunStep? {
        StepOfThread(s, a.choice);
        ThreadStepMakesProgress(s, a.choice);
        TokenEndsConnecting(s, a.choice);
      } else {
        OtherStepsStandStill(s, a);
        StepKeepsMaximum(s, a);
      }
      TokenEndsThread(Step(s, a), actions[1..]);
    }
  }

  /** Nobody stops the session or closes its ring, and every wait runs its time. */
  predicate Undisturbed(a: Action) {
    a.RunStep? && a.choice.elapsed
  }

  lemma {:induction false} UndisturbedRun(s: Session, actions: seq<Action>)
    requires s.WellFormed() && PossibleRun(s, actions) && (forall a | a in actions :: Undisturbed(a))
    requires !s.token && (s.ringClosed ==> s.pc.Done?)
    requires s.ending.Some? ==> s.ending.value != StreamEnded && s.ending.value != WaitEnded(false)
    ensures var r := Run(s, actions);
            && !r.token
            && (r.ending.Some? ==> r.ending.value != StreamEnded && r.ending.value != WaitEnded(false))
    decreases |actions|
  {
    if actions != [] {
      assert Undisturbed(actions[0]);
      UndisturbedStep(s, actions[0].choice);
      StepOfThread(s, actions[0].choice);
      UndisturbedRun(Step(s, actions[0]), actions[1..]);
    }
  }

  lemma UndisturbedStep(s: Session, choice: Choice)
    requires s.WellFormed() && !s.pc.Done? && choice.elapsed && !s.token && !s.ringClosed
    requires s.ending.Some? ==> s.ending.value != StreamEnded && s.ending.value != WaitEnded(false)
    ensures var r := RunOneStep(s, choice);
            && !r.token && (r.ringClosed ==> r.pc.Done?)
            && (r.ending.Some? ==> r.ending.value != StreamEnded && r.ending.value != WaitEnded(false))
  {
    hide Transition, FailureOf, RetryReady, Reconnect.Complete;
  }

  /**
   Left alone, a session ends faulted, unless an exception ended it: then it may stay `Recovering`, with a
   retry armed that no thread waits for.
   */
  lemma LeftAloneEndsFaulted(p: Reconnect.Policy, actions: seq<Action>)
    requires Reconnect.ValidPolicy(p) && PossibleRun(Begin(p), actions) && Run(Begin(p), actions).pc.Done?
    requires forall a | a in actions :: Undisturbed(a)
    ensures var r := Run(Begin(p), actions);
            && r.ending.Some? && (r.ending.value == GaveUp || r.ending.value == Thrown)
            && (r.control.state.Faulted? || (r.ending.value == Thrown && Armed(r)))
  {
    hide Run, PossibleRun, Sound;
    BeginIsSound(p);
    EndStates(p, actions);
    UndisturbedRun(Begin(p), actions);
    RunStaysInBudget(Begin(p), actions);
    SoundMeans(Run(Begin(p), actions));
  }

  /**
   A camera call that throws, with nobody stopping the session: three steps later the thread is gone and
   the session is left `Recovering` if a retry was left, and otherwise `Faulted`.
   */
  lemma ExceptionEndsSession(s: Session, thrown: Choice, next: Choice, last: Choice)
    requires s.WellFormed() && OnTrack(s) && thrown.throws
    requires s.pc.CreateDevice? || s.pc.Connect? || s.pc.StartStream? || s.pc.Capture?
    ensures var r := RunOneStep(RunOneStep(RunOneStep(s, thrown), next), last);
            && r.pc.Done? && r.ending == Some(Thrown)
            && (r.control.state.Recovering? <==> Retries(s) < Maximum(s))
            && (r.control.state.Faulted? <==> Retries(s) == Maximum(s))
            && (r.control.state.Recovering? ==> Armed(r) && Retries(r) == Retries(s) + 1)
  {
    hide RetryReady, Reconnect.Complete, Reconnect.Reset, Reconnect.Cancel;
  }
}
