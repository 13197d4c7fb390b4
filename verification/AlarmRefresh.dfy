/**
 The alarm list the console shows. A push only says that the alarms changed; the list itself comes as
 the reply to a request, and pushes, replies, reconnects and refreshes arrive in any order.
 */
module AlarmRefresh {
  import opened Wrappers

  /** Requests are numbered in the order in which they were sent. */
  datatype Handle = Handle(id: nat, generation: nat)

  /** What became of an attempt to send; a broken write reports the lost connection before it fails. */
  datatype Sending = Sent | Refused | BrokenWrite

  /** What a reply holds, once it was read. `content` stands for the list itself. */
  datatype Reply = NoReply | BadReply | Listed(content: nat)

  datatype Overview = Overview(content: nat, generation: nat)

  /**
   `shownSince`: the request whose reply is shown; `pushedAt`: the number the next request had when the
   last alarm push of this connection arrived. The program keeps neither.
   */
  datatype StoreState = StoreState(
    connected: bool, generation: nat, request: Option<Handle>, refreshPending: bool, alarms: Option<Overview>,
    stale: bool, error: bool, nextRequest: nat, shownSince: nat, pushedAt: nat)

  datatype Event =
    | ConnectionChanged(connected: bool, generation: nat, brokenBefore: bool, sending: Sending)
    | AlarmPush(generation: nat, sending: Sending)
    | Completed(handle: Handle, reply: Reply, sending: Sending)
    | RefreshDynamic(brokenBefore: bool, sending: Sending)
    | Stop

  function Initial(): StoreState {
    StoreState(false, 0, None, false, None, true, false, 0, 0, 0)
  }

  function Lost(s: StoreState): StoreState {
    s.(connected := false, request := None, refreshPending := false, stale := true)
  }

  function Synchronize(s: StoreState, generation: nat, sending: Sending): StoreState {
    if generation != s.generation || !s.connected || s.request.Some? then s
    else match sending
      case Sent => s.(request := Some(Handle(s.nextRequest, s.generation)), nextRequest := s.nextRequest + 1)
      case Refused => s.(stale := true, error := true)
      case BrokenWrite => Lost(s).(error := true)
  }

  /** The other requests of the same round go first; one of them may already have lost the connection. */
  function SynchronizeRound(s: StoreState, generation: nat, brokenBefore: bool, sending: Sending): StoreState {
    Synchronize(if brokenBefore then Lost(s) else s, generation, sending)
  }

  function OnConnection(s: StoreState, connected: bool, generation: nat, brokenBefore: bool, sending: Sending)
    : StoreState
  {
    if !connected then Lost(s).(generation := generation)
    else if s.connected && s.generation == generation then s
    else
      SynchronizeRound(
        s.(connected := true, generation := generation, request := None, refreshPending := false, stale := true,
           error := false, pushedAt := s.nextRequest),
        generation, brokenBefore, sending)
  }

  function OnPush(s: StoreState, generation: nat, sending: Sending): StoreState {
    if generation != s.generation || !s.connected then s
    else
      var pushed := s.(pushedAt := s.nextRequest);
      if s.request.Some? then pushed.(refreshPending := true) else Synchronize(pushed, generation, sending)
  }

  predicate Current(s: StoreState, handle: Handle) {
    handle.generation == s.generation && s.connected && s.request == Some(handle)
  }

  function OnReply(s: StoreState, handle: Handle, reply: Reply, sending: Sending): StoreState {
    if !Current(s, handle) then s
    else
      var read :=
        match reply
        case Listed(content) =>
          s.(request := None, alarms := Some(Overview(content, handle.generation)), stale := false, error := false,
             shownSince := handle.id)
        case _ => s.(request := None, stale := true, error := true);
      if s.refreshPending then Synchronize(read.(refreshPending := false), handle.generation, sending) else read
  }

  function Next(s: StoreState, e: Event): StoreState {
    match e
    case ConnectionChanged(connected, generation, brokenBefore, sending) =>
      OnConnection(s, connected, generation, brokenBefore, sending)
    case AlarmPush(generation, sending) => OnPush(s, generation, sending)
    case Completed(handle, reply, sending) => OnReply(s, handle, reply, sending)
    case RefreshDynamic(brokenBefore, sending) =>
      if s.connected then SynchronizeRound(s, s.generation, brokenBefore, sending) else s
    case Stop => Lost(s)
  }

  function Run(s: StoreState, events: seq<Event>): StoreState
    decreases |events|
  {
    if events == [] then s else Run(Next(s, events[0]), events[1..])
  }

  // ---------------------------------------------------------------- no refresh is lost

  /** The list shown was asked for on this connection, after its last alarm push. */
  predicate Fresh(s: StoreState) {
    s.alarms.Some? && s.alarms.value.generation == s.generation && s.shownSince >= s.pushedAt
  }

  predicate Consistent(s: StoreState) {
    && s.pushedAt <= s.nextRequest
    && (!s.connected ==> s.request.None? && !s.refreshPending && s.stale)
    && (s.connected && s.request.None? ==> !s.refreshPending && (s.stale || Fresh(s)))
    && (s.connected && s.request.Some? ==>
          && s.request.value.generation == s.generation && s.request.value.id < s.nextRequest
          && (s.request.value.id < s.pushedAt ==> s.refreshPending))
  }

  lemma NextKeepsConsistent(s: StoreState, e: Event)
    requires Consistent(s)
    ensures Consistent(Next(s, e))
  {
  }

  /**
   Whatever arrives in whatever order: when the store is connected, waits for nothing and does not call
   the list stale, the list was asked for after the last alarm push; and while a request is under way
   that is older than the push, another one will follow it.
   */
  lemma {:induction false} NoRefreshIsLost(s: StoreState, events: seq<Event>)
    requires Consistent(s)
    ensures var r := Run(s, events);
            && Consistent(r)
            && (r.connected && r.request.None? && !r.stale ==> Fresh(r))
            && (r.connected && r.request.Some? && r.request.value.id < r.pushedAt ==> r.refreshPending)
    decreases |events|
  {
    if events != [] {
      NextKeepsConsistent(s, events[0]);
      NoRefreshIsLost(Next(s, events[0]), events[1..]);
    }
  }

  /** A push is answered at once: by a new request, by one that will follow, or by calling the list stale. */
  lemma PushIsAnswered(s: StoreState, sending: Sending)
    requires Consistent(s) && s.connected
    ensures var r := OnPush(s, s.generation, sending);
            || r.stale
            || (r.request.Some? && (r.request.value.id >= r.pushedAt || r.refreshPending))
  {
  }

  /** The reply that is waited for is shown, under its connection; it is stale only if asking again failed. */
  lemma CurrentReplyIsShown(s: StoreState, handle: Handle, content: nat, sending: Sending)
    requires Current(s, handle)
    ensures var r := OnReply(s, handle, Listed(content), sending);
            && r.alarms == Some(Overview(content, s.generation)) && r.shownSince == handle.id
            && (r.stale ==> s.refreshPending && !sending.Sent?)
            && (s.refreshPending && sending.Sent? ==> r.request == Some(Handle(s.nextRequest, s.generation)))
  {
  }

  /**
   Asking is not left out: a connected store that waits for nothing asks when a push of its connection
   or a refresh comes, and any store when it is newly connected, provided that the request can be sent.
   Only the new connection makes the list stale.
   */
  lemma AsksWhenIdle(s: StoreState, generation: nat)
    requires Consistent(s)
    ensures var asked := Some(Handle(s.nextRequest, s.generation));
            s.connected && s.request.None? ==>
              && Next(s, AlarmPush(s.generation, Sent)).request == asked
              && Next(s, AlarmPush(s.generation, Sent)).stale == s.stale
              && Next(s, RefreshDynamic(false, Sent)).request == asked
              && Next(s, RefreshDynamic(false, Sent)).stale == s.stale
    ensures var r := Next(s, ConnectionChanged(true, generation, false, Sent));
            !s.connected || s.generation != generation ==>
              && r.connected && r.generation == generation && r.stale && !r.error
              && r.request == Some(Handle(s.nextRequest, generation)) && r.alarms == s.alarms
  {
  }

  /**
   Replies settle the store: when the request under way is answered with a list, the store is idle and
   shows that list as a fresh one, or it asks once more, and then the answer to that is shown.
   */
  lemma TwoRepliesSettle(s: StoreState, first: nat, second: nat)
    requires Consistent(s) && s.connected && s.request.Some?
    ensures var r := OnReply(s, s.request.value, Listed(first), Sent);
            if r.request.None? then Settled(r, first)
            else s.refreshPending && Settled(OnReply(r, r.request.value, Listed(second), Sent), second)
  {
  }

  /** A reply that is no list ends its request, and what is shown stays and is stale. */
  lemma BadReplyIsStale(s: StoreState, handle: Handle, reply: Reply, sending: Sending)
    requires Consistent(s) && Current(s, handle) && !reply.Listed?
    ensures var r := OnReply(s, handle, reply, sending);
            r.stale && r.error && r.alarms == s.alarms && r.request != Some(handle)
  {
  }

  predicate Settled(s: StoreState, content: nat) {
    && s.connected && s.request.None? && !s.refreshPending && !s.stale && !s.error && Fresh(s)
    && s.alarms == Some(Overview(content, s.generation))
  }

  /**
   A reply to a request that was superseded, or given up with its connection, changes nothing however
   late it comes, whichever generation numbers the connections carry.
   */
  lemma {:induction false} OldRepliesChangeNothing(
    s: StoreState, events: seq<Event>, earlier: Handle, reply: Reply, sending: Sending)
    requires Consistent(s) && earlier.id < s.nextRequest && (s.request.Some? ==> s.request.value.id > earlier.id)
    ensures OnReply(Run(s, events), earlier, reply, sending) == Run(s, events)
    decreases |events|
  {
    RequestsAreNewer(s, events, earlier.id + 1);
  }

  lemma {:induction false} RequestsAreNewer(s: StoreState, events: seq<Event>, bound: nat)
    requires Consistent(s) && bound <= s.nextRequest && (s.request.Some? ==> s.request.value.id >= bound)
    ensures Run(s, events).request.Some? ==> Run(s, events).request.value.id >= bound
    decreases |events|
  {
    if events != [] {
      NextKeepsConsistent(s, events[0]);
      RequestsAreNewer(Next(s, events[0]), events[1..], bound);
    }
  }

  // ---------------------------------------------------------------- the store

  class ClientStateStore {
    var connected: bool
    var generation: nat
    var alarmsRequest: Option<Handle>
    var alarmPushRefreshPending: bool
    var alarms: Option<Overview>
    var alarmsStale: bool
    var alarmsError: bool
    var nextRequest: nat
    ghost var shownSince: nat
    ghost var pushedAt: nat

    ghost function State(): StoreState
      reads this
    {
      StoreState(connected, generation, alarmsRequest, alarmPushRefreshPending, alarms, alarmsStale, alarmsError,
                 nextRequest, shownSince, pushedAt)
    }

    constructor ()
      ensures State() == Initial() && Consistent(State())
    {
      connected, generation, alarmsRequest, alarmPushRefreshPending := false, 0, None, false;
      alarms, alarmsStale, alarmsError, nextRequest, shownSince, pushedAt := None, true, false, 0, 0, 0;
    }

    method ConnectionLost()
      modifies this
      ensures State() == Lost(old(State()))
    {
      connected := false;
      alarmsStale := true;
      alarmsRequest := None;
      alarmPushRefreshPending := false;
    }

    method SynchronizeAlarms(generation: nat, sending: Sending)
      modifies this
      ensures State() == Synchronize(old(State()), generation, sending)
    {
      if generation != this.generation || !connected || alarmsRequest.Some? {
        return;
      }
      match sending
      case Sent =>
        alarmsRequest := Some(Handle(nextRequest, this.generation));
        nextRequest := nextRequest + 1;
      case Refused =>
        alarmsError := true;
        alarmsStale := true;
      case BrokenWrite =>
        ConnectionLost();
        alarmsError := true;
        alarmsStale := true;
    }

    method ConnectionChanged(connected: bool, generation: nat, brokenBefore: bool, sending: Sending)
      modifies this
      ensures State() == OnConnection(old(State()), connected, generation, brokenBefore, sending)
    {
      var newConnection := connected && (!this.connected || this.generation != generation);
      this.connected, this.generation := connected, generation;
      if !connected {
        alarmsStale := true;
        alarmsRequest := None;
        alarmPushRefreshPending := false;
        return;
      }
      if !newConnection {
        return;
      }
      alarmsStale := true;
      alarmsError := false;
      alarmsRequest := None;
      alarmPushRefreshPending := false;
      pushedAt := nextRequest;
      if brokenBefore {
        ConnectionLost();
      }
      SynchronizeAlarms(generation, sending);
    }

    method AlarmPushReceived(generation: nat, sending: Sending)
      modifies this
      ensures State() == OnPush(old(State()), generation, sending)
    {
      if generation != this.generation || !connected {
        return;
      }
      pushedAt := nextRequest;
      if alarmsRequest.Some? {
        alarmPushRefreshPending := true;
      } else {
        SynchronizeAlarms(generation, sending);
      }
    }

    method AlarmsCompleted(handle: Handle, reply: Reply, sending: Sending)
      modifies this
      ensures State() == OnReply(old(State()), handle, reply, sending)
    {
      if !(handle.generation == generation && connected && alarmsRequest == Some(handle)) {
        return;
      }
      alarmsRequest := None;
      match reply {
        case Listed(content) =>
          alarms := Some(Overview(content, handle.generation));
          alarmsStale := false;
          alarmsError := false;
          shownSince := handle.id;
        case _ =>
          alarmsError := true;
          alarmsStale := true;
      }
      if alarmPushRefreshPending && connected && generation == handle.generation {
        alarmPushRefreshPending := false;
        SynchronizeAlarms(handle.generation, sending);
      }
    }

    method RefreshDynamicData(brokenBefore: bool, sending: Sending)
      modifies this
      ensures State() == Next(old(State()), RefreshDynamic(brokenBefore, sending))
    {
      if !connected {
        return;
      }
      if brokenBefore {
        ConnectionLost();
      }
      SynchronizeAlarms(generation, sending);
    }

    /** The client reports that it stopped before the store forgets its requests. */
    method StopStore()
      modifies this
      ensures State() == Next(old(State()), Stop)
    {
      ConnectionLost();
      alarmsRequest := None;
      alarmPushRefreshPending := false;
    }
  }
}
