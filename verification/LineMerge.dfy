/**
 The line inputs the console shows. They come in two ways, as pushes and inside camera lists, and a
 list may be older than a push that overtook it.
 */
module LineMerge {
  import opened Wrappers

  type Name = nat

  datatype LineInput = LineInput(
    enabled: bool, rawLevel: bool, alarmActive: bool, revision: nat, timestamp: int, stale: bool, generation: nat)

  datatype Camera = Camera(id: Name, line: Option<LineInput>)

  /** Requests are told apart by a number. */
  datatype Handle = Handle(id: nat, generation: nat)

  /** A push that could be read. */
  datatype Push = Push(cameraId: Name, rawLevel: bool, alarmActive: bool, revision: nat, timestamp: int)

  /** The line input of a listed camera, as it was read; the connection it came over is added later. */
  datatype ListedLine =
    | NoLine
    | BadLine
    | Line(enabled: bool, rawLevel: bool, alarmActive: bool, revision: nat, timestamp: int, stale: bool)

  /** `BadItem`: the rest of the item could not be read. */
  datatype Item = BadItem | Item(id: Name, line: ListedLine)

  /** A list reply: none, one without the expected members, or its cameras. */
  datatype Reply = NoReply | BadReply | Cameras(items: seq<Item>)

  datatype ClientState = ClientState(
    connected: bool, generation: nat, request: Option<Handle>, cameras: seq<Camera>, stale: bool, error: bool)

  /** The first camera of that name. */
  function Find(cameras: seq<Camera>, id: Name): (k: nat)
    ensures k <= |cameras|
    ensures k < |cameras| ==> cameras[k].id == id
    ensures forall i | 0 <= i < k :: cameras[i].id != id
  {
    if cameras == [] then 0 else if cameras[0].id == id then 0 else 1 + Find(cameras[1..], id)
  }

  predicate IsListed(cameras: seq<Camera>, id: Name) {
    Find(cameras, id) < |cameras|
  }

  /** What is shown for a camera. */
  function LineOf(cameras: seq<Camera>, id: Name): Option<LineInput> {
    var k := Find(cameras, id);
    if k < |cameras| then cameras[k].line else None
  }

  function Stale(cameras: seq<Camera>): (r: seq<Camera>)
    ensures |r| == |cameras|
    ensures forall i | 0 <= i < |r| ::
              r[i] == if cameras[i].line.Some? then cameras[i].(line := Some(cameras[i].line.value.(stale := true)))
                      else cameras[i]
  {
    seq(|cameras|, i requires 0 <= i < |cameras| =>
      if cameras[i].line.Some? then cameras[i].(line := Some(cameras[i].line.value.(stale := true))) else cameras[i])
  }

  function OnPush(s: ClientState, generation: nat, push: Push): ClientState {
    var k := Find(s.cameras, push.cameraId);
    if generation != s.generation || !s.connected || k == |s.cameras| then s
    else if s.cameras[k].line.Some? && push.revision <= s.cameras[k].line.value.revision then s
    else
      var line := LineInput(true, push.rawLevel, push.alarmActive, push.revision, push.timestamp, false, generation);
      s.(cameras := s.cameras[k := s.cameras[k].(line := Some(line))])
  }

  /** What a listed camera shows, given what was shown before. */
  function Merge(before: Option<LineInput>, listed: ListedLine, generation: nat): Option<LineInput>
    requires !listed.BadLine?
  {
    match listed
    case NoLine => if before.Some? then Some(before.value.(stale := true)) else None
    case Line(enabled, rawLevel, alarmActive, revision, timestamp, stale) =>
      if before.Some? && before.value.generation == generation && before.value.revision > revision then before
      else Some(LineInput(enabled, rawLevel, alarmActive, revision, timestamp, stale, generation))
  }

  predicate Readable(items: seq<Item>) {
    forall i | 0 <= i < |items| :: items[i].Item? && !items[i].line.BadLine?
  }

  function MergeAll(before: seq<Camera>, items: seq<Item>, generation: nat): (r: seq<Camera>)
    requires Readable(items)
    ensures |r| == |items|
    ensures forall i | 0 <= i < |items| ::
              r[i] == Camera(items[i].id, Merge(LineOf(before, items[i].id), items[i].line, generation))
  {
    seq(|items|, i requires 0 <= i < |items| =>
      Camera(items[i].id, Merge(LineOf(before, items[i].id), items[i].line, generation)))
  }

  function OnList(s: ClientState, handle: Handle, reply: Reply): ClientState {
    if s.request != Some(handle) || handle.generation != s.generation then s
    else
      var waiting := s.(request := None);
      if reply.Cameras? && Readable(reply.items) then
        waiting.(cameras := MergeAll(s.cameras, reply.items, handle.generation), stale := false, error := false)
      else
        waiting.(stale := true, error := true)
  }

  function OnConnection(s: ClientState, connected: bool, generation: nat, sent: Option<nat>): ClientState {
    var marked := s.(connected := connected, generation := generation, cameras := Stale(s.cameras), stale := true);
    if connected then OnRefresh(marked, sent) else marked.(request := None)
  }

  /** `sent`: the number of the request, when it could be sent. */
  function OnRefresh(s: ClientState, sent: Option<nat>): ClientState {
    if s.request.Some? || !s.connected then s
    else if sent.None? then s.(error := true)
    else s.(request := Some(Handle(sent.value, s.generation)))
  }

  function OnStop(s: ClientState): ClientState {
    s.(connected := false, request := None, cameras := Stale(s.cameras), stale := true)
  }

  datatype Event =
    | ConnectionChanged(connected: bool, generation: nat, sent: Option<nat>)
    | PushReceived(generation: nat, push: Push)
    | ListCompleted(handle: Handle, reply: Reply)
    | Refresh(sent: Option<nat>)
    | Stop

  /** The client numbers its connections upwards. */
  predicate Possible(s: ClientState, e: Event) {
    e.ConnectionChanged? ==> s.generation <= e.generation
  }

  function Next(s: ClientState, e: Event): ClientState {
    match e
    case ConnectionChanged(connected, generation, sent) => OnConnection(s, connected, generation, sent)
    case PushReceived(generation, push) => OnPush(s, generation, push)
    case ListCompleted(handle, reply) => OnList(s, handle, reply)
    case Refresh(sent) => OnRefresh(s, sent)
    case Stop => OnStop(s)
  }

  // ---------------------------------------------------------------- nothing shown grows older

  /** `b` is at least as new as `a`: of a later connection, or of the same one with no lower revision. */
  predicate NoOlder(a: Option<LineInput>, b: Option<LineInput>) {
    a.Some? ==>
      && b.Some?
      && (a.value.generation < b.value.generation
          || (a.value.generation == b.value.generation && a.value.revision <= b.value.revision))
  }

  predicate Consistent(s: ClientState) {
    forall i | 0 <= i < |s.cameras| && s.cameras[i].line.Some? :: s.cameras[i].line.value.generation <= s.generation
  }

  lemma {:induction false} FindSameNames(a: seq<Camera>, b: seq<Camera>, id: Name)
    requires |a| == |b| && forall i | 0 <= i < |a| :: a[i].id == b[i].id
    ensures Find(a, id) == Find(b, id)
  {
  }

  lemma NextIsConsistent(s: ClientState, e: Event)
    requires Consistent(s) && Possible(s, e)
    ensures Consistent(Next(s, e)) && s.generation <= Next(s, e).generation
  {
  }

  lemma StaleIsNoOlder(cameras: seq<Camera>, id: Name)
    ensures Find(Stale(cameras), id) == Find(cameras, id)
    ensures NoOlder(LineOf(cameras, id), LineOf(Stale(cameras), id))
  {
    FindSameNames(cameras, Stale(cameras), id);
  }

  lemma PushIsNoOlder(s: ClientState, generation: nat, push: Push, id: Name)
    requires Consistent(s)
    ensures NoOlder(LineOf(s.cameras, id), LineOf(OnPush(s, generation, push).cameras, id))
  {
    FindSameNames(s.cameras, OnPush(s, generation, push).cameras, id);
  }

  lemma ListIsNoOlder(s: ClientState, handle: Handle, reply: Reply, id: Name)
    requires Consistent(s) && IsListed(OnList(s, handle, reply).cameras, id)
    ensures NoOlder(LineOf(s.cameras, id), LineOf(OnList(s, handle, reply).cameras, id))
  {
    hide Stale;
    var t, before := OnList(s, handle, reply), LineOf(s.cameras, id);
    var k := Find(t.cameras, id);
    assert before.Some? ==> before.value.generation <= s.generation;
    if t.cameras != s.cameras {
      assert t.cameras[k] == Camera(id, Merge(before, reply.items[k].line, handle.generation));
    }
  }

  lemma NextIsNoOlder(s: ClientState, e: Event, id: Name)
    requires Consistent(s) && Possible(s, e) && IsListed(Next(s, e).cameras, id)
    ensures NoOlder(LineOf(s.cameras, id), LineOf(Next(s, e).cameras, id))
  {
    hide LineOf, Stale, OnPush, OnList, NoOlder;
    match e
    case PushReceived(generation, push) => PushIsNoOlder(s, generation, push, id);
    case ListCompleted(handle, reply) => ListIsNoOlder(s, handle, reply, id);
    case Refresh(sent) => SameIsNoOlder(LineOf(s.cameras, id));
    case _ => StaleIsNoOlder(s.cameras, id);
  }

  lemma SameIsNoOlder(line: Option<LineInput>)
    ensures NoOlder(line, line)
  {
  }

  /** The camera is listed before and after every event of a run that leads to `r`. */
  ghost predicate StaysListed(s: ClientState, events: seq<Event>, r: ClientState, id: Name)
    decreases |events|
  {
    && IsListed(s.cameras, id)
    && if events == [] then s == r
       else Possible(s, events[0]) && StaysListed(Next(s, events[0]), events[1..], r, id)
  }

  /**
   While a camera stays listed, what is shown for it never gives way to anything older, whatever order
   pushes, lists, reconnects and refreshes come in.
   */
  lemma {:induction false} ShownIsNeverOlder(s: ClientState, events: seq<Event>, r: ClientState, id: Name)
    requires Consistent(s) && StaysListed(s, events, r, id)
    ensures NoOlder(LineOf(s.cameras, id), LineOf(r.cameras, id))
    decreases |events|
  {
    if events != [] {
      var t := Next(s, events[0]);
      NextIsConsistent(s, events[0]);
      NextIsNoOlder(s, events[0], id);
      ShownIsNeverOlder(t, events[1..], r, id);
    }
  }

  /**
   A push of the current connection is taken over exactly when nothing or a lower revision is shown.
   The connection does not count: a service that numbers its inputs anew is not heard before the next
   list.
   */
  lemma PushIsTakenIffHigher(s: ClientState, push: Push)
    requires s.connected && IsListed(s.cameras, push.cameraId)
    ensures var before, after := LineOf(s.cameras, push.cameraId),
                                 LineOf(OnPush(s, s.generation, push).cameras, push.cameraId);
            if before.None? || before.value.revision < push.revision then
              after == Some(LineInput(true, push.rawLevel, push.alarmActive, push.revision, push.timestamp, false,
                                      s.generation))
            else after == before
  {
    FindSameNames(s.cameras, OnPush(s, s.generation, push).cameras, push.cameraId);
  }

  /** A reply that cannot be read as a whole changes no camera; the list counts as stale until the next one. */
  lemma UnreadableListIsStale(s: ClientState, handle: Handle, reply: Reply)
    requires s.request == Some(handle) && handle.generation == s.generation
    requires reply.Cameras? ==>
               exists i | 0 <= i < |reply.items| :: reply.items[i].BadItem? || reply.items[i].line.BadLine?
    ensures OnList(s, handle, reply) == s.(request := None, stale := true, error := true)
  {
  }

  /** A new connection marks everything shown as stale and asks for the list, and so does a refresh, once at a time. */
  lemma ConnectionAsks(s: ClientState, generation: nat, sent: nat, k: nat)
    requires k < |s.cameras| && s.request.None?
    ensures var r := OnConnection(s, true, generation, Some(sent));
            && r.connected && r.stale && r.request == Some(Handle(sent, generation))
            && |r.cameras| == |s.cameras| && r.cameras[k].id == s.cameras[k].id
            && (s.cameras[k].line.Some? ==> r.cameras[k].line == Some(s.cameras[k].line.value.(stale := true)))
    ensures s.connected ==> OnRefresh(s, Some(sent)).request == Some(Handle(sent, s.generation))
  {
  }

  /**
   The list that was asked for is taken over for a camera exactly when nothing, something of an earlier
   connection, or no higher revision is shown; otherwise what is shown stays. A camera listed without its
   line input keeps what is shown, marked stale.
   */
  lemma ListIsTakenUnlessOvertaken(s: ClientState, handle: Handle, items: seq<Item>, k: nat)
    requires s.request == Some(handle) && handle.generation == s.generation && Readable(items) && k < |items|
    requires forall i | 0 <= i < k :: items[i].id != items[k].id
    ensures var before, shown := LineOf(s.cameras, items[k].id),
                                 LineOf(OnList(s, handle, Cameras(items)).cameras, items[k].id);
            match items[k].line
            case Line(enabled, rawLevel, alarmActive, revision, timestamp, stale) =>
              var listed := LineInput(enabled, rawLevel, alarmActive, revision, timestamp, stale, s.generation);
              var overtaken := before.Some? && before.value.generation == s.generation
                  && before.value.revision > revision;
              && (shown == Some(listed) <==> !overtaken)
              && (overtaken ==> shown == before)
            case _ =>
              && (shown.Some? <==> before.Some?)
              && (before.Some? ==> shown.value.stale && shown == Some(before.value.(stale := true)))
  {
    var cameras := OnList(s, handle, Cameras(items)).cameras;
    var found := Find(cameras, items[k].id);
    assert cameras[k].id == items[k].id;
    assert found == k;
  }

  // ---------------------------------------------------------------- the client

  class CameraClient {
    var connected: bool
    var generation: nat
    var listRequest: Option<Handle>
    var cameras: seq<Camera>
    var stale: bool
    var error: bool

    ghost function State(): ClientState
      reads this
    {
      ClientState(connected, generation, listRequest, cameras, stale, error)
    }

    constructor ()
      ensures State() == ClientState(false, 0, None, [], true, false) && Consistent(State())
    {
      connected, generation, listRequest, cameras, stale, error := false, 0, None, [], true, false;
    }

    method MarkStale()
      modifies this`cameras, this`stale
      ensures cameras == Stale(old(cameras)) && stale
    {
      stale := true;
      ghost var before := cameras;
      for i := 0 to |cameras|
        modifies this`cameras
        invariant |cameras| == |before|
        invariant forall k | 0 <= k < i :: cameras[k] == Stale(before)[k]
        invariant forall k | i <= k < |cameras| :: cameras[k] == before[k]
      {
        if cameras[i].line.Some? {
          cameras := cameras[i := cameras[i].(line := Some(cameras[i].line.value.(stale := true)))];
        }
      }
    }

    method FindCamera(id: Name) returns (k: nat)
      ensures k == Find(cameras, id)
    {
      k := 0;
      while k < |cameras| && cameras[k].id != id
        invariant k <= |cameras|
        invariant forall i | 0 <= i < k :: cameras[i].id != id
      {
        k := k + 1;
      }
    }

    method ConnectionHasChanged(connected: bool, generation: nat, sent: Option<nat>)
      modifies this
      ensures State() == OnConnection(old(State()), connected, generation, sent)
    {
      this.connected, this.generation := connected, generation;
      MarkStale();
      if !connected {
        listRequest := None;
      } else {
        RefreshList(sent);
      }
    }

    method ReceivePush(generation: nat, push: Push)
      modifies this
      ensures State() == OnPush(old(State()), generation, push)
    {
      if generation != this.generation || !connected {
        return;
      }
      var k := FindCamera(push.cameraId);
      if k == |cameras| {
        return;
      }
      if cameras[k].line.Some? && push.revision <= cameras[k].line.value.revision {
        return;
      }
      var line := LineInput(true, push.rawLevel, push.alarmActive, push.revision, push.timestamp, false, generation);
      cameras := cameras[k := cameras[k].(line := Some(line))];
    }

    method RefreshList(sent: Option<nat>)
      modifies this`listRequest, this`error
      ensures State() == OnRefresh(old(State()), sent)
    {
      if listRequest.Some? || !connected {
        return;
      }
      if sent.None? {
        error := true;
        return;
      }
      listRequest := Some(Handle(sent.value, generation));
    }

    /** What a listed camera will show. */
    method MergeLine(item: Item, generation: nat) returns (line: Option<LineInput>)
      requires item.Item? && !item.line.BadLine?
      ensures line == Merge(LineOf(cameras, item.id), item.line, generation)
    {
      var k := FindCamera(item.id);
      if item.line.Line? {
        var parsed := LineInput(item.line.enabled, item.line.rawLevel, item.line.alarmActive, item.line.revision,
                                item.line.timestamp, item.line.stale, generation);
        if k < |cameras| && cameras[k].line.Some? && cameras[k].line.value.generation == generation
           && cameras[k].line.value.revision > parsed.revision {
          return cameras[k].line;
        }
        return Some(parsed);
      }
      if k < |cameras| && cameras[k].line.Some? {
        return Some(cameras[k].line.value.(stale := true));
      }
      return None;
    }

    /** Nothing of the list is taken over unless all of it can be read. */
    method CompleteList(handle: Handle, reply: Reply)
      modifies this
      ensures State() == OnList(old(State()), handle, reply)
    {
      if listRequest != Some(handle) || handle.generation != generation {
        return;
      }
      listRequest := None;
      if !reply.Cameras? {
        error, stale := true, true;
        return;
      }
      var items: seq<Camera> := [];
      for i := 0 to |reply.items|
        invariant State() == old(State()).(request := None)
        invariant Readable(reply.items[..i])
        invariant items == MergeAll(cameras, reply.items[..i], handle.generation)
      {
        var item := reply.items[i];
        if item.BadItem? || item.line.BadLine? {
          assert !Readable(reply.items) by {
            assert item == reply.items[i];
          }
          error, stale := true, true;
          return;
        }
        var line := MergeLine(item, handle.generation);
        items := items + [Camera(item.id, line)];
      }
      assert reply.items[..|reply.items|] == reply.items;
      cameras := items;
      stale, error := false, false;
    }

    method StopClient()
      modifies this
      ensures State() == OnStop(old(State()))
    {
      connected := false;
      listRequest := None;
      MarkStale();
    }
  }
}
