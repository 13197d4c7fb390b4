/**
 The mailbox between the camera threads and the dispatcher of line inputs: one place per camera slot,
 in which a newer input replaces an older one.
 */
module LineMailbox {
  import opened Wrappers

  const SLOTS: nat := 6

  datatype LineEvent = LineEvent(rawLevel: bool, revision: nat, timestamp: int)

  /** An input handed to the observer. */
  datatype Delivery = Delivery(slot: nat, event: LineEvent)

  datatype Mailbox = Mailbox(slots: seq<Option<LineEvent>>, revisions: seq<nat>)

  predicate Shaped(m: Mailbox) {
    |m.slots| == |m.revisions| == SLOTS
  }

  function Initial(): Mailbox {
    Mailbox(seq(SLOTS, _ => None), seq(SLOTS, _ => 0))
  }

  /** An input for a slot that does not exist is ignored. */
  function Enqueue(m: Mailbox, slot: nat, rawLevel: bool, timestamp: int): Mailbox
    requires Shaped(m)
  {
    if slot >= SLOTS then m
    else
      var revision := m.revisions[slot] + 1;
      Mailbox(m.slots[slot := Some(LineEvent(rawLevel, revision, timestamp))], m.revisions[slot := revision])
  }

  function Emptied(m: Mailbox): Mailbox
    requires Shaped(m)
  {
    m.(slots := seq(SLOTS, _ => None))
  }

  /**
   What a round of the dispatcher hands over: the inputs of the first `n` slots, as far as their
   camera is connected.
   */
  function Deliveries(pending: seq<Option<LineEvent>>, connected: seq<bool>, n: nat): seq<Delivery>
    requires n <= |pending| == |connected|
  {
    if n == 0 then []
    else
      Deliveries(pending, connected, n - 1)
      + if pending[n - 1].Some? && connected[n - 1] then [Delivery(n - 1, pending[n - 1].value)] else []
  }

  /** `connected`: which cameras are found connected in the course of the round. */
  datatype Op = Input(slot: nat, rawLevel: bool, timestamp: int) | Round(connected: seq<bool>)

  predicate Possible(op: Op) {
    op.Round? ==> |op.connected| == SLOTS
  }

  /** The mailbox, what it handed over so far, and for each slot the last revision taken out of it. */
  datatype World = World(box: Mailbox, delivered: seq<Delivery>, taken: seq<nat>)

  function Start(): World {
    World(Initial(), [], seq(SLOTS, _ => 0))
  }

  function Next(w: World, op: Op): World
    requires Sound(w) && Possible(op)
  {
    match op
    case Input(slot, rawLevel, timestamp) => w.(box := Enqueue(w.box, slot, rawLevel, timestamp))
    case Round(connected) =>
      World(Emptied(w.box), w.delivered + Deliveries(w.box.slots, connected, SLOTS),
            seq(SLOTS, i requires 0 <= i < SLOTS =>
              if w.box.slots[i].Some? then w.box.slots[i].value.revision else w.taken[i]))
  }

  /** Revisions rise within a slot, and nothing was handed over that is newer than what was taken out. */
  predicate Rising(delivered: seq<Delivery>, taken: seq<nat>) {
    && (forall i | 0 <= i < |delivered| ::
          delivered[i].slot < |taken| && delivered[i].event.revision <= taken[delivered[i].slot])
    && (forall i, j | 0 <= i < j < |delivered| ::
          delivered[i].slot == delivered[j].slot ==> delivered[i].event.revision < delivered[j].event.revision)
  }

  /** What lies in a slot is its newest input; an empty slot has given its newest input away. */
  predicate Newest(w: World, slot: nat)
    requires Shaped(w.box) && |w.taken| == SLOTS && slot < SLOTS
  {
    match w.box.slots[slot]
    case Some(e) => e.revision == w.box.revisions[slot] > w.taken[slot]
    case None => w.box.revisions[slot] == w.taken[slot]
  }

  predicate Sound(w: World) {
    && Shaped(w.box) && |w.taken| == SLOTS
    && (forall slot | 0 <= slot < SLOTS :: Newest(w, slot))
    && Rising(w.delivered, w.taken)
  }

  /** In slot order and at most once for each slot: the newest input of a slot whose camera is connected. */
  predicate AllNewest(d: seq<Delivery>, box: Mailbox, connected: seq<bool>, n: nat)
    requires Shaped(box) && n <= SLOTS == |connected|
  {
    && (forall i | 0 <= i < |d| ::
          && d[i].slot < n && connected[d[i].slot] && box.slots[d[i].slot] == Some(d[i].event)
          && d[i].event.revision == box.revisions[d[i].slot])
    && (forall i, j | 0 <= i < j < |d| :: d[i].slot < d[j].slot)
  }

  /** A round hands over nothing but the newest input of a slot. */
  lemma {:induction false} DeliveriesAreNewest(w: World, connected: seq<bool>, n: nat)
    requires Sound(w) && n <= SLOTS == |connected|
    ensures AllNewest(Deliveries(w.box.slots, connected, n), w.box, connected, n)
  {
    if n > 0 {
      DeliveriesAreNewest(w, connected, n - 1);
      assert Newest(w, n - 1);
    }
  }

  /** And it passes over no slot that holds an input of a connected camera. */
  lemma {:induction false} NothingIsPassedOver(pending: seq<Option<LineEvent>>, connected: seq<bool>, n: nat, slot: nat)
    requires slot < n <= |pending| == |connected| && pending[slot].Some? && connected[slot]
    ensures Delivery(slot, pending[slot].value) in Deliveries(pending, connected, n)
  {
    if slot < n - 1 {
      NothingIsPassedOver(pending, connected, n - 1, slot);
    }
  }

  lemma RoundKeepsRising(w: World, connected: seq<bool>)
    requires Sound(w) && |connected| == SLOTS
    ensures var r := Next(w, Round(connected)); Rising(r.delivered, r.taken)
  {
    DeliveriesAreNewest(w, connected, SLOTS);
    var r, d := Next(w, Round(connected)), Deliveries(w.box.slots, connected, SLOTS);
    assert r.delivered == w.delivered + d;
    assert forall i | |w.delivered| <= i < |r.delivered| :: r.delivered[i] == d[i - |w.delivered|];
    forall i | 0 <= i < |r.delivered|
      ensures r.delivered[i].slot < SLOTS && r.delivered[i].event.revision <= r.taken[r.delivered[i].slot]
    {
      if i < |w.delivered| {
        assert Newest(w, w.delivered[i].slot);
      } else {
        assert r.delivered[i] == d[i - |w.delivered|];
      }
    }
    forall i, j | 0 <= i < j < |r.delivered| && r.delivered[i].slot == r.delivered[j].slot
      ensures r.delivered[i].event.revision < r.delivered[j].event.revision
    {
      if i < |w.delivered| <= j {
        assert r.delivered[j] == d[j - |w.delivered|];
        assert Newest(w, w.delivered[i].slot);
      }
    }
  }

  lemma NextIsSound(w: World, op: Op)
    requires Sound(w) && Possible(op)
    ensures Sound(Next(w, op))
  {
    var r := Next(w, op);
    if op.Round? {
      RoundKeepsRising(w, op.connected);
    }
    forall slot | 0 <= slot < SLOTS
      ensures Newest(r, slot)
    {
      assert Newest(w, slot);
    }
  }

  ghost predicate Reaches(w: World, ops: seq<Op>, r: World)
    decreases |ops|
  {
    if ops == [] then w == r
    else Sound(w) && Possible(ops[0]) && Reaches(Next(w, ops[0]), ops[1..], r)
  }

  /** In every interleaving of inputs and rounds the revisions delivered for a slot strictly increase. */
  lemma {:induction false} DeliveredRevisionsRise(w: World, ops: seq<Op>, r: World)
    requires Sound(w) && Reaches(w, ops, r)
    ensures Sound(r)
    ensures forall i, j | 0 <= i < j < |r.delivered| && r.delivered[i].slot == r.delivered[j].slot ::
              r.delivered[i].event.revision < r.delivered[j].event.revision
    decreases |ops|
  {
    if ops != [] {
      NextIsSound(w, ops[0]);
      DeliveredRevisionsRise(Next(w, ops[0]), ops[1..], r);
    }
  }

  // ---------------------------------------------------------------- what is delivered is what came in

  /** The inputs of each slot so far, in order. */
  type Arrivals = seq<seq<(bool, int)>>

  function Arriving(a: Arrivals, op: Op): Arrivals {
    if op.Input? && op.slot < |a| then a[op.slot := a[op.slot] + [(op.rawLevel, op.timestamp)]] else a
  }

  function Arrived(a: Arrivals, ops: seq<Op>): Arrivals
    decreases |ops|
  {
    if ops == [] then a else Arrived(Arriving(a, ops[0]), ops[1..])
  }

  /** The event is the input that its revision counts. */
  predicate IsArrival(a: Arrivals, slot: nat, e: LineEvent) {
    slot < |a| && 1 <= e.revision <= |a[slot]| && a[slot][e.revision - 1] == (e.rawLevel, e.timestamp)
  }

  ghost predicate FromArrivals(w: World, a: Arrivals) {
    && Shaped(w.box) && |w.taken| == |a| == SLOTS
    && (forall slot | 0 <= slot < SLOTS :: w.box.revisions[slot] == |a[slot]|)
    && (forall slot | 0 <= slot < SLOTS && w.box.slots[slot].Some? :: IsArrival(a, slot, w.box.slots[slot].value))
    && (forall i | 0 <= i < |w.delivered| :: IsArrival(a, w.delivered[i].slot, w.delivered[i].event))
  }

  lemma NextIsFromArrivals(w: World, op: Op, a: Arrivals)
    requires Sound(w) && Possible(op) && FromArrivals(w, a)
    ensures FromArrivals(Next(w, op), Arriving(a, op))
  {
    if op.Round? {
      DeliveriesAreNewest(w, op.connected, SLOTS);
      var r, d := Next(w, op), Deliveries(w.box.slots, op.connected, SLOTS);
      forall i | 0 <= i < |r.delivered|
        ensures IsArrival(a, r.delivered[i].slot, r.delivered[i].event)
      {
        assert i >= |w.delivered| ==> r.delivered[i] == d[i - |w.delivered|];
      }
    }
  }

  /**
   In every interleaving each delivery has the level and the time of the input that its revision
   counts, and a slot that holds an input holds the last one.
   */
  lemma {:induction false} DeliveredAreInputs(w: World, ops: seq<Op>, r: World, a: Arrivals)
    requires Sound(w) && FromArrivals(w, a) && Reaches(w, ops, r)
    ensures FromArrivals(r, Arrived(a, ops))
    decreases |ops|
  {
    if ops != [] {
      NextIsSound(w, ops[0]);
      NextIsFromArrivals(w, ops[0], a);
      DeliveredAreInputs(Next(w, ops[0]), ops[1..], r, Arriving(a, ops[0]));
    }
  }

  lemma StartIsFromArrivals()
    ensures Sound(Start()) && FromArrivals(Start(), seq(SLOTS, _ => []))
  {}

  class LineInputMailbox {
    const slots: array<Option<LineEvent>>
    const revisions: array<nat>

    ghost function State(): Mailbox
      reads slots, revisions
    {
      Mailbox(slots[..], revisions[..])
    }

    ghost predicate Valid()
      reads slots, revisions
    {
      slots.Length == revisions.Length == SLOTS
    }

    constructor ()
      ensures Valid() && fresh(slots) && fresh(revisions) && State() == Initial()
    {
      slots := new Option<LineEvent>[SLOTS](_ => None);
      revisions := new nat[SLOTS](_ => 0);
      new;
      assert slots[..] == Initial().slots && revisions[..] == Initial().revisions;
    }

    method EnqueueLineInput(slot: nat, rawLevel: bool, timestamp: int)
      requires Valid()
      modifies slots, revisions
      ensures Valid() && State() == Enqueue(old(State()), slot, rawLevel, timestamp)
    {
      if slot >= slots.Length {
        return;
      }
      var revision := revisions[slot] + 1;
      revisions[slot] := revision;
      slots[slot] := Some(LineEvent(rawLevel, revision, timestamp));
    }

    /** Takes everything out under the lock. */
    method TakeAll() returns (pending: seq<Option<LineEvent>>)
      requires Valid()
      modifies slots
      ensures Valid() && pending == old(State()).slots && State() == Emptied(old(State()))
    {
      pending := slots[..];
      for i := 0 to slots.Length
        modifies slots
        invariant forall k | 0 <= k < i :: slots[k] == None
      {
        slots[i] := None;
      }
      assert slots[..] == Emptied(old(State())).slots;
    }

    /** One round of the dispatcher. */
    method DispatchLineInputs(connected: seq<bool>) returns (delivered: seq<Delivery>)
      requires Valid() && |connected| == SLOTS
      modifies slots
      ensures Valid() && State() == Emptied(old(State()))
      ensures delivered == Deliveries(old(State()).slots, connected, SLOTS)
    {
      var pending := TakeAll();
      delivered := [];
      for slot := 0 to |pending|
        invariant delivered == Deliveries(pending, connected, slot)
      {
        if pending[slot].Some? && connected[slot] {
          delivered := delivered + [Delivery(slot, pending[slot].value)];
        }
      }
    }
  }
}
