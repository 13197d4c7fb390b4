/**
 The capture loop of one worker run. The camera, the clock, the buffer pool and the threads that share
 the ring are a script: a list of what they do, in the order in which the loop meets it.
 */
module CaptureWorker {
  import opened Wrappers
  import opened FrameQueue

  datatype Geometry = Geometry(width: nat, height: nat, stride: nat)

  datatype Metadata = Metadata(number: nat, geometry: Geometry, pixelFormat: nat, incomplete: bool)

  datatype Packet = Packet(sequence: nat, metadata: Metadata, size: nat)

  /**
   `limit`: how many capture timeouts in a row end the run; `probe`: the first buffers are checked
   for being written.
   */
  datatype Options = Options(softwareTrigger: bool, probe: bool, limit: nat)

  const PROBED_ATTEMPTS := 8
  const SENTINEL := 0xa5

  /** An error of the camera, told apart by a number. */
  type Code = nat

  datatype Trigger = WaitStopped | TriggerFails(code: Code) | TriggerThrows | Triggered

  datatype Acquisition = PoolGone | NoBuffer | Buffer

  datatype Capture =
    | NoFrame
    | CaptureFails(code: Code)
    | CaptureThrows
    | Captured(metadata: Metadata, payload: seq<nat>)

  datatype Event =
    | Elsewhere(op: Op<Packet>)
    | Attempt(stop: bool, trigger: Trigger, acquisition: Acquisition, capture: Capture, probeThrows: bool,
              timesFit: bool, clockThrows: bool, recordThrows: bool)

  datatype End =
    | StopSeen
    | PoolClosed
    | RingClosed
    | TriggerError(code: Code)
    | TimeoutLimit
    | CaptureError(code: Code)
    | FormatChanged
    | TimeUnavailable
    | DeviceThrew
    | ClockThrew
    | ReportThrew

  // ---------------------------------------------------------------- what a list of events amounts to

  /** A probed buffer in which the device left every byte as it was. */
  predicate Unwritten(payload: seq<nat>) {
    payload != [] && forall i | 0 <= i < |payload| :: payload[i] == SENTINEL
  }

  predicate HasBuffer(e: Event) {
    e.Attempt? && e.acquisition.Buffer?
  }

  function BuffersTaken(log: seq<Event>): nat {
    if log == [] then 0
    else BuffersTaken(log[..|log| - 1]) + if HasBuffer(log[|log| - 1]) then 1 else 0
  }

  predicate Probing(o: Options, log: seq<Event>) {
    o.probe && BuffersTaken(log) < PROBED_ATTEMPTS
  }

  function ProbesLeft(o: Options, log: seq<Event>): nat {
    if Probing(o, log) then PROBED_ATTEMPTS - BuffersTaken(log) else 0
  }

  predicate TimedOut(e: Event) {
    HasBuffer(e) && e.capture.NoFrame?
  }

  /** A frame that is counted, numbered and pushed. */
  predicate IsFrame(o: Options, before: seq<Event>, e: Event) {
    HasBuffer(e) && e.capture.Captured? && !(Probing(o, before) && Unwritten(e.capture.payload))
  }

  /** The packets pushed in the course of `log`, in order. */
  function Received(o: Options, log: seq<Event>): seq<Packet>
    decreases |log|, 0
  {
    if log == [] then []
    else
      var before, e := log[..|log| - 1], log[|log| - 1];
      Received(o, before) + if IsFrame(o, before, e) then [PacketOf(o, before, e)] else []
  }

  function PacketOf(o: Options, before: seq<Event>, e: Event): Packet
    requires IsFrame(o, before, e)
    decreases |before|, 1
  {
    Packet(|Received(o, before)| + 1, e.capture.metadata, |e.capture.payload|)
  }

  /** What an event does to the ring. */
  function OpsOfOne(o: Options, before: seq<Event>, e: Event): seq<Op<Packet>> {
    if e.Elsewhere? then [e.op] else if IsFrame(o, before, e) then [PushOp(PacketOf(o, before, e))] else []
  }

  /** Everything that happens to the ring. */
  function OpsOf(o: Options, log: seq<Event>): seq<Op<Packet>> {
    if log == [] then []
    else
      OpsOf(o, log[..|log| - 1]) + OpsOfOne(o, log[..|log| - 1], log[|log| - 1])
  }

  /** The captures since the last frame, all of which timed out. */
  function TrailingTimeouts(log: seq<Event>): nat {
    if log == [] then 0
    else
      var before, e := log[..|log| - 1], log[|log| - 1];
      if TimedOut(e) then TrailingTimeouts(before) + 1
      else if HasBuffer(e) && e.capture.Captured? then 0
      else TrailingTimeouts(before)
  }

  function Timeouts(log: seq<Event>): nat {
    if log == [] then 0 else Timeouts(log[..|log| - 1]) + if TimedOut(log[|log| - 1]) then 1 else 0
  }

  /** Frames with lost data, and probed buffers that were not written at all. */
  function Incomplete(o: Options, log: seq<Event>): nat {
    if log == [] then 0
    else
      var before, e := log[..|log| - 1], log[|log| - 1];
      Incomplete(o, before)
      + if HasBuffer(e) && e.capture.Captured?
          && (IsFrame(o, before, e) ==> e.capture.metadata.incomplete) then 1 else 0
  }

  function Bytes(packets: seq<Packet>): nat {
    if packets == [] then 0 else Bytes(packets[..|packets| - 1]) + packets[|packets| - 1].size
  }

  /** Numbers the camera skipped between two frames in a row. */
  function Gap(previous: nat, next: nat): nat {
    if 0 < previous < next then next - previous - 1 else 0
  }

  function Gaps(packets: seq<Packet>): nat {
    if |packets| < 2 then 0
    else
      var last := |packets| - 1;
      Gaps(packets[..last]) + Gap(packets[last - 1].metadata.number, packets[last].metadata.number)
  }

  /** The counters a worker shows. */
  datatype Tally = Tally(frames: nat, gaps: nat, timeouts: nat, incomplete: nat, bytes: nat)

  function TallyOf(o: Options, log: seq<Event>): Tally {
    var r := Received(o, log);
    Tally(|r|, Gaps(r), Timeouts(log), Incomplete(o, log), Bytes(r))
  }

  /** The variables of the loop. */
  datatype Locals = Locals(
    sequence: nat, previous: nat, timeouts: nat, geometry: Option<Geometry>, pixelFormat: Option<nat>, probes: nat)

  function LocalsOf(o: Options, log: seq<Event>): Locals {
    var r := Received(o, log);
    if r == [] then Locals(0, 0, TrailingTimeouts(log), None, None, ProbesLeft(o, log))
    else Locals(|r|, r[|r| - 1].metadata.number, TrailingTimeouts(log), Some(r[0].metadata.geometry),
                Some(r[0].metadata.pixelFormat), ProbesLeft(o, log))
  }

  predicate SameFormat(a: Metadata, b: Metadata) {
    a.geometry == b.geometry && a.pixelFormat == b.pixelFormat
  }

  /** Whether and why a captured frame is not counted. */
  function Refused(o: Options, log: seq<Event>, e: Event): Option<End>
    requires HasBuffer(e) && e.capture.Captured?
  {
    if Received(o, log) != [] && !SameFormat(e.capture.metadata, Received(o, log)[0].metadata) then Some(FormatChanged)
    else if !e.timesFit then Some(TimeUnavailable)
    else if e.clockThrows then Some(ClockThrew)
    else None
  }

  /** Whether and why the run ends with the event `e`, after the events in `log`, with the ring closed or not. */
  function EndsWith(o: Options, log: seq<Event>, closed: bool, e: Event): Option<End> {
    if e.Elsewhere? then None
    else if e.stop || (o.softwareTrigger && e.trigger.WaitStopped?) then Some(StopSeen)
    else if o.softwareTrigger && e.trigger.TriggerFails? then Some(TriggerError(e.trigger.code))
    else if o.softwareTrigger && e.trigger.TriggerThrows? then Some(DeviceThrew)
    else match e.acquisition
      case PoolGone => Some(PoolClosed)
      case NoBuffer => None
      case Buffer =>
        match e.capture
        case NoFrame => if TrailingTimeouts(log) + 1 >= o.limit then Some(TimeoutLimit) else None
        case CaptureFails(code) => Some(CaptureError(code))
        case CaptureThrows => Some(DeviceThrew)
        case Captured(metadata, payload) =>
          if Probing(o, log) && e.probeThrows then Some(DeviceThrew)
          else if !IsFrame(o, log, e) then None
          else if Refused(o, log, e).Some? then Refused(o, log, e)
          else if e.recordThrows then Some(ReportThrew)
          else if closed then Some(RingClosed)
          else None
  }

  /** The run ended as asked, without an error to report. */
  predicate Quiet(end: End) {
    end.StopSeen? || end.PoolClosed? || end.RingClosed?
  }

  /** The event was counted, although it ended the run. */
  predicate CountedLast(end: End) {
    end.RingClosed? || end.TimeoutLimit? || end.ReportThrew?
  }

  /** The run has gone through all of `log` without coming to an end. */
  predicate Ongoing(o: Options, q: QueueState<Packet>, log: seq<Event>)
    requires q.WellFormed()
  {
    log == [] ||
    var before, e := log[..|log| - 1], log[|log| - 1];
    && Ongoing(o, q, before)
    && EndsWith(o, before, Run(q, OpsOf(o, before)).closed, e).None?
  }

  // ---------------------------------------------------------------- one more event

  lemma OneMoreEvent(o: Options, log: seq<Event>, e: Event)
    ensures var next, frame := log + [e], IsFrame(o, log, e);
            && OpsOf(o, next) == OpsOf(o, log) + OpsOfOne(o, log, e)
            && BuffersTaken(next) == BuffersTaken(log) + (if HasBuffer(e) then 1 else 0)
            && Timeouts(next) == Timeouts(log) + (if TimedOut(e) then 1 else 0)
            && TrailingTimeouts(next) == (if TimedOut(e) then TrailingTimeouts(log) + 1
                                          else if HasBuffer(e) && e.capture.Captured? then 0 else TrailingTimeouts(log))
            && Incomplete(o, next) == Incomplete(o, log)
                 + (if HasBuffer(e) && e.capture.Captured? && (frame ==> e.capture.metadata.incomplete) then 1 else 0)
            && Received(o, next) == (if frame then Received(o, log) + [PacketOf(o, log, e)] else Received(o, log))
  {
    assert (log + [e])[..|log|] == log;
  }

  lemma OneMorePacket(packets: seq<Packet>, p: Packet)
    ensures Bytes(packets + [p]) == Bytes(packets) + p.size
    ensures Gaps(packets + [p])
         == Gaps(packets)
            + (if packets == [] then 0 else Gap(packets[|packets| - 1].metadata.number, p.metadata.number))
  {
    assert (packets + [p])[..|packets|] == packets;
  }

  /** How the counters and the variables of the loop follow one more event. */
  lemma OneMore(o: Options, log: seq<Event>, e: Event)
    ensures var t, l, r := TallyOf(o, log), LocalsOf(o, log), Received(o, log);
            var next, tally, loop := log + [e], TallyOf(o, log + [e]), LocalsOf(o, log + [e]);
            && loop.probes == ProbesLeft(o, log + [e])
            && loop.probes == (if HasBuffer(e) && l.probes > 0 then l.probes - 1 else l.probes)
            && (Probing(o, log) <==> l.probes > 0)
            && l.sequence == t.frames == |r| && l.timeouts == TrailingTimeouts(log)
            && l.geometry == (if r == [] then None else Some(r[0].metadata.geometry))
            && l.pixelFormat == (if r == [] then None else Some(r[0].metadata.pixelFormat))
            && if IsFrame(o, log, e) then
                 var m := e.capture.metadata;
                 && tally == Tally(t.frames + 1, t.gaps + Gap(l.previous, m.number), t.timeouts,
                                   t.incomplete + (if m.incomplete then 1 else 0), t.bytes + |e.capture.payload|)
                 && loop == Locals(t.frames + 1, m.number, 0,
                                   Some(if r == [] then m.geometry else r[0].metadata.geometry),
                                   Some(if r == [] then m.pixelFormat else r[0].metadata.pixelFormat), loop.probes)
               else if HasBuffer(e) && e.capture.Captured? then
                 tally == t.(incomplete := t.incomplete + 1) && loop == l.(timeouts := 0, probes := loop.probes)
               else if TimedOut(e) then
                 && tally == t.(timeouts := t.timeouts + 1)
                 && loop == l.(timeouts := l.timeouts + 1, probes := loop.probes)
               else tally == t && loop == l.(probes := loop.probes)
  {
    hide BuffersTaken, Timeouts, TrailingTimeouts, Incomplete, Received, OpsOf, Bytes, Gaps;
    OneMoreEvent(o, log, e);
    if IsFrame(o, log, e) {
      OneMorePacket(Received(o, log), PacketOf(o, log, e));
    }
  }

  /** The same, read for an attempt that got a buffer: what becomes of it. */
  lemma EndsOfCapture(o: Options, log: seq<Event>, closed: bool, e: Event)
    requires HasBuffer(e) && !e.stop && (o.softwareTrigger ==> e.trigger.Triggered?)
    ensures e.capture.NoFrame? ==>
              EndsWith(o, log, closed, e) == if TrailingTimeouts(log) + 1 >= o.limit then Some(TimeoutLimit) else None
    ensures e.capture.CaptureFails? ==> EndsWith(o, log, closed, e) == Some(CaptureError(e.capture.code))
    ensures e.capture.CaptureThrows? ==> EndsWith(o, log, closed, e) == Some(DeviceThrew)
    ensures e.capture.Captured? && Probing(o, log) && e.probeThrows ==>
              EndsWith(o, log, closed, e) == Some(DeviceThrew)
    ensures e.capture.Captured? && !(Probing(o, log) && e.probeThrows) ==>
              EndsWith(o, log, closed, e)
              == if !IsFrame(o, log, e) then None
                 else if Refused(o, log, e).Some? then Refused(o, log, e)
                 else if e.recordThrows then Some(ReportThrew)
                 else if closed then Some(RingClosed)
                 else None
  {
  }

  lemma EndsOfFrame(o: Options, log: seq<Event>, closed: bool, e: Event)
    requires IsFrame(o, log, e) && Refused(o, log, e).None?
    requires !e.stop && (o.softwareTrigger ==> e.trigger.Triggered?) && !(Probing(o, log) && e.probeThrows)
    ensures EndsWith(o, log, closed, e)
         == if e.recordThrows then Some(ReportThrew) else if closed then Some(RingClosed) else None
  {
    EndsOfCapture(o, log, closed, e);
  }

  lemma FrameIsPushed(o: Options, log: seq<Event>, e: Event)
    requires HasBuffer(e)
    ensures OpsOfOne(o, log, e)
         == if IsFrame(o, log, e)
            then [PushOp(Packet(LocalsOf(o, log).sequence + 1, e.capture.metadata, |e.capture.payload|))]
            else []
  {
  }

  lemma StillOngoing(o: Options, q: QueueState<Packet>, log: seq<Event>, e: Event)
    requires q.WellFormed() && Ongoing(o, q, log)
    ensures Run(q, OpsOf(o, log + [e])) == Run(Run(q, OpsOf(o, log)), OpsOfOne(o, log, e))
    ensures EndsWith(o, log, Run(q, OpsOf(o, log)).closed, e).None? ==> Ongoing(o, q, log + [e])
  {
    hide EndsWith, Run, QueueState.WellFormed;
    OneMoreEvent(o, log, e);
    RunAppends(q, OpsOf(o, log), OpsOfOne(o, log, e));
    assert (log + [e])[..|log|] == log;
  }

  lemma NothingYet(o: Options, q: QueueState<Packet>)
    requires q.WellFormed()
    ensures OpsOf(o, []) == [] && Run(q, []) == q && Ongoing(o, q, [])
  {
  }

  lemma FramesAreSequence(o: Options, log: seq<Event>)
    ensures TallyOf(o, log).frames == LocalsOf(o, log).sequence
  {
  }

  /** The run ends at the first event of the script that ends it, and `log` is what counted up to there. */
  predicate EndsAt(o: Options, q: QueueState<Packet>, script: seq<Event>, handled: nat, end: End, log: seq<Event>)
    requires q.WellFormed()
  {
    && handled <= |script|
    && Ongoing(o, q, script[..handled])
    && if handled == |script| then end == StopSeen && log == script
       else
         && EndsWith(o, script[..handled], Run(q, OpsOf(o, script[..handled])).closed, script[handled]) == Some(end)
         && log == if CountedLast(end) then script[..handled + 1] else script[..handled]
  }

  // ---------------------------------------------------------------- what every run keeps

  lemma {:induction false} FramesAreNumbered(o: Options, log: seq<Event>)
    ensures forall i | 0 <= i < |Received(o, log)| :: Received(o, log)[i].sequence == i + 1
  {
    if log != [] {
      FramesAreNumbered(o, log[..|log| - 1]);
    }
  }

  predicate ShareFormat(packets: seq<Packet>) {
    forall i | 0 <= i < |packets| :: SameFormat(packets[i].metadata, packets[0].metadata)
  }

  /** An event that lets the run go on, or is counted although it ends it, adds no frame of another format. */
  lemma CountedFrameSharesFormat(o: Options, log: seq<Event>, closed: bool, e: Event)
    requires ShareFormat(Received(o, log))
    requires var end := EndsWith(o, log, closed, e); end.None? || CountedLast(end.value)
    ensures ShareFormat(Received(o, log + [e]))
  {
    OneMoreEvent(o, log, e);
    hide Received, BuffersTaken, TrailingTimeouts;
    if IsFrame(o, log, e) && Received(o, log) != [] {
      assert SameFormat(e.capture.metadata, Received(o, log)[0].metadata);
    }
  }

  lemma {:induction false} FramesShareFormat(o: Options, q: QueueState<Packet>, log: seq<Event>)
    requires q.WellFormed() && Ongoing(o, q, log)
    ensures ShareFormat(Received(o, log))
  {
    hide Run, OpsOf, QueueState.WellFormed, EndsWith, ShareFormat;
    if log == [] {
      NoFrames(o);
    } else {
      var before, e := log[..|log| - 1], log[|log| - 1];
      FramesShareFormat(o, q, before);
      CountedFrameSharesFormat(o, before, Run(q, OpsOf(o, before)).closed, e);
      assert before + [e] == log;
    }
  }

  lemma NoFrames(o: Options)
    ensures ShareFormat(Received(o, []))
  {
  }

  lemma {:induction false} TimeoutsStayBelowLimit(o: Options, q: QueueState<Packet>, log: seq<Event>)
    requires q.WellFormed() && Ongoing(o, q, log) && o.limit > 0
    ensures TrailingTimeouts(log) < o.limit
  {
    if log != [] {
      TimeoutsStayBelowLimit(o, q, log[..|log| - 1]);
    }
  }

  /** All counted frames have the format of the first, whichever way the run ended. */
  lemma CountedFramesShareFormat(
    o: Options, q: QueueState<Packet>, script: seq<Event>, handled: nat, end: End, log: seq<Event>)
    requires q.WellFormed() && EndsAt(o, q, script, handled, end, log)
    ensures ShareFormat(Received(o, log))
  {
    hide Run, OpsOf, QueueState.WellFormed, EndsWith, ShareFormat;
    FramesShareFormat(o, q, script[..handled]);
    if handled == |script| {
      assert script[..handled] == log;
    } else if CountedLast(end) {
      var before, e := script[..handled], script[handled];
      CountedFrameSharesFormat(o, before, Run(q, OpsOf(o, before)).closed, e);
      assert script[..handled + 1] == before + [e];
    }
  }

  /** The run gives up on timeouts exactly when the last `limit` captures all timed out, and never later. */
  lemma GivesUpAtLimit(o: Options, q: QueueState<Packet>, script: seq<Event>, handled: nat, end: End, log: seq<Event>)
    requires q.WellFormed() && EndsAt(o, q, script, handled, end, log) && o.limit > 0
    ensures end.TimeoutLimit? <==> TrailingTimeouts(log) == o.limit
    ensures !end.TimeoutLimit? ==> TrailingTimeouts(log) < o.limit
  {
    hide Run, OpsOf, QueueState.WellFormed, Received;
    TimeoutsStayBelowLimit(o, q, script[..handled]);
    if handled == |script| {
      assert script[..handled] == log;
    } else if CountedLast(end) {
      var before, e := script[..handled], script[handled];
      assert script[..handled + 1] == before + [e];
      OneMoreEvent(o, before, e);
    }
  }

  /** When the camera numbers its frames upwards from a positive number, the gaps are the frames that are missing. */
  lemma {:induction false} GapsAreMissingFrames(packets: seq<Packet>)
    requires packets != [] && packets[0].metadata.number > 0
    requires forall i, j | 0 <= i < j < |packets| :: packets[i].metadata.number < packets[j].metadata.number
    ensures |packets| + Gaps(packets) == packets[|packets| - 1].metadata.number - packets[0].metadata.number + 1
  {
    if |packets| > 1 {
      GapsAreMissingFrames(packets[..|packets| - 1]);
    }
  }

  lemma {:induction false} PushesAreFrames(o: Options, log: seq<Event>)
    requires forall e | e in log :: e.Elsewhere? ==> !e.op.PushOp?
    ensures Pushes(OpsOf(o, log)) == Received(o, log)
  {
    if log != [] {
      var before, e := log[..|log| - 1], log[|log| - 1];
      PushesAreFrames(o, before);
      PushesAppend(OpsOf(o, before), OpsOfOne(o, before, e));
    }
  }

  // ---------------------------------------------------------------- from the camera to the consumer

  /** Frames numbered without a hole from `base + 1` on. */
  predicate Numbered(frames: seq<Packet>, base: nat) {
    forall i | 0 <= i < |frames| :: frames[i].sequence == base + i + 1
  }

  /** Increasing numbers above `base`, all of frames whose fate was to be delivered. */
  predicate Increasing(d: seq<Packet>, fates: seq<Fate>, base: nat) {
    && (forall i | 0 <= i < |d| :: base < d[i].sequence <= base + |fates|)
    && (forall i | 0 <= i < |d| :: fates[d[i].sequence - base - 1] == Delivered)
    && (forall i, j | 0 <= i < j < |d| :: d[i].sequence < d[j].sequence)
  }

  /** The delivered ones among numbered frames come in increasing order, and delivered is their fate. */
  lemma {:induction false} DeliveredIncrease(frames: seq<Packet>, fates: seq<Fate>, base: nat)
    requires |fates| <= |frames| && Numbered(frames, base)
    ensures Increasing(WithFate(frames, fates, Delivered), fates, base)
    decreases |fates|
  {
    if fates != [] {
      var rest := WithFate(frames[1..], fates[1..], Delivered);
      DeliveredIncrease(frames[1..], fates[1..], base + 1);
      OneMoreDelivered(rest, frames[0], fates, base);
    }
  }

  lemma OneMoreDelivered(rest: seq<Packet>, first: Packet, fates: seq<Fate>, base: nat)
    requires fates != [] && Increasing(rest, fates[1..], base + 1) && first.sequence == base + 1
    ensures Increasing((if fates[0] == Delivered then [first] else []) + rest, fates, base)
  {
    assert forall i | 0 <= i < |rest| :: fates[rest[i].sequence - base - 1] == fates[1..][rest[i].sequence - base - 2];
  }

  predicate Has(frames: seq<Packet>, number: nat) {
    exists i :: 0 <= i < |frames| && frames[i].sequence == number
  }

  /** A numbered frame whose fate was to be delivered is among the delivered ones. */
  lemma {:induction false} DeliveredAreAll(frames: seq<Packet>, fates: seq<Fate>, base: nat, k: nat)
    requires |fates| <= |frames| && Numbered(frames, base) && k < |fates| && fates[k] == Delivered
    ensures Has(WithFate(frames, fates, Delivered), base + k + 1)
    decreases |fates|
  {
    var d, rest := WithFate(frames, fates, Delivered), WithFate(frames[1..], fates[1..], Delivered);
    if k == 0 {
      assert d[0].sequence == base + 1;
    } else {
      DeliveredAreAll(frames[1..], fates[1..], base + 1, k - 1);
      var i :| 0 <= i < |rest| && rest[i].sequence == base + k + 1;
      assert d[i + |d| - |rest|] == rest[i];
    }
  }

  /** Between two deliveries in a row, and before the first, everything was dropped. */
  lemma BetweenDeliveries(frames: seq<Packet>, fates: seq<Fate>, k: nat)
    requires |fates| <= |frames| && Numbered(frames, 0) && k < |fates|
    ensures var d := WithFate(frames, fates, Delivered);
            && (d != [] && k + 1 < d[0].sequence ==> fates[k] == Dropped)
            && (forall i | 0 < i < |d| && d[i - 1].sequence < k + 1 < d[i].sequence :: fates[k] == Dropped)
  {
    hide WithFate;
    DeliveredIncrease(frames, fates, 0);
    if fates[k] == Delivered {
      DeliveredAreAll(frames, fates, 0, k);
    }
  }

  /**
   Frame accounting from the camera to the consumer, for one worker and its ring, in any interleaving:
   the ring holds a prefix of the counted frames, and every counted frame was delivered, dropped, is
   still held or was rejected after the ring closed.
   */
  lemma EveryFrameIsAccounted(o: Options, q: QueueState<Packet>, log: seq<Event>)
    requires q.WellFormed() && q.accepted == [] && q.fates == [] && q.rejected == 0
    requires forall e | e in log :: e.Elsewhere? ==> !e.op.PushOp?
    ensures var r, frames := Run(q, OpsOf(o, log)), Received(o, log);
            && r.accepted <= frames && Numbered(r.accepted, 0)
            && |frames| == r.Dequeued() + r.DroppedOldest() + r.Depth() + r.rejected
  {
    hide OpsOf, QueueState.Dequeued, QueueState.DroppedOldest, Received;
    PushesAreFrames(o, log);
    FramesAreNumbered(o, log);
    RunAcceptsUntilClosed(q, OpsOf(o, log));
    RunConserves(q, OpsOf(o, log));
  }

  /**
   What the consumer sees: sequence numbers that strictly increase, and every number it does not see
   between two that it sees belongs to a frame the ring dropped.
   */
  lemma ConsumerMissesOnlyDropped(o: Options, q: QueueState<Packet>, log: seq<Event>)
    requires q.WellFormed() && q.accepted == [] && q.fates == [] && q.rejected == 0
    requires forall e | e in log :: e.Elsewhere? ==> !e.op.PushOp?
    ensures var r, seen := Run(q, OpsOf(o, log)), Frames(Answers(q, OpsOf(o, log)));
            && (forall i, j | 0 <= i < j < |seen| :: seen[i].sequence < seen[j].sequence)
            && (forall i | 0 <= i < |seen| :: 0 < seen[i].sequence <= |r.fates|)
            && (forall i | 0 <= i < |seen| :: r.fates[seen[i].sequence - 1] == Delivered)
            && (forall k | 0 <= k < |r.fates| && seen != [] && k + 1 < seen[0].sequence :: r.fates[k] == Dropped)
            && (forall i, k | 0 < i < |seen| && 0 <= k < |r.fates| && seen[i - 1].sequence < k + 1 < seen[i].sequence ::
                  r.fates[k] == Dropped)
  {
    hide OpsOf, Run, Answers, Frames, Numbered, WithFate, QueueState.WellFormed, Received;
    var ops := OpsOf(o, log);
    EveryFrameIsAccounted(o, q, log);
    RunDeliversInOrder(q, ops);
    var r, seen := Run(q, ops), Frames(Answers(q, ops));
    assert r.accepted[0..] == r.accepted && r.fates[0..] == r.fates;
    DeliveredIncrease(r.accepted, r.fates, 0);
    forall k | 0 <= k < |r.fates|
      ensures seen != [] && k + 1 < seen[0].sequence ==> r.fates[k] == Dropped
      ensures forall i | 0 < i < |seen| && seen[i - 1].sequence < k + 1 < seen[i].sequence :: r.fates[k] == Dropped
    {
      BetweenDeliveries(r.accepted, r.fates, k);
    }
  }

  // ---------------------------------------------------------------- the loop

  class AcquisitionWorker {
    const options: Options
    const queue: AcquisitionQueue<Packet>
    var framesReceived: nat
    var cameraFrameGaps: nat
    var captureTimeouts: nat
    var incompleteFrames: nat
    var bytesReceived: nat
    var completed: bool
    var lastSequenceNumber: nat
    var lastError: Option<End>
    // the variables of the loop
    var sequence: nat
    var previousNumber: nat
    var consecutiveTimeouts: nat
    var expectedGeometry: Option<Geometry>
    var expectedPixelFormat: Option<nat>
    var probesLeft: nat
    ghost var log: seq<Event>

    ghost function Shown(): Tally
      reads this`framesReceived, this`cameraFrameGaps, this`captureTimeouts, this`incompleteFrames, this`bytesReceived
    {
      Tally(framesReceived, cameraFrameGaps, captureTimeouts, incompleteFrames, bytesReceived)
    }

    ghost function Loop(): Locals
      reads this`sequence, this`previousNumber, this`consecutiveTimeouts, this`expectedGeometry
      reads this`expectedPixelFormat, this`probesLeft
    {
      Locals(sequence, previousNumber, consecutiveTimeouts, expectedGeometry, expectedPixelFormat, probesLeft)
    }

    /**
     The answer is the one the events so far demand. An event that counts joins them and reaches the
     ring; any other changes no counter and does not touch the ring. At the end the reported sequence
     number is the number of frames, and one more only if the clock model threw.
     */
    ghost predicate Handled(before: seq<Event>, ring: QueueState<Packet>, e: Event, end: Option<End>)
      requires ring.WellFormed()
      reads this, queue
    {
      var counts := end.None? || CountedLast(end.value);
      && end == EndsWith(options, before, ring.closed, e)
      && log == (if counts then before + [e] else before)
      && queue.state == (if counts then Run(ring, OpsOfOne(options, before, e)) else ring)
      && Shown() == TallyOf(options, log)
      && (end.None? ==> Loop() == LocalsOf(options, log))
      && (end.Some? ==>
            && completed
            && lastSequenceNumber == framesReceived + (if end.value.ClockThrew? then 1 else 0)
            && lastError == if Quiet(end.value) then None else end)
    }

    constructor (options: Options, queue: AcquisitionQueue<Packet>)
      ensures this.options == options && this.queue == queue && log == []
      ensures Shown() == TallyOf(options, []) && Loop() == LocalsOf(options, [])
    {
      this.options := options;
      this.queue := queue;
      framesReceived, cameraFrameGaps, captureTimeouts, incompleteFrames, bytesReceived := 0, 0, 0, 0, 0;
      completed, lastSequenceNumber, lastError := false, 0, None;
      sequence, previousNumber, consecutiveTimeouts := 0, 0, 0;
      expectedGeometry, expectedPixelFormat := None, None;
      probesLeft := if options.probe then PROBED_ATTEMPTS else 0;
      log := [];
    }

    method Finish(error: Option<End>, last: nat)
      modifies this`completed, this`lastSequenceNumber, this`lastError
      ensures completed && lastSequenceNumber == last && lastError == error
    {
      completed, lastSequenceNumber, lastError := true, last, error;
    }

    /** The run ends with an event that does not count. */
    method End(e: Event, end: End, last: nat)
      requires queue.Valid() && queue.state.WellFormed() && Shown() == TallyOf(options, log)
      requires EndsWith(options, log, queue.state.closed, e) == Some(end) && !CountedLast(end)
      requires last == framesReceived + (if end.ClockThrew? then 1 else 0)
      modifies this`completed, this`lastSequenceNumber, this`lastError
      ensures queue.Valid() && Handled(old(log), old(queue.state), e, Some(end))
    {
      hide AcquisitionQueue.Valid, QueueState.WellFormed, TallyOf, LocalsOf, EndsWith, Run;
      Finish(if Quiet(end) then None else Some(end), last);
    }

    /** The run goes on after an event that counts, or ends with it. */
    method Conclude(e: Event, end: Option<End>, ghost before: seq<Event>, ghost ring: QueueState<Packet>)
      requires queue.Valid() && ring.WellFormed() && log == before + [e]
      requires Shown() == TallyOf(options, log) && Loop() == LocalsOf(options, log)
      requires EndsWith(options, before, ring.closed, e) == end && (end.Some? ==> CountedLast(end.value))
      requires queue.state == Run(ring, OpsOfOne(options, before, e)) && sequence == framesReceived
      modifies this`completed, this`lastSequenceNumber, this`lastError
      ensures queue.Valid() && Handled(before, ring, e, end)
    {
      hide AcquisitionQueue.Valid, QueueState.WellFormed, TallyOf, LocalsOf, EndsWith, Run, OpsOfOne;
      if end.Some? {
        Finish(if Quiet(end.value) then None else end, sequence);
      }
    }

    /** One pass of the loop, or one operation of another thread on the ring. */
    method Handle(e: Event) returns (end: Option<End>)
      requires Shown() == TallyOf(options, log) && Loop() == LocalsOf(options, log) && queue.Valid()
      modifies this, queue, queue.slots
      ensures queue.Valid() && Handled(old(log), old(queue.state), e, end)
    {
      hide TallyOf, LocalsOf, Received, OpsOf, TrailingTimeouts;
      hide AcquisitionQueue.Valid, QueueState.WellFormed, Step, Run, AcquisitionWorker.Handled;
      ghost var before, ring := log, queue.state;
      queue.ValidState();
      RunShort(queue.state);
      OneMore(options, log, e);
      match e
      case Elsewhere(op) =>
        queue.Apply(op);
        log := log + [e];
        Conclude(e, None, before, ring);
        return None;
      case Attempt(stop, trigger, acquisition, capture, _, _, _, _) =>
        if stop {
          End(e, StopSeen, sequence);
          return Some(StopSeen);
        }
        if options.softwareTrigger {
          match trigger
          case WaitStopped =>
            End(e, StopSeen, sequence);
            return Some(StopSeen);
          case TriggerFails(code) =>
            End(e, TriggerError(code), sequence);
            return Some(TriggerError(code));
          case TriggerThrows =>
            End(e, DeviceThrew, sequence);
            return Some(DeviceThrew);
          case Triggered =>
        }
        match acquisition
        case PoolGone =>
          End(e, PoolClosed, sequence);
          return Some(PoolClosed);
        case NoBuffer =>
          log := log + [e];
          Conclude(e, None, before, ring);
          return None;
        case Buffer =>
          end := HandleCapture(e);
          return;
    }

    method HandleCapture(e: Event) returns (end: Option<End>)
      requires Shown() == TallyOf(options, log) && Loop() == LocalsOf(options, log) && queue.Valid()
      requires HasBuffer(e) && !e.stop && (options.softwareTrigger ==> e.trigger.Triggered?)
      modifies this, queue, queue.slots
      ensures queue.Valid() && Handled(old(log), old(queue.state), e, end)
    {
      hide TallyOf, LocalsOf, Received, OpsOf, OpsOfOne, TrailingTimeouts, ProbesLeft, BuffersTaken, EndsWith;
      hide AcquisitionQueue.Valid, QueueState.WellFormed, AfterPush, Run, AcquisitionWorker.Handled;
      EndsOfCapture(options, log, queue.closed, e);
      FrameIsPushed(options, log, e);
      ghost var before, ring := log, queue.state;
      queue.ValidState();
      RunShort(queue.state);
      OneMore(options, log, e);
      var probe := probesLeft > 0;
      if probe {
        probesLeft := probesLeft - 1;
      }
      match e.capture
      case NoFrame =>
        captureTimeouts := captureTimeouts + 1;
        consecutiveTimeouts := consecutiveTimeouts + 1;
        log := log + [e];
        end := if consecutiveTimeouts >= options.limit then Some(TimeoutLimit) else None;
        Conclude(e, end, before, ring);
      case CaptureFails(code) =>
        End(e, CaptureError(code), sequence);
        return Some(CaptureError(code));
      case CaptureThrows =>
        End(e, DeviceThrew, sequence);
        return Some(DeviceThrew);
      case Captured(metadata, payload) =>
        consecutiveTimeouts := 0;
        if probe {
          if e.probeThrows {
            End(e, DeviceThrew, sequence);
            return Some(DeviceThrew);
          }
          var classification := InspectStartupBuffer(payload);
          if classification == UnwrittenSentinel {
            incompleteFrames := incompleteFrames + 1;
            log := log + [e];
            Conclude(e, None, before, ring);
            return None;
          }
        }
        end := Admit(e);
    }

    /** A captured frame: it is numbered, compared with the first one, timed, counted and pushed. */
    method Admit(e: Event) returns (end: Option<End>)
      requires Shown() == TallyOf(options, log) && queue.Valid()
      requires Loop() == LocalsOf(options, log).(timeouts := 0, probes := ProbesLeft(options, log + [e]))
      requires IsFrame(options, log, e) && !e.stop && (options.softwareTrigger ==> e.trigger.Triggered?)
      requires !(Probing(options, log) && e.probeThrows)
      modifies this, queue, queue.slots
      ensures queue.Valid() && Handled(old(log), old(queue.state), e, end)
    {
      hide TallyOf, LocalsOf, Received, OpsOf, OpsOfOne, TrailingTimeouts, ProbesLeft, BuffersTaken, EndsWith;
      hide AcquisitionQueue.Valid, QueueState.WellFormed, AfterPush, Run, AcquisitionWorker.Handled;
      EndsOfCapture(options, log, queue.closed, e);
      FrameIsPushed(options, log, e);
      ghost var before, ring := log, queue.state;
      queue.ValidState();
      RunShort(queue.state);
      OneMore(options, log, e);
      var metadata, payload := e.capture.metadata, e.capture.payload;
      sequence := sequence + 1;
      if expectedGeometry.None? {
        expectedGeometry, expectedPixelFormat := Some(metadata.geometry), Some(metadata.pixelFormat);
      } else if Some(metadata.geometry) != expectedGeometry || Some(metadata.pixelFormat) != expectedPixelFormat {
        End(e, FormatChanged, sequence - 1);
        return Some(FormatChanged);
      }
      if !e.timesFit {
        End(e, TimeUnavailable, sequence - 1);
        return Some(TimeUnavailable);
      }
      if e.clockThrows {
        End(e, ClockThrew, sequence);
        return Some(ClockThrew);
      }
      Count(e);
      end := Deliver(e);
    }

    /** The counters move on by one frame. */
    method Count(e: Event)
      requires IsFrame(options, log, e) && Shown() == TallyOf(options, log)
      requires Loop().(previous := e.capture.metadata.number) == LocalsOf(options, log + [e])
      requires previousNumber == LocalsOf(options, log).previous
      modifies this`cameraFrameGaps, this`previousNumber, this`framesReceived, this`bytesReceived, this`incompleteFrames
      ensures Shown() == TallyOf(options, log + [e]) && Loop() == LocalsOf(options, log + [e])
    {
      hide TallyOf, LocalsOf, Received, TrailingTimeouts, ProbesLeft, BuffersTaken;
      OneMore(options, log, e);
      var metadata := e.capture.metadata;
      if previousNumber > 0 && metadata.number > previousNumber && metadata.number - previousNumber > 1 {
        cameraFrameGaps := cameraFrameGaps + (metadata.number - previousNumber - 1);
      }
      previousNumber := metadata.number;
      framesReceived := framesReceived + 1;
      bytesReceived := bytesReceived + |e.capture.payload|;
      if metadata.incomplete {
        incompleteFrames := incompleteFrames + 1;
      }
    }

    /** The counted frame goes into the ring. */
    method Deliver(e: Event) returns (end: Option<End>)
      requires queue.Valid() && IsFrame(options, log, e) && Refused(options, log, e).None?
      requires !e.stop && (options.softwareTrigger ==> e.trigger.Triggered?)
      requires !(Probing(options, log) && e.probeThrows)
      requires Shown() == TallyOf(options, log + [e]) && Loop() == LocalsOf(options, log + [e])
      modifies this, queue, queue.slots
      ensures queue.Valid() && Handled(old(log), old(queue.state), e, end)
    {
      hide TallyOf, LocalsOf, Received, OpsOf, OpsOfOne, TrailingTimeouts, ProbesLeft, BuffersTaken, EndsWith;
      hide AcquisitionQueue.Valid, QueueState.WellFormed, AfterPush, Run, AcquisitionWorker.Handled;
      EndsOfFrame(options, log, queue.closed, e);
      FrameIsPushed(options, log, e);
      OneMore(options, log, e);
      ghost var before, ring := log, queue.state;
      queue.ValidState();
      RunShort(queue.state);
      hide IsFrame, Refused, Probing;
      var status := queue.Push(Packet(sequence, e.capture.metadata, |e.capture.payload|));
      log := log + [e];
      end := if e.recordThrows then Some(ReportThrew) else if status == RejectedClosed then Some(RingClosed) else None;
      Conclude(e, end, before, ring);
    }

    /**
     The whole loop. It stops at the first event that ends it, or when the script is over, which reads
     as the stop token being seen.
     */
    method RunLoop(script: seq<Event>) returns (end: End, handled: nat)
      requires Shown() == TallyOf(options, log) && Loop() == LocalsOf(options, log) && queue.Valid() && log == []
      modifies this, queue, queue.slots
      ensures queue.Valid() && EndsAt(options, old(queue.state), script, handled, end, log)
      ensures queue.state == Run(old(queue.state), OpsOf(options, log)) && Shown() == TallyOf(options, log)
      ensures completed && lastError == if Quiet(end) then None else Some(end)
      ensures lastSequenceNumber == framesReceived + (if end.ClockThrew? then 1 else 0)
    {
      hide AcquisitionQueue.Valid, QueueState.WellFormed, EndsWith, Run, Ongoing, TallyOf, LocalsOf, OpsOf, OpsOfOne;
      queue.ValidState();
      RunShort(queue.state);
      ghost var start := queue.state;
      NothingYet(options, start);
      handled := 0;
      while handled < |script|
        invariant handled <= |script| && log == script[..handled]
        invariant queue.Valid() && queue.state == Run(start, OpsOf(options, log))
        invariant Shown() == TallyOf(options, log) && Loop() == LocalsOf(options, log)
        invariant Ongoing(options, start, log)
      {
        var e := script[handled];
        StillOngoing(options, start, log, e);
        assert script[..handled + 1] == script[..handled] + [e];
        var outcome := Handle(e);
        if outcome.Some? {
          return outcome.value, handled;
        }
        handled := handled + 1;
      }
      FramesAreSequence(options, log);
      Finish(None, sequence);
      return StopSeen, handled;
    }
  }

  // ---------------------------------------------------------------- the start-up probe

  datatype Classification = AllZeroOverwritten | UnwrittenSentinel | PartialWriteSuspected | Normal

  /** Tells from the bytes of a buffer that was filled with the sentinel what the device wrote into it. */
  method InspectStartupBuffer(payload: seq<nat>) returns (classification: Classification)
    ensures classification.UnwrittenSentinel? <==> Unwritten(payload)
    ensures classification.PartialWriteSuspected? <==>
      && payload != [] && !Unwritten(payload)
      && (payload[0] == SENTINEL || payload[|payload| - 1] == SENTINEL)
    ensures classification.AllZeroOverwritten? <==> payload != [] && forall i | 0 <= i < |payload| :: payload[i] == 0
  {
    if payload == [] {
      return Normal;
    }
    var zeroBytes, sentinelBytes := 0, 0;
    for i := 0 to |payload|
      invariant zeroBytes <= i && sentinelBytes <= i
      invariant zeroBytes == i <==> forall k | 0 <= k < i :: payload[k] == 0
      invariant sentinelBytes == i <==> forall k | 0 <= k < i :: payload[k] == SENTINEL
    {
      zeroBytes := zeroBytes + if payload[i] == 0 then 1 else 0;
      sentinelBytes := sentinelBytes + if payload[i] == SENTINEL then 1 else 0;
    }
    var leading := 0;
    while leading < |payload| && payload[leading] == SENTINEL
      invariant leading <= |payload| && (leading > 0 ==> payload[0] == SENTINEL)
    {
      leading := leading + 1;
    }
    var trailing := 0;
    while trailing < |payload| && payload[|payload| - 1 - trailing] == SENTINEL
      invariant trailing <= |payload| && (trailing > 0 ==> payload[|payload| - 1] == SENTINEL)
    {
      trailing := trailing + 1;
    }
    classification :=
      if sentinelBytes == |payload| then UnwrittenSentinel
      else if leading > 0 || trailing > 0 then PartialWriteSuspected
      else if zeroBytes == |payload| then AllZeroOverwritten
      else Normal;
  }
}
