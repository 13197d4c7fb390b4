/**
 Why a capture run ends and what its counters count, said of the script of events alone: which fields
 of which events end the run, and which events it passes.
 */
module CaptureEnds {
  import opened Wrappers
  import opened FrameQueue
  import opened CaptureWorker

  // ---------------------------------------------------------------- positions in a script

  /** The attempts that got a buffer. */
  ghost function BufferPositions(log: seq<Event>): set<nat> {
    set k: nat | k < |log| && log[k].Attempt? && log[k].acquisition.Buffer?
  }

  /** The captures that brought no frame in time. */
  ghost function TimeoutPositions(log: seq<Event>): set<nat> {
    set k: nat | k < |log| && log[k].Attempt? && log[k].acquisition.Buffer? && log[k].capture.NoFrame?
  }

  /** The captures with lost data, and those that left a probed buffer unwritten. */
  ghost function IncompletePositions(o: Options, log: seq<Event>): set<nat> {
    set k: nat | k < |log| && Filled(log[k]) && (log[k].capture.metadata.incomplete || Untouched(o, log[..k], log[k]))
  }

  predicate Filled(e: Event) {
    e.Attempt? && e.acquisition.Buffer? && e.capture.Captured?
  }

  /** One of the first eight buffers, if these are probed, still full of the sentinel. */
  ghost predicate Untouched(o: Options, earlier: seq<Event>, e: Event)
    requires Filled(e)
  {
    && o.probe && |BufferPositions(earlier)| < 8
    && e.capture.payload != [] && forall i | 0 <= i < |e.capture.payload| :: e.capture.payload[i] == 0xa5
  }

  lemma {:induction false} BuffersAreCounted(log: seq<Event>)
    ensures BuffersTaken(log) == |BufferPositions(log)|
  {
    if log == [] {
      assert BufferPositions(log) == {};
    } else {
      var last := |log| - 1;
      BuffersAreCounted(log[..last]);
      assert BufferPositions(log)
          == BufferPositions(log[..last]) + if HasBuffer(log[last]) then {last} else {};
    }
  }

  lemma {:induction false} TimeoutsAreCounted(log: seq<Event>)
    ensures Timeouts(log) == |TimeoutPositions(log)|
  {
    if log == [] {
      assert TimeoutPositions(log) == {};
    } else {
      var last := |log| - 1;
      TimeoutsAreCounted(log[..last]);
      assert TimeoutPositions(log)
          == TimeoutPositions(log[..last]) + if TimedOut(log[last]) then {last} else {};
    }
  }

  lemma FrameOrUntouched(o: Options, earlier: seq<Event>, e: Event)
    requires Filled(e)
    ensures IsFrame(o, earlier, e) <==> !Untouched(o, earlier, e)
    ensures Probing(o, earlier) <==> o.probe && |BufferPositions(earlier)| < 8
  {
    BuffersAreCounted(earlier);
  }

  lemma {:induction false} IncompleteAreCounted(o: Options, log: seq<Event>)
    ensures Incomplete(o, log) == |IncompletePositions(o, log)|
  {
    hide Untouched, Probing;
    if log == [] {
      assert IncompletePositions(o, log) == {};
    } else {
      var last := |log| - 1;
      var before, e := log[..last], log[last];
      IncompleteAreCounted(o, before);
      forall k: nat | k < last
        ensures log[..k] == before[..k]
      {}
      if Filled(e) {
        FrameOrUntouched(o, before, e);
      }
      assert IncompletePositions(o, log)
          == IncompletePositions(o, before)
             + if Filled(e) && (e.capture.metadata.incomplete || Untouched(o, before, e)) then {last} else {};
    }
  }

  /** Nothing but timeouts and unsuccessful attempts since `from`, and a filled buffer before. */
  predicate StartsRow(log: seq<Event>, from: nat) {
    && from <= |log| && (from > 0 ==> Filled(log[from - 1]))
    && forall k | from <= k < |log| :: !Filled(log[k])
  }

  /** The timeouts in a row are those after the last capture that filled a buffer. */
  lemma {:induction false} TimeoutsInARow(log: seq<Event>) returns (from: nat)
    ensures StartsRow(log, from)
    ensures TrailingTimeouts(log) == |TimeoutPositions(log[from..])|
  {
    if log == [] {
      from := 0;
      assert TimeoutPositions(log[from..]) == {};
    } else {
      var last := |log| - 1;
      var e := log[last];
      if Filled(e) {
        from := |log|;
        assert TimeoutPositions(log[from..]) == {};
      } else {
        from := TimeoutsInARow(log[..last]);
        assert log[from..][..last - from] == log[..last][from..];
        TimeoutsAreCounted(log[from..]);
        TimeoutsAreCounted(log[..last][from..]);
      }
    }
  }

  // ---------------------------------------------------------------- why a run ends

  /** An attempt that comes as far as asking for a buffer. */
  predicate Asks(o: Options, e: Event) {
    e.Attempt? && !e.stop && (o.softwareTrigger ==> e.trigger.Triggered?)
  }

  /** An attempt that comes as far as capturing. */
  predicate Captures(o: Options, e: Event) {
    Asks(o, e) && e.acquisition.Buffer?
  }

  /** The events the run passes; each of the others would have ended it. */
  ghost predicate Passes(o: Options, earlier: seq<Event>, e: Event) {
    || e.Elsewhere?
    || (Asks(o, e) && e.acquisition.NoBuffer?)
    || (Captures(o, e) && e.capture.NoFrame?)
    || (Filled(e) && Captures(o, e)
        && ((o.probe && |BufferPositions(earlier)| < 8) ==> !e.probeThrows)
        && (Untouched(o, earlier, e) || (e.timesFit && !e.clockThrows && !e.recordThrows)))
  }

  predicate OtherFormat(a: Metadata, b: Metadata) {
    a.geometry != b.geometry || a.pixelFormat != b.pixelFormat
  }

  /** What the event shows that ends a run, ring being closed or not. */
  ghost predicate Causes(o: Options, earlier: seq<Event>, closed: bool, e: Event, end: End) {
    match end
    case StopSeen => e.Attempt? && (e.stop || (o.softwareTrigger && e.trigger.WaitStopped?))
    case TriggerError(code) => e.Attempt? && !e.stop && o.softwareTrigger && e.trigger == TriggerFails(code)
    case PoolClosed => Asks(o, e) && e.acquisition.PoolGone?
    case TimeoutLimit => Captures(o, e) && e.capture.NoFrame?
    case CaptureError(code) => Captures(o, e) && e.capture == CaptureFails(code)
    case DeviceThrew =>
      || (e.Attempt? && !e.stop && o.softwareTrigger && e.trigger.TriggerThrows?)
      || (Captures(o, e) && e.capture.CaptureThrows?)
      || (Captures(o, e) && Filled(e) && o.probe && |BufferPositions(earlier)| < 8 && e.probeThrows)
    case FormatChanged =>
      && Captures(o, e) && Filled(e) && !Untouched(o, earlier, e)
      && exists i | 0 <= i < |earlier| ::
           Captures(o, earlier[i]) && Filled(earlier[i])
           && OtherFormat(earlier[i].capture.metadata, e.capture.metadata)
    case TimeUnavailable => Captures(o, e) && Filled(e) && !Untouched(o, earlier, e) && !e.timesFit
    case ClockThrew => Captures(o, e) && Filled(e) && !Untouched(o, earlier, e) && e.timesFit && e.clockThrows
    case ReportThrew =>
      Captures(o, e) && Filled(e) && !Untouched(o, earlier, e) && e.timesFit && !e.clockThrows && e.recordThrows
    case RingClosed =>
      && Captures(o, e) && Filled(e) && !Untouched(o, earlier, e)
      && e.timesFit && !e.clockThrows && !e.recordThrows && closed
  }

  lemma EndHasCause(o: Options, q: QueueState<Packet>, earlier: seq<Event>, closed: bool, e: Event)
    requires q.WellFormed() && Ongoing(o, q, earlier)
    requires forall i | 0 <= i < |earlier| :: Passes(o, earlier[..i], earlier[i])
    ensures var end := EndsWith(o, earlier, closed, e);
            if end.Some? then Causes(o, earlier, closed, e, end.value) else Passes(o, earlier, e)
  {
    hide Run, OpsOf, Ongoing, QueueState.WellFormed, Untouched, Probing, IsFrame;
    if Filled(e) {
      FrameOrUntouched(o, earlier, e);
      if IsFrame(o, earlier, e) && Refused(o, earlier, e) == Some(FormatChanged) {
        var i := FirstFrame(o, earlier);
        assert Passes(o, earlier[..i], earlier[i]);
      }
    }
  }

  lemma {:induction false} FirstFrame(o: Options, log: seq<Event>) returns (i: nat)
    requires Received(o, log) != []
    ensures i < |log| && Filled(log[i]) && log[i].capture.metadata == Received(o, log)[0].metadata
  {
    var last := |log| - 1;
    if Received(o, log[..last]) == [] {
      i := last;
    } else {
      i := FirstFrame(o, log[..last]);
    }
  }

  lemma {:induction false} OngoingPasses(o: Options, q: QueueState<Packet>, log: seq<Event>)
    requires q.WellFormed() && Ongoing(o, q, log)
    ensures forall i | 0 <= i < |log| :: Passes(o, log[..i], log[i])
  {
    hide Run, OpsOf, QueueState.WellFormed, EndsWith, Passes, Causes;
    if log != [] {
      var before := log[..|log| - 1];
      OngoingPasses(o, q, before);
      forall i | 0 <= i < |before|
        ensures before[..i] == log[..i] && before[i] == log[i]
      {}
      EndHasCause(o, q, before, Run(q, OpsOf(o, before)).closed, log[|log| - 1]);
    }
  }

  /**
   A run ends at an event whose own fields show the cause, or as stopped when the script is over; and it
   passes nothing that is such a cause. In particular a free buffer that does not come in time never
   ends it.
   */
  lemma RunEndsForCause(o: Options, q: QueueState<Packet>, script: seq<Event>, handled: nat, end: End,
                        log: seq<Event>)
    requires q.WellFormed() && EndsAt(o, q, script, handled, end, log)
    ensures forall i | 0 <= i < handled :: Passes(o, script[..i], script[i])
    ensures handled == |script| ==> end == StopSeen
    ensures handled < |script| ==>
              && Causes(o, script[..handled], Run(q, OpsOf(o, script[..handled])).closed, script[handled], end)
              && !(Asks(o, script[handled]) && script[handled].acquisition.NoBuffer?)
  {
    hide Run, OpsOf, Ongoing, QueueState.WellFormed, EndsWith, Passes, Untouched;
    var before := script[..handled];
    OngoingPasses(o, q, before);
    forall i | 0 <= i < handled
      ensures before[..i] == script[..i] && before[i] == script[i]
    {}
    if handled < |script| {
      EndHasCause(o, q, before, Run(q, OpsOf(o, before)).closed, script[handled]);
    }
  }

  lemma RowIsUnique(log: seq<Event>, a: nat, b: nat)
    requires StartsRow(log, a) && StartsRow(log, b)
    ensures a == b
  {}

  /** The run gives up exactly when as many captures as the limit timed out since the last filled buffer. */
  lemma GivesUpOnRow(o: Options, q: QueueState<Packet>, script: seq<Event>, handled: nat, end: End, log: seq<Event>,
                     from: nat)
    requires q.WellFormed() && EndsAt(o, q, script, handled, end, log) && o.limit > 0 && StartsRow(log, from)
    ensures end.TimeoutLimit? <==> |TimeoutPositions(log[from..])| == o.limit
    ensures |TimeoutPositions(log[from..])| <= o.limit
  {
    hide EndsAt, QueueState.WellFormed, TrailingTimeouts;
    GivesUpAtLimit(o, q, script, handled, end, log);
    var row := TimeoutsInARow(log);
    RowIsUnique(log, row, from);
  }

  /** The counters of a run, said of the script. */
  lemma CountersCount(o: Options, log: seq<Event>)
    ensures var tally := TallyOf(o, log);
            && tally.timeouts == |TimeoutPositions(log)|
            && tally.incomplete == |IncompletePositions(o, log)|
  {
    TimeoutsAreCounted(log);
    IncompleteAreCounted(o, log);
  }
}
