/**
 The write-behind activity trace: src/agent/ActivityTraceRecorder.ts.

 Events are buffered and written by one flush at a time; a flush takes the whole buffer, writes it
 session by session, and new events are buffered meanwhile. If a write fails, persistence is
 given up and the counters are corrected. A `Trace` is the recorder together with what is on
 disk; a `Step` is what runs between two awaits. Writing a batch and forgetting that
 it is in flight are one step, and a failed write leaves nothing behind.
 */
module TraceRecorder {
  import opened Wrappers

  type Session = string

  type Event = nat

  datatype Summary = Summary(eventCount: int, recorded: int, dropped: int, truncated: bool)

  datatype Snapshot = Snapshot(session: Session, summary: Summary)

  /** A flush under way: whose events and summaries are still to be written, and a summary that is being written. */
  datatype Flush = Flush(batches: set<Session>, summaries: set<Session>, writing: Option<Snapshot>,
                         due: map<Session, seq<Event>>)

  datatype FlushState = Idle | Flushing(flush: Flush)

  /**
   `disk` and `saved` are the trace and the summary files. `queued` counts flushes that are chained but
   have not begun. `accepted` is history: the events `append` answered for each session, in order. So
   is `due`: what was accepted when the flush began.
   */
  datatype Trace = Trace(
    cap: nat,
    summaries: map<Session, Summary>,
    pending: map<Session, seq<Event>>,
    inFlight: map<Session, seq<Event>>,
    disk: map<Session, seq<Event>>,
    saved: map<Session, Summary>,
    dirty: set<Session>,
    disabled: bool,
    timer: bool,
    queued: nat,
    state: FlushState,
    accepted: map<Session, seq<Event>>)

  function EventsOf(m: map<Session, seq<Event>>, s: Session): seq<Event> {
    if s in m then m[s] else []
  }

  function SummaryOf(m: map<Session, Summary>, s: Session): Summary {
    if s in m then m[s] else Summary(0, 0, 0, false)
  }

  /** `loadEvents` */
  function LoadEvents(t: Trace, s: Session): seq<Event> {
    EventsOf(t.disk, s) + EventsOf(t.inFlight, s) + EventsOf(t.pending, s)
  }

  // ---------------------------------------------------------------- steps

  function Updated(summary: Summary, recorded: bool): Summary {
    if recorded then summary.(eventCount := summary.eventCount + 1, recorded := summary.recorded + 1)
    else summary.(eventCount := summary.eventCount + 1, dropped := summary.dropped + 1, truncated := true)
  }

  predicate ShouldRecord(t: Trace, s: Session) {
    !t.disabled && SummaryOf(t.summaries, s).recorded < t.cap
  }

  function Append(t: Trace, s: Session, e: Event): Trace {
    var recorded := ShouldRecord(t, s);
    t.(summaries := t.summaries[s := Updated(SummaryOf(t.summaries, s), recorded)],
       accepted := if recorded then t.accepted[s := EventsOf(t.accepted, s) + [e]] else t.accepted,
       pending := if recorded then t.pending[s := EventsOf(t.pending, s) + [e]] else t.pending,
       dirty := if t.disabled then t.dirty else t.dirty + {s},
       timer := t.timer || !t.disabled)
  }

  /** The timer fires, or `flush` is called: the timer is gone and one more flush is chained. */
  function QueueFlush(t: Trace): Trace {
    t.(timer := false, queued := t.queued + 1)
  }

  function BeginFlush(t: Trace): Trace
    requires t.queued > 0
  {
    var t1 := t.(queued := t.queued - 1);
    if t.disabled then t1
    else t1.(inFlight := t.inFlight + t.pending, pending := map[], dirty := {},
             state := Flushing(Flush(t.pending.Keys, t.dirty, None, t.accepted)))
  }

  function RolledBack(summary: Summary, events: nat): Summary {
    Summary(summary.eventCount, if summary.recorded < events then 0 else summary.recorded - events,
            summary.dropped + events, true)
  }

  function RollBack(summaries: map<Session, Summary>, buffered: map<Session, seq<Event>>): map<Session, Summary> {
    map s | s in summaries.Keys + buffered.Keys ::
      if s in buffered then RolledBack(SummaryOf(summaries, s), |buffered[s]|) else summaries[s]
  }

  function Fail(t: Trace): Trace {
    t.(disabled := true, summaries := RollBack(RollBack(t.summaries, t.inFlight), t.pending),
       inFlight := map[], pending := map[], dirty := {}, state := Idle)
  }

  function WriteBatch(t: Trace, s: Session, ok: bool): Trace
    requires t.state.Flushing?
  {
    if !ok then Fail(t)
    else
      var f := t.state.flush;
      t.(disk := t.disk[s := EventsOf(t.disk, s) + EventsOf(t.inFlight, s)], inFlight := t.inFlight - {s},
         state := Flushing(f.(batches := f.batches - {s})))
  }

  /** The summary is taken as it is now, before the write is awaited. */
  function TakeSnapshot(t: Trace, s: Session): Trace
    requires t.state.Flushing?
  {
    var f := t.state.flush;
    t.(state := Flushing(f.(summaries := f.summaries - {s}, writing := Some(Snapshot(s, SummaryOf(t.summaries, s))))))
  }

  function WriteSummary(t: Trace, ok: bool): Trace
    requires t.state.Flushing? && t.state.flush.writing.Some?
  {
    if !ok then Fail(t)
    else
      var f := t.state.flush;
      t.(saved := t.saved[f.writing.value.session := f.writing.value.summary],
         state := Flushing(f.(writing := None)))
  }

  datatype Step =
    | DoAppend(session: Session, event: Event)
    | TimerFires
    | FlushCalled
    | FlushBegins
    | BatchWritten(session: Session, ok: bool)
    | SummaryTaken(session: Session)
    | SummaryWritten(ok: bool)
    | FlushEnds

  predicate Enabled(t: Trace, step: Step) {
    match step
    case DoAppend(_, _) => true
    case TimerFires => t.timer
    case FlushCalled => true
    case FlushBegins => t.queued > 0 && t.state.Idle?
    case BatchWritten(s, _) => t.state.Flushing? && s in t.state.flush.batches
    case SummaryTaken(s) =>
      t.state.Flushing? && t.state.flush.batches == {} && t.state.flush.writing.None? && s in t.state.flush.summaries
    case SummaryWritten(_) => t.state.Flushing? && t.state.flush.writing.Some?
    case FlushEnds =>
      && t.state.Flushing? && t.state.flush.batches == {} && t.state.flush.summaries == {}
      && t.state.flush.writing.None?
  }

  function Next(t: Trace, step: Step): Trace
    requires Enabled(t, step)
  {
    match step
    case DoAppend(s, e) => Append(t, s, e)
    case TimerFires => QueueFlush(t)
    case FlushCalled => QueueFlush(t)
    case FlushBegins => BeginFlush(t)
    case BatchWritten(s, ok) => WriteBatch(t, s, ok)
    case SummaryTaken(s) => TakeSnapshot(t, s)
    case SummaryWritten(ok) => WriteSummary(t, ok)
    case FlushEnds => t.(state := Idle)
  }

  predicate Initial(t: Trace) {
    t == Trace(t.cap, map[], map[], map[], map[], map[], {}, false, false, 0, Idle, map[])
  }

  // ---------------------------------------------------------------- the recorder

  /** `disk` and `saved` are the trace and summary files; the ghost fields are the history of the theorems. */
  class ActivityTraceRecorder {
    const cap: nat
    var summaries: map<Session, Summary>
    var pending: map<Session, seq<Event>>
    var inFlight: map<Session, seq<Event>>
    var disk: map<Session, seq<Event>>
    var saved: map<Session, Summary>
    var dirty: set<Session>
    var disabled: bool
    var timer: bool
    var queued: nat
    var flushing: bool
    var batches: set<Session>
    var snapshots: set<Session>
    var writing: Option<Snapshot>
    ghost var accepted: map<Session, seq<Event>>
    ghost var due: map<Session, seq<Event>>

    ghost function View(): Trace
      reads this
    {
      Trace(cap, summaries, pending, inFlight, disk, saved, dirty, disabled, timer, queued,
            if flushing then Flushing(Flush(batches, snapshots, writing, due)) else Idle, accepted)
    }

    constructor (cap: nat)
      ensures Initial(View()) && this.cap == cap
    {
      this.cap := cap;
      summaries, pending, inFlight, disk, dirty := map[], map[], map[], map[], {};
      disabled, timer, queued, flushing, batches, snapshots := false, false, 0, false, {}, {};
      saved, writing := map[], None;
      accepted, due := map[], map[];
    }

    /** The answer says whether the source returns the event or null. */
    method AppendEvent(s: Session, e: Event) returns (recorded: bool)
      modifies this
      ensures View() == Append(old(View()), s, e) && recorded == ShouldRecord(old(View()), s)
    {
      recorded := !disabled && SummaryOf(summaries, s).recorded < cap;
      summaries := summaries[s := Updated(SummaryOf(summaries, s), recorded)];
      if recorded {
        accepted := accepted[s := EventsOf(accepted, s) + [e]];
      }
      if disabled {
        return;
      }
      if recorded {
        pending := pending[s := EventsOf(pending, s) + [e]];
      }
      dirty := dirty + {s};
      if !timer {
        timer := true;
      }
    }

    /** `flush`, and what the timer does when it fires. */
    method ChainFlush()
      modifies this`timer, this`queued
      ensures View() == QueueFlush(old(View()))
    {
      timer := false;
      queued := queued + 1;
    }

    /** `flushNow` up to its first write. */
    method StartFlush()
      requires queued > 0 && !flushing
      modifies this
      ensures View() == BeginFlush(old(View()))
    {
      queued := queued - 1;
      if disabled {
        return;
      }
      TakeBuffer();
    }

    /** The buffer is taken whole: what was pending is in flight, and what is appended from now on is pending. */
    method TakeBuffer()
      requires !flushing
      modifies this`pending, this`inFlight, this`batches, this`snapshots, this`writing, this`flushing, this`due,
               this`dirty
      ensures pending == map[] && inFlight == old(inFlight) + old(pending) && dirty == {}
      ensures flushing && batches == old(pending).Keys && snapshots == old(dirty) && writing == None && due == accepted
    {
      MoveInFlight(pending);
      batches, snapshots, flushing := pending.Keys, dirty, true;
      writing, due := None, accepted;
      pending, dirty := map[], {};
    }

    method MoveInFlight(taken: map<Session, seq<Event>>)
      modifies this`inFlight
      ensures inFlight == old(inFlight) + taken
    {
      var rest := taken.Keys;
      while rest != {}
        invariant rest <= taken.Keys
        invariant inFlight.Keys == old(inFlight).Keys + (taken.Keys - rest)
        invariant forall s | s in inFlight ::
                    inFlight[s] == if s in taken.Keys - rest then taken[s] else old(inFlight)[s]
        decreases rest
      {
        var s :| s in rest;
        inFlight := inFlight[s := taken[s]];
        rest := rest - {s};
      }
    }

    method FinishBatch(s: Session, ok: bool)
      requires flushing && s in batches
      modifies this
      ensures View() == WriteBatch(old(View()), s, ok)
    {
      if !ok {
        GiveUp();
        return;
      }
      disk := disk[s := EventsOf(disk, s) + EventsOf(inFlight, s)];
      inFlight := inFlight - {s};
      batches := batches - {s};
    }

    /** The serialized summary that the next write puts in the session's file. */
    method BeginSummary(s: Session)
      requires flushing && s in snapshots && writing.None?
      modifies this`snapshots, this`writing
      ensures View() == TakeSnapshot(old(View()), s)
    {
      writing := Some(Snapshot(s, SummaryOf(summaries, s)));
      snapshots := snapshots - {s};
    }

    method FinishSummary(ok: bool)
      requires flushing && writing.Some?
      modifies this
      ensures View() == WriteSummary(old(View()), ok)
    {
      if !ok {
        GiveUp();
        return;
      }
      saved := saved[writing.value.session := writing.value.summary];
      writing := None;
    }

    method EndFlush()
      requires flushing && batches == {} && snapshots == {} && writing.None?
      modifies this`flushing
      ensures View() == Next(old(View()), FlushEnds)
    {
      flushing := false;
    }

    /** The catch block of `flushNow`. */
    method GiveUp()
      modifies this
      ensures View() == Fail(old(View()))
    {
      disabled := true;
      RollBackCounters(inFlight);
      RollBackCounters(pending);
      inFlight, pending, dirty, flushing := map[], map[], {}, false;
    }

    method RollBackCounters(buffered: map<Session, seq<Event>>)
      modifies this`summaries
      ensures summaries == RollBack(old(summaries), buffered)
    {
      var rest := buffered.Keys;
      while rest != {}
        invariant rest <= buffered.Keys
        invariant summaries.Keys == old(summaries).Keys + (buffered.Keys - rest)
        invariant forall s | s in summaries ::
                    summaries[s] == if s in buffered.Keys - rest
                                    then RolledBack(SummaryOf(old(summaries), s), |buffered[s]|)
                                    else old(summaries)[s]
        decreases rest
      {
        var s :| s in rest;
        var summary := SummaryOf(summaries, s);
        var count := |buffered[s]|;
        summaries := summaries[s := Summary(summary.eventCount,
                                            if summary.recorded < count then 0 else summary.recorded - count,
                                            summary.dropped + count, true)];
        rest := rest - {s};
      }
    }
  }

  // ---------------------------------------------------------------- the invariant

  /** The counters of one session, and where its events are. */
  predicate Counted(t: Trace, s: Session) {
    var summary := SummaryOf(t.summaries, s);
    && summary.eventCount == summary.recorded + summary.dropped
    && summary.recorded == |LoadEvents(t, s)| <= t.cap
    && LoadEvents(t, s) <= EventsOf(t.accepted, s)
    && (!t.disabled ==> LoadEvents(t, s) == EventsOf(t.accepted, s))
    && (t.state.Flushing? ==> EventsOf(t.disk, s) + EventsOf(t.inFlight, s) == EventsOf(t.state.flush.due, s))
  }

  /** Only a running flush has events in flight, and persistence is on while it runs. */
  predicate Lane(t: Trace) {
    && t.inFlight.Keys == (if t.state.Flushing? then t.state.flush.batches else {})
    && (t.disabled ==> t.state.Idle? && t.pending == map[])
  }

  /** Whatever waits to be written has a timer or a chained flush that will take it. */
  predicate Scheduled(t: Trace) {
    !t.disabled && (t.pending != map[] || t.dirty != {}) ==> t.timer || t.queued > 0
  }

  /** A summary that is neither dirty nor about to be written is on disk, or is being written, as it is now. */
  predicate SummaryKept(t: Trace, s: Session) {
    !t.disabled && s in t.summaries && s !in t.dirty ==>
      || (t.state.Flushing? && s in t.state.flush.summaries)
      || (t.state.Flushing? && t.state.flush.writing == Some(Snapshot(s, t.summaries[s])))
      || (s in t.saved && t.saved[s] == t.summaries[s]
          && !(t.state.Flushing? && t.state.flush.writing.Some? && t.state.flush.writing.value.session == s))
  }

  ghost predicate Inv(t: Trace) {
    (forall s: Session :: Counted(t, s) && SummaryKept(t, s)) && Lane(t) && Scheduled(t)
  }

  lemma InitialIsInv(t: Trace)
    requires Initial(t)
    ensures Inv(t)
  {
  }

  lemma AppendKeepsCounted(t: Trace, s: Session, e: Event, other: Session)
    requires Counted(t, other) && Lane(t)
    ensures Counted(Append(t, s, e), other)
  {
    if s == other && ShouldRecord(t, s) {
      assert LoadEvents(Append(t, s, e), s) == LoadEvents(t, s) + [e];
    }
  }

  lemma BeginKeepsCounted(t: Trace, s: Session)
    requires Counted(t, s) && Lane(t) && t.queued > 0 && t.state.Idle?
    ensures Counted(BeginFlush(t), s)
  {
    if !t.disabled {
      var t' := BeginFlush(t);
      assert EventsOf(t.inFlight, s) == [];
      assert EventsOf(t'.inFlight, s) == EventsOf(t.pending, s);
      assert LoadEvents(t', s) == LoadEvents(t, s);
      assert EventsOf(t'.disk, s) + EventsOf(t'.inFlight, s) == LoadEvents(t, s);
    }
  }

  lemma WriteKeepsCounted(t: Trace, s: Session, other: Session)
    requires Counted(t, other) && t.state.Flushing?
    ensures Counted(WriteBatch(t, s, true), other)
  {
    var t' := WriteBatch(t, s, true);
    if s == other {
      assert EventsOf(t'.disk, s) + EventsOf(t'.inFlight, s) == EventsOf(t.disk, s) + EventsOf(t.inFlight, s);
    }
    assert LoadEvents(t', other) == LoadEvents(t, other);
  }

  /**
   The rollback takes from the recorded count exactly the events that are not on disk: it never reaches
   below zero.
   */
  lemma RollbackNeverClamps(t: Trace, s: Session)
    requires Counted(t, s)
    ensures var summary, after := SummaryOf(t.summaries, s), SummaryOf(Fail(t).summaries, s);
      var lost := |EventsOf(t.inFlight, s)| + |EventsOf(t.pending, s)|;
      && after.recorded == summary.recorded - lost == |EventsOf(t.disk, s)|
      && after.dropped == summary.dropped + lost
      && after.eventCount == summary.eventCount
  {
    var once := RollBack(t.summaries, t.inFlight);
    assert SummaryOf(once, s).recorded == SummaryOf(t.summaries, s).recorded - |EventsOf(t.inFlight, s)|;
  }

  lemma FailKeepsCounted(t: Trace, s: Session)
    requires Counted(t, s)
    ensures Counted(Fail(t), s)
  {
    RollbackNeverClamps(t, s);
    assert LoadEvents(Fail(t), s) == EventsOf(t.disk, s);
    assert EventsOf(t.disk, s) <= LoadEvents(t, s);
  }

  lemma FailureKeepsLane(t: Trace)
    ensures Lane(Fail(t)) && Scheduled(Fail(t))
  {
    hide RollBack;
  }

  lemma AppendKeepsLane(t: Trace, s: Session, e: Event)
    requires Lane(t) && Scheduled(t)
    ensures Lane(Append(t, s, e)) && Scheduled(Append(t, s, e))
  {
    hide Updated, SummaryOf, EventsOf;
  }

  lemma BatchKeepsLane(t: Trace, s: Session)
    requires Lane(t) && Scheduled(t) && t.state.Flushing?
    ensures Lane(WriteBatch(t, s, true)) && Scheduled(WriteBatch(t, s, true))
  {
    hide EventsOf;
  }

  lemma StepKeepsLane(t: Trace, step: Step)
    requires Lane(t) && Scheduled(t) && Enabled(t, step)
    ensures Lane(Next(t, step)) && Scheduled(Next(t, step))
  {
    FailureKeepsLane(t);
    hide RollBack, Updated, SummaryOf, EventsOf, Fail;
    match step
    case DoAppend(s, e) => AppendKeepsLane(t, s, e);
    case BatchWritten(s, ok) =>
      if ok { BatchKeepsLane(t, s); }
    case _ =>
  }

  lemma StepKeepsInv(t: Trace, step: Step)
    requires Inv(t) && Enabled(t, step)
    ensures Inv(Next(t, step))
  {
    StepKeepsLane(t, step);
    forall other: Session
      ensures Counted(Next(t, step), other) && SummaryKept(Next(t, step), other)
    {
      hide Counted, SummaryKept, Next, Lane, Scheduled, Enabled;
      assert Counted(t, other) && SummaryKept(t, other);
      StepKeepsCounted(t, step, other);
      StepKeepsSummary(t, step, other);
    }
  }

  lemma StepKeepsCounted(t: Trace, step: Step, other: Session)
    requires Counted(t, other) && Lane(t) && Enabled(t, step)
    ensures Counted(Next(t, step), other)
  {
    match step
    case DoAppend(s, e) => AppendKeepsCounted(t, s, e, other);
    case FlushBegins => BeginKeepsCounted(t, other);
    case BatchWritten(s, ok) =>
      if ok { WriteKeepsCounted(t, s, other); } else { FailKeepsCounted(t, other); }
    case SummaryTaken(_) =>
    case SummaryWritten(ok) =>
      if !ok { FailKeepsCounted(t, other); }
    case TimerFires =>
    case FlushCalled =>
    case FlushEnds =>
  }

  lemma StepKeepsSummary(t: Trace, step: Step, other: Session)
    requires SummaryKept(t, other) && Lane(t) && Enabled(t, step)
    ensures SummaryKept(Next(t, step), other)
  {
  }

  predicate Runs(t: Trace, steps: seq<Step>)
    decreases |steps|
  {
    steps != [] ==> Enabled(t, steps[0]) && Runs(Next(t, steps[0]), steps[1..])
  }

  function After(t: Trace, steps: seq<Step>): Trace
    requires Runs(t, steps)
    decreases |steps|
  {
    if steps == [] then t else After(Next(t, steps[0]), steps[1..])
  }

  lemma {:induction false} RunKeepsInv(t: Trace, steps: seq<Step>)
    requires Inv(t) && Runs(t, steps)
    ensures Inv(After(t, steps))
    decreases |steps|
  {
    if steps != [] {
      StepKeepsInv(t, steps[0]);
      RunKeepsInv(Next(t, steps[0]), steps[1..]);
    }
  }

  // ---------------------------------------------------------------- theorems

  /**
   For a session fresh in this process, at any moment: every event is recorded or dropped; the recorded ones are
   on disk, in flight or pending, and never exceed the cap; `loadEvents` is what `append` accepted, in order, as
   long as persistence works, and the part of it that reached the disk afterwards.
   */
  lemma EventsAreConserved(start: Trace, steps: seq<Step>, s: Session)
    requires Initial(start) && Runs(start, steps)
    ensures var t := After(start, steps);
      var summary := SummaryOf(t.summaries, s);
      && summary.eventCount == summary.recorded + summary.dropped
      && summary.recorded == |EventsOf(t.disk, s)| + |EventsOf(t.inFlight, s)| + |EventsOf(t.pending, s)| <= t.cap
      && (!t.disabled ==> LoadEvents(t, s) == EventsOf(t.accepted, s))
      && (t.disabled ==> LoadEvents(t, s) == EventsOf(t.disk, s) <= EventsOf(t.accepted, s))
  {
    InitialIsInv(start);
    RunKeepsInv(start, steps);
    assert Counted(After(start, steps), s);
  }

  /** Nothing is left waiting: while persistence is on, buffered events have an armed timer or a chained flush. */
  lemma BufferedEventsAreScheduled(start: Trace, steps: seq<Step>)
    requires Initial(start) && Runs(start, steps)
    requires !After(start, steps).disabled && After(start, steps).pending != map[]
    ensures After(start, steps).timer || After(start, steps).queued > 0
  {
    InitialIsInv(start);
    RunKeepsInv(start, steps);
  }

  /** When nothing is left to do while persistence is on, every summary is on disk as it is in memory. */
  lemma SummariesAreSaved(start: Trace, steps: seq<Step>, s: Session)
    requires Initial(start) && Runs(start, steps)
    requires var t := After(start, steps); !t.disabled && t.state.Idle? && t.dirty == {} && s in t.summaries
    ensures var t := After(start, steps); s in t.saved && t.saved[s] == t.summaries[s]
  {
    InitialIsInv(start);
    RunKeepsInv(start, steps);
    assert SummaryKept(After(start, steps), s);
  }

  /** A flush that ends has put everything accepted before it began on disk. */
  lemma FlushDelivers(start: Trace, steps: seq<Step>, s: Session)
    requires Initial(start) && Runs(start, steps) && Enabled(After(start, steps), FlushEnds)
    ensures var t := After(start, steps); EventsOf(t.disk, s) == EventsOf(t.state.flush.due, s)
  {
    InitialIsInv(start);
    RunKeepsInv(start, steps);
    assert Counted(After(start, steps), s);
  }

  /** `append` answers the event exactly when it is recorded, and only then does `loadEvents` grow, by that event. */
  lemma AppendIsReadBack(t: Trace, s: Session, e: Event)
    requires Inv(t)
    ensures LoadEvents(Append(t, s, e), s) == LoadEvents(t, s) + (if ShouldRecord(t, s) then [e] else [])
    ensures ShouldRecord(t, s) <==> !t.disabled && |LoadEvents(t, s)| < t.cap
  {
    assert Counted(t, s);
  }
}
