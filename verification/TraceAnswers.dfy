/**
 What each step of the trace recorder does, field by field: src/agent/ActivityTraceRecorder.ts.
 What a lemma does not name stays as it was.
 */
module TraceAnswers {
  import opened Wrappers
  import opened TraceRecorder

  /** The summaries of all other sessions are the same. */
  ghost predicate OthersKept(before: map<Session, Summary>, after: map<Session, Summary>, s: Session) {
    forall other: Session | other != s :: SummaryOf(after, other) == SummaryOf(before, other)
  }

  /**
   An event is recorded while persistence is on and the session is below its cap: it is pending, last.
   Otherwise it is dropped and the trace is truncated. Either way it counts, and while persistence is on
   the summary is to be written and the timer runs.
   */
  lemma AppendAnswers(t: Trace, s: Session, e: Event)
    ensures Enabled(t, DoAppend(s, e))
    ensures var t' := Next(t, DoAppend(s, e));
      var recorded := !t.disabled && SummaryOf(t.summaries, s).recorded < t.cap;
      var before, after := SummaryOf(t.summaries, s), SummaryOf(t'.summaries, s);
      && after ==
         (if recorded then Summary(before.eventCount + 1, before.recorded + 1, before.dropped, before.truncated)
          else Summary(before.eventCount + 1, before.recorded, before.dropped + 1, true))
      && s in t'.summaries && OthersKept(t.summaries, t'.summaries, s)
      && EventsOf(t'.pending, s) == EventsOf(t.pending, s) + (if recorded then [e] else [])
      && (forall other: Session | other != s :: EventsOf(t'.pending, other) == EventsOf(t.pending, other))
      && t'.dirty == (if t.disabled then t.dirty else t.dirty + {s})
      && t'.timer == (!t.disabled || t.timer)
      && t'.inFlight == t.inFlight && t'.disk == t.disk && t'.saved == t.saved && t'.disabled == t.disabled
      && t'.queued == t.queued && t'.state == t.state && t'.cap == t.cap
  {
    assert EventsOf(t.pending, s) + [] == EventsOf(t.pending, s);
  }

  /** The timer and a call of `flush` do the same, except that the timer must be running to fire. */
  lemma ChainAnswers(t: Trace)
    ensures Enabled(t, TimerFires) <==> t.timer
    ensures Enabled(t, FlushCalled)
    ensures Next(t, FlushCalled) == t.(timer := false, queued := t.queued + 1)
    ensures t.timer ==> Next(t, TimerFires) == Next(t, FlushCalled)
  {
  }

  /**
   Flushes run one at a time. One that begins after persistence was given up does nothing; otherwise it takes
   all that is pending, and the summaries to write.
   */
  lemma BeginAnswers(t: Trace)
    requires Lane(t)
    ensures Enabled(t, FlushBegins) <==> t.queued > 0 && t.state == Idle
    ensures Enabled(t, FlushBegins) ==>
              var t' := Next(t, FlushBegins);
              var left := t.(queued := t.queued - 1);
              if t.disabled then t' == left
              else
                && (forall s: Session :: EventsOf(t'.inFlight, s) == EventsOf(t.pending, s))
                && t' == left.(inFlight := t'.inFlight, pending := map[], dirty := {},
                               state := Flushing(Flush(t.pending.Keys, t.dirty, None, t.accepted)))
  {
  }

  /** A batch that is written is on disk after what was there, and no longer in flight. */
  lemma BatchAnswers(t: Trace, s: Session)
    requires t.state.Flushing? && s in t.state.flush.batches
    ensures Enabled(t, BatchWritten(s, true))
    ensures var t' := Next(t, BatchWritten(s, true));
      && EventsOf(t'.disk, s) == EventsOf(t.disk, s) + EventsOf(t.inFlight, s) && EventsOf(t'.inFlight, s) == []
      && (forall other: Session | other != s ::
            EventsOf(t'.disk, other) == EventsOf(t.disk, other)
            && EventsOf(t'.inFlight, other) == EventsOf(t.inFlight, other))
      && t' == t.(disk := t'.disk, inFlight := t'.inFlight, state := t'.state)
      && t'.state.Flushing? && t'.state.flush == t.state.flush.(batches := t.state.flush.batches - {s})
  {
  }

  /** Once the batches are written, summaries are serialized and written one after the other. */
  lemma SummaryAnswers(t: Trace, s: Session)
    requires t.state.Flushing? && s in t.state.flush.summaries
    ensures Enabled(t, SummaryTaken(s)) <==> t.state.flush.batches == {} && t.state.flush.writing == None
    ensures Enabled(t, SummaryTaken(s)) ==>
              var t' := Next(t, SummaryTaken(s));
              var flush := t.state.flush.(summaries := t.state.flush.summaries - {s},
                                          writing := Some(Snapshot(s, SummaryOf(t.summaries, s))));
              && t' == t.(state := Flushing(flush))
              && Enabled(t', SummaryWritten(true))
              && Next(t', SummaryWritten(true)) == t'.(saved := t.saved[s := SummaryOf(t.summaries, s)],
                                                       state := Flushing(flush.(writing := None)))
  {
  }

  /** Only what the flush has still to write is written. */
  lemma WritesArePlanned(t: Trace, s: Session, ok: bool)
    ensures Enabled(t, BatchWritten(s, ok)) <==> t.state.Flushing? && s in t.state.flush.batches
    ensures Enabled(t, SummaryTaken(s)) ==> t.state.Flushing? && s in t.state.flush.summaries
    ensures Enabled(t, SummaryWritten(ok)) <==> t.state.Flushing? && t.state.flush.writing.Some?
  {
  }

  /** A flush with nothing left to write ends, and the next may begin. */
  lemma EndAnswers(t: Trace)
    ensures Enabled(t, FlushEnds) <==>
            t.state.Flushing? && t.state.flush == Flush({}, {}, None, t.state.flush.due)
    ensures Enabled(t, FlushEnds) ==> Next(t, FlushEnds) == t.(state := Idle)
  {
  }

  /** Persistence is given up: buffers are empty, the files stay, and every event that is lost counts as dropped. */
  ghost predicate GivenUp(t: Trace, t': Trace) {
    && t'.disabled && t'.state.Idle?
    && t'.pending == map[] && t'.inFlight == map[] && t'.dirty == {}
    && t'.disk == t.disk && t'.saved == t.saved
    && t'.timer == t.timer && t'.queued == t.queued && t'.cap == t.cap && t'.accepted == t.accepted
    && forall s: Session :: LossCounted(t, t', s)
  }

  /** What was buffered for the session moved from the recorded to the dropped events. */
  predicate LossCounted(t: Trace, t': Trace, s: Session) {
    var lost := |EventsOf(t.inFlight, s)| + |EventsOf(t.pending, s)|;
    var before, after := SummaryOf(t.summaries, s), SummaryOf(t'.summaries, s);
    && after.eventCount == before.eventCount
    && after.recorded == before.recorded - lost && after.dropped == before.dropped + lost
    && after.truncated == (before.truncated || s in t.inFlight || s in t.pending)
  }

  /** A batch or a summary that cannot be written ends persistence for good. */
  lemma FailureAnswers(t: Trace, s: Session)
    requires Inv(t) && t.state.Flushing?
    ensures s in t.state.flush.batches ==> GivenUp(t, Next(t, BatchWritten(s, false)))
    ensures t.state.flush.writing.Some? ==> GivenUp(t, Next(t, SummaryWritten(false)))
  {
    forall other: Session
      ensures LossCounted(t, Fail(t), other)
    {
      RollbackNeverClamps(t, other);
      TruncationIsMarked(t, other);
    }
  }

  lemma TruncationIsMarked(t: Trace, s: Session)
    ensures SummaryOf(Fail(t).summaries, s).truncated
         == (SummaryOf(t.summaries, s).truncated || s in t.inFlight || s in t.pending)
  {
  }

  lemma InitiallyEmpty(t: Trace)
    ensures Initial(t) <==>
            && t.summaries == map[] && t.pending == map[] && t.inFlight == map[] && t.disk == map[] && t.saved == map[]
            && t.dirty == {} && !t.disabled && !t.timer && t.queued == 0 && t.state == Idle && t.accepted == map[]
  {
  }
}
