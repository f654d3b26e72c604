/**
 The batch scheduler of src/agent/AgentEngine.ts (`executeToolCalls`).

 A batch of tool calls runs on one thread; calls finish only while the scheduler
 is suspended in an `await`, in any order, and the turn may be aborted at any
 moment. `ExecuteToolCalls` is the scheduler itself, with those choices left open.
 It returns the result array and the log of everything observable: which call
 started when, which result was reported when, the abort, and for which calls the
 scheduler waited.

 `Lawful` reads such a log from left to right and says which event may come next.
 The lemmas below it turn that step-by-step law into statements about whole logs.
 */
module ToolScheduler {
  import opened Wrappers

  datatype Call = Call(id: string, name: string, input: string)

  /** What `parseToolResultPayload` can tell about the text of a result. */
  datatype Payload =
    | Unparsed
    | Parsed(okIsTrue: bool, mode: Option<string>, modeSwitched: Option<string>)

  datatype Body =
    | Returned(payload: Payload)
    | ModeSwitchSkipped(mode: Option<string>)
    | FinalStatusSkipped
    | Aborted

  datatype CallResult = CallResult(callId: string, toolName: string, body: Body)

  /** The two questions the scheduler asks the tool runtime. */
  datatype Runtime = Runtime(parallelSafe: Call -> bool, canOverlap: (Call, Call) -> bool)

  datatype Event =
    | Started(index: nat) | Reported(index: nat, result: CallResult) | TurnAborted | Awaits(barriers: set<nat>)

  // ---------------------------------------------------------------- turn boundaries

  /** The mode a result switched to: `Some(None)` is a switch that names no mode. */
  function SuccessfulModeSwitch(r: CallResult): Option<Option<string>> {
    if !r.body.Returned? || r.body.payload.Unparsed? then
      None
    else if r.toolName == "switch_mode" then
      if r.body.payload.okIsTrue then Some(r.body.payload.mode) else None
    else if r.toolName == "ask_user" then
      match r.body.payload.modeSwitched
      case Some(mode) => if mode == "" then None else Some(Some(mode))
      case None => None
    else
      None
  }

  predicate EndsTurn(r: CallResult) {
    SuccessfulModeSwitch(r).Some? || r.toolName == "set_task_status"
  }

  function SkippedResult(call: Call, boundary: CallResult): CallResult {
    CallResult(call.id, call.name,
               match SuccessfulModeSwitch(boundary)
               case Some(mode) => ModeSwitchSkipped(mode)
               case None => FinalStatusSkipped)
  }

  function AbortedResult(call: Call): CallResult {
    CallResult(call.id, call.name, Aborted)
  }

  /** A result that reports a switch of the mode to `mode`. */
  predicate SwitchesMode(r: CallResult, mode: Option<string>) {
    && r.body.Returned? && r.body.payload.Parsed?
    && (|| (r.toolName == "switch_mode" && r.body.payload.okIsTrue && r.body.payload.mode == mode)
        || (r.toolName == "ask_user" && r.body.payload.modeSwitched == mode && mode.Some? && mode.value != ""))
  }

  /** Exactly these results end a turn, and this is what the calls behind them get. */
  lemma EndsTurnIff(r: CallResult, call: Call)
    ensures EndsTurn(r) <==> r.toolName == "set_task_status" || exists mode :: SwitchesMode(r, mode)
    ensures forall mode | SwitchesMode(r, mode) ::
              SkippedResult(call, r) == CallResult(call.id, call.name, ModeSwitchSkipped(mode))
    ensures r.toolName == "set_task_status" ==>
              SkippedResult(call, r) == CallResult(call.id, call.name, FinalStatusSkipped)
  {
    if SuccessfulModeSwitch(r).Some? {
      assert SwitchesMode(r, SuccessfulModeSwitch(r).value);
    }
  }

  // ---------------------------------------------------------------- the law of a log

  /** How far a log has come: the calls below `started` have started, in model order. */
  datatype Progress = Progress(
    started: nat,
    running: set<nat>,
    reports: map<nat, CallResult>,
    aborted: bool,
    boundary: Option<nat>)

  const NOTHING_YET := Progress(0, {}, map[], false, None)

  function Observe(rt: Runtime, calls: seq<Call>, p: Progress, e: Event): Progress {
    match e
    case Started(i) => p.(started := p.started + 1, running := p.running + {i})
    case Reported(i, r) =>
      p.(running := p.running - {i},
         reports := p.reports[i := r],
         boundary :=
           if p.boundary.None? && i in p.running && i < |calls| && !rt.parallelSafe(calls[i]) && EndsTurn(r)
           then Some(i) else p.boundary)
    case TurnAborted => p.(aborted := true)
    case Awaits(_) => p
  }

  function Fold(rt: Runtime, calls: seq<Call>, trace: seq<Event>): Progress {
    if trace == [] then NOTHING_YET
    else Observe(rt, calls, Fold(rt, calls, trace[..|trace| - 1]), trace[|trace| - 1])
  }

  /** Call `i` may start beside the running call `j`. */
  predicate MayOverlap(rt: Runtime, calls: seq<Call>, j: nat, i: nat) {
    && j < i < |calls|
    && rt.parallelSafe(calls[j])
    && (!rt.parallelSafe(calls[i]) ==> rt.canOverlap(calls[j], calls[i]))
  }

  predicate Ordered(rt: Runtime, calls: seq<Call>, i: nat) {
    i < |calls| && !rt.parallelSafe(calls[i])
  }

  /** An ordered call lies behind call `j` and not behind call `n`. */
  ghost predicate OrderedBetween(rt: Runtime, calls: seq<Call>, j: nat, n: nat) {
    exists k: nat :: j < k <= n && Ordered(rt, calls, k)
  }

  /** No call starts any more. */
  predicate NoMoreStarts(calls: seq<Call>, p: Progress) {
    p.aborted || p.boundary.Some? || p.started >= |calls|
  }

  /** Both sides of `n` belong to one run of parallel-safe calls. */
  predicate WithinRun(rt: Runtime, calls: seq<Call>, n: nat) {
    0 < n < |calls| && rt.parallelSafe(calls[n - 1]) && rt.parallelSafe(calls[n])
  }

  /** The running call `j` has to finish before the next one starts. */
  ghost predicate MustFinish(rt: Runtime, calls: seq<Call>, p: Progress, j: nat) {
    || NoMoreStarts(calls, p)
    || Ordered(rt, calls, j)
    || (j < |calls| && !rt.canOverlap(calls[j], calls[p.started]) && OrderedBetween(rt, calls, j, p.started))
  }

  /** Which event may follow a log whose progress is `p`. */
  ghost predicate Legal(rt: Runtime, calls: seq<Call>, p: Progress, e: Event) {
    match e
    case Started(i) =>
      && i == p.started < |calls|
      && i !in p.reports
      && !p.aborted
      && p.boundary.None?
      && (forall j | j in p.running :: MayOverlap(rt, calls, j, i))
    case Reported(i, r) =>
      && i < |calls|
      && i !in p.reports
      && r.callId == calls[i].id
      && r.toolName == calls[i].name
      && if i < p.started
         then i in p.running && r.body.Returned?
         else
           && p.boundary.Some?
           && p.boundary.value in p.reports
           && p.boundary.value < i
           && r == SkippedResult(calls[i], p.reports[p.boundary.value])
    case TurnAborted => !p.aborted
    case Awaits(barriers) =>
      && (NoMoreStarts(calls, p) || !WithinRun(rt, calls, p.started))
      && (forall j | j in barriers && j in p.running :: MustFinish(rt, calls, p, j))
  }

  ghost predicate Lawful(rt: Runtime, calls: seq<Call>, trace: seq<Event>) {
    trace == [] ||
    (var before := trace[..|trace| - 1];
     Lawful(rt, calls, before) && Legal(rt, calls, Fold(rt, calls, before), trace[|trace| - 1]))
  }

  /** `p` is the progress a lawful log has made. */
  ghost predicate Log(rt: Runtime, calls: seq<Call>, trace: seq<Event>, p: Progress) {
    Lawful(rt, calls, trace) && Fold(rt, calls, trace) == p
  }

  lemma Extend(rt: Runtime, calls: seq<Call>, trace: seq<Event>, p: Progress, e: Event)
    requires Log(rt, calls, trace, p) && Legal(rt, calls, p, e)
    ensures Log(rt, calls, trace + [e], Observe(rt, calls, p, e))
  {
    assert (trace + [e])[..|trace|] == trace;
  }

  // ---------------------------------------------------------------- the scheduler

  /** The mutable state of one batch: `resultSlots`, the unfinished promises, the abort signal, the log. */
  datatype Batch = Batch(slots: seq<Option<CallResult>>, running: set<nat>, aborted: bool, trace: seq<Event>)

  /** Running calls are the started ones without a report, and slots hold exactly the reports. */
  ghost predicate Consistent(rt: Runtime, calls: seq<Call>, b: Batch, p: Progress) {
    && Log(rt, calls, b.trace, p)
    && b.running == p.running
    && b.aborted == p.aborted
    && |b.slots| == |calls|
    && p.started <= |calls|
    && (forall i: nat :: i in p.running <==> i < p.started && i !in p.reports)
    && (forall i: nat | i in p.reports :: i < |calls| && b.slots[i] == Some(p.reports[i]))
    && (forall i: nat | i < |calls| && b.slots[i].Some? :: i in p.reports)
  }

  /** No ordered call is running and no turn boundary has been reached. */
  ghost predicate BetweenOrderedCalls(rt: Runtime, calls: seq<Call>, p: Progress) {
    && p.boundary.None?
    && (forall i: nat | i in p.reports :: i < p.started)
    && (forall i: nat | i in p.running :: i < |calls| && rt.parallelSafe(calls[i]))
  }

  /** What an await may do: some running calls finish and the turn may be aborted. */
  ghost predicate Resumed(p: Progress, q: Progress) {
    && q.started == p.started
    && q.running <= p.running
    && q.reports.Keys == p.reports.Keys + (p.running - q.running)
    && (forall i | i in p.reports :: q.reports[i] == p.reports[i])
    && (p.aborted ==> q.aborted)
  }

  /** An abort can reach the scheduler at any moment. */
  method MaybeAbort(rt: Runtime, calls: seq<Call>, b: Batch, ghost p: Progress) returns (b': Batch, ghost q: Progress)
    requires Consistent(rt, calls, b, p)
    ensures Consistent(rt, calls, b', q)
    ensures b' == b.(aborted := b'.aborted, trace := b'.trace) && q == p.(aborted := b'.aborted)
    ensures b.aborted ==> b'.aborted
    ensures p.aborted ==> q.aborted
  {
    b', q := b, p;
    var abort: bool := *;
    if abort && !b.aborted {
      Extend(rt, calls, b.trace, p, TurnAborted);
      b', q := b.(aborted := true, trace := b.trace + [TurnAborted]), p.(aborted := true);
    }
  }

  method Start(rt: Runtime, calls: seq<Call>, b: Batch, i: nat, ghost p: Progress)
    returns (b': Batch, ghost q: Progress)
    requires Consistent(rt, calls, b, p) && Legal(rt, calls, p, Started(i))
    ensures Consistent(rt, calls, b', q) && q == Observe(rt, calls, p, Started(i))
  {
    Extend(rt, calls, b.trace, p, Started(i));
    b' := b.(running := b.running + {i}, trace := b.trace + [Started(i)]);
    q := Observe(rt, calls, p, Started(i));
  }

  /** A result arrives: its slot is written and it is reported. */
  method Report(rt: Runtime, calls: seq<Call>, b: Batch, i: nat, r: CallResult, ghost p: Progress)
    returns (b': Batch, ghost q: Progress)
    requires Consistent(rt, calls, b, p) && Legal(rt, calls, p, Reported(i, r))
    ensures Consistent(rt, calls, b', q) && q == Observe(rt, calls, p, Reported(i, r))
  {
    Extend(rt, calls, b.trace, p, Reported(i, r));
    b' := b.(running := b.running - {i}, slots := b.slots[i := Some(r)], trace := b.trace + [Reported(i, r)]);
    q := Observe(rt, calls, p, Reported(i, r));
  }

  /** One running call, any one, returns something; an abort may follow. */
  method FinishOne(rt: Runtime, calls: seq<Call>, b: Batch, ghost p: Progress)
    returns (b': Batch, ghost i: nat, ghost q: Progress)
    requires Consistent(rt, calls, b, p) && b.running != {}
    ensures Consistent(rt, calls, b', q)
    ensures Resumed(p, q) && i in p.running && q.running == p.running - {i} && i in q.reports
    ensures b'.running == b.running - {i} && i in b.running
    ensures q.boundary ==
            if p.boundary.None? && !rt.parallelSafe(calls[i]) && EndsTurn(q.reports[i]) then Some(i) else p.boundary
  {
    var next :| next in b.running;
    var payload: Payload := *;
    b', q := Report(rt, calls, b, next, CallResult(calls[next].id, calls[next].name, Returned(payload)), p);
    b', q := MaybeAbort(rt, calls, b', q);
    i := next;
  }

  /** The scheduler suspends, waiting for `barriers`; the log says so. */
  method Suspend(rt: Runtime, calls: seq<Call>, barriers: set<nat>, b: Batch, ghost p: Progress) returns (b': Batch)
    requires Consistent(rt, calls, b, p) && Legal(rt, calls, p, Awaits(barriers))
    ensures Consistent(rt, calls, b', p) && b' == b.(trace := b.trace + [Awaits(barriers)])
  {
    Extend(rt, calls, b.trace, p, Awaits(barriers));
    b' := b.(trace := b.trace + [Awaits(barriers)]);
  }

  /**
   Suspend until every call in `barriers` has finished. Other running calls may finish
   too, in any order, and the turn may be aborted meanwhile; every result is arbitrary.
   */
  method Await(rt: Runtime, calls: seq<Call>, barriers: set<nat>, b: Batch, ghost p: Progress)
    returns (b': Batch, ghost q: Progress)
    requires Consistent(rt, calls, b, p)
    requires p.boundary.Some? || BetweenOrderedCalls(rt, calls, p)
    requires Legal(rt, calls, p, Awaits(barriers))
    ensures Consistent(rt, calls, b', q)
    ensures Resumed(p, q) && q.boundary == p.boundary
    ensures b'.running !! barriers
  {
    hide Log, Consistent, Legal;
    b' := Suspend(rt, calls, barriers, b, p);
    b', q := MaybeAbort(rt, calls, b', p);
    var resume: bool := *;
    while !(resume && b'.running !! barriers) && b'.running != {}
      invariant Consistent(rt, calls, b', q)
      invariant Resumed(p, q) && q.boundary == p.boundary
      decreases b'.running
    {
      ghost var finished;
      b', finished, q := FinishOne(rt, calls, b', q);
      resume := *;
    }
  }

  /** Suspend until the ordered call `current` has finished; calls it overlaps may finish before it. */
  method AwaitOrdered(rt: Runtime, calls: seq<Call>, current: nat, b: Batch, ghost p: Progress)
    returns (b': Batch, ghost q: Progress)
    requires Consistent(rt, calls, b, p) && p.boundary.None?
    requires current < |calls| && !rt.parallelSafe(calls[current])
    requires forall i | i in p.running && i != current :: i < |calls| && rt.parallelSafe(calls[i])
    requires Legal(rt, calls, p, Awaits({current}))
    ensures Consistent(rt, calls, b', q)
    ensures Resumed(p, q) && current !in q.running
    ensures q.boundary == if current in p.running && EndsTurn(q.reports[current]) then Some(current) else None
  {
    hide Log, Legal, EndsTurn;
    b' := Suspend(rt, calls, {current}, b, p);
    b', q := MaybeAbort(rt, calls, b', p);
    while current in b'.running
      invariant Consistent(rt, calls, b', q)
      invariant Resumed(p, q)
      invariant q.boundary ==
                if current in p.running - q.running && EndsTurn(q.reports[current]) then Some(current) else None
      decreases b'.running
    {
      ghost var finished;
      b', finished, q := FinishOne(rt, calls, b', q);
    }
  }

  /** Start the parallel-safe calls `first..last` one after the other, until an abort. */
  method StartBatch(rt: Runtime, calls: seq<Call>, first: nat, last: nat, b: Batch, ghost p: Progress)
    returns (b': Batch, ghost q: Progress)
    requires Consistent(rt, calls, b, p) && BetweenOrderedCalls(rt, calls, p)
    requires p.started <= first <= last <= |calls|
    requires p.aborted || p.started == first
    requires forall j | first <= j < last :: rt.parallelSafe(calls[j])
    ensures Consistent(rt, calls, b', q) && BetweenOrderedCalls(rt, calls, q)
    ensures p.started <= q.started <= last && (p.aborted ==> q.aborted) && (q.aborted || q.started == last)
    ensures q.reports == p.reports
    ensures forall j | j in q.running :: j in p.running || first <= j < last
  {
    b', q := b, p;
    for i := first to last
      invariant Consistent(rt, calls, b', q) && BetweenOrderedCalls(rt, calls, q)
      invariant p.started <= q.started <= i && (p.aborted ==> q.aborted) && (q.aborted || q.started == i)
      invariant q.reports == p.reports
      invariant forall j | j in q.running :: j in p.running || first <= j < i
    {
      b', q := MaybeAbort(rt, calls, b', q);
      if !b'.aborted {
        b', q := Start(rt, calls, b', i, q);
      }
    }
  }

  /** After the turn boundary `k`, exactly the calls up to `k` and the skipped ones below `end` have reports. */
  ghost predicate SkippedUpTo(rt: Runtime, calls: seq<Call>, k: nat, end: nat, b: Batch, p: Progress) {
    && Consistent(rt, calls, b, p)
    && p.boundary == Some(k) && p.started == k + 1 <= end <= |calls| && k in p.reports
    && (forall i | i in p.reports :: i < end)
    && (forall i | k < i < end :: i in p.reports && p.reports[i] == SkippedResult(calls[i], p.reports[k]))
  }

  method SkipOne(rt: Runtime, calls: seq<Call>, k: nat, index: nat, b: Batch, ghost p: Progress)
    returns (b': Batch, ghost q: Progress)
    requires SkippedUpTo(rt, calls, k, index, b, p) && index < |calls|
    ensures SkippedUpTo(rt, calls, k, index + 1, b', q)
    ensures q.running <= p.running
  {
    hide Log;
    b', q := Report(rt, calls, b, index, SkippedResult(calls[index], b.slots[k].value), p);
  }

  /** After a turn boundary, give every trailing call its skip result. */
  method SkipTrailing(rt: Runtime, calls: seq<Call>, k: nat, b: Batch, ghost p: Progress)
    returns (b': Batch, ghost q: Progress)
    requires SkippedUpTo(rt, calls, k, k + 1, b, p)
    ensures SkippedUpTo(rt, calls, k, |calls|, b', q)
    ensures q.running <= p.running
  {
    b', q := b, p;
    for index := k + 1 to |calls|
      invariant SkippedUpTo(rt, calls, k, index, b', q)
      invariant q.running <= p.running
    {
      if b'.slots[index].None? {
        b', q := SkipOne(rt, calls, k, index, b', q);
      }
    }
  }

  /** Pending calls are parallel-safe ones of earlier runs. */
  ghost predicate PendingBehind(rt: Runtime, calls: seq<Call>, pending: set<nat>, n: nat)
    requires n <= |calls|
  {
    forall j | j in pending :: j < n && rt.parallelSafe(calls[j]) && OrderedBetween(rt, calls, j, n)
  }

  /** The scheduler between two iterations: only `pending` calls, all parallel-safe, may still run. */
  ghost predicate AtHead(rt: Runtime, calls: seq<Call>, b: Batch, pending: set<nat>, nextIndex: nat, p: Progress) {
    && Consistent(rt, calls, b, p)
    && BetweenOrderedCalls(rt, calls, p)
    && p.started <= nextIndex <= |calls|
    && (p.aborted || p.started == nextIndex)
    && p.running <= pending
    && PendingBehind(rt, calls, pending, nextIndex)
    && !WithinRun(rt, calls, nextIndex)
  }

  lemma PendingStaysBehind(rt: Runtime, calls: seq<Call>, pending: set<nat>, n: nat, m: nat)
    requires n <= m <= |calls| && PendingBehind(rt, calls, pending, n)
    ensures PendingBehind(rt, calls, pending, m)
  {
    forall j | j in pending ensures OrderedBetween(rt, calls, j, m) {
      var k: nat :| j < k <= n && Ordered(rt, calls, k);
    }
  }

  /** Every call of a finished run that may not overlap the ordered call behind it has to finish first. */
  lemma BarriersMustFinish(rt: Runtime, calls: seq<Call>, first: nat, next: nat, barriers: set<nat>, p: Progress)
    requires first < next <= |calls| && (next < |calls| ==> Ordered(rt, calls, next))
    requires p.aborted || p.started == next
    requires forall j | j in barriers ::
               first <= j < next && rt.parallelSafe(calls[j])
               && (next < |calls| ==> !rt.canOverlap(calls[j], calls[next]))
    ensures Legal(rt, calls, p, Awaits(barriers))
  {
    forall j | j in barriers && j in p.running ensures MustFinish(rt, calls, p, j) {
      if next < |calls| {
        assert OrderedBetween(rt, calls, j, next);
      }
    }
  }

  lemma OverlappingIsBehind(rt: Runtime, calls: seq<Call>, overlapping: set<nat>, first: nat, next: nat)
    requires next <= |calls| && forall j | j in overlapping ::
               first <= j < next && next < |calls| && rt.parallelSafe(calls[j]) && Ordered(rt, calls, next)
    ensures PendingBehind(rt, calls, overlapping, next)
  {
    forall j | j in overlapping ensures OrderedBetween(rt, calls, j, next) {
      assert Ordered(rt, calls, next);
    }
  }

  /** The whole run of parallel-safe calls that starts at `first`. */
  method CollectRun(rt: Runtime, calls: seq<Call>, first: nat) returns (batch: set<nat>, nextIndex: nat)
    requires first < |calls| && rt.parallelSafe(calls[first])
    ensures first < nextIndex <= |calls| && (nextIndex < |calls| ==> Ordered(rt, calls, nextIndex))
    ensures forall j | first <= j < nextIndex :: rt.parallelSafe(calls[j])
    ensures forall j: nat :: j in batch <==> first <= j < nextIndex
  {
    nextIndex := first + 1;
    batch := {first};
    while nextIndex < |calls| && rt.parallelSafe(calls[nextIndex])
      invariant first < nextIndex <= |calls|
      invariant forall j | first <= j < nextIndex :: rt.parallelSafe(calls[j])
      invariant forall j: nat :: j in batch <==> first <= j < nextIndex
    {
      batch := batch + {nextIndex};
      nextIndex := nextIndex + 1;
    }
  }

  /** A run of parallel-safe calls starting at `first`, and the wait before the next ordered call. */
  method RunParallelBatch(rt: Runtime, calls: seq<Call>, first: nat, b: Batch, pending: set<nat>, ghost p: Progress)
    returns (b': Batch, pending': set<nat>, nextIndex: nat, ghost q: Progress)
    requires AtHead(rt, calls, b, pending, first, p)
    requires first < |calls| && rt.parallelSafe(calls[first])
    ensures AtHead(rt, calls, b', pending', nextIndex, q)
    ensures first < nextIndex <= |calls| && (nextIndex < |calls| ==> Ordered(rt, calls, nextIndex))
    ensures forall j | first <= j < nextIndex :: rt.parallelSafe(calls[j])
    ensures forall j: nat :: j in pending' <==>
              || j in pending
              || (first <= j < nextIndex < |calls| && rt.canOverlap(calls[j], calls[nextIndex]))
  {
    hide Log, Legal, MustFinish, OrderedBetween;
    var batch;
    batch, nextIndex := CollectRun(rt, calls, first);
    b', q := StartBatch(rt, calls, first, nextIndex, b, p);
    var overlapping := set j | j in batch && nextIndex < |calls| && rt.canOverlap(calls[j], calls[nextIndex]);
    pending' := pending + overlapping;
    BarriersMustFinish(rt, calls, first, nextIndex, batch - overlapping, q);
    b', q := Await(rt, calls, batch - overlapping, b', q);
    PendingStaysBehind(rt, calls, pending, first, nextIndex);
    OverlappingIsBehind(rt, calls, overlapping, first, nextIndex);
  }

  lemma OrderedMustFinish(rt: Runtime, calls: seq<Call>, current: nat, p: Progress)
    requires Ordered(rt, calls, current) && (p.aborted || p.started == current + 1)
    ensures Legal(rt, calls, p, Awaits({current}))
  {
  }

  /** The ordered call `current`, run alone except for the pending calls that may overlap it. */
  method RunOrdered(rt: Runtime, calls: seq<Call>, current: nat, b: Batch, pending: set<nat>, ghost p: Progress)
    returns (b': Batch, turnOver: bool, ghost q: Progress)
    requires AtHead(rt, calls, b, pending, current, p)
    requires current < |calls| && !rt.parallelSafe(calls[current])
    requires forall j | j in pending :: rt.canOverlap(calls[j], calls[current])
    ensures !turnOver ==> AtHead(rt, calls, b', pending, current + 1, q)
    ensures turnOver ==> SkippedUpTo(rt, calls, current, |calls|, b', q) && q.running <= pending
  {
    hide Log;
    b', q := MaybeAbort(rt, calls, b, p);
    if !b'.aborted {
      b', q := Start(rt, calls, b', current, q);
    }
    OrderedMustFinish(rt, calls, current, q);
    hide Legal;
    b', q := AwaitOrdered(rt, calls, current, b', q);
    PendingStaysBehind(rt, calls, pending, current, current + 1);
    turnOver := b'.slots[current].Some? && EndsTurn(b'.slots[current].value);
    if turnOver {
      b', q := SkipTrailing(rt, calls, current, b', q);
    }
  }

  /** Nothing runs any more, and every call that has no report was left out because of an abort. */
  ghost predicate Complete(calls: seq<Call>, p: Progress) {
    && p.running == {} && p.started <= |calls|
    && (forall i | 0 <= i < p.started :: i in p.reports)
    && (forall i | 0 <= i < |calls| && i !in p.reports :: p.aborted)
    && (p.boundary.None? ==> forall i | i in p.reports :: i < p.started)
    && (p.boundary.Some? ==>
          && p.boundary.value in p.reports && p.started == p.boundary.value + 1
          && forall j | p.started <= j < |calls| ::
               j in p.reports && p.reports[j] == SkippedResult(calls[j], p.reports[p.boundary.value]))
  }

  /** What is left when the loop has gone through all calls, or was aborted, and nothing runs any more. */
  lemma LoopIsComplete(rt: Runtime, calls: seq<Call>, b: Batch, pending: set<nat>, nextIndex: nat, p: Progress,
                       b': Batch, q: Progress)
    requires AtHead(rt, calls, b, pending, nextIndex, p) && (nextIndex == |calls| || p.aborted)
    requires Consistent(rt, calls, b', q) && Resumed(p, q) && q.boundary == p.boundary && q.running == {}
    ensures Complete(calls, q)
  {
    hide Log;
  }

  /** What is left after a turn boundary at call `k`. */
  lemma BoundaryIsComplete(rt: Runtime, calls: seq<Call>, k: nat, b: Batch, p: Progress, b': Batch, q: Progress)
    requires SkippedUpTo(rt, calls, k, |calls|, b, p)
    requires Consistent(rt, calls, b', q) && Resumed(p, q) && q.boundary == p.boundary && q.running == {}
    ensures Complete(calls, q)
  {
    hide Log;
  }

  /** The results are those of the slots. */
  method Collect(rt: Runtime, calls: seq<Call>, b: Batch, ghost p: Progress) returns (results: seq<CallResult>)
    requires Consistent(rt, calls, b, p)
    ensures |results| == |calls|
    ensures forall i | 0 <= i < |calls| ::
              results[i] == if i in p.reports then p.reports[i] else AbortedResult(calls[i])
  {
    hide Log;
    results := seq(|calls|, i requires 0 <= i < |b.slots| && i < |calls| =>
      if b.slots[i].Some? then b.slots[i].value else AbortedResult(calls[i]));
  }

  /** The body of the loop: the wait for the calls this one must not overlap, then a batch or an ordered call. */
  method HandleNext(rt: Runtime, calls: seq<Call>, index: nat, b: Batch, pending: set<nat>, ghost p: Progress)
    returns (b': Batch, pending': set<nat>, nextIndex: nat, turnOver: bool, ghost q: Progress)
    requires AtHead(rt, calls, b, pending, index, p) && index < |calls|
    ensures index < nextIndex <= |calls|
    ensures !turnOver ==> AtHead(rt, calls, b', pending', nextIndex, q)
    ensures turnOver ==> SkippedUpTo(rt, calls, index, |calls|, b', q) && q.running <= pending'
  {
    hide Log;
    var held := set j | j in pending && !rt.canOverlap(calls[j], calls[index]);
    pending' := pending - held;
    b', q := Await(rt, calls, held, b, p);
    turnOver := false;
    if rt.parallelSafe(calls[index]) {
      b', pending', nextIndex, q := RunParallelBatch(rt, calls, index, b', pending', q);
    } else {
      nextIndex := index + 1;
      b', turnOver, q := RunOrdered(rt, calls, index, b', pending', q);
    }
  }

  /**
   What the results say when the first `started` calls have started. Each answers its own call. An
   ordered call that switched the mode or set the final status is the last that started, and all calls
   behind it are skipped with that mode or that status; calls are left out for no other reason but an abort.
   */
  ghost predicate Answered(rt: Runtime, calls: seq<Call>, started: nat, aborted: bool, results: seq<CallResult>) {
    && started <= |calls| == |results|
    && (forall i | 0 <= i < |calls| :: results[i].callId == calls[i].id && results[i].toolName == calls[i].name)
    && (forall i | 0 <= i < started :: results[i].body.Returned?)
    && (forall k: nat, mode | k < started && Ordered(rt, calls, k) && SwitchesMode(results[k], mode) ::
          started == k + 1 && forall j | started <= j < |calls| :: results[j].body == ModeSwitchSkipped(mode))
    && (forall k: nat | k < started && Ordered(rt, calls, k) && calls[k].name == "set_task_status" ::
          started == k + 1 && forall j | started <= j < |calls| :: results[j].body == FinalStatusSkipped)
    && (started < |calls| && !(started > 0 && StopsTurn(rt, calls, started - 1, results[started - 1])) ==>
          aborted && forall j | started <= j < |calls| :: results[j].body == Aborted)
  }

  ghost predicate StopsTurn(rt: Runtime, calls: seq<Call>, k: nat, r: CallResult) {
    Ordered(rt, calls, k) && (calls[k].name == "set_task_status" || exists mode :: SwitchesMode(r, mode))
  }

  lemma CompleteIsAnswered(rt: Runtime, calls: seq<Call>, trace: seq<Event>, p: Progress, results: seq<CallResult>)
    requires Log(rt, calls, trace, p) && Complete(calls, p) && |results| == |calls|
    requires forall i | 0 <= i < |calls| ::
               results[i] == if i in p.reports then p.reports[i] else AbortedResult(calls[i])
    ensures Answered(rt, calls, p.started, TurnAborted in trace, results)
  {
    FoldMeaning(rt, calls, trace);
    ReportsAnswerTheirCalls(rt, calls, trace);
    forall k: nat | k < p.started && StopsTurn(rt, calls, k, results[k])
      ensures p.boundary == Some(k)
    {
      EndsTurnIff(results[k], calls[k]);
      EndIsTheBoundary(rt, calls, trace, k);
    }
    hide Log, Fold, Lawful;
    if p.boundary.Some? {
      BoundaryIsAnswered(rt, calls, p, results, p.boundary.value);
    } else {
      assert p.started == |calls| || p.started !in p.reports;
    }
    forall k: nat, mode | k < p.started && Ordered(rt, calls, k) && SwitchesMode(results[k], mode)
      ensures p.boundary == Some(k)
    {
      assert StopsTurn(rt, calls, k, results[k]);
    }
    forall k: nat | k < p.started && Ordered(rt, calls, k) && calls[k].name == "set_task_status"
      ensures p.boundary == Some(k)
    {
      assert StopsTurn(rt, calls, k, results[k]);
    }
  }

  lemma BoundaryIsAnswered(rt: Runtime, calls: seq<Call>, p: Progress, results: seq<CallResult>, k: nat)
    requires Complete(calls, p) && |results| == |calls| && p.boundary == Some(k) && k < p.started
    requires Ordered(rt, calls, k) && EndsTurn(p.reports[k]) && p.reports[k].toolName == calls[k].name
    requires forall i | 0 <= i < |calls| ::
               results[i] == if i in p.reports then p.reports[i] else AbortedResult(calls[i])
    ensures StopsTurn(rt, calls, k, results[k])
    ensures forall mode | SwitchesMode(results[k], mode) ::
              forall j | p.started <= j < |calls| :: results[j].body == ModeSwitchSkipped(mode)
    ensures calls[k].name == "set_task_status" ==>
              forall j | p.started <= j < |calls| :: results[j].body == FinalStatusSkipped
  {
    EndsTurnIff(results[k], calls[k]);
    forall j | p.started <= j < |calls| ensures results[j] == SkippedResult(calls[j], results[k]) {}
    forall mode, j | SwitchesMode(results[k], mode) && p.started <= j < |calls|
      ensures results[j].body == ModeSwitchSkipped(mode)
    {
      EndsTurnIff(results[k], calls[j]);
    }
    forall j | p.started <= j < |calls|
      ensures calls[k].name == "set_task_status" ==> results[j].body == FinalStatusSkipped
    {
      EndsTurnIff(results[k], calls[j]);
    }
  }

  /**
   The scheduler. Whatever the calls return and in whatever order they finish:
   the log is lawful and complete, each slot holds the one result reported for it,
   and after an ordered turn boundary every later slot holds the matching skip result.
   */
  method ExecuteToolCalls(rt: Runtime, calls: seq<Call>)
    returns (results: seq<CallResult>, trace: seq<Event>)
    ensures Lawful(rt, calls, trace)
    ensures |results| == |calls|
    ensures var p := Fold(rt, calls, trace);
      && p.running == {}
      && p.started <= |calls|
      && (forall i | 0 <= i < p.started :: i in p.reports)
      && (forall i | 0 <= i < |calls| ::
            results[i] == if i in p.reports then p.reports[i] else AbortedResult(calls[i]))
      && (forall i | 0 <= i < |calls| && i !in p.reports :: p.aborted)
      && (p.boundary.None? ==> forall i | i in p.reports :: i < p.started)
      && (p.boundary.Some? ==>
            && p.started == p.boundary.value + 1
            && forall j | p.started <= j < |calls| ::
                 results[j] == SkippedResult(calls[j], results[p.boundary.value]))
    ensures Answered(rt, calls, Fold(rt, calls, trace).started, TurnAborted in trace, results)
  {
    var b := Batch(seq(|calls|, _ => None), {}, false, []);
    ghost var p := NOTHING_YET;
    b, p := MaybeAbort(rt, calls, b, p);
    var pending: set<nat>, nextIndex := {}, 0;
    ghost var boundary: Option<nat> := None;
    assert AtHead(rt, calls, b, pending, nextIndex, p);

    hide Log, Consistent, BetweenOrderedCalls;
    while nextIndex < |calls| && !b.aborted
      invariant boundary.None? && AtHead(rt, calls, b, pending, nextIndex, p) && b.aborted == p.aborted
    {
      var index := nextIndex;
      var turnOver;
      b, pending, nextIndex, turnOver, p := HandleNext(rt, calls, index, b, pending, p);
      if turnOver {
        boundary := Some(index);
        break;
      }
    }

    ghost var b0, p0 := b, p;
    b, p := Await(rt, calls, pending, b, p);
    if boundary.Some? {
      BoundaryIsComplete(rt, calls, boundary.value, b0, p0, b, p);
    } else {
      LoopIsComplete(rt, calls, b0, pending, nextIndex, p0, b, p);
    }
    trace := b.trace;
    results := Collect(rt, calls, b, p);
    CompleteIsAnswered(rt, calls, trace, p, results);
  }

  // ---------------------------------------------------------------- what a lawful log means

  ghost predicate ReportedIn(trace: seq<Event>, i: nat) {
    exists r :: Reported(i, r) in trace
  }

  /** The law holds at every position of a lawful log. */
  lemma {:induction false} LegalAt(rt: Runtime, calls: seq<Call>, trace: seq<Event>, n: nat)
    requires Lawful(rt, calls, trace) && n < |trace|
    ensures Lawful(rt, calls, trace[..n])
    ensures Legal(rt, calls, Fold(rt, calls, trace[..n]), trace[n])
    ensures Fold(rt, calls, trace[..n + 1]) == Observe(rt, calls, Fold(rt, calls, trace[..n]), trace[n])
  {
    assert trace[..n + 1][..n] == trace[..n];
    if n == |trace| - 1 {
      assert trace[..n + 1] == trace;
    } else {
      var before := trace[..|trace| - 1];
      LegalAt(rt, calls, before, n);
      assert before[..n] == trace[..n];
    }
  }

  /** `Fold` counts what the log contains. */
  lemma {:induction false} FoldMeaning(rt: Runtime, calls: seq<Call>, trace: seq<Event>)
    requires Lawful(rt, calls, trace)
    ensures var p := Fold(rt, calls, trace);
      && (forall i: nat :: Started(i) in trace <==> i < p.started)
      && (forall i: nat, r :: Reported(i, r) in trace <==> i in p.reports && p.reports[i] == r)
      && (forall i: nat :: i in p.running <==> i < p.started && i !in p.reports)
      && (TurnAborted in trace <==> p.aborted)
      && (p.boundary.Some? ==>
            var k := p.boundary.value;
            Ordered(rt, calls, k) && k < p.started && k in p.reports && EndsTurn(p.reports[k]))
      && (p.boundary.None? ==>
            && (forall i | i in p.reports :: i < p.started)
            && (forall i | i in p.reports && Ordered(rt, calls, i) :: !EndsTurn(p.reports[i])))
  {
    if trace != [] {
      var before, e := trace[..|trace| - 1], trace[|trace| - 1];
      FoldMeaning(rt, calls, before);
      assert trace == before + [e];
    }
  }

  /** Every report answers its own call, and a call that ran has returned something. */
  lemma {:induction false} ReportsAnswerTheirCalls(rt: Runtime, calls: seq<Call>, trace: seq<Event>)
    requires Lawful(rt, calls, trace)
    ensures var p := Fold(rt, calls, trace);
      forall i | i in p.reports ::
        && i < |calls| && p.reports[i].callId == calls[i].id && p.reports[i].toolName == calls[i].name
        && (i < p.started ==> p.reports[i].body.Returned?)
  {
    if trace != [] {
      ReportsAnswerTheirCalls(rt, calls, trace[..|trace| - 1]);
    }
  }

  lemma ReportsAreInTheLog(rt: Runtime, calls: seq<Call>, trace: seq<Event>, i: nat)
    requires Lawful(rt, calls, trace)
    ensures ReportedIn(trace, i) <==> i in Fold(rt, calls, trace).reports
  {
    FoldMeaning(rt, calls, trace);
    var p := Fold(rt, calls, trace);
    if i in p.reports {
      assert Reported(i, p.reports[i]) in trace;
    }
  }

  /**
   Whenever a call starts, every unfinished earlier call is parallel-safe, and if the
   starting call is ordered the runtime lets each of them overlap it, no matter how
   many batches ago it was left pending.
   */
  lemma OverlapIsPermitted(rt: Runtime, calls: seq<Call>, trace: seq<Event>, n: nat, i: nat, j: nat)
    requires Lawful(rt, calls, trace) && n < |trace| && trace[n] == Started(i)
    requires Started(j) in trace[..n] && !ReportedIn(trace[..n], j)
    ensures j < i < |calls| && rt.parallelSafe(calls[j])
    ensures Ordered(rt, calls, i) ==> rt.canOverlap(calls[j], calls[i])
  {
    LegalAt(rt, calls, trace, n);
    FoldMeaning(rt, calls, trace[..n]);
    ReportsAreInTheLog(rt, calls, trace[..n], j);
  }

  /** Calls start in model order without gaps: a start at position `n` is of the next unstarted call. */
  lemma StartsInModelOrder(rt: Runtime, calls: seq<Call>, trace: seq<Event>, n: nat, i: nat)
    requires Lawful(rt, calls, trace) && n < |trace| && trace[n] == Started(i)
    ensures forall k: nat :: Started(k) in trace[..n] <==> k < i
  {
    LegalAt(rt, calls, trace, n);
    FoldMeaning(rt, calls, trace[..n]);
  }

  /** Nothing starts while an ordered call is unfinished: ordered calls run one at a time, in model order. */
  lemma OrderedCallsRunAlone(rt: Runtime, calls: seq<Call>, trace: seq<Event>, m: nat, n: nat, i: nat, k: nat)
    requires Lawful(rt, calls, trace) && m < n < |trace|
    requires trace[m] == Started(i) && Ordered(rt, calls, i) && trace[n] == Started(k)
    ensures i < k && ReportedIn(trace[m + 1..n], i)
  {
    assert trace[..n][m] == Started(i);
    StartsInModelOrder(rt, calls, trace, n, k);
    if !ReportedIn(trace[..n], i) {
      OverlapIsPermitted(rt, calls, trace, n, k, i);
      assert false;
    }
    var r :| Reported(i, r) in trace[..n];
    var x :| 0 <= x < n && trace[x] == Reported(i, r);
    LegalAt(rt, calls, trace, m);
    FoldMeaning(rt, calls, trace[..m]);
    assert forall y | 0 <= y < m :: trace[..m][y] == trace[y];
    assert trace[m + 1..n][x - m - 1] == Reported(i, r);
  }

  /** Every slot is written and reported at most once, and every call starts at most once. */
  lemma EventsHappenOnce(rt: Runtime, calls: seq<Call>, trace: seq<Event>, m: nat, n: nat)
    requires Lawful(rt, calls, trace) && m < n < |trace|
    ensures trace[m].Started? && trace[n].Started? ==> trace[m].index != trace[n].index
    ensures trace[m].Reported? && trace[n].Reported? ==> trace[m].index != trace[n].index
    ensures !(trace[m].TurnAborted? && trace[n].TurnAborted?)
  {
    LegalAt(rt, calls, trace, n);
    FoldMeaning(rt, calls, trace[..n]);
    assert trace[..n][m] == trace[m];
  }

  /** After an abort nothing starts any more. */
  lemma NothingStartsAfterAbort(rt: Runtime, calls: seq<Call>, trace: seq<Event>, m: nat, n: nat)
    requires Lawful(rt, calls, trace) && m < n < |trace| && trace[m] == TurnAborted
    ensures !trace[n].Started?
  {
    LegalAt(rt, calls, trace, n);
    FoldMeaning(rt, calls, trace[..n]);
    assert trace[..n][m] == TurnAborted;
  }

  /** Once an ordered call has ended the turn the boundary stays where it is. */
  lemma {:induction false} BoundaryStays(rt: Runtime, calls: seq<Call>, trace: seq<Event>, m: nat, n: nat)
    requires Lawful(rt, calls, trace) && m <= n <= |trace|
    requires Fold(rt, calls, trace[..m]).boundary.Some?
    ensures Fold(rt, calls, trace[..n]).boundary == Fold(rt, calls, trace[..m]).boundary
    decreases n
  {
    if m < n {
      BoundaryStays(rt, calls, trace, m, n - 1);
      LegalAt(rt, calls, trace, n - 1);
    }
  }

  /**
   After an ordered call that ran has returned a mode switch, or was `set_task_status`,
   nothing starts any more and every call reported later that never ran gets the skip
   result naming that mode switch or status.
   */
  lemma TurnBoundaryStopsTheBatch(rt: Runtime, calls: seq<Call>, trace: seq<Event>,
                                  m: nat, n: nat, i: nat, r: CallResult)
    requires Lawful(rt, calls, trace) && m < n < |trace|
    requires trace[m] == Reported(i, r) && r.body.Returned? && Ordered(rt, calls, i) && EndsTurn(r)
    ensures !trace[n].Started?
    ensures trace[n].Reported? && Started(trace[n].index) !in trace[..n] ==>
              && i < trace[n].index < |calls|
              && trace[n].result == SkippedResult(calls[trace[n].index], r)
  {
    LegalAt(rt, calls, trace, m);
    FirstBoundaryIsAlone(rt, calls, trace, m, i);
    BoundaryStays(rt, calls, trace, m + 1, n);
    LegalAt(rt, calls, trace, n);
    FoldMeaning(rt, calls, trace[..n]);
    assert trace[..n][m] == trace[m];
  }

  /** When an ordered call reports, no turn boundary lies behind: it was the only ordered call running. */
  lemma {:induction false} FirstBoundaryIsAlone(rt: Runtime, calls: seq<Call>, trace: seq<Event>, m: nat, i: nat)
    requires Lawful(rt, calls, trace) && m <= |trace|
    requires Ordered(rt, calls, i) && i in Fold(rt, calls, trace[..m]).running
    ensures Fold(rt, calls, trace[..m]).boundary.None?
    ensures forall j | j in Fold(rt, calls, trace[..m]).running && j != i :: j < |calls| && rt.parallelSafe(calls[j])
    decreases m
  {
    if m > 0 {
      LegalAt(rt, calls, trace, m - 1);
      if i in Fold(rt, calls, trace[..m - 1]).running {
        FirstBoundaryIsAlone(rt, calls, trace, m - 1, i);
      }
    }
  }

  /** An ordered call that ends the turn is the boundary: nothing has started behind it. */
  lemma EndIsTheBoundary(rt: Runtime, calls: seq<Call>, trace: seq<Event>, k: nat)
    requires Lawful(rt, calls, trace) && Ordered(rt, calls, k) && k < Fold(rt, calls, trace).started
    requires k in Fold(rt, calls, trace).reports && EndsTurn(Fold(rt, calls, trace).reports[k])
    ensures Fold(rt, calls, trace).boundary == Some(k)
  {
    FoldMeaning(rt, calls, trace);
    ReportsAnswerTheirCalls(rt, calls, trace);
    var p := Fold(rt, calls, trace);
    var b := p.boundary.value;
    var m :| 0 <= m < |trace| && trace[m] == Started(k);
    var n :| 0 <= n < |trace| && trace[n] == Started(b);
    if k < b {
      EarlierEndExcludesLater(rt, calls, trace, m, n, k, b);
    } else if b < k {
      EarlierEndExcludesLater(rt, calls, trace, n, m, b, k);
    }
  }

  lemma EarlierEndExcludesLater(rt: Runtime, calls: seq<Call>, trace: seq<Event>, m: nat, n: nat, i: nat, k: nat)
    requires Lawful(rt, calls, trace) && m < |trace| && n < |trace|
    requires trace[m] == Started(i) && trace[n] == Started(k) && Ordered(rt, calls, i)
    requires i in Fold(rt, calls, trace).reports && EndsTurn(Fold(rt, calls, trace).reports[i])
    requires Fold(rt, calls, trace).reports[i].body.Returned?
    ensures k <= i
  {
    if i < k {
      StartsInModelOrder(rt, calls, trace, n, k);
      StartsInModelOrder(rt, calls, trace, m, i);
      OrderedCallsRunAlone(rt, calls, trace, m, n, i, k);
      var r :| Reported(i, r) in trace[m + 1..n];
      var x :| 0 <= x < n && trace[x] == Reported(i, r);
      FoldMeaning(rt, calls, trace);
      TurnBoundaryStopsTheBatch(rt, calls, trace, x, n, i, r);
    }
  }

  /** A switch of the mode ends the turn: nothing starts behind it, and what never ran is skipped because of it. */
  lemma ModeSwitchStopsTheBatch(rt: Runtime, calls: seq<Call>, trace: seq<Event>, m: nat, n: nat, i: nat,
                                mode: Option<string>, asked: Option<string>)
    requires Lawful(rt, calls, trace) && m < n < |trace| && Ordered(rt, calls, i)
    requires trace[m] == Reported(i, CallResult(calls[i].id, "switch_mode", Returned(Parsed(true, mode, asked))))
    ensures !trace[n].Started?
    ensures trace[n].Reported? && Started(trace[n].index) !in trace[..n] ==>
              && i < trace[n].index < |calls|
              && trace[n].result ==
                 CallResult(calls[trace[n].index].id, calls[trace[n].index].name, ModeSwitchSkipped(mode))
  {
    TurnBoundaryStopsTheBatch(rt, calls, trace, m, n, i, trace[m].result);
  }

  /** So does an answer of the user that is mapped to a mode. */
  lemma AnsweredModeStopsTheBatch(rt: Runtime, calls: seq<Call>, trace: seq<Event>, m: nat, n: nat, i: nat,
                                  ok: bool, other: Option<string>, mode: string)
    requires Lawful(rt, calls, trace) && m < n < |trace| && Ordered(rt, calls, i) && mode != ""
    requires trace[m] == Reported(i, CallResult(calls[i].id, "ask_user", Returned(Parsed(ok, other, Some(mode)))))
    ensures !trace[n].Started?
    ensures trace[n].Reported? && Started(trace[n].index) !in trace[..n] ==>
              && i < trace[n].index < |calls|
              && trace[n].result ==
                 CallResult(calls[trace[n].index].id, calls[trace[n].index].name, ModeSwitchSkipped(Some(mode)))
  {
    TurnBoundaryStopsTheBatch(rt, calls, trace, m, n, i, trace[m].result);
  }

  /** So does setting the final status, whatever the call returns. */
  lemma FinalStatusStopsTheBatch(rt: Runtime, calls: seq<Call>, trace: seq<Event>, m: nat, n: nat, i: nat,
                                 payload: Payload)
    requires Lawful(rt, calls, trace) && m < n < |trace| && Ordered(rt, calls, i)
    requires trace[m] == Reported(i, CallResult(calls[i].id, "set_task_status", Returned(payload)))
    ensures !trace[n].Started?
    ensures trace[n].Reported? && Started(trace[n].index) !in trace[..n] ==>
              && i < trace[n].index < |calls|
              && trace[n].result ==
                 CallResult(calls[trace[n].index].id, calls[trace[n].index].name, FinalStatusSkipped)
  {
    TurnBoundaryStopsTheBatch(rt, calls, trace, m, n, i, trace[m].result);
  }

  /** Results behind which the batch goes on: other tools, and attempts to switch the mode that failed. */
  predicate GoesOn(r: CallResult) {
    match r.body
    case Returned(Unparsed) => r.toolName != "set_task_status"
    case Returned(Parsed(ok, _, asked)) =>
      && r.toolName != "set_task_status"
      && (r.toolName == "switch_mode" ==> !ok)
      && (r.toolName == "ask_user" ==> asked == None || asked == Some(""))
    case _ => false
  }

  /** Behind such a result of an ordered call the next call may start, once nothing else runs. */
  lemma OtherResultsAreNoBoundary(rt: Runtime, calls: seq<Call>, trace: seq<Event>, i: nat, r: CallResult)
    requires Lawful(rt, calls, trace) && trace != [] && trace[|trace| - 1] == Reported(i, r)
    requires Ordered(rt, calls, i) && Started(i) in trace && GoesOn(r) && i + 1 < |calls|
    requires TurnAborted !in trace && Started(i + 1) !in trace
    requires forall j: nat | Started(j) in trace :: ReportedIn(trace, j)
    ensures Lawful(rt, calls, trace + [Started(i + 1)])
  {
    var m := |trace| - 1;
    var p := Fold(rt, calls, trace);
    assert trace[..|trace|] == trace;
    LegalAt(rt, calls, trace, m);
    FoldMeaning(rt, calls, trace);
    FoldMeaning(rt, calls, trace[..m]);
    assert trace == trace[..m] + [trace[m]];
    FirstBoundaryIsAlone(rt, calls, trace, m, i);
    forall j | j in p.running ensures false {
      ReportsAreInTheLog(rt, calls, trace, j);
    }
    Extend(rt, calls, trace, p, Started(i + 1));
  }

  /**
   Before the next call starts, the scheduler waits for an earlier one only where it has to: for an ordered
   call, or for a call of an earlier run that the runtime does not let overlap the next one.
   */
  lemma WaitsOnlyWhereItMust(rt: Runtime, calls: seq<Call>, trace: seq<Event>, n: nat, m: nat, i: nat,
                             barriers: set<nat>, j: nat)
    requires Lawful(rt, calls, trace) && n < m < |trace| && trace[n] == Awaits(barriers) && j in barriers
    requires Started(j) in trace[..n] && !ReportedIn(trace[..n], j)
    requires trace[m] == Started(i) && forall k | n < k < m :: !trace[k].Started?
    ensures j < i < |calls|
    ensures Ordered(rt, calls, j) || (!rt.canOverlap(calls[j], calls[i]) && OrderedBetween(rt, calls, j, i))
  {
    LegalAt(rt, calls, trace, n);
    LegalAt(rt, calls, trace, m);
    FoldMeaning(rt, calls, trace[..n]);
    ReportsAreInTheLog(rt, calls, trace[..n], j);
    NextStart(rt, calls, trace, n, m);
    assert Started(j) in trace[..m];
    StartsInModelOrder(rt, calls, trace, m, i);
  }

  /** What has started when the next start comes, and that nothing stood in its way. */
  lemma {:induction false} NextStart(rt: Runtime, calls: seq<Call>, trace: seq<Event>, n: nat, m: nat)
    requires Lawful(rt, calls, trace) && n <= m < |trace| && trace[m].Started?
    requires forall k | n <= k < m :: !trace[k].Started?
    ensures Fold(rt, calls, trace[..n]).started == trace[m].index
    ensures !NoMoreStarts(calls, Fold(rt, calls, trace[..n]))
    decreases m - n
  {
    LegalAt(rt, calls, trace, n);
    if n < m {
      NextStart(rt, calls, trace, n + 1, m);
    }
  }

  /** The calls of one run of parallel-safe calls start together: the scheduler waits for nothing between them. */
  lemma ParallelRunsStartTogether(rt: Runtime, calls: seq<Call>, trace: seq<Event>, n: nat, m: nat, i: nat)
    requires Lawful(rt, calls, trace) && n < m < |trace| && trace[n] == Started(i) && trace[m] == Started(i + 1)
    requires i + 1 < |calls| && rt.parallelSafe(calls[i]) && rt.parallelSafe(calls[i + 1])
    ensures forall k | n < k < m :: !trace[k].Awaits?
  {
    forall k | n < k < m ensures !trace[k].Awaits? {
      forall x | k <= x < m ensures !trace[x].Started? {
        if trace[x].Started? {
          StartsInModelOrder(rt, calls, trace, x, trace[x].index);
          StartsInModelOrder(rt, calls, trace, m, i + 1);
        }
      }
      LegalAt(rt, calls, trace, k);
      NextStart(rt, calls, trace, k, m);
    }
  }
}
