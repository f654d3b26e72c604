/**
 The provider loop of src/agent/AgentEngine.ts (`run`): which failures and answers lead
 to another request, and why the loop ends.

 `Step` is one turn of the loop, from its head to the next `continue`, `break`, `throw` or
 `return`. Everything the loop does not decide itself (the provider's answer, aborts, model
 re-selections, whether a condense or a credential refresh worked) is a `Round` of an
 arbitrary environment. `Run` is the loop; its `decreases` clause is the budget argument.
 */
module ProviderLoop {
  const MAX_REQUEST_RETRIES: nat := 4
  const MAX_TRANSIENT_REQUEST_RETRIES: nat := 8
  const MAX_STREAM_RETRIES: nat := 5
  const MAX_EMPTY_RESPONSE_RETRIES: nat := 2
  const MAX_WRAP_UP_ATTEMPTS: nat := 2
  const MAX_TOOL_PAIRING_REPAIR_ATTEMPTS: nat := 2
  const MAX_CREDENTIAL_REFRESHES: nat := 3

  /** `maxApiTurns` is 0 for "unlimited". */
  datatype Limits = Limits(maxApiTurns: nat, maxPauseTurns: nat)

  /** The counters and flags of `run`. */
  datatype Budgets = Budgets(
    adopted: nat,
    turns: nat,
    pauses: nat,
    wrapUps: nat,
    requestRetries: nat,
    streamRetries: nat,
    emptyRetries: nat,
    emptyCondensed: bool,
    contextCondensed: bool,
    signatureRetried: bool,
    repairs: nat,
    refreshes: nat,
    fellBack: bool)

  /** What the loop learns about a failed request, and what became of the recovery it tries. */
  datatype Failure = Failure(
    brokenPairing: bool,
    lostResponseState: bool,
    badSignature: bool,
    contextTooLong: bool,
    condensed: bool,
    auth: bool,
    refreshable: bool,
    refreshed: bool,
    retryable: bool,
    transient: bool,
    midStream: bool)

  datatype Content =
    | NothingVisible(mayCondense: bool, condensed: bool)
    | TextOnly
    | ToolCalls(hasRuntime: bool, withinToolBudget: bool, endsTurn: bool)

  datatype Answer =
    | Failed(failure: Failure)
    | PauseTurn
    | MaxTokens
    | Refusal
    | Reply(content: Content)

  /**
   One round of the environment: the model-selection revision when the round starts and when its
   request ends, the first abort check that sees the turn aborted, and the answer.
   */
  datatype Round = Round(revisionAtHead: nat, revisionAfterRequest: nat, abortSeenAt: nat, answer: Answer)

  // The abort checks of one round, in order.
  const AFTER_SELECTION: nat := 1
  const AFTER_REQUEST: nat := 2
  const AFTER_RECOVERY: nat := 3
  const AFTER_TOOLS: nat := 4

  datatype Again =
    | Superseded | Repaired | FellBack | Sanitized | Condensed | Refreshed | RetriedStream | RetriedRequest
    | Paused | WrappedUp | RetriedEmpty | CondensedEmpty | RanTools

  datatype End = Aborted | Threw | Truncated | Declined | ForceStopped | GaveUp | Answered

  datatype Outcome = Continue(why: Again) | Stop(how: End)

  datatype Turn = Turn(next: Budgets, outcome: Outcome)

  // ---------------------------------------------------------------- one turn of the loop

  function Start(revision: nat): Budgets {
    Budgets(revision, 0, 0, 0, 0, 0, 0, false, false, false, 0, 0, false)
  }

  /** A new model selection is adopted at the head of the loop and restores the budgets tied to the model. */
  function Adopt(s: Budgets, revision: nat): Budgets {
    if s.adopted == revision then s
    else s.(adopted := revision, requestRetries := 0, streamRetries := 0, refreshes := 0, signatureRetried := false)
  }

  function RetryLimit(f: Failure): nat {
    if f.midStream then MAX_STREAM_RETRIES
    else if f.transient then MAX_TRANSIENT_REQUEST_RETRIES
    else MAX_REQUEST_RETRIES
  }

  function OnFailure(s: Budgets, r: Round, f: Failure): Turn {
    if r.abortSeenAt <= AFTER_REQUEST then
      Turn(s, Stop(Aborted))
    else if r.revisionAfterRequest != s.adopted then
      Turn(s, Continue(Superseded))
    else if f.brokenPairing && s.repairs < MAX_TOOL_PAIRING_REPAIR_ATTEMPTS then
      Turn(s.(repairs := s.repairs + 1), Continue(Repaired))
    else if f.lostResponseState && !s.fellBack then
      Turn(s.(fellBack := true), Continue(FellBack))
    else if f.badSignature && !s.signatureRetried then
      Turn(s.(signatureRetried := true), Continue(Sanitized))
    else if f.contextTooLong then
      if s.contextCondensed then Turn(s, Stop(Threw))
      else
        var s1 := s.(contextCondensed := true);
        if r.abortSeenAt <= AFTER_RECOVERY then Turn(s1, Stop(Aborted))
        else if f.condensed then Turn(s1, Continue(Condensed))
        else Turn(s1, Stop(Threw))
    else if f.auth then
      if s.refreshes < MAX_CREDENTIAL_REFRESHES && f.refreshable then
        var s1 := s.(refreshes := s.refreshes + 1);
        if !f.refreshed then Turn(s1, Stop(Threw))
        else if r.abortSeenAt <= AFTER_RECOVERY then Turn(s1, Stop(Aborted))
        else Turn(s1, Continue(Refreshed))
      else Turn(s, Stop(Threw))
    else if !f.retryable then
      Turn(s, Stop(Threw))
    else if f.midStream then
      if s.streamRetries >= RetryLimit(f) then Turn(s, Stop(Threw))
      else
        var s1 := s.(streamRetries := s.streamRetries + 1);
        Turn(s1, if r.abortSeenAt <= AFTER_RECOVERY then Stop(Aborted) else Continue(RetriedStream))
    else
      if s.requestRetries >= RetryLimit(f) then Turn(s, Stop(Threw))
      else
        var s1 := s.(requestRetries := s.requestRetries + 1);
        Turn(s1, if r.abortSeenAt <= AFTER_RECOVERY then Stop(Aborted) else Continue(RetriedRequest))
  }

  function OnNothingVisible(s: Budgets, r: Round, mayCondense: bool, condensed: bool): Turn {
    if s.emptyRetries < MAX_EMPTY_RESPONSE_RETRIES then
      Turn(s.(emptyRetries := s.emptyRetries + 1), Continue(RetriedEmpty))
    else if s.emptyCondensed || !mayCondense then
      Turn(s, Stop(GaveUp))
    else
      var s1 := s.(emptyCondensed := true);
      if r.abortSeenAt <= AFTER_RECOVERY then Turn(s1, Stop(Aborted))
      else if condensed then Turn(s1.(emptyRetries := 0), Continue(CondensedEmpty))
      else Turn(s1, Stop(GaveUp))
  }

  /** Ask the model to wrap up instead of running its tools; at most `MAX_WRAP_UP_ATTEMPTS` times. */
  function OnToolsRefused(s: Budgets): Turn {
    var s1 := s.(wrapUps := s.wrapUps + 1);
    Turn(s1, if s1.wrapUps > MAX_WRAP_UP_ATTEMPTS then Stop(ForceStopped) else Continue(WrappedUp))
  }

  function OnReply(limits: Limits, s: Budgets, r: Round, c: Content): Turn {
    match c
    case NothingVisible(mayCondense, condensed) => OnNothingVisible(s, r, mayCondense, condensed)
    case TextOnly => Turn(s.(emptyRetries := 0), Stop(Answered))
    case ToolCalls(hasRuntime, withinToolBudget, endsTurn) =>
      if limits.maxApiTurns > 0 && s.turns >= limits.maxApiTurns then OnToolsRefused(s)
      else
        var s1 := s.(emptyRetries := 0);
        if !hasRuntime then Turn(s1, Stop(Answered))
        else if !withinToolBudget then OnToolsRefused(s1)
        else if r.abortSeenAt <= AFTER_TOOLS then Turn(s1, Stop(Aborted))
        else if endsTurn then Turn(s1, Stop(Answered))
        else Turn(s1, Continue(RanTools))
  }

  /** A completed response counts as a turn and restores both retry budgets, whatever it says. */
  function OnSuccess(limits: Limits, s: Budgets, r: Round): Turn
    requires !r.answer.Failed?
  {
    var s1 := s.(requestRetries := 0, streamRetries := 0, turns := s.turns + 1);
    if r.abortSeenAt <= AFTER_REQUEST then
      Turn(s1, Stop(Aborted))
    else if r.answer.PauseTurn? then
      var s2 := s1.(pauses := s1.pauses + 1);
      Turn(s2, if s2.pauses > limits.maxPauseTurns then Stop(Threw) else Continue(Paused))
    else
      var s2 := s1.(pauses := 0);
      match r.answer
      case MaxTokens => Turn(s2, Stop(Truncated))
      case Refusal => Turn(s2, Stop(Declined))
      case Reply(content) => OnReply(limits, s2, r, content)
  }

  function Step(limits: Limits, s: Budgets, r: Round): Turn {
    if r.abortSeenAt <= AFTER_SELECTION then
      Turn(s, Stop(Aborted))
    else
      var s1 := Adopt(s, r.revisionAtHead);
      match r.answer
      case Failed(failure) => OnFailure(s1, r, failure)
      case _ => OnSuccess(limits, s1, r)
  }

  // ---------------------------------------------------------------- the measure

  predicate Within(limits: Limits, s: Budgets) {
    && s.pauses <= limits.maxPauseTurns
    && s.wrapUps <= MAX_WRAP_UP_ATTEMPTS
    && s.requestRetries <= MAX_TRANSIENT_REQUEST_RETRIES
    && s.streamRetries <= MAX_STREAM_RETRIES
    && s.emptyRetries <= MAX_EMPTY_RESPONSE_RETRIES
    && s.repairs <= MAX_TOOL_PAIRING_REPAIR_ATTEMPTS
    && s.refreshes <= MAX_CREDENTIAL_REFRESHES
  }

  function TurnsLeft(limits: Limits, s: Budgets): nat {
    if s.turns < limits.maxApiTurns then limits.maxApiTurns - s.turns else 0
  }

  /** Responses, other than pauses, that may still be followed by another request. */
  function ResponsesLeft(limits: Limits, s: Budgets): nat
    requires Within(limits, s)
  {
    3 * TurnsLeft(limits, s)
    + (MAX_WRAP_UP_ATTEMPTS - s.wrapUps)
    + (MAX_EMPTY_RESPONSE_RETRIES - s.emptyRetries)
    + (if s.emptyCondensed then 0 else 3)
  }

  function SuccessesLeft(limits: Limits, s: Budgets): nat
    requires Within(limits, s)
  {
    Times(ResponsesLeft(limits, s), limits.maxPauseTurns + 1) + (limits.maxPauseTurns - s.pauses)
  }

  /** Multiplication as repeated addition. */
  function Times(n: nat, m: nat): nat {
    if n == 0 then 0 else m + Times(n - 1, m)
  }

  lemma {:induction false} TimesIsProduct(n: nat, m: nat)
    ensures Times(n, m) == n * m
  {
    if n > 0 {
      TimesIsProduct(n - 1, m);
      assert n * m == (n - 1) * m + m;
    }
  }

  function Flag(used: bool): nat { if used then 0 else 1 }

  /** Recoveries whose budget neither a success nor a new selection restores, and those that either does. */
  function RecoveriesLeft(s: Budgets): int {
    (MAX_TRANSIENT_REQUEST_RETRIES - s.requestRetries)
    + (MAX_STREAM_RETRIES - s.streamRetries)
    + (MAX_CREDENTIAL_REFRESHES - s.refreshes)
    + Flag(s.signatureRetried)
    + (MAX_TOOL_PAIRING_REPAIR_ATTEMPTS - s.repairs)
    + Flag(s.fellBack)
    + Flag(s.contextCondensed)
  }

  /**
   `revision` is the current selection and `last` the last one there will be. A success may restore 13
   retries and a new selection 17 recoveries, hence the weights.
   */
  function Measure(limits: Limits, s: Budgets, revision: nat, last: nat): int
    requires Within(limits, s)
  {
    18 * (2 * (last - revision) + (if s.adopted == revision then 0 else 1))
    + 14 * SuccessesLeft(limits, s)
    + RecoveriesLeft(s)
  }

  lemma {:induction false} Lexicographic(fewer: nat, more: nat, pauses: nat, left: nat, leftBefore: nat)
    requires left <= pauses && (fewer < more || (fewer == more && left < leftBefore))
    ensures Times(fewer, pauses + 1) + left < Times(more, pauses + 1) + leftBefore
    decreases more
  {
    if fewer + 1 < more {
      Lexicographic(fewer, more - 1, pauses, left, leftBefore);
    }
  }

  lemma FewerResponses(limits: Limits, s: Budgets, t: Budgets)
    requires Within(limits, s) && Within(limits, t)
    requires ResponsesLeft(limits, t) < ResponsesLeft(limits, s)
             || (ResponsesLeft(limits, t) == ResponsesLeft(limits, s) && t.pauses > s.pauses)
    ensures SuccessesLeft(limits, t) < SuccessesLeft(limits, s)
  {
    Lexicographic(ResponsesLeft(limits, t), ResponsesLeft(limits, s), limits.maxPauseTurns,
                  limits.maxPauseTurns - t.pauses, limits.maxPauseTurns - s.pauses);
  }

  /** The state in which the loop looks at a response that is not a pause. */
  predicate Counted(limits: Limits, s: Budgets, s1: Budgets) {
    && Within(limits, s) && Within(limits, s1)
    && s1 == s.(requestRetries := 0, streamRetries := 0, turns := s.turns + 1, pauses := 0)
  }

  /** `t` follows `s` after a counted response that left the loop running. */
  predicate Spent(limits: Limits, s: Budgets, s1: Budgets, t: Budgets) {
    && Within(limits, s) && Within(limits, t)
    && t.adopted == s1.adopted
    && RecoveriesLeft(t) == RecoveriesLeft(s1)
    && ResponsesLeft(limits, t) < ResponsesLeft(limits, s)
  }

  lemma EmptyUsesAResponse(limits: Limits, s: Budgets, s1: Budgets, r: Round, mayCondense: bool, condensed: bool)
    requires Counted(limits, s, s1)
    requires OnNothingVisible(s1, r, mayCondense, condensed).outcome.Continue?
    ensures Spent(limits, s, s1, OnNothingVisible(s1, r, mayCondense, condensed).next)
  {
  }

  lemma WrapUpUsesAResponse(limits: Limits, s: Budgets, s1: Budgets, s2: Budgets)
    requires limits.maxApiTurns > 0 && Counted(limits, s, s1)
    requires s2 == s1 || (s1.turns < limits.maxApiTurns && s2 == s1.(emptyRetries := 0))
    requires OnToolsRefused(s2).outcome.Continue?
    ensures Spent(limits, s, s1, OnToolsRefused(s2).next)
  {
    var t := OnToolsRefused(s2).next;
    assert t.wrapUps == s.wrapUps + 1 && t.emptyCondensed == s.emptyCondensed;
    assert s2 != s1 ==> TurnsLeft(limits, t) == TurnsLeft(limits, s) - 1;
    assert TurnsLeft(limits, t) <= TurnsLeft(limits, s);
  }

  lemma ToolRoundUsesAResponse(limits: Limits, s: Budgets, s1: Budgets)
    requires Counted(limits, s, s1) && s1.turns < limits.maxApiTurns
    ensures Spent(limits, s, s1, s1.(emptyRetries := 0))
  {
    assert TurnsLeft(limits, s1) == TurnsLeft(limits, s) - 1;
  }

  lemma ReplyUsesAResponse(limits: Limits, s: Budgets, s1: Budgets, r: Round, c: Content)
    requires limits.maxApiTurns > 0 && Counted(limits, s, s1)
    requires OnReply(limits, s1, r, c).outcome.Continue?
    ensures Spent(limits, s, s1, OnReply(limits, s1, r, c).next)
  {
    match c
    case NothingVisible(mayCondense, condensed) => EmptyUsesAResponse(limits, s, s1, r, mayCondense, condensed);
    case TextOnly =>
    case ToolCalls(_, withinToolBudget, _) =>
      if s1.turns >= limits.maxApiTurns {
        WrapUpUsesAResponse(limits, s, s1, s1);
      } else if !withinToolBudget {
        WrapUpUsesAResponse(limits, s, s1, s1.(emptyRetries := 0));
      } else {
        ToolRoundUsesAResponse(limits, s, s1);
      }
  }

  /** `t` follows `s` after a response that left the loop running. */
  predicate Progressed(limits: Limits, s: Budgets, t: Budgets) {
    && Within(limits, s) && Within(limits, t)
    && t.adopted == s.adopted
    && RecoveriesLeft(t) <= RecoveriesLeft(s) + 13
    && (ResponsesLeft(limits, t) < ResponsesLeft(limits, s)
        || (ResponsesLeft(limits, t) == ResponsesLeft(limits, s) && t.pauses > s.pauses))
  }

  lemma PauseUsesAResponse(limits: Limits, s: Budgets, t: Budgets)
    requires Within(limits, s) && s.pauses < limits.maxPauseTurns
    requires t == s.(requestRetries := 0, streamRetries := 0, turns := s.turns + 1, pauses := s.pauses + 1)
    ensures Progressed(limits, s, t)
  {
  }

  lemma SpentIsProgress(limits: Limits, s: Budgets, s1: Budgets, t: Budgets)
    requires Counted(limits, s, s1) && Spent(limits, s, s1, t)
    ensures Progressed(limits, s, t)
  {
  }

  lemma SuccessUsesAResponse(limits: Limits, s: Budgets, r: Round)
    requires limits.maxApiTurns > 0 && Within(limits, s) && !r.answer.Failed?
    requires OnSuccess(limits, s, r).outcome.Continue?
    ensures Progressed(limits, s, OnSuccess(limits, s, r).next)
  {
    if r.answer.PauseTurn? {
      PauseUsesAResponse(limits, s, OnSuccess(limits, s, r).next);
    } else {
      var s1 := s.(requestRetries := 0, streamRetries := 0, turns := s.turns + 1, pauses := 0);
      assert OnSuccess(limits, s, r) == OnReply(limits, s1, r, r.answer.content);
      ReplyUsesAResponse(limits, s, s1, r, r.answer.content);
      SpentIsProgress(limits, s, s1, OnReply(limits, s1, r, r.answer.content).next);
    }
  }

  lemma FailureLowersMeasure(limits: Limits, s: Budgets, r: Round, f: Failure)
    requires Within(limits, s) && OnFailure(s, r, f).outcome.Continue?
    ensures var t := OnFailure(s, r, f).next;
      && Within(limits, t)
      && t.adopted == s.adopted
      && SuccessesLeft(limits, t) == SuccessesLeft(limits, s)
      && if OnFailure(s, r, f).outcome.why == Superseded
         then t == s && r.revisionAfterRequest != s.adopted
         else RecoveriesLeft(t) < RecoveriesLeft(s)
  {
  }

  lemma AdoptionLowersMeasure(limits: Limits, s: Budgets, revision: nat, next: nat, last: nat)
    requires Within(limits, s) && revision <= next <= last
    ensures var s1 := Adopt(s, next);
      && Within(limits, s1)
      && s1.adopted == next
      && Measure(limits, s1, next, last) <= Measure(limits, s, revision, last)
  {
    assert SuccessesLeft(limits, Adopt(s, next)) == SuccessesLeft(limits, s);
  }

  lemma StepLowersMeasure(limits: Limits, s: Budgets, r: Round, revision: nat, last: nat)
    requires limits.maxApiTurns > 0 && Within(limits, s)
    requires revision <= r.revisionAtHead <= r.revisionAfterRequest <= last
    requires Step(limits, s, r).outcome.Continue?
    ensures Within(limits, Step(limits, s, r).next)
    ensures Measure(limits, Step(limits, s, r).next, r.revisionAfterRequest, last)
          < Measure(limits, s, revision, last)
  {
    var s1 := Adopt(s, r.revisionAtHead);
    AdoptionLowersMeasure(limits, s, revision, r.revisionAtHead, last);
    var t := Step(limits, s, r).next;
    if r.answer.Failed? {
      FailureLowersMeasure(limits, s1, r, r.answer.failure);
    } else {
      SuccessUsesAResponse(limits, s1, r);
      FewerResponses(limits, s1, t);
    }
    RequestLowersMeasure(limits, s1, t, r.revisionAtHead, r.revisionAfterRequest, last);
  }

  lemma RequestLowersMeasure(limits: Limits, s: Budgets, t: Budgets, revision: nat, next: nat, last: nat)
    requires Within(limits, s) && Within(limits, t) && s.adopted == t.adopted == revision <= next <= last
    requires || (SuccessesLeft(limits, t) < SuccessesLeft(limits, s) && RecoveriesLeft(t) <= RecoveriesLeft(s) + 13)
             || (SuccessesLeft(limits, t) == SuccessesLeft(limits, s) && RecoveriesLeft(t) < RecoveriesLeft(s))
             || (t == s && next != revision)
    ensures Measure(limits, t, next, last) < Measure(limits, s, revision, last)
  {
  }

  // ---------------------------------------------------------------- the loop

  /** The budgets after the rounds played so far. */
  function Play(limits: Limits, start: Budgets, rounds: seq<Round>): Budgets {
    if rounds == [] then start
    else Step(limits, Play(limits, start, rounds[..|rounds| - 1]), rounds[|rounds| - 1]).next
  }

  function OutcomeOf(limits: Limits, start: Budgets, rounds: seq<Round>, i: nat): Outcome
    requires i < |rounds|
  {
    Step(limits, Play(limits, start, rounds[..i]), rounds[i]).outcome
  }

  /** The loop asked the provider again after every one of these rounds. */
  predicate Continues(limits: Limits, start: Budgets, rounds: seq<Round>) {
    forall i: nat | i < |rounds| :: OutcomeOf(limits, start, rounds, i).Continue?
  }

  predicate InOrder(rounds: nat -> Round, i: nat, last: nat) {
    rounds(i).revisionAtHead <= rounds(i).revisionAfterRequest <= rounds(i + 1).revisionAtHead <= last
  }

  /** The selection revision only grows, and stays at or below `last`. */
  ghost predicate Orderly(rounds: nat -> Round, revision: nat, last: nat) {
    revision <= rounds(0).revisionAtHead && forall i: nat :: InOrder(rounds, i, last)
  }

  // ---------------------------------------------------------------- what one failure or response costs

  /** The budget of recovery `why` is not used up. */
  predicate HasBudget(s: Budgets, why: Again, f: Failure) {
    match why
    case Superseded => true
    case Repaired => s.repairs < 2
    case FellBack => !s.fellBack
    case Sanitized => !s.signatureRetried
    case Condensed => !s.contextCondensed
    case Refreshed => s.refreshes < 3
    case RetriedStream => s.streamRetries < 5
    case RetriedRequest => s.requestRetries < (if f.transient then 8 else 4)
    case _ => false
  }

  /** One use of the budget of recovery `why`; every other budget stays. */
  function Charged(s: Budgets, why: Again): Budgets {
    match why
    case Repaired => s.(repairs := s.repairs + 1)
    case FellBack => s.(fellBack := true)
    case Sanitized => s.(signatureRetried := true)
    case Condensed => s.(contextCondensed := true)
    case Refreshed => s.(refreshes := s.refreshes + 1)
    case RetriedStream => s.(streamRetries := s.streamRetries + 1)
    case RetriedRequest => s.(requestRetries := s.requestRetries + 1)
    case _ => s
  }

  /** A recovery that continues charges its own budget once; a failure that ends the run charges at most one. */
  predicate ChargesOne(s: Budgets, f: Failure, next: Budgets, outcome: Outcome) {
    match outcome
    case Continue(why) => HasBudget(s, why, f) && next == Charged(s, why)
    case Stop(_) =>
      next in {s, Charged(s, Condensed), Charged(s, Refreshed), Charged(s, RetriedStream), Charged(s, RetriedRequest)}
  }

  /** A completed response counts as a turn and refills both retries; no recovery budget moves. */
  predicate Refills(s: Budgets, next: Budgets) {
    next == s.(turns := s.turns + 1, requestRetries := 0, streamRetries := 0,
               pauses := next.pauses, wrapUps := next.wrapUps, emptyRetries := next.emptyRetries,
               emptyCondensed := next.emptyCondensed)
  }

  /** What a response that is not a pause moves when the loop goes on: one budget, within its limit. */
  predicate PaysForReply(limits: Limits, s: Budgets, why: Again, next: Budgets) {
    && next.pauses == 0
    && (next.wrapUps == if why == WrappedUp then s.wrapUps + 1 else s.wrapUps)
    && (next.emptyCondensed == (why == CondensedEmpty || s.emptyCondensed))
    && match why
       case RetriedEmpty => next.emptyRetries == s.emptyRetries + 1 <= 2
       case CondensedEmpty => !s.emptyCondensed && s.emptyRetries >= 2 && next.emptyRetries == 0
       case WrappedUp => next.wrapUps <= 2 && next.emptyRetries <= s.emptyRetries
       case RanTools => next.emptyRetries == 0 && (limits.maxApiTurns == 0 || next.turns < limits.maxApiTurns)
       case _ => false
  }

  /** Going on after a completed response costs one use of exactly one budget; running tools costs a turn. */
  lemma ReplyIsPaid(limits: Limits, s: Budgets, r: Round, c: Content)
    ensures var s1 := s.(requestRetries := 0, streamRetries := 0, turns := s.turns + 1, pauses := 0);
      var turn := OnReply(limits, s1, r, c);
      Refills(s, turn.next) && (turn.outcome.Continue? ==> PaysForReply(limits, s, turn.outcome.why, turn.next))
  {
  }

  lemma PauseIsPaid(limits: Limits, s: Budgets, r: Round)
    requires r.answer.PauseTurn?
    ensures var turn := OnSuccess(limits, s, r);
      && Refills(s, turn.next)
      && (turn.outcome.Continue? ==>
            && turn.outcome.why == Paused && s.pauses < limits.maxPauseTurns
            && turn.next == s.(turns := s.turns + 1, requestRetries := 0, streamRetries := 0, pauses := s.pauses + 1))
  {
  }

  lemma SuccessIsPaid(limits: Limits, s: Budgets, r: Round)
    requires !r.answer.Failed?
    ensures var turn := OnSuccess(limits, s, r);
      && Refills(s, turn.next)
      && (turn.outcome.Continue? ==>
            if r.answer.PauseTurn?
            then turn.outcome.why == Paused && s.pauses < limits.maxPauseTurns
                 && turn.next == s.(turns := s.turns + 1, requestRetries := 0, streamRetries := 0,
                                    pauses := s.pauses + 1)
            else PaysForReply(limits, s, turn.outcome.why, turn.next))
  {
    if r.answer.PauseTurn? {
      PauseIsPaid(limits, s, r);
    } else if r.answer.Reply? {
      ReplyIsPaid(limits, s, r, r.answer.content);
    }
  }

  // ---------------------------------------------------------------- which answer leads where

  /** The recoveries, in the order in which they are tried. */
  const RECOVERIES: seq<Again> :=
    [Superseded, Repaired, FellBack, Sanitized, Condensed, Refreshed, RetriedStream, RetriedRequest]

  /** The failure is one that recovery `why` is meant for, and the recovery works out. */
  predicate Answers(s: Budgets, r: Round, f: Failure, why: Again) {
    match why
    case Superseded => r.revisionAfterRequest != s.adopted
    case Repaired => f.brokenPairing
    case FellBack => f.lostResponseState
    case Sanitized => f.badSignature
    case Condensed => f.contextTooLong && f.condensed
    case Refreshed => f.auth && f.refreshable && f.refreshed && !f.contextTooLong
    case RetriedStream => f.retryable && f.midStream && !f.auth && !f.contextTooLong
    case RetriedRequest => f.retryable && !f.midStream && !f.auth && !f.contextTooLong
    case _ => false
  }

  predicate Applies(s: Budgets, r: Round, f: Failure, k: nat)
    requires k < |RECOVERIES|
  {
    Answers(s, r, f, RECOVERIES[k]) && HasBudget(s, RECOVERIES[k], f)
  }

  /** Recovery `k` is the first that applies. */
  predicate IsFirst(s: Budgets, r: Round, f: Failure, k: nat) {
    k < |RECOVERIES| && Applies(s, r, f, k) && forall j: nat | j < k :: !Applies(s, r, f, j)
  }

  /** The last abort check that recovery `k` passes; the first four recoveries take no time. */
  function LastCheck(k: nat): nat {
    if k < 4 then AFTER_REQUEST else AFTER_RECOVERY
  }

  /**
   After a failed request the loop goes on exactly with the first recovery that is meant for the
   failure and has budget left, unless an abort is seen before it is through.
   */
  lemma RecoversIff(s: Budgets, r: Round, f: Failure, k: nat)
    requires k < |RECOVERIES|
    ensures OnFailure(s, r, f).outcome == Continue(RECOVERIES[k]) <==>
            IsFirst(s, r, f, k) && r.abortSeenAt > LastCheck(k)
  {
    NoneBefore(s, r, f, k);
  }

  lemma NoneBefore(s: Budgets, r: Round, f: Failure, k: nat)
    requires k <= |RECOVERIES|
    ensures (forall j: nat | j < k :: !Applies(s, r, f, j)) <==>
            && (k > 0 ==> !Applies(s, r, f, 0)) && (k > 1 ==> !Applies(s, r, f, 1))
            && (k > 2 ==> !Applies(s, r, f, 2)) && (k > 3 ==> !Applies(s, r, f, 3))
            && (k > 4 ==> !Applies(s, r, f, 4)) && (k > 5 ==> !Applies(s, r, f, 5))
            && (k > 6 ==> !Applies(s, r, f, 6)) && (k > 7 ==> !Applies(s, r, f, 7))
  {
  }

  /** A failure without an abort is thrown if and only if no recovery applies. */
  lemma ThrownIff(s: Budgets, r: Round, f: Failure)
    ensures OnFailure(s, r, f).outcome == Stop(Threw) ==>
              r.abortSeenAt > AFTER_REQUEST && forall k: nat | k < |RECOVERIES| :: !Applies(s, r, f, k)
    ensures r.abortSeenAt > AFTER_RECOVERY && (forall k: nat | k < |RECOVERIES| :: !Applies(s, r, f, k)) ==>
              OnFailure(s, r, f).outcome == Stop(Threw)
    ensures OnFailure(s, r, f).outcome.Stop? ==> OnFailure(s, r, f).outcome.how in {Threw, Aborted}
    ensures OnFailure(s, r, f).outcome == Stop(Aborted) ==> r.abortSeenAt <= AFTER_RECOVERY
    ensures r.abortSeenAt <= AFTER_REQUEST ==> OnFailure(s, r, f).outcome == Stop(Aborted)
  {
    NoneBefore(s, r, f, |RECOVERIES|);
  }

  /** A new selection restores the four budgets that belong to the model, and no other. */
  lemma AdoptionRestores(s: Budgets, revision: nat)
    ensures var t := Adopt(s, revision);
      if s.adopted == revision then t == s
      else
        && t.adopted == revision && t.requestRetries == t.streamRetries == t.refreshes == 0 && !t.signatureRetried
        && t == s.(adopted := t.adopted, requestRetries := 0, streamRetries := 0, refreshes := 0,
                   signatureRetried := false)
  {
  }

  /** The tools of a response are not run: the turn or tool budget is used up. */
  predicate RefusesTools(limits: Limits, s: Budgets, c: Content) {
    && c.ToolCalls?
    && ((limits.maxApiTurns > 0 && s.turns + 1 >= limits.maxApiTurns) || (c.hasRuntime && !c.withinToolBudget))
  }

  /** Why the loop goes on after a completed response. */
  predicate GoesOnFor(limits: Limits, s: Budgets, r: Round, why: Again) {
    match why
    case Paused => r.answer.PauseTurn? && s.pauses < limits.maxPauseTurns
    case WrappedUp => r.answer.Reply? && RefusesTools(limits, s, r.answer.content) && s.wrapUps < 2
    case RetriedEmpty => r.answer.Reply? && r.answer.content.NothingVisible? && s.emptyRetries < 2
    case CondensedEmpty =>
      && r.answer.Reply? && r.answer.content.NothingVisible? && s.emptyRetries >= 2
      && !s.emptyCondensed && r.answer.content.mayCondense && r.answer.content.condensed
      && r.abortSeenAt > AFTER_RECOVERY
    case RanTools =>
      && r.answer.Reply? && r.answer.content.ToolCalls? && !RefusesTools(limits, s, r.answer.content)
      && r.answer.content.hasRuntime && !r.answer.content.endsTurn && r.abortSeenAt > AFTER_TOOLS
    case _ => false
  }

  /** Why a completed response ends the loop. */
  predicate EndsFor(limits: Limits, s: Budgets, r: Round, how: End) {
    match how
    case Aborted =>
      || r.abortSeenAt <= AFTER_REQUEST
      || (&& r.abortSeenAt <= AFTER_RECOVERY && r.answer.Reply? && r.answer.content.NothingVisible?
          && s.emptyRetries >= 2 && !s.emptyCondensed && r.answer.content.mayCondense)
      || (&& r.abortSeenAt <= AFTER_TOOLS && r.answer.Reply? && r.answer.content.ToolCalls?
          && !RefusesTools(limits, s, r.answer.content) && r.answer.content.hasRuntime)
    case Threw => r.answer.PauseTurn? && s.pauses >= limits.maxPauseTurns
    case Truncated => r.answer.MaxTokens?
    case Declined => r.answer.Refusal?
    case ForceStopped => r.answer.Reply? && RefusesTools(limits, s, r.answer.content) && s.wrapUps >= 2
    case GaveUp =>
      && r.answer.Reply? && r.answer.content.NothingVisible? && s.emptyRetries >= 2
      && !(!s.emptyCondensed && r.answer.content.mayCondense && r.answer.content.condensed)
    case Answered =>
      && r.answer.Reply?
      && (|| r.answer.content.TextOnly?
          || (&& r.answer.content.ToolCalls? && !RefusesTools(limits, s, r.answer.content)
              && (!r.answer.content.hasRuntime || r.answer.content.endsTurn)))
  }

  /** After a completed response the loop goes on, or ends, for exactly these reasons. */
  lemma ResponseLeadsIff(limits: Limits, s: Budgets, r: Round, why: Again, how: End)
    requires !r.answer.Failed?
    ensures OnSuccess(limits, s, r).outcome == Continue(why) <==>
            r.abortSeenAt > AFTER_REQUEST && GoesOnFor(limits, s, r, why)
    ensures OnSuccess(limits, s, r).outcome == Stop(how) <==>
            EndsFor(limits, s, r, how) && (how != Aborted ==> !EndsFor(limits, s, r, Aborted))
  {
  }

  /** What a completed response that does not end the loop leaves of every budget. */
  lemma ResponseBudgets(limits: Limits, s: Budgets, r: Round, why: Again)
    requires !r.answer.Failed? && OnSuccess(limits, s, r).outcome == Continue(why)
    ensures OnSuccess(limits, s, r).next ==
            s.(requestRetries := 0, streamRetries := 0, turns := s.turns + 1,
               pauses := if why == Paused then s.pauses + 1 else 0,
               wrapUps := if why == WrappedUp then s.wrapUps + 1 else s.wrapUps,
               emptyCondensed := s.emptyCondensed || why == CondensedEmpty,
               emptyRetries :=
                 if why == RetriedEmpty then s.emptyRetries + 1
                 else if why == Paused then s.emptyRetries
                 else if why == WrappedUp && 0 < limits.maxApiTurns <= s.turns + 1 then s.emptyRetries
                 else 0)
  {
  }

  /** An answer that is accepted forgets the empty responses before it. */
  lemma AnswersForgetEmptyOnes(limits: Limits, s: Budgets, r: Round)
    requires !r.answer.Failed? && OnSuccess(limits, s, r).outcome == Stop(Answered)
    ensures OnSuccess(limits, s, r).next.emptyRetries == 0
  {
  }

  /** An abort seen at the head of a round ends the run before anything else. */
  lemma AbortAtTheHead(limits: Limits, s: Budgets, r: Round)
    requires r.abortSeenAt <= AFTER_SELECTION
    ensures Step(limits, s, r) == Turn(s, Stop(Aborted))
  {
  }

  // ---------------------------------------------------------------- the body of the loop

  /** The catch block: the first recovery that applies and has budget left, or an error. */
  method HandleFailure(s: Budgets, r: Round, f: Failure) returns (next: Budgets, outcome: Outcome)
    ensures Turn(next, outcome) == OnFailure(s, r, f)
    ensures ChargesOne(s, f, next, outcome)
  {
    next := s;
    if r.abortSeenAt <= AFTER_REQUEST {
      return next, Stop(Aborted);
    }
    if r.revisionAfterRequest != next.adopted {
      return next, Continue(Superseded);
    }
    if f.brokenPairing && next.repairs < MAX_TOOL_PAIRING_REPAIR_ATTEMPTS {
      next := next.(repairs := next.repairs + 1);
      return next, Continue(Repaired);
    }
    if f.lostResponseState && !next.fellBack {
      next := next.(fellBack := true);
      return next, Continue(FellBack);
    }
    if f.badSignature && !next.signatureRetried {
      next := next.(signatureRetried := true);
      return next, Continue(Sanitized);
    }
    if f.contextTooLong {
      if !next.contextCondensed {
        next := next.(contextCondensed := true);
        if r.abortSeenAt <= AFTER_RECOVERY {
          return next, Stop(Aborted);
        }
        if f.condensed {
          return next, Continue(Condensed);
        }
      }
      return next, Stop(Threw);
    }
    if f.auth {
      if next.refreshes < MAX_CREDENTIAL_REFRESHES && f.refreshable {
        next := next.(refreshes := next.refreshes + 1);
        if f.refreshed {
          return next, if r.abortSeenAt <= AFTER_RECOVERY then Stop(Aborted) else Continue(Refreshed);
        }
      }
      return next, Stop(Threw);
    }
    var count := if f.midStream then next.streamRetries else next.requestRetries;
    if f.retryable && count < RetryLimit(f) {
      if f.midStream {
        next := next.(streamRetries := count + 1);
      } else {
        next := next.(requestRetries := count + 1);
      }
      if r.abortSeenAt <= AFTER_RECOVERY {
        return next, Stop(Aborted);
      }
      return next, Continue(if f.midStream then RetriedStream else RetriedRequest);
    }
    return next, Stop(Threw);
  }

  /** What follows a completed response. */
  method HandleResponse(limits: Limits, s: Budgets, r: Round) returns (next: Budgets, outcome: Outcome)
    requires !r.answer.Failed?
    ensures Turn(next, outcome) == OnSuccess(limits, s, r)
  {
    next := s.(requestRetries := 0, streamRetries := 0);
    next := next.(turns := next.turns + 1);
    if r.abortSeenAt <= AFTER_REQUEST {
      return next, Stop(Aborted);
    }
    if r.answer.PauseTurn? {
      next := next.(pauses := next.pauses + 1);
      return next, if next.pauses > limits.maxPauseTurns then Stop(Threw) else Continue(Paused);
    }
    next := next.(pauses := 0);
    if r.answer.MaxTokens? {
      return next, Stop(Truncated);
    }
    if r.answer.Refusal? {
      return next, Stop(Declined);
    }
    var content := r.answer.content;
    if limits.maxApiTurns > 0 && next.turns >= limits.maxApiTurns && content.ToolCalls? {
      next, outcome := RefuseTools(next);
      return;
    }
    if content.NothingVisible? {
      if next.emptyRetries < MAX_EMPTY_RESPONSE_RETRIES {
        next := next.(emptyRetries := next.emptyRetries + 1);
        return next, Continue(RetriedEmpty);
      }
      if !next.emptyCondensed && content.mayCondense {
        next := next.(emptyCondensed := true);
        if r.abortSeenAt <= AFTER_RECOVERY {
          return next, Stop(Aborted);
        }
        if content.condensed {
          next := next.(emptyRetries := 0);
          return next, Continue(CondensedEmpty);
        }
      }
      return next, Stop(GaveUp);
    }
    next := next.(emptyRetries := 0);
    if content.TextOnly? || !content.hasRuntime {
      return next, Stop(Answered);
    }
    if !content.withinToolBudget {
      next, outcome := RefuseTools(next);
      return;
    }
    if r.abortSeenAt <= AFTER_TOOLS {
      return next, Stop(Aborted);
    }
    return next, if content.endsTurn then Stop(Answered) else Continue(RanTools);
  }

  method RefuseTools(s: Budgets) returns (next: Budgets, outcome: Outcome)
    ensures Turn(next, outcome) == OnToolsRefused(s)
  {
    next := s.(wrapUps := s.wrapUps + 1);
    if next.wrapUps > MAX_WRAP_UP_ATTEMPTS {
      return next, Stop(ForceStopped);
    }
    return next, Continue(WrappedUp);
  }

  /** One turn of the loop. */
  method TakeTurn(limits: Limits, s: Budgets, r: Round) returns (next: Budgets, outcome: Outcome)
    ensures Turn(next, outcome) == Step(limits, s, r)
  {
    next := s;
    if r.abortSeenAt <= AFTER_SELECTION {
      return next, Stop(Aborted);
    }
    if next.adopted != r.revisionAtHead {
      next := next.(adopted := r.revisionAtHead, requestRetries := 0, streamRetries := 0, refreshes := 0,
                    signatureRetried := false);
    }
    if r.answer.Failed? {
      next, outcome := HandleFailure(next, r, r.answer.failure);
    } else {
      next, outcome := HandleResponse(limits, next, r);
    }
  }

  /** How many requests a run can make at most, given how many model selections happen during it. */
  function RequestBound(limits: Limits, selections: nat): nat {
    36 * selections + 14 * ((3 * limits.maxApiTurns + 7) * (limits.maxPauseTurns + 1) + limits.maxPauseTurns) + 22
  }

  lemma StartMeasure(limits: Limits, revision: nat, last: nat)
    requires revision <= last
    ensures Within(limits, Start(revision))
    ensures Running(limits, Start(revision), [], Start(revision))
    ensures Measure(limits, Start(revision), revision, last) + 1 == RequestBound(limits, last - revision)
  {
    TimesIsProduct(3 * limits.maxApiTurns + 7, limits.maxPauseTurns + 1);
  }

  /** The loop is still running after these rounds, with budgets `s`. */
  predicate Running(limits: Limits, start: Budgets, rounds: seq<Round>, s: Budgets) {
    s == Play(limits, start, rounds) && Within(limits, s) && Continues(limits, start, rounds)
  }

  /** The last of these rounds, and no earlier one, ended the loop. */
  predicate Ended(limits: Limits, start: Budgets, rounds: seq<Round>, how: End) {
    && rounds != []
    && Continues(limits, start, rounds[..|rounds| - 1])
    && OutcomeOf(limits, start, rounds, |rounds| - 1) == Stop(how)
  }

  /** One turn of the loop within a run. */
  method PlayRound(limits: Limits, start: Budgets, ghost played: seq<Round>, s: Budgets, round: Round,
                   ghost current: nat, ghost last: nat)
    returns (next: Budgets, outcome: Outcome)
    requires limits.maxApiTurns > 0 && Running(limits, start, played, s)
    requires current <= round.revisionAtHead <= round.revisionAfterRequest <= last
    ensures outcome.Stop? ==> Ended(limits, start, played + [round], outcome.how)
    ensures outcome.Continue? ==> Running(limits, start, played + [round], next)
    ensures outcome.Continue? ==>
              0 <= Measure(limits, next, round.revisionAfterRequest, last) < Measure(limits, s, current, last)
  {
    next, outcome := TakeTurn(limits, s, round);
    PlayedOneMore(limits, start, played, round);
    if outcome.Continue? {
      ContinuesOneMore(limits, start, played, round);
      StepLowersMeasure(limits, s, round, current, last);
      MeasureIsNatural(limits, next, round.revisionAfterRequest, last);
    }
  }

  /**
   The loop ends for every environment with finitely many model selections, and after no more than
   `RequestBound` requests.
   */
  method Run(limits: Limits, revision: nat, last: nat, rounds: nat -> Round)
    returns (played: seq<Round>, how: End)
    requires limits.maxApiTurns > 0
    requires revision <= last && Orderly(rounds, revision, last)
    ensures |played| <= RequestBound(limits, last - revision)
    ensures forall i: nat | i < |played| :: played[i] == rounds(i)
    ensures Ended(limits, Start(revision), played, how)
  {
    hide Play, Continues, Ended, Measure, RequestBound, Within;
    var budgets: Budgets, current: nat := Start(revision), revision;
    played := [];
    StartMeasure(limits, revision, last);
    MeasureIsNatural(limits, budgets, current, last);
    assert InOrder(rounds, 0, last);
    while true
      invariant Running(limits, Start(revision), played, budgets)
      invariant forall i: nat | i < |played| :: played[i] == rounds(i)
      invariant current <= rounds(|played|).revisionAtHead <= last
      invariant 0 <= Measure(limits, budgets, current, last)
      invariant |played| + 1 + Measure(limits, budgets, current, last) <= RequestBound(limits, last - revision)
      decreases Measure(limits, budgets, current, last)
    {
      var round := rounds(|played|);
      assert InOrder(rounds, |played|, last);
      var next, outcome := PlayRound(limits, Start(revision), played, budgets, round, current, last);
      played := played + [round];
      if outcome.Stop? {
        return played, outcome.how;
      }
      budgets, current := next, round.revisionAfterRequest;
    }
  }

  lemma ContinuesOneMore(limits: Limits, start: Budgets, rounds: seq<Round>, r: Round)
    requires Continues(limits, start, rounds)
    requires Step(limits, Play(limits, start, rounds), r).outcome.Continue?
    ensures Continues(limits, start, rounds + [r])
  {
    PlayedOneMore(limits, start, rounds, r);
    forall i: nat | i < |rounds| + 1
      ensures OutcomeOf(limits, start, rounds + [r], i).Continue?
    {
      assert i < |rounds| ==> OutcomeOf(limits, start, rounds, i).Continue?;
    }
  }

  lemma PlayedOneMore(limits: Limits, start: Budgets, rounds: seq<Round>, r: Round)
    ensures var more := rounds + [r];
      && more[..|rounds|] == rounds
      && Play(limits, start, more) == Step(limits, Play(limits, start, rounds), r).next
      && OutcomeOf(limits, start, more, |rounds|) == Step(limits, Play(limits, start, rounds), r).outcome
      && (forall i: nat | i < |rounds| :: OutcomeOf(limits, start, more, i) == OutcomeOf(limits, start, rounds, i))
  {
    var more := rounds + [r];
    assert more[..|rounds|] == rounds;
    assert forall i: nat | i < |rounds| :: more[..i] == rounds[..i];
  }

  lemma MeasureIsNatural(limits: Limits, s: Budgets, revision: nat, last: nat)
    requires Within(limits, s) && revision <= last
    ensures 0 <= Measure(limits, s, revision, last)
  {
  }

  /** A round whose tools run, under the first selection. */
  const TOOL_ROUND := Round(0, 0, 5, Reply(ToolCalls(true, true, false)))

  lemma ToolsRunAgain(limits: Limits, s: Budgets)
    requires limits.maxApiTurns == 0 && s.adopted == 0
    ensures Step(limits, s, TOOL_ROUND).outcome == Continue(RanTools) && Step(limits, s, TOOL_ROUND).next.adopted == 0
  {
  }

  /** An unlimited run need not end: an environment may ask for one more tool call for ever. */
  lemma {:induction false} WithoutATurnLimitItNeedNotEnd(limits: Limits, n: nat)
    requires limits.maxApiTurns == 0
    ensures Continues(limits, Start(0), seq(n, _ => TOOL_ROUND))
    ensures Play(limits, Start(0), seq(n, _ => TOOL_ROUND)).adopted == 0
  {
    if n > 0 {
      WithoutATurnLimitItNeedNotEnd(limits, n - 1);
      var before := seq(n - 1, _ => TOOL_ROUND);
      assert seq(n, _ => TOOL_ROUND) == before + [TOOL_ROUND];
      hide Play, Step, Continues;
      ToolsRunAgain(limits, Play(limits, Start(0), before));
      ContinuesOneMore(limits, Start(0), before, TOOL_ROUND);
      PlayedOneMore(limits, Start(0), before, TOOL_ROUND);
    }
  }

  // ---------------------------------------------------------------- retries between two successes

  predicate Succeeded(r: Round) {
    !r.answer.Failed?
  }

  /** How many of the rounds `from..to` ended in `why`. */
  function Count(limits: Limits, start: Budgets, rounds: seq<Round>, lo: nat, hi: nat, why: Again): nat
    requires lo <= hi <= |rounds|
  {
    if lo == hi then 0
    else Count(limits, start, rounds, lo, hi - 1, why)
         + (if OutcomeOf(limits, start, rounds, hi - 1) == Continue(why) then 1 else 0)
  }

  /** How many of the rounds `lo..hi` adopted a new model selection. */
  function Adoptions(limits: Limits, start: Budgets, rounds: seq<Round>, lo: nat, hi: nat): nat
    requires lo <= hi <= |rounds|
  {
    if lo == hi then 0
    else Adoptions(limits, start, rounds, lo, hi - 1)
         + (if Play(limits, start, rounds[..hi - 1]).adopted != rounds[hi - 1].revisionAtHead then 1 else 0)
  }

  lemma PlayStep(limits: Limits, start: Budgets, rounds: seq<Round>, i: nat)
    requires i < |rounds|
    ensures Play(limits, start, rounds[..i + 1]) == Step(limits, Play(limits, start, rounds[..i]), rounds[i]).next
  {
    assert rounds[..i + 1][..i] == rounds[..i];
  }

  lemma RecoverySpends(limits: Limits, s: Budgets, r: Round, f: Failure)
    requires Within(limits, s) && OnFailure(s, r, f).outcome.Continue?
    ensures var t, why := OnFailure(s, r, f).next, OnFailure(s, r, f).outcome.why;
      && Within(limits, t)
      && t.requestRetries == s.requestRetries + (if why == RetriedRequest then 1 else 0)
      && t.streamRetries == s.streamRetries + (if why == RetriedStream then 1 else 0)
      && t.refreshes == s.refreshes + (if why == Refreshed then 1 else 0)
  {
  }

  lemma FailureSpends(limits: Limits, s: Budgets, r: Round)
    requires Within(limits, s) && r.answer.Failed? && Step(limits, s, r).outcome.Continue?
    ensures var t, s1, why := Step(limits, s, r).next, Adopt(s, r.revisionAtHead), Step(limits, s, r).outcome.why;
      && Within(limits, t)
      && t.requestRetries == s1.requestRetries + (if why == RetriedRequest then 1 else 0)
      && t.streamRetries == s1.streamRetries + (if why == RetriedStream then 1 else 0)
      && t.refreshes == s1.refreshes + (if why == Refreshed then 1 else 0)
  {
    RecoverySpends(limits, Adopt(s, r.revisionAtHead), r, r.answer.failure);
  }

  lemma {:induction false} StaysWithin(limits: Limits, start: Budgets, rounds: seq<Round>)
    requires Within(limits, start) && Continues(limits, start, rounds)
    ensures Within(limits, Play(limits, start, rounds))
  {
    if rounds != [] {
      var n := |rounds| - 1;
      assert forall i: nat | i < n :: rounds[..n][..i] == rounds[..i];
      assert forall i: nat | i < n :: OutcomeOf(limits, start, rounds[..n], i) == OutcomeOf(limits, start, rounds, i);
      StaysWithin(limits, start, rounds[..n]);
      assert OutcomeOf(limits, start, rounds, n).Continue?;
      StepStaysWithin(limits, Play(limits, start, rounds[..n]), rounds[n]);
    }
  }

  lemma StepStaysWithin(limits: Limits, s: Budgets, r: Round)
    requires Within(limits, s) && Step(limits, s, r).outcome.Continue?
    ensures Within(limits, Step(limits, s, r).next)
  {
    var s1 := Adopt(s, r.revisionAtHead);
    if r.answer.Failed? {
      FailureLowersMeasure(limits, s1, r, r.answer.failure);
    } else {
      SuccessStaysWithin(limits, s1, r);
    }
  }

  lemma ReplyStaysWithin(limits: Limits, s: Budgets, r: Round, c: Content)
    requires Within(limits, s) && OnReply(limits, s, r, c).outcome.Continue?
    ensures Within(limits, OnReply(limits, s, r, c).next)
  {
  }

  lemma SuccessStaysWithin(limits: Limits, s: Budgets, r: Round)
    requires Within(limits, s) && !r.answer.Failed? && OnSuccess(limits, s, r).outcome.Continue?
    ensures Within(limits, OnSuccess(limits, s, r).next)
  {
    if r.answer.Reply? {
      var s1 := s.(requestRetries := 0, streamRetries := 0, turns := s.turns + 1, pauses := 0);
      ReplyStaysWithin(limits, s1, r, r.answer.content);
    }
  }

  /**
   Without a success in between, a run retries at most 8 requests and 5 streams, and refreshes
   credentials at most 3 times, for every model selection it works under: one more than it adopts.
   */
  lemma {:induction false} RetriesPerSelection(limits: Limits, start: Budgets, rounds: seq<Round>, lo: nat, hi: nat)
    requires Within(limits, start) && Continues(limits, start, rounds)
    requires lo <= hi <= |rounds|
    requires forall i: nat | lo <= i < hi :: !Succeeded(rounds[i])
    ensures var selections := Adoptions(limits, start, rounds, lo, hi) + 1;
      && Count(limits, start, rounds, lo, hi, RetriedRequest) <= 8 * selections
      && Count(limits, start, rounds, lo, hi, RetriedStream) <= 5 * selections
      && Count(limits, start, rounds, lo, hi, Refreshed) <= 3 * selections
  {
    RequestRetriesAreCounted(limits, start, rounds, lo, hi);
    StreamRetriesAreCounted(limits, start, rounds, lo, hi);
    RefreshesAreCounted(limits, start, rounds, lo, hi);
    ContinuesPrefix(limits, start, rounds, hi);
    StaysWithin(limits, start, rounds[..hi]);
  }

  lemma ContinuesPrefix(limits: Limits, start: Budgets, rounds: seq<Round>, n: nat)
    requires Continues(limits, start, rounds) && n <= |rounds|
    ensures Continues(limits, start, rounds[..n])
  {
    forall i: nat | i < n
      ensures OutcomeOf(limits, start, rounds[..n], i).Continue?
    {
      assert rounds[..n][..i] == rounds[..i];
      assert OutcomeOf(limits, start, rounds, i).Continue?;
    }
  }

  /** What a round that failed adds to the three retry budgets, which adopting a selection first empties. */
  lemma FailedRound(limits: Limits, start: Budgets, rounds: seq<Round>, i: nat)
    requires Within(limits, start) && Continues(limits, start, rounds)
    requires i < |rounds| && !Succeeded(rounds[i])
    ensures var s, t, why := Play(limits, start, rounds[..i]), Play(limits, start, rounds[..i + 1]),
                             OutcomeOf(limits, start, rounds, i);
      var kept := s.adopted == rounds[i].revisionAtHead;
      && s.requestRetries <= 8 && s.streamRetries <= 5 && s.refreshes <= 3
      && t.requestRetries == (if kept then s.requestRetries else 0) + (if why == Continue(RetriedRequest) then 1 else 0)
      && t.streamRetries == (if kept then s.streamRetries else 0) + (if why == Continue(RetriedStream) then 1 else 0)
      && t.refreshes == (if kept then s.refreshes else 0) + (if why == Continue(Refreshed) then 1 else 0)
  {
    ContinuesPrefix(limits, start, rounds, i);
    StaysWithin(limits, start, rounds[..i]);
    PlayStep(limits, start, rounds, i);
    assert OutcomeOf(limits, start, rounds, i).Continue?;
    FailureSpends(limits, Play(limits, start, rounds[..i]), rounds[i]);
  }

  lemma {:induction false} RequestRetriesAreCounted(limits: Limits, start: Budgets, rounds: seq<Round>,
                                                    lo: nat, hi: nat)
    requires Within(limits, start) && Continues(limits, start, rounds)
    requires lo <= hi <= |rounds|
    requires forall i: nat | lo <= i < hi :: !Succeeded(rounds[i])
    ensures Count(limits, start, rounds, lo, hi, RetriedRequest)
         <= 8 * Adoptions(limits, start, rounds, lo, hi) + Play(limits, start, rounds[..hi]).requestRetries
    decreases hi
  {
    if lo < hi {
      RequestRetriesAreCounted(limits, start, rounds, lo, hi - 1);
      FailedRound(limits, start, rounds, hi - 1);
    }
  }

  lemma {:induction false} StreamRetriesAreCounted(limits: Limits, start: Budgets, rounds: seq<Round>, lo: nat, hi: nat)
    requires Within(limits, start) && Continues(limits, start, rounds)
    requires lo <= hi <= |rounds|
    requires forall i: nat | lo <= i < hi :: !Succeeded(rounds[i])
    ensures Count(limits, start, rounds, lo, hi, RetriedStream)
         <= 5 * Adoptions(limits, start, rounds, lo, hi) + Play(limits, start, rounds[..hi]).streamRetries
    decreases hi
  {
    if lo < hi {
      StreamRetriesAreCounted(limits, start, rounds, lo, hi - 1);
      FailedRound(limits, start, rounds, hi - 1);
    }
  }

  lemma {:induction false} RefreshesAreCounted(limits: Limits, start: Budgets, rounds: seq<Round>, lo: nat, hi: nat)
    requires Within(limits, start) && Continues(limits, start, rounds)
    requires lo <= hi <= |rounds|
    requires forall i: nat | lo <= i < hi :: !Succeeded(rounds[i])
    ensures Count(limits, start, rounds, lo, hi, Refreshed)
         <= 3 * Adoptions(limits, start, rounds, lo, hi) + Play(limits, start, rounds[..hi]).refreshes
    decreases hi
  {
    if lo < hi {
      RefreshesAreCounted(limits, start, rounds, lo, hi - 1);
      FailedRound(limits, start, rounds, hi - 1);
    }
  }

  /** A transient failure to establish a request, under selection `revision`. */
  function Outage(revision: nat): Round {
    Round(revision, revision, 5,
          Failed(Failure(false, false, false, false, false, false, false, false, true, true, false)))
  }

  lemma OutageIsRetried(limits: Limits, s: Budgets, revision: nat)
    requires s.adopted != revision || s.requestRetries < 8
    ensures var s1 := Adopt(s, revision);
      Step(limits, s, Outage(revision))
      == Turn(s1.(requestRetries := s1.requestRetries + 1), Continue(RetriedRequest))
  {
  }

  /** `n` outages in a row, with a new model selection after every eighth. */
  function Outages(n: nat): seq<Round> {
    if n == 0 then [] else Outages(n - 1) + [Outage((n - 1) / 8)]
  }

  lemma {:induction false} OutagesContinue(limits: Limits, n: nat)
    ensures var rounds := Outages(n);
      && |rounds| == n
      && (forall i: nat | i < n :: !Succeeded(rounds[i]))
      && (forall i: nat | i < n :: OutcomeOf(limits, Start(0), rounds, i) == Continue(RetriedRequest))
    ensures Play(limits, Start(0), Outages(n)) == Start(if n == 0 then 0 else (n - 1) / 8).(
              requestRetries := if n == 0 then 0 else (n - 1) % 8 + 1)
  {
    if n > 0 {
      OutagesContinue(limits, n - 1);
      var before, next := Outages(n - 1), Outage((n - 1) / 8);
      OutageIsRetried(limits, Play(limits, Start(0), before), (n - 1) / 8);
      PlayedOneMore(limits, Start(0), before, next);
    }
  }

  /**
   The bound is met: any number of request retries can follow each other without a success, with one new
   selection for every eight. In particular 9 are possible between two successes.
   */
  lemma {:induction false} RetriesRestartWithEachSelection(limits: Limits, n: nat)
    ensures var rounds := Outages(n);
      && |rounds| == n
      && (forall i: nat | i < n :: !Succeeded(rounds[i]))
      && Continues(limits, Start(0), rounds)
      && Count(limits, Start(0), rounds, 0, n, RetriedRequest) == n
      && Adoptions(limits, Start(0), rounds, 0, n) == (if n == 0 then 0 else (n - 1) / 8)
  {
    OutagesContinue(limits, n);
    OutagesAreCounted(limits, n);
  }

  lemma {:induction false} OutagesAreCounted(limits: Limits, n: nat)
    ensures |Outages(n)| == n
    ensures Count(limits, Start(0), Outages(n), 0, n, RetriedRequest) == n
    ensures Adoptions(limits, Start(0), Outages(n), 0, n) == (if n == 0 then 0 else (n - 1) / 8)
  {
    OutagesContinue(limits, n);
    if n > 0 {
      OutagesContinue(limits, n - 1);
      OutagesAreCounted(limits, n - 1);
      CountsKeep(limits, Start(0), Outages(n - 1), Outage((n - 1) / 8), 0, n - 1);
      assert Outages(n)[..n - 1] == Outages(n - 1);
    }
  }

  lemma {:induction false} CountsKeep(limits: Limits, start: Budgets, rounds: seq<Round>, r: Round, lo: nat, hi: nat)
    requires lo <= hi <= |rounds|
    ensures Count(limits, start, rounds + [r], lo, hi, RetriedRequest)
         == Count(limits, start, rounds, lo, hi, RetriedRequest)
    ensures Adoptions(limits, start, rounds + [r], lo, hi) == Adoptions(limits, start, rounds, lo, hi)
    decreases hi
  {
    if lo < hi {
      CountsKeep(limits, start, rounds, r, lo, hi - 1);
      assert (rounds + [r])[..hi - 1] == rounds[..hi - 1];
    }
  }

  // ---------------------------------------------------------------- tools and the turn limit

  /** Tools run only before the turn limit: fewer than `maxApiTurns` rounds of a run end in tool execution. */
  lemma {:induction false} ToolRoundsAreLimited(limits: Limits, revision: nat, rounds: seq<Round>)
    requires limits.maxApiTurns > 0 && Continues(limits, Start(revision), rounds)
    ensures Count(limits, Start(revision), rounds, 0, |rounds|, RanTools) < limits.maxApiTurns
  {
    TurnsCountToolRounds(limits, revision, rounds, |rounds|);
  }

  lemma {:induction false} TurnsCountToolRounds(limits: Limits, revision: nat, rounds: seq<Round>, n: nat)
    requires limits.maxApiTurns > 0 && Continues(limits, Start(revision), rounds) && n <= |rounds|
    ensures var tools := Count(limits, Start(revision), rounds, 0, n, RanTools);
      tools < limits.maxApiTurns && tools <= Play(limits, Start(revision), rounds[..n]).turns
    decreases n
  {
    if n > 0 {
      TurnsCountToolRounds(limits, revision, rounds, n - 1);
      PlayStep(limits, Start(revision), rounds, n - 1);
      var s, r := Play(limits, Start(revision), rounds[..n - 1]), rounds[n - 1];
      assert OutcomeOf(limits, Start(revision), rounds, n - 1).Continue?;
      ToolsRunBeforeTheLimit(limits, s, r);
    }
  }

  lemma RepliesRunToolsBeforeTheLimit(limits: Limits, s: Budgets, r: Round, c: Content)
    requires limits.maxApiTurns > 0
    ensures var turn := OnReply(limits, s, r, c);
      && turn.next.turns == s.turns
      && (turn.outcome == Continue(RanTools) ==> s.turns < limits.maxApiTurns)
  {
  }

  lemma FailuresRunNoTools(s: Budgets, r: Round, f: Failure)
    ensures var turn := OnFailure(s, r, f);
      turn.next.turns == s.turns && turn.outcome != Continue(RanTools)
  {
  }

  lemma ToolsRunBeforeTheLimit(limits: Limits, s: Budgets, r: Round)
    requires limits.maxApiTurns > 0
    ensures var turn := Step(limits, s, r);
      && turn.next.turns >= s.turns
      && (turn.outcome == Continue(RanTools) ==> turn.next.turns == s.turns + 1 < limits.maxApiTurns)
  {
    var s1 := Adopt(s, r.revisionAtHead);
    if r.answer.Failed? {
      FailuresRunNoTools(s1, r, r.answer.failure);
    } else if r.answer.Reply? {
      var s2 := s1.(requestRetries := 0, streamRetries := 0, turns := s1.turns + 1, pauses := 0);
      RepliesRunToolsBeforeTheLimit(limits, s2, r, r.answer.content);
    }
  }

  // ---------------------------------------------------------------- only tool rounds can go on for ever

  /** As `ResponsesLeft`, with the rounds that will still run tools in place of the turns that are left. */
  function RepliesLeft(limits: Limits, tools: nat, s: Budgets): nat
    requires Within(limits, s)
  {
    3 * tools
    + 3 * (MAX_WRAP_UP_ATTEMPTS - s.wrapUps)
    + (MAX_EMPTY_RESPONSE_RETRIES - s.emptyRetries)
    + (if s.emptyCondensed then 0 else 3)
  }

  /** As `Measure`, whatever the turn limit, when `tools` more rounds run tools. */
  function ToolMeasure(limits: Limits, tools: nat, s: Budgets, revision: nat, last: nat): int
    requires Within(limits, s)
  {
    18 * (2 * (last - revision) + (if s.adopted == revision then 0 else 1))
    + 14 * (Times(RepliesLeft(limits, tools, s), limits.maxPauseTurns + 1) + (limits.maxPauseTurns - s.pauses))
    + RecoveriesLeft(s)
  }

  /** The tool rounds there are before a turn that ends with `why`, when `tools` follow it. */
  function WithTools(tools: nat, why: Again): nat {
    if why == RanTools then tools + 1 else tools
  }

  lemma PaidReplyUsesAReply(limits: Limits, tools: nat, s: Budgets, why: Again, t: Budgets)
    requires Within(limits, s) && Within(limits, t) && PaysForReply(limits, s, why, t)
    ensures RepliesLeft(limits, tools, t) < RepliesLeft(limits, WithTools(tools, why), s)
  {
  }

  /** What a response that keeps the loop running uses up. */
  ghost predicate Replied(limits: Limits, before: nat, s: Budgets, after: nat, t: Budgets) {
    && Within(limits, s) && Within(limits, t) && t.adopted == s.adopted
    && RecoveriesLeft(t) <= RecoveriesLeft(s) + 13
    && (RepliesLeft(limits, after, t) < RepliesLeft(limits, before, s)
        || (RepliesLeft(limits, after, t) == RepliesLeft(limits, before, s) && t.pauses > s.pauses))
  }

  lemma ResponseUsesAReply(limits: Limits, tools: nat, s: Budgets, r: Round)
    requires Within(limits, s) && !r.answer.Failed? && OnSuccess(limits, s, r).outcome.Continue?
    ensures var turn := OnSuccess(limits, s, r);
      Replied(limits, WithTools(tools, turn.outcome.why), s, tools, turn.next)
  {
    var t, why := OnSuccess(limits, s, r).next, OnSuccess(limits, s, r).outcome.why;
    SuccessIsPaid(limits, s, r);
    SuccessStaysWithin(limits, s, r);
    hide OnSuccess;
    if !r.answer.PauseTurn? {
      PaidReplyUsesAReply(limits, tools, s, why, t);
    }
  }

  lemma RepliedLowersToolMeasure(limits: Limits, before: nat, s: Budgets, after: nat, t: Budgets, next: nat, last: nat)
    requires Replied(limits, before, s, after, t) && s.adopted <= next <= last
    ensures ToolMeasure(limits, after, t, next, last) < ToolMeasure(limits, before, s, s.adopted, last)
  {
    var fewer, more := RepliesLeft(limits, after, t), RepliesLeft(limits, before, s);
    Lexicographic(fewer, more, limits.maxPauseTurns, limits.maxPauseTurns - t.pauses, limits.maxPauseTurns - s.pauses);
    hide RepliesLeft, RecoveriesLeft, Times;
  }

  lemma ResponseLowersToolMeasure(limits: Limits, tools: nat, s: Budgets, r: Round, next: nat, last: nat)
    requires Within(limits, s) && !r.answer.Failed? && OnSuccess(limits, s, r).outcome.Continue?
    requires s.adopted <= next <= last
    ensures var turn := OnSuccess(limits, s, r);
      && Within(limits, turn.next)
      && ToolMeasure(limits, tools, turn.next, next, last)
       < ToolMeasure(limits, WithTools(tools, turn.outcome.why), s, s.adopted, last)
  {
    hide OnSuccess, ToolMeasure;
    var t, why := OnSuccess(limits, s, r).next, OnSuccess(limits, s, r).outcome.why;
    ResponseUsesAReply(limits, tools, s, r);
    RepliedLowersToolMeasure(limits, WithTools(tools, why), s, tools, t, next, last);
  }

  lemma FailureKeepsReplies(limits: Limits, tools: nat, s: Budgets, r: Round, f: Failure)
    requires Within(limits, s) && Within(limits, OnFailure(s, r, f).next)
    ensures var turn := OnFailure(s, r, f);
      && RepliesLeft(limits, tools, turn.next) == RepliesLeft(limits, tools, s) && turn.next.pauses == s.pauses
      && turn.outcome != Continue(RanTools)
  {
  }

  lemma FailureLowersToolMeasure(limits: Limits, tools: nat, s: Budgets, r: Round, f: Failure, next: nat, last: nat)
    requires Within(limits, s) && OnFailure(s, r, f).outcome.Continue? && next == r.revisionAfterRequest
    requires s.adopted <= next <= last
    ensures var turn := OnFailure(s, r, f);
      && Within(limits, turn.next)
      && ToolMeasure(limits, tools, turn.next, next, last)
       < ToolMeasure(limits, WithTools(tools, turn.outcome.why), s, s.adopted, last)
  {
    FailureLowersMeasure(limits, s, r, f);
    FailureKeepsReplies(limits, tools, s, r, f);
  }

  lemma AdoptionLowersToolMeasure(limits: Limits, tools: nat, s: Budgets, revision: nat, next: nat, last: nat)
    requires Within(limits, s) && revision <= next <= last
    ensures var s1 := Adopt(s, next);
      && Within(limits, s1) && s1.adopted == next
      && ToolMeasure(limits, tools, s1, next, last) <= ToolMeasure(limits, tools, s, revision, last)
  {
    assert RepliesLeft(limits, tools, Adopt(s, next)) == RepliesLeft(limits, tools, s);
  }

  lemma StepLowersToolMeasure(limits: Limits, tools: nat, s: Budgets, r: Round, revision: nat, last: nat)
    requires Within(limits, s) && revision <= r.revisionAtHead <= r.revisionAfterRequest <= last
    requires Step(limits, s, r).outcome.Continue?
    ensures var turn := Step(limits, s, r);
      && Within(limits, turn.next)
      && ToolMeasure(limits, tools, turn.next, r.revisionAfterRequest, last)
       < ToolMeasure(limits, WithTools(tools, turn.outcome.why), s, revision, last)
  {
    hide ToolMeasure, OnFailure, OnSuccess;
    var s1, why := Adopt(s, r.revisionAtHead), Step(limits, s, r).outcome.why;
    AdoptionLowersToolMeasure(limits, WithTools(tools, why), s, revision, r.revisionAtHead, last);
    if r.answer.Failed? {
      FailureLowersToolMeasure(limits, tools, s1, r, r.answer.failure, r.revisionAfterRequest, last);
    } else {
      ResponseLowersToolMeasure(limits, tools, s1, r, r.revisionAfterRequest, last);
    }
  }

  /** The selection after the first `n` rounds. */
  function RevisionAfter(rounds: seq<Round>, revision: nat, n: nat): nat
    requires n <= |rounds|
  {
    if n == 0 then revision else rounds[n - 1].revisionAfterRequest
  }

  ghost predicate SelectionsGrow(rounds: seq<Round>, revision: nat, last: nat) {
    && revision <= last
    && forall i: nat | i < |rounds| ::
      RevisionAfter(rounds, revision, i) <= rounds[i].revisionAtHead <= rounds[i].revisionAfterRequest <= last
  }

  /** The rounds so far have each lowered the measure, which allowed for their tool rounds and `tools` more. */
  ghost predicate Lowered(limits: Limits, tools: nat, revision: nat, last: nat, rounds: seq<Round>, n: nat)
    requires n <= |rounds|
  {
    var s := Play(limits, Start(revision), rounds[..n]);
    var ran := Count(limits, Start(revision), rounds, 0, n, RanTools);
    && Within(limits, s)
    && n + ToolMeasure(limits, tools, s, RevisionAfter(rounds, revision, n), last)
    <= ToolMeasure(limits, tools + ran, Start(revision), revision, last)
  }

  lemma OneMoreIsLowered(limits: Limits, tools: nat, revision: nat, last: nat, rounds: seq<Round>, n: nat)
    requires SelectionsGrow(rounds, revision, last) && n < |rounds|
    requires OutcomeOf(limits, Start(revision), rounds, n).Continue?
    requires var why := OutcomeOf(limits, Start(revision), rounds, n).why;
      Lowered(limits, WithTools(tools, why), revision, last, rounds, n)
    ensures Lowered(limits, tools, revision, last, rounds, n + 1)
  {
    hide ToolMeasure, Step, Play, Within;
    PlayStep(limits, Start(revision), rounds, n);
    StepLowersToolMeasure(limits, tools, Play(limits, Start(revision), rounds[..n]), rounds[n],
                          RevisionAfter(rounds, revision, n), last);
  }

  lemma NoneIsLowered(limits: Limits, tools: nat, revision: nat, last: nat, rounds: seq<Round>)
    ensures Lowered(limits, tools, revision, last, rounds, 0)
  {
    assert rounds[..0] == [];
    hide ToolMeasure;
  }

  lemma {:induction false} RoundsAreLowered(limits: Limits, tools: nat, revision: nat, last: nat,
                                            rounds: seq<Round>, n: nat)
    requires SelectionsGrow(rounds, revision, last) && Continues(limits, Start(revision), rounds) && n <= |rounds|
    ensures Lowered(limits, tools, revision, last, rounds, n)
    decreases n
  {
    if n == 0 {
      NoneIsLowered(limits, tools, revision, last, rounds);
    } else {
      hide Lowered, OutcomeOf, Play, Count;
      assert OutcomeOf(limits, Start(revision), rounds, n - 1).Continue?;
      var why := OutcomeOf(limits, Start(revision), rounds, n - 1).why;
      RoundsAreLowered(limits, WithTools(tools, why), revision, last, rounds, n - 1);
      OneMoreIsLowered(limits, tools, revision, last, rounds, n - 1);
    }
  }

  /** How many requests a run can make at most, given how many rounds run tools and how many selections happen. */
  function ToolRequestBound(limits: Limits, tools: nat, selections: nat): nat {
    36 * selections + 14 * ((3 * tools + 11) * (limits.maxPauseTurns + 1) + limits.maxPauseTurns) + 22
  }

  lemma StartToolMeasure(limits: Limits, tools: nat, revision: nat, last: nat)
    requires revision <= last
    ensures Within(limits, Start(revision))
    ensures ToolMeasure(limits, tools, Start(revision), revision, last) + 1
         == ToolRequestBound(limits, tools, last - revision)
  {
    assert RepliesLeft(limits, tools, Start(revision)) == 3 * tools + 11;
    TimesIsProduct(3 * tools + 11, limits.maxPauseTurns + 1);
  }

  lemma ToolMeasureIsNatural(limits: Limits, tools: nat, s: Budgets, revision: nat, last: nat)
    requires Within(limits, s) && revision <= last
    ensures 0 <= ToolMeasure(limits, tools, s, revision, last)
  {
  }

  /**
   Running tools, and selecting other models, are the only ways to go on for ever: with or without a turn
   limit, a run that is still going has made fewer requests than its tool rounds and selections allow.
   */
  lemma {:induction false} OnlyToolRoundsGoOn(limits: Limits, revision: nat, last: nat, rounds: seq<Round>)
    requires SelectionsGrow(rounds, revision, last) && Continues(limits, Start(revision), rounds)
    ensures var tools := Count(limits, Start(revision), rounds, 0, |rounds|, RanTools);
      |rounds| < ToolRequestBound(limits, tools, last - revision)
  {
    var n := |rounds|;
    RoundsAreLowered(limits, 0, revision, last, rounds, n);
    StartToolMeasure(limits, Count(limits, Start(revision), rounds, 0, n, RanTools), revision, last);
    ToolMeasureIsNatural(limits, 0, Play(limits, Start(revision), rounds[..n]),
                         RevisionAfter(rounds, revision, n), last);
    hide ToolMeasure, ToolRequestBound, Play, Continues, Within, Count;
  }
}
