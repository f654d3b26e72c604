/**
 Which surface may drive a chat tab: src/agent/ChatPaneAuthorityController.ts.

 A tab has at most one active lease and at most one pending lease. The class is the
 controller; each method is proved to act on one tab exactly as a function of that
 tab's `Pane`, and to leave every other tab alone. The theorems about whole runs are
 then about those functions: a run is any sequence of calls on one tab.
 */
module PaneAuthority {
  import opened Wrappers

  datatype Surface = Sidebar | Editor

  datatype Lease = Lease(tab: string, surface: Surface, epoch: int)

  datatype Reason = UnknownTab | HandoffInProgress

  datatype Transition = Granted(lease: Lease) | Refused(reason: Reason)

  datatype Activation = Activation(ok: bool, previous: Option<Lease>)

  /** What the controller knows about one tab. */
  datatype Pane = Pane(next: int, active: Option<Lease>, pending: Option<Lease>)

  const FIRST_EPOCH := 1

  // ---------------------------------------------------------------- one tab, one call

  function Adopt(p: Pane, tab: string, known: bool): (Pane, Transition) {
    if !known then
      (p, Refused(UnknownTab))
    else if p.active.Some? && p.active.value.surface == Sidebar && p.pending.None? then
      (p, Granted(p.active.value))
    else if p.active.Some? || p.pending.Some? then
      (p, Refused(HandoffInProgress))
    else
      var lease := Lease(tab, Sidebar, p.next);
      (Pane(p.next + 1, Some(lease), None), Granted(lease))
  }

  function Prepare(p: Pane, tab: string, known: bool, surface: Surface): (Pane, Transition) {
    if !known then
      (p, Refused(UnknownTab))
    else if p.pending.Some? && p.pending.value.surface == surface then
      (p, Granted(p.pending.value))
    else if p.pending.Some? then
      (p, Refused(HandoffInProgress))
    else
      var lease := Lease(tab, surface, p.next);
      (Pane(p.next + 1, p.active, Some(lease)), Granted(lease))
  }

  function Activate(p: Pane, lease: Lease): (Pane, Activation) {
    if p.active == Some(lease) then
      (p, Activation(true, p.active))
    else if p.pending != Some(lease) then
      (p, Activation(false, None))
    else
      (Pane(p.next, p.pending, None), Activation(true, p.active))
  }

  function Cancel(p: Pane, lease: Lease): (Pane, bool) {
    if p.pending == Some(lease) then (p.(pending := None), true) else (p, false)
  }

  function Rollback(p: Pane, lease: Lease, previous: Option<Lease>): (Pane, bool) {
    if p.pending.Some? || p.active != Some(lease) then (p, false)
    else (p.(active := previous), true)
  }

  function Revoke(p: Pane, lease: Lease): (Pane, bool) {
    if p.pending == Some(lease) then (p.(pending := None), true)
    else if p.active == Some(lease) then (p.(active := None), true)
    else (p, false)
  }

  function Release(p: Pane): Pane {
    Pane(p.next, None, None)
  }

  // ---------------------------------------------------------------- the controller

  /** One entry of the controller's `states` map. */
  datatype TabState = TabState(next: int, active: Option<Lease>, pending: Option<Lease>)

  class ChatPaneAuthorityController {
    var states: map<string, TabState>
    var nextEpochByTab: map<string, int>

    function NextEpoch(tab: string): int
      reads this
    {
      if tab in nextEpochByTab then nextEpochByTab[tab] else FIRST_EPOCH
    }

    ghost predicate Valid()
      reads this
    {
      forall tab | tab in states ::
        && states[tab].next == NextEpoch(tab)
        && (states[tab].pending.Some? ==> states[tab].pending.value.tab == tab)
    }

    /** A tab without an entry is a tab with neither lease; its epoch counter survives. */
    function View(tab: string): Pane
      reads this
    {
      if tab in states
      then Pane(NextEpoch(tab), states[tab].active, states[tab].pending)
      else Pane(NextEpoch(tab), None, None)
    }

    twostate predicate OthersUntouched(tab: string)
      reads this
    {
      forall other :: other != tab ==> View(other) == old(View(other))
    }

    constructor ()
      ensures Valid()
      ensures forall tab :: View(tab) == Pane(FIRST_EPOCH, None, None)
    {
      states := map[];
      nextEpochByTab := map[];
    }

    method AdoptSidebar(tab: string, known: bool) returns (result: Transition)
      requires Valid()
      modifies this
      ensures Valid() && OthersUntouched(tab)
      ensures (View(tab), result) == Adopt(old(View(tab)), tab, known)
      ensures View(tab) == Apply(old(View(tab)), tab, DoAdopt(known))
    {
      if !known {
        return Refused(UnknownTab);
      }
      var state := GetOrCreateState(tab);
      if state.active.Some? && state.active.value.surface == Sidebar && state.pending.None? {
        return Granted(state.active.value);
      }
      if state.active.Some? || state.pending.Some? {
        return Refused(HandoffInProgress);
      }
      var lease := CreateLease(tab, Sidebar);
      states := states[tab := states[tab].(active := Some(lease))];
      return Granted(lease);
    }

    method PrepareHandoff(tab: string, known: bool, surface: Surface) returns (result: Transition)
      requires Valid()
      modifies this
      ensures Valid() && OthersUntouched(tab)
      ensures (View(tab), result) == Prepare(old(View(tab)), tab, known, surface)
      ensures View(tab) == Apply(old(View(tab)), tab, DoPrepare(known, surface))
    {
      if !known {
        return Refused(UnknownTab);
      }
      var state := GetOrCreateState(tab);
      if state.pending.Some? && state.pending.value.surface == surface {
        return Granted(state.pending.value);
      }
      if state.pending.Some? {
        return Refused(HandoffInProgress);
      }
      var lease := CreateLease(tab, surface);
      states := states[tab := states[tab].(pending := Some(lease))];
      return Granted(lease);
    }

    method ActivateLease(lease: Lease) returns (result: Activation)
      requires Valid()
      modifies this
      ensures Valid() && OthersUntouched(lease.tab)
      ensures (View(lease.tab), result) == Activate(old(View(lease.tab)), lease)
      ensures View(lease.tab) == Apply(old(View(lease.tab)), lease.tab, DoActivate(lease))
    {
      if lease.tab !in states {
        return Activation(false, None);
      }
      var state := states[lease.tab];
      if state.active == Some(lease) {
        return Activation(true, state.active);
      }
      if state.pending != Some(lease) {
        return Activation(false, None);
      }
      states := states[lease.tab := TabState(state.next, state.pending, None)];
      return Activation(true, state.active);
    }

    method CancelHandoff(lease: Lease) returns (done: bool)
      requires Valid()
      modifies this
      ensures Valid() && OthersUntouched(lease.tab)
      ensures (View(lease.tab), done) == Cancel(old(View(lease.tab)), lease)
      ensures View(lease.tab) == Apply(old(View(lease.tab)), lease.tab, DoCancel(lease))
    {
      if lease.tab !in states || states[lease.tab].pending != Some(lease) {
        return false;
      }
      states := states[lease.tab := states[lease.tab].(pending := None)];
      return true;
    }

    method RollbackActivation(lease: Lease, previous: Option<Lease>) returns (done: bool)
      requires Valid()
      modifies this
      ensures Valid() && OthersUntouched(lease.tab)
      ensures (View(lease.tab), done) == Rollback(old(View(lease.tab)), lease, previous)
      ensures View(lease.tab) == Apply(old(View(lease.tab)), lease.tab, DoRollback(lease, previous))
    {
      if lease.tab !in states || states[lease.tab].pending.Some? || states[lease.tab].active != Some(lease) {
        return false;
      }
      states := states[lease.tab := states[lease.tab].(active := previous)];
      return true;
    }

    method RevokeLease(lease: Lease) returns (done: bool)
      requires Valid()
      modifies this
      ensures Valid() && OthersUntouched(lease.tab)
      ensures (View(lease.tab), done) == Revoke(old(View(lease.tab)), lease)
      ensures View(lease.tab) == Apply(old(View(lease.tab)), lease.tab, DoRevoke(lease))
    {
      if lease.tab !in states {
        return false;
      }
      if states[lease.tab].pending == Some(lease) {
        states := states[lease.tab := states[lease.tab].(pending := None)];
        return true;
      }
      if states[lease.tab].active == Some(lease) {
        states := states[lease.tab := states[lease.tab].(active := None)];
        return true;
      }
      return false;
    }

    method ReleaseTab(tab: string)
      requires Valid()
      modifies this
      ensures Valid() && OthersUntouched(tab)
      ensures View(tab) == Release(old(View(tab)))
      ensures View(tab) == Apply(old(View(tab)), tab, DoRelease)
    {
      states := states - {tab};
    }

    method Dispose()
      requires Valid()
      modifies this
      ensures Valid()
      ensures forall tab :: View(tab) == Release(old(View(tab)))
    {
      states := map[];
    }

    method GetOrCreateState(tab: string) returns (state: TabState)
      requires Valid()
      modifies this
      ensures Valid() && nextEpochByTab == old(nextEpochByTab)
      ensures states == old(states)[tab := state]
      ensures forall other :: View(other) == old(View(other))
    {
      if tab in states {
        assert states == states[tab := states[tab]];
        return states[tab];
      }
      state := TabState(NextEpoch(tab), None, None);
      states := states[tab := state];
    }

    method CreateLease(tab: string, surface: Surface) returns (lease: Lease)
      requires Valid() && tab in states
      modifies this
      ensures Valid() && OthersUntouched(tab) && tab in states
      ensures lease == Lease(tab, surface, old(NextEpoch(tab)))
      ensures View(tab) == old(View(tab)).(next := old(NextEpoch(tab)) + 1)
    {
      lease := Lease(tab, surface, states[tab].next);
      states := states[tab := states[tab].(next := states[tab].next + 1)];
      nextEpochByTab := nextEpochByTab[tab := states[tab].next];
    }
  }

  // ---------------------------------------------------------------- whole runs on one tab

  datatype Op =
    | DoAdopt(known: bool)
    | DoPrepare(known: bool, surface: Surface)
    | DoActivate(lease: Lease)
    | DoCancel(lease: Lease)
    | DoRollback(lease: Lease, previous: Option<Lease>)
    | DoRevoke(lease: Lease)
    | DoRelease

  function Apply(p: Pane, tab: string, op: Op): Pane {
    match op
    case DoAdopt(known) => Adopt(p, tab, known).0
    case DoPrepare(known, surface) => Prepare(p, tab, known, surface).0
    case DoActivate(lease) => Activate(p, lease).0
    case DoCancel(lease) => Cancel(p, lease).0
    case DoRollback(lease, previous) => Rollback(p, lease, previous).0
    case DoRevoke(lease) => Revoke(p, lease).0
    case DoRelease => Release(p)
  }

  /** The pane after the calls `ops` on a tab never used before. */
  function After(tab: string, ops: seq<Op>): Pane {
    if ops == [] then Pane(FIRST_EPOCH, None, None)
    else Apply(After(tab, ops[..|ops| - 1]), tab, ops[|ops| - 1])
  }

  /** The pane just before call `k`. */
  function At(tab: string, ops: seq<Op>, k: nat): Pane
    requires k <= |ops|
  {
    After(tab, ops[..k])
  }

  /** Call `k` created a lease (rather than handing out an existing one). */
  predicate Creates(tab: string, ops: seq<Op>, k: nat)
    requires k < |ops|
  {
    At(tab, ops, k + 1).next != At(tab, ops, k).next
  }

  /** Call `k` moved the pending lease `lease` into authority. */
  predicate Displaces(tab: string, ops: seq<Op>, k: nat, lease: Lease)
    requires k < |ops|
  {
    && ops[k] == DoActivate(lease)
    && At(tab, ops, k).active != Some(lease)
    && At(tab, ops, k).pending == Some(lease)
  }

  /** Call `j` was an `activate(lease)` that answered `previous`. */
  predicate Answered(tab: string, ops: seq<Op>, j: nat, lease: Lease, previous: Option<Lease>)
    requires j < |ops|
  {
    ops[j] == DoActivate(lease) && Activate(At(tab, ops, j), lease).1 == Activation(true, previous)
  }

  /** Every rollback passes back a pair that `activate` answered earlier. */
  predicate Honest(tab: string, ops: seq<Op>) {
    forall k: nat | k < |ops| && ops[k].DoRollback? ::
      exists j: nat :: j < k && Answered(tab, ops, j, ops[k].lease, ops[k].previous)
  }

  lemma AtStep(tab: string, ops: seq<Op>, k: nat)
    requires k < |ops|
    ensures At(tab, ops, k + 1) == Apply(At(tab, ops, k), tab, ops[k])
  {
    assert ops[..k + 1][..k] == ops[..k];
  }

  // Any callers at all: epochs only grow, so none is issued twice.

  lemma {:induction false} CountersGrow(tab: string, ops: seq<Op>, i: nat, k: nat)
    requires i <= k <= |ops|
    ensures FIRST_EPOCH <= At(tab, ops, i).next <= At(tab, ops, k).next
    decreases k
  {
    if k > 0 {
      AtStep(tab, ops, k - 1);
      if i < k {
        CountersGrow(tab, ops, i, k - 1);
      } else {
        CountersGrow(tab, ops, k - 1, k - 1);
      }
    }
  }

  /** No epoch is issued twice for a tab, whatever was released, revoked or rolled back in between. */
  lemma EpochsAreNeverReissued(tab: string, ops: seq<Op>, i: nat, k: nat)
    requires i < k < |ops|
    requires Creates(tab, ops, i) && Creates(tab, ops, k)
    ensures (At(tab, ops, i + 1).active == Some(Lease(tab, Sidebar, At(tab, ops, i).next)) && ops[i].DoAdopt?)
            || (At(tab, ops, i + 1).pending.Some? && ops[i].DoPrepare?
                && At(tab, ops, i + 1).pending.value == Lease(tab, ops[i].surface, At(tab, ops, i).next))
    ensures At(tab, ops, i).next < At(tab, ops, k).next
  {
    AtStep(tab, ops, i);
    CountersGrow(tab, ops, i + 1, k);
  }

  // Honest callers: the leases that hold or may regain authority form a stack.

  /** The active lease on top of the leases it displaced, directly or through others. */
  function Stack(tab: string, ops: seq<Op>): seq<Lease> {
    if ops == [] then []
    else
      var before := ops[..|ops| - 1];
      NextStack(Stack(tab, before), After(tab, before), After(tab, ops), ops[|ops| - 1])
  }

  function NextStack(stack: seq<Lease>, before: Pane, after: Pane, op: Op): seq<Lease> {
    if after.active.None? then []
    else if after.active == before.active then stack
    else if op.DoRollback? then (if stack == [] then [] else stack[..|stack| - 1])
    else stack + [after.active.value]
  }

  /** For every lease that took authority from the pending slot, what it displaced. */
  function Displaced(tab: string, ops: seq<Op>): map<Lease, Option<Lease>> {
    if ops == [] then map[]
    else
      var before := ops[..|ops| - 1];
      NextDisplaced(After(tab, before), Displaced(tab, before), ops[|ops| - 1])
  }

  function NextDisplaced(p: Pane, displaced: map<Lease, Option<Lease>>, op: Op): map<Lease, Option<Lease>> {
    if op.DoActivate? && p.active != Some(op.lease) && p.pending == Some(op.lease)
    then displaced[op.lease := p.active]
    else displaced
  }

  predicate Ascending(stack: seq<Lease>, next: int) {
    && (forall i: nat, j: nat | i < j < |stack| :: stack[i].epoch < stack[j].epoch)
    && (forall i: nat | i < |stack| :: stack[i].epoch < next)
  }

  predicate Below(leases: set<Lease>, bound: int) {
    forall l | l in leases :: l.epoch < bound
  }

  function Under(stack: seq<Lease>, i: nat): Option<Lease>
    requires i < |stack|
  {
    if i == 0 then None else Some(stack[i - 1])
  }

  /** The record agrees with the stack about what lease `i` displaced; only the bottom one may be unrecorded. */
  predicate RecordsUnder(stack: seq<Lease>, i: nat, displaced: map<Lease, Option<Lease>>)
    requires i < |stack|
  {
    if stack[i] in displaced then displaced[stack[i]] == Under(stack, i) else i == 0
  }

  /** The active lease is older than the pending one, and both are older than the next. */
  predicate Ordered(p: Pane) {
    && (p.active.Some? ==> p.active.value.epoch < p.next)
    && (p.pending.Some? ==> p.pending.value.epoch < p.next)
    && (p.active.Some? && p.pending.Some? ==> p.active.value.epoch < p.pending.value.epoch)
  }

  function Limit(p: Pane): int {
    if p.pending.Some? then p.pending.value.epoch else p.next
  }

  predicate Stacked(p: Pane, stack: seq<Lease>, displaced: map<Lease, Option<Lease>>) {
    && Ordered(p)
    && (p.active.None? <==> stack == [])
    && (p.active.Some? ==> stack != [] && stack[|stack| - 1] == p.active.value)
    && Ascending(stack, Limit(p))
    && Below(displaced.Keys, Limit(p))
    && (forall i: nat | i < |stack| :: RecordsUnder(stack, i, displaced))
  }

  lemma LimitNeverFalls(p: Pane, tab: string, op: Op)
    requires p.pending.Some? ==> p.pending.value.epoch < p.next
    ensures var q := Apply(p, tab, op);
      (q.pending.Some? ==> q.pending.value.epoch < q.next) && Limit(p) <= Limit(q)
  {
  }

  lemma {:induction false} LimitsGrow(tab: string, ops: seq<Op>, i: nat, k: nat)
    requires i <= k <= |ops|
    ensures var p := At(tab, ops, k); p.pending.Some? ==> p.pending.value.epoch < p.next
    ensures Limit(At(tab, ops, i)) <= Limit(At(tab, ops, k))
    decreases k
  {
    if k > 0 {
      LimitsGrow(tab, ops, if i < k then i else k - 1, k - 1);
      AtStep(tab, ops, k - 1);
      LimitNeverFalls(At(tab, ops, k - 1), tab, ops[k - 1]);
    }
  }

  /** Call `k` gave authority to a lease that has never had it: by activation, or by adopting an idle tab. */
  predicate TakesAuthority(tab: string, ops: seq<Op>, k: nat, lease: Lease)
    requires k < |ops|
  {
    || Displaces(tab, ops, k, lease)
    || (ops[k].DoAdopt? && Creates(tab, ops, k) && At(tab, ops, k + 1).active == Some(lease))
  }

  /** Leases take authority in the order of their epochs, whatever the callers do. */
  lemma AuthorityIsTakenInEpochOrder(tab: string, ops: seq<Op>, i: nat, k: nat, first: Lease, second: Lease)
    requires i < k < |ops|
    requires TakesAuthority(tab, ops, i, first) && TakesAuthority(tab, ops, k, second)
    ensures first.epoch < second.epoch
  {
    AtStep(tab, ops, i);
    AtStep(tab, ops, k);
    LimitsGrow(tab, ops, i, i);
    LimitsGrow(tab, ops, i + 1, k);
  }

  /** What an honest rollback may carry, given what the calls so far displaced. */
  predicate FairRollback(op: Op, displaced: map<Lease, Option<Lease>>) {
    op.DoRollback? ==>
      || op.previous == Some(op.lease)
      || (op.lease in displaced && displaced[op.lease] == op.previous)
  }

  lemma StackKept(p: Pane, q: Pane, stack: seq<Lease>, displaced: map<Lease, Option<Lease>>)
    requires Stacked(p, stack, displaced) && Ordered(q)
    requires q.active == p.active && Limit(p) <= Limit(q)
    ensures Stacked(q, stack, displaced)
  {
  }

  lemma StackCleared(p: Pane, q: Pane, stack: seq<Lease>, displaced: map<Lease, Option<Lease>>)
    requires Stacked(p, stack, displaced) && Ordered(q)
    requires q.active.None? && Limit(p) <= Limit(q)
    ensures Stacked(q, [], displaced)
  {
  }

  lemma StackPushed(p: Pane, q: Pane, stack: seq<Lease>, displaced: map<Lease, Option<Lease>>, lease: Lease)
    requires Stacked(p, stack, displaced) && p.pending == Some(lease)
    requires q == Pane(p.next, Some(lease), None)
    ensures Stacked(q, stack + [lease], displaced[lease := p.active])
  {
    var more, record := stack + [lease], displaced[lease := p.active];
    forall i: nat | i < |stack|
      ensures RecordsUnder(more, i, record)
    {
      assert RecordsUnder(stack, i, displaced);
      assert more[i] == stack[i];
    }
    assert RecordsUnder(more, |stack|, record);
  }

  lemma StackPopped(p: Pane, q: Pane, stack: seq<Lease>, displaced: map<Lease, Option<Lease>>, lease: Lease)
    requires Stacked(p, stack, displaced) && p.active == Some(lease) && p.pending.None?
    requires lease in displaced && q == p.(active := displaced[lease])
    ensures q.active != p.active
    ensures Stacked(q, stack[..|stack| - 1], displaced)
  {
    var last := |stack| - 1;
    assert RecordsUnder(stack, last, displaced);
    forall i: nat | i < last
      ensures RecordsUnder(stack[..last], i, displaced)
    {
      assert RecordsUnder(stack, i, displaced);
    }
  }

  lemma StackBegun(p: Pane, displaced: map<Lease, Option<Lease>>, lease: Lease)
    requires Stacked(p, [], displaced) && p.pending.None? && lease.epoch == p.next
    ensures Stacked(Pane(p.next + 1, Some(lease), None), [lease], displaced)
  {
    assert lease !in displaced;
  }

  /** What `op` makes of the stack and of the record is right for the pane it leaves. */
  predicate StacksOn(p: Pane, tab: string, op: Op, stack: seq<Lease>, displaced: map<Lease, Option<Lease>>) {
    var q := Apply(p, tab, op);
    Stacked(q, NextStack(stack, p, q, op), NextDisplaced(p, displaced, op))
  }

  lemma ActivateStacks(p: Pane, tab: string, lease: Lease, stack: seq<Lease>, displaced: map<Lease, Option<Lease>>)
    requires Stacked(p, stack, displaced)
    ensures StacksOn(p, tab, DoActivate(lease), stack, displaced)
  {
    if p.active != Some(lease) && p.pending == Some(lease) {
      StackPushed(p, Activate(p, lease).0, stack, displaced, lease);
    }
  }

  lemma RollbackStacks(p: Pane, tab: string, op: Op, stack: seq<Lease>, displaced: map<Lease, Option<Lease>>)
    requires Stacked(p, stack, displaced) && op.DoRollback? && FairRollback(op, displaced)
    ensures StacksOn(p, tab, op, stack, displaced)
  {
    var q := Rollback(p, op.lease, op.previous).0;
    if q.active != p.active {
      StackPopped(p, q, stack, displaced, op.lease);
    }
  }

  lemma AdoptStacks(p: Pane, tab: string, known: bool, stack: seq<Lease>, displaced: map<Lease, Option<Lease>>)
    requires Stacked(p, stack, displaced)
    ensures StacksOn(p, tab, DoAdopt(known), stack, displaced)
  {
    var q := Adopt(p, tab, known).0;
    if q != p {
      StackBegun(p, displaced, Lease(tab, Sidebar, p.next));
      assert stack + [q.active.value] == [q.active.value];
    }
  }

  lemma StackedStep(p: Pane, tab: string, op: Op, stack: seq<Lease>, displaced: map<Lease, Option<Lease>>)
    requires Stacked(p, stack, displaced) && FairRollback(op, displaced)
    ensures StacksOn(p, tab, op, stack, displaced)
  {
    match op
    case DoActivate(lease) => ActivateStacks(p, tab, lease, stack, displaced);
    case DoRollback(_, _) => RollbackStacks(p, tab, op, stack, displaced);
    case DoAdopt(known) => AdoptStacks(p, tab, known, stack, displaced);
    case _ =>
      var q := Apply(p, tab, op);
      LimitNeverFalls(p, tab, op);
      if q.active.None? {
        StackCleared(p, q, stack, displaced);
      } else {
        StackKept(p, q, stack, displaced);
      }
  }

  lemma AnsweredInPrefix(tab: string, ops: seq<Op>, n: nat, j: nat, l: Lease, previous: Option<Lease>)
    requires j < n <= |ops|
    ensures Answered(tab, ops[..n], j, l, previous) <==> Answered(tab, ops, j, l, previous)
  {
    assert ops[..n][..j] == ops[..j];
  }

  lemma HonestPrefix(tab: string, ops: seq<Op>, n: nat)
    requires Honest(tab, ops) && n <= |ops|
    ensures Honest(tab, ops[..n])
  {
    var before := ops[..n];
    forall k: nat | k < n && before[k].DoRollback?
      ensures exists j: nat :: j < k && Answered(tab, before, j, before[k].lease, before[k].previous)
    {
      var j: nat :| j < k && Answered(tab, ops, j, ops[k].lease, ops[k].previous);
      AnsweredInPrefix(tab, ops, n, j, ops[k].lease, ops[k].previous);
    }
  }

  /** What `activate` answered is what the displacement record says. */
  ghost predicate Recorded(tab: string, ops: seq<Op>) {
    forall j: nat, l: Lease, previous: Option<Lease> | j < |ops| && Answered(tab, ops, j, l, previous) ::
      previous == Some(l) || (l in Displaced(tab, ops) && Displaced(tab, ops)[l] == previous)
  }

  lemma RecordedStep(tab: string, ops: seq<Op>)
    requires ops != [] && Recorded(tab, ops[..|ops| - 1])
    requires Below(Displaced(tab, ops[..|ops| - 1]).Keys, Limit(After(tab, ops[..|ops| - 1])))
    ensures Recorded(tab, ops)
  {
    var n := |ops| - 1;
    var before := ops[..n];
    forall j: nat, l: Lease, previous: Option<Lease> | j < |ops| && Answered(tab, ops, j, l, previous)
      ensures previous == Some(l) || (l in Displaced(tab, ops) && Displaced(tab, ops)[l] == previous)
    {
      if j < n {
        AnsweredInPrefix(tab, ops, n, j, l, previous);
      }
    }
  }

  lemma {:induction false} HonestRunsAreStacked(tab: string, ops: seq<Op>)
    requires Honest(tab, ops)
    ensures Stacked(After(tab, ops), Stack(tab, ops), Displaced(tab, ops)) && Recorded(tab, ops)
  {
    if ops != [] {
      var n := |ops| - 1;
      var before := ops[..n];
      HonestPrefix(tab, ops, n);
      HonestRunsAreStacked(tab, before);
      RecordedStep(tab, ops);
      if ops[n].DoRollback? {
        var j: nat :| j < n && Answered(tab, ops, j, ops[n].lease, ops[n].previous);
        AnsweredInPrefix(tab, ops, n, j, ops[n].lease, ops[n].previous);
      }
      StackedStep(After(tab, before), tab, ops[n], Stack(tab, before), Displaced(tab, before));
    }
  }

  /** In every honest run the active lease is older than the pending one, and both are older than the next. */
  lemma EpochsStayOrdered(tab: string, ops: seq<Op>)
    requires Honest(tab, ops)
    ensures var p := After(tab, ops);
      && (p.active.Some? ==> p.active.value.epoch < p.next)
      && (p.pending.Some? ==> p.pending.value.epoch < p.next)
      && (p.active.Some? && p.pending.Some? ==> p.active.value.epoch < p.pending.value.epoch)
  {
    HonestRunsAreStacked(tab, ops);
  }

  lemma StackedAt(tab: string, ops: seq<Op>, k: nat)
    requires Honest(tab, ops) && k <= |ops|
    ensures Stacked(At(tab, ops, k), Stack(tab, ops[..k]), Displaced(tab, ops[..k]))
  {
    HonestPrefix(tab, ops, k);
    HonestRunsAreStacked(tab, ops[..k]);
  }

  lemma StackStep(tab: string, ops: seq<Op>, k: nat)
    requires k < |ops|
    ensures Stack(tab, ops[..k + 1])
         == NextStack(Stack(tab, ops[..k]), At(tab, ops, k), At(tab, ops, k + 1), ops[k])
  {
    assert ops[..k + 1][..k] == ops[..k];
  }

  lemma GoneStep(p: Pane, tab: string, op: Op, stack: seq<Lease>, lease: Lease)
    requires lease.epoch < Limit(p) && lease !in stack
    ensures lease !in NextStack(stack, p, Apply(p, tab, op), op)
  {
    var q := Apply(p, tab, op);
    if op.DoRollback? && stack != [] {
      assert forall l | l in stack[..|stack| - 1] :: l in stack;
    } else {
      assert q.active.None? || q.active == p.active || q.active.value.epoch >= Limit(p) || stack == [];
    }
  }

  /** A lease that has left the stack never enters it again. */
  lemma {:induction false} GoneIsGone(tab: string, ops: seq<Op>, m: nat, k: nat, lease: Lease)
    requires m <= k <= |ops|
    requires lease.epoch < Limit(At(tab, ops, m)) && lease !in Stack(tab, ops[..m])
    ensures lease !in Stack(tab, ops[..k])
    decreases k
  {
    if m < k {
      GoneIsGone(tab, ops, m, k - 1, lease);
      LimitsGrow(tab, ops, m, k - 1);
      AtStep(tab, ops, k - 1);
      StackStep(tab, ops, k - 1);
      GoneStep(At(tab, ops, k - 1), tab, ops[k - 1], Stack(tab, ops[..k - 1]), lease);
    }
  }

  /**
   A lease that lost authority gets it back only through the rollback of the very
   activation `d` that displaced it, and it has had no authority since `d`.
   */
  lemma RegainedOnlyByRollingBackItsDisplacement(tab: string, ops: seq<Op>, i: nat, k: nat, lease: Lease)
    requires Honest(tab, ops) && i < k < |ops|
    requires At(tab, ops, i).active == Some(lease)
    requires At(tab, ops, k).active != Some(lease) && At(tab, ops, k + 1).active == Some(lease)
    ensures ops[k].DoRollback? && ops[k].previous == Some(lease)
    ensures exists d: nat :: (
              && i <= d < k
              && Displaces(tab, ops, d, ops[k].lease)
              && At(tab, ops, d).active == Some(lease)
              && forall m: nat | d < m <= k :: At(tab, ops, m).active != Some(lease))
  {
    StackedAt(tab, ops, i);
    LimitsGrow(tab, ops, i, k);
    AtStep(tab, ops, k);
    var d: nat :| d < k && Answered(tab, ops, d, ops[k].lease, ops[k].previous);
    forall m: nat | d < m <= k
      ensures At(tab, ops, m).active != Some(lease)
    {
      WhileDisplaced(tab, ops, d, m, k, lease, ops[k].lease);
    }
  }

  lemma WhileDisplaced(tab: string, ops: seq<Op>, d: nat, m: nat, k: nat, lease: Lease, over: Lease)
    requires Honest(tab, ops) && d < m <= k <= |ops|
    requires Displaces(tab, ops, d, over) && At(tab, ops, d).active == Some(lease)
    requires At(tab, ops, k).active == Some(over)
    ensures At(tab, ops, m).active != Some(lease)
  {
    StackedAt(tab, ops, d);
    AtStep(tab, ops, d);
    LimitsGrow(tab, ops, d, d);
    LimitsGrow(tab, ops, d + 1, m);
    StackedAt(tab, ops, k);
    StackedAt(tab, ops, m);
    if over !in Stack(tab, ops[..m]) {
      GoneIsGone(tab, ops, m, k, over);
    }
  }
}
