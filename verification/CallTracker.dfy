/**
 Cancelling a tool call with everything it started: src/agent/AgentToolCallTracker.ts.

 Calls carry the id of the call that started them, and those links may form cycles. `CancelCall`
 grows a set of ids until no active call is missing, then resolves each. It is proved to find exactly
 the calls that a chain of active children connects to the target, and to interrupt the terminal of
 each directly before it is resolved.
 */
module CallTracker {
  import opened Wrappers

  /** An empty `parentCallId` or `terminalId` counts as none. */
  datatype Call = Call(id: string, toolName: string, sessionId: string, parentCallId: Option<string>,
                       terminalId: Option<string>)

  type Calls = map<string, Call>

  datatype Effect =
    | Interrupted(terminalId: string)
    | CancelledWithParent(id: string)
    | CancelledByUser(id: string)

  /** Call `child` is an active child of `parent`. */
  predicate IsChild(calls: Calls, parent: string, child: string) {
    child in calls && parent != "" && calls[child].parentCallId == Some(parent)
  }

  /** A chain of active children from its first id to its last. */
  predicate Chain(calls: Calls, path: seq<string>) {
    path != [] && forall i: nat | i + 1 < |path| :: IsChild(calls, path[i], path[i + 1])
  }

  predicate Links(calls: Calls, path: seq<string>, from: string, last: string) {
    Chain(calls, path) && path[0] == from && path[|path| - 1] == last
  }

  /** The reflexive and transitive children of `target` among the active calls. */
  ghost predicate Descends(calls: Calls, target: string, id: string) {
    exists path: seq<string> :: Links(calls, path, target, id)
  }

  lemma ItselfDescends(calls: Calls, target: string)
    ensures Descends(calls, target, target)
  {
    assert Links(calls, [target], target, target);
  }

  lemma ChildDescends(calls: Calls, target: string, parent: string, child: string)
    requires Descends(calls, target, parent) && IsChild(calls, parent, child)
    ensures Descends(calls, target, child)
  {
    var path: seq<string> :| Links(calls, path, target, parent);
    assert Links(calls, path + [child], target, child);
  }

  ghost predicate Closed(calls: Calls, found: set<string>) {
    forall parent, child | parent in found && IsChild(calls, parent, child) :: child in found
  }

  lemma {:induction false} ClosedHoldsChains(calls: Calls, found: set<string>, path: seq<string>)
    requires Closed(calls, found) && Chain(calls, path) && path[0] in found
    ensures path[|path| - 1] in found
  {
    if |path| > 1 {
      ClosedHoldsChains(calls, found, path[..|path| - 1]);
      assert IsChild(calls, path[|path| - 2], path[|path| - 1]);
    }
  }

  // ---------------------------------------------------------------- a new call

  lemma ChainStays(calls: Calls, more: Calls, path: seq<string>)
    requires Chain(calls, path) && forall parent, child | IsChild(calls, parent, child) :: IsChild(more, parent, child)
    ensures Chain(more, path)
  {
    forall i: nat | i + 1 < |path| ensures IsChild(more, path[i], path[i + 1]) {
      assert IsChild(calls, path[i], path[i + 1]);
    }
  }

  lemma DescendsByMore(calls: Calls, more: Calls, target: string, id: string)
    requires Descends(calls, target, id)
    requires forall parent, child | IsChild(calls, parent, child) :: IsChild(more, parent, child)
    ensures Descends(more, target, id)
  {
    var path: seq<string> :| Links(calls, path, target, id);
    ChainStays(calls, more, path);
    assert Links(more, path, target, id);
  }

  lemma DescendsThrough(calls: Calls, target: string, middle: string, id: string)
    requires Descends(calls, target, middle) && Descends(calls, middle, id)
    ensures Descends(calls, target, id)
  {
    var path: seq<string> :| Links(calls, path, target, middle);
    var rest: seq<string> :| Links(calls, rest, middle, id);
    var whole := path + rest[1..];
    forall i: nat | i + 1 < |whole| ensures IsChild(calls, whole[i], whole[i + 1]) {
      if i + 1 < |path| {
        assert IsChild(calls, path[i], path[i + 1]);
      } else {
        assert IsChild(calls, rest[i + 1 - |path|], rest[i + 2 - |path|]);
      }
    }
    assert Links(calls, whole, target, id);
  }

  /** `id` hangs from `target` once `call` is there: it did before, or `call` joins the two. */
  ghost predicate Joined(others: Calls, call: Call, target: string, id: string) {
    || Descends(others, target, id)
    || (call.parentCallId.Some? && call.parentCallId.value != ""
        && Descends(others, target, call.parentCallId.value) && Descends(others, call.id, id))
  }

  lemma {:induction false} ChainsJoin(others: Calls, call: Call, path: seq<string>)
    requires call.id !in others && Chain(others[call.id := call], path)
    ensures Joined(others, call, path[0], path[|path| - 1])
  {
    if |path| == 1 {
      ItselfDescends(others, path[0]);
    } else {
      var n := |path| - 1;
      ChainsJoin(others, call, path[..n]);
      assert IsChild(others[call.id := call], path[n - 1], path[n]);
      if path[n] == call.id {
        ItselfDescends(others, call.id);
      } else {
        LinkJoins(others, call, path[0], path[n - 1], path[n]);
      }
    }
  }

  lemma LinkJoins(others: Calls, call: Call, target: string, parent: string, child: string)
    requires Joined(others, call, target, parent) && IsChild(others, parent, child)
    ensures Joined(others, call, target, child)
  {
    if Descends(others, target, parent) {
      ChildDescends(others, target, parent, child);
    } else {
      ChildDescends(others, call.id, parent, child);
    }
  }

  /**
   A new call joins the closure of its parent, with everything that already hung from its id;
   nothing else changes. `others` are the active calls without a former call of that id.
   */
  lemma RegisteredCallJoins(others: Calls, call: Call, target: string, id: string)
    requires call.id !in others
    ensures Descends(others[call.id := call], target, id) <==> Joined(others, call, target, id)
  {
    var more := others[call.id := call];
    if Descends(more, target, id) {
      var path: seq<string> :| Links(more, path, target, id);
      ChainsJoin(others, call, path);
    } else if Joined(others, call, target, id) {
      if Descends(others, target, id) {
        DescendsByMore(others, more, target, id);
      } else {
        DescendsByMore(others, more, target, call.parentCallId.value);
        ChildDescends(more, target, call.parentCallId.value, call.id);
        DescendsByMore(others, more, call.id, id);
        DescendsThrough(more, target, call.id, id);
      }
    }
  }

  // ---------------------------------------------------------------- the effects of a cancellation

  function TerminalOf(call: Call): Option<string> {
    if call.terminalId == Some("") then None else call.terminalId
  }

  /** A call's terminal is interrupted directly before the call is resolved. */
  function Resolution(call: Call, e: Effect): seq<Effect> {
    (if TerminalOf(call).Some? then [Interrupted(TerminalOf(call).value)] else []) + [e]
  }

  /** The calls of the list are cancelled with their parent, one after the other. */
  function Cancellations(calls: Calls, list: seq<string>): seq<Effect>
    requires forall id | id in list :: id in calls
  {
    if list == [] then []
    else
      var last := list[|list| - 1];
      Cancellations(calls, list[..|list| - 1]) + Resolution(calls[last], CancelledWithParent(last))
  }

  /** The list names every id of the set once, and nothing else. */
  ghost predicate ListsOnce(list: seq<string>, ids: set<string>) {
    && (forall i: nat, k: nat | i < k < |list| :: list[i] != list[k])
    && (forall id :: id in list <==> id in ids)
  }

  lemma OneMoreId(list: seq<string>, ids: set<string>, id: string)
    requires ListsOnce(list, ids) && id !in ids
    ensures ListsOnce(list + [id], ids + {id})
  {
    assert forall i: nat | i < |list| :: list[i] in list;
  }

  lemma OneMoreCancellation(calls: Calls, list: seq<string>, id: string)
    requires id in calls && forall q | q in list :: q in calls
    ensures Cancellations(calls, list + [id]) ==
            Cancellations(calls, list) + Resolution(calls[id], CancelledWithParent(id))
  {
    assert (list + [id])[..|list|] == list;
  }

  /** The list names the active descendants of the target, other than the target, each once. */
  ghost predicate ListsDescendants(calls: Calls, target: string, list: seq<string>) {
    && (forall i: nat, k: nat | i < k < |list| :: list[i] != list[k])
    && (forall id :: id in list <==> Descends(calls, target, id) && id != target)
    && (forall id | id in list :: id in calls)
  }

  /**
   Everything a cancellation does: the descendants are cancelled in some order, each with its terminal,
   then the target with its own.
   */
  ghost predicate CancelsExactly(calls: Calls, target: string, done: seq<Effect>)
    requires target in calls
  {
    exists list: seq<string> :: ListsDescendants(calls, target, list)
      && done == Cancellations(calls, list) + Resolution(calls[target], CancelledByUser(target))
  }

  lemma AppendedTwice(start: seq<Effect>, a: seq<Effect>, b: seq<Effect>)
    ensures start + a + b == start + (a + b)
  {
  }

  class AgentToolCallTracker {
    var activeCalls: Calls
    var recentCalls: Calls
    var effects: seq<Effect>

    ghost predicate Valid()
      reads this
    {
      forall id | id in activeCalls :: activeCalls[id].id == id
    }

    constructor ()
      ensures Valid() && activeCalls == map[] && recentCalls == map[] && effects == []
    {
      activeCalls, recentCalls, effects := map[], map[], [];
    }

    method RegisterAgentCall(id: string, toolName: string, sessionId: string, parentCallId: Option<string>)
      requires Valid()
      modifies this`activeCalls
      ensures Valid()
      ensures activeCalls == old(activeCalls)[id := Call(id, toolName, sessionId, parentCallId, None)]
      // The new call hangs from its parent, and from it whatever named it as parent before.
      ensures forall target, q :: Descends(activeCalls, target, q) <==>
                Joined(old(activeCalls) - {id}, Call(id, toolName, sessionId, parentCallId, None), target, q)
    {
      var call := Call(id, toolName, sessionId, parentCallId, None);
      ghost var others := activeCalls - {id};
      activeCalls := activeCalls[id := call];
      assert activeCalls == others[id := call];
      forall target, q ensures Descends(activeCalls, target, q) <==> Joined(others, call, target, q) {
        RegisteredCallJoins(others, call, target, q);
      }
    }

    method SetTerminalId(id: string, terminalId: string)
      requires Valid()
      modifies this`activeCalls
      ensures Valid()
      ensures activeCalls == if id in old(activeCalls)
                             then old(activeCalls)[id := old(activeCalls)[id].(terminalId := Some(terminalId))]
                             else old(activeCalls)
    {
      if id in activeCalls {
        activeCalls := activeCalls[id := activeCalls[id].(terminalId := Some(terminalId))];
      }
    }

    method CompleteAgentCall(id: string)
      requires Valid()
      modifies this`activeCalls, this`recentCalls
      ensures Valid() && activeCalls == old(activeCalls) - {id}
      ensures recentCalls == if id in old(activeCalls) then old(recentCalls)[id := old(activeCalls)[id]]
                             else old(recentCalls)
    {
      if id !in activeCalls {
        assert activeCalls == activeCalls - {id};
        return;
      }
      recentCalls := recentCalls[activeCalls[id].id := activeCalls[id]];
      activeCalls := activeCalls - {id};
    }

    /** One pass over the active calls, in any order. */
    method Pass(found: set<string>, ghost target: string) returns (more: set<string>)
      requires Valid()
      requires forall id | id in found :: Descends(activeCalls, target, id)
      ensures found <= more <= found + activeCalls.Keys
      ensures forall id | id in more :: Descends(activeCalls, target, id)
      ensures more == found ==> Closed(activeCalls, found)
    {
      more := found;
      var rest := activeCalls.Keys;
      while rest != {}
        invariant rest <= activeCalls.Keys
        invariant found <= more <= found + activeCalls.Keys
        invariant forall id | id in more :: Descends(activeCalls, target, id)
        invariant more == found ==> forall parent, child | parent in found && IsChild(activeCalls, parent, child) ::
                                      child in found || child in rest
        decreases rest
      {
        var key :| key in rest;
        rest := rest - {key};
        var active := activeCalls[key];
        var parent := active.parentCallId;
        if parent.Some? && parent.value != "" && parent.value in more && active.id !in more {
          ChildDescends(activeCalls, target, parent.value, active.id);
          more := more + {active.id};
        }
      }
    }

    /** The fixpoint loop of `cancelCall`; it ends on cyclic links because every round but the last finds a new call. */
    method FindDescendants(target: string) returns (found: set<string>)
      requires Valid() && target in activeCalls
      ensures target in found && found <= activeCalls.Keys
      ensures forall id :: id in found <==> Descends(activeCalls, target, id)
    {
      ItselfDescends(activeCalls, target);
      found := {target};
      var foundDescendant := true;
      while foundDescendant
        invariant target in found && found <= activeCalls.Keys
        invariant forall id | id in found :: Descends(activeCalls, target, id)
        invariant !foundDescendant ==> Closed(activeCalls, found)
        decreases activeCalls.Keys - found, foundDescendant
      {
        var more := Pass(found, target);
        foundDescendant := more != found;
        found := more;
      }
      forall id | Descends(activeCalls, target, id)
        ensures id in found
      {
        var path: seq<string> :| Links(activeCalls, path, target, id);
        ClosedHoldsChains(activeCalls, found, path);
      }
    }

    method Resolve(call: Call, e: Effect)
      modifies this`effects
      ensures effects == old(effects) + Resolution(call, e)
    {
      if call.terminalId.Some? && call.terminalId.value != "" {
        effects := effects + [Interrupted(call.terminalId.value)];
      }
      effects := effects + [e];
    }

    /** `list` is the order in which the calls are resolved. */
    method ResolveAll(ids: set<string>) returns (ghost list: seq<string>)
      requires ids <= activeCalls.Keys
      modifies this`effects
      ensures ListsOnce(list, ids) && effects == old(effects) + Cancellations(activeCalls, list)
    {
      var rest := ids;
      list := [];
      assert Cancellations(activeCalls, list) == [];
      hide Cancellations, Resolution;
      while rest != {}
        invariant rest <= ids && ListsOnce(list, ids - rest)
        invariant effects == old(effects) + Cancellations(activeCalls, list)
        decreases rest
      {
        var next :| next in rest;
        OneMoreId(list, ids - rest, next);
        OneMoreCancellation(activeCalls, list, next);
        assert ids - rest + {next} == ids - (rest - {next});
        rest := rest - {next};
        AppendedTwice(old(effects), Cancellations(activeCalls, list),
                      Resolution(activeCalls[next], CancelledWithParent(next)));
        Resolve(activeCalls[next], CancelledWithParent(next));
        list := list + [next];
      }
      assert ids - rest == ids;
    }

    /**
     Cancelling an active call resolves all its active descendants, each exactly once, and then the call itself;
     each of them has its terminal interrupted directly before, and nothing else happens.
     */
    method CancelCall(id: string)
      requires Valid()
      modifies this`effects
      ensures id !in activeCalls ==> effects == old(effects)
      ensures id in activeCalls ==> old(effects) <= effects
                                    && CancelsExactly(activeCalls, id, effects[|old(effects)|..])
    {
      if id !in activeCalls {
        return;
      }
      var descendants := FindDescendants(id);
      ghost var list := ResolveAll(descendants - {id});
      Resolve(activeCalls[id], CancelledByUser(id));
      assert ListsDescendants(activeCalls, id, list);
      assert effects[|old(effects)|..] ==
             Cancellations(activeCalls, list) + Resolution(activeCalls[id], CancelledByUser(id));
    }
  }

  // ---------------------------------------------------------------- who is cancelled, and which terminals

  /** The ids resolved by a list of effects, in order. */
  function Resolved(effects: seq<Effect>): seq<string> {
    if effects == [] then []
    else
      var last := effects[|effects| - 1];
      Resolved(effects[..|effects| - 1]) + (if last.Interrupted? then [] else [last.id])
  }

  lemma {:induction false} ResolvedConcat(a: seq<Effect>, b: seq<Effect>)
    ensures Resolved(a + b) == Resolved(a) + Resolved(b)
  {
    if b == [] {
      assert a + b == a;
    } else {
      ResolvedConcat(a, b[..|b| - 1]);
      assert (a + b)[..|a + b| - 1] == a + b[..|b| - 1];
    }
  }

  lemma ResolutionIsOne(done: seq<Effect>, call: Call, e: Effect)
    requires !e.Interrupted?
    ensures Resolved(done + Resolution(call, e)) == Resolved(done) + [e.id]
  {
    var interrupts := Resolution(call, e)[..|Resolution(call, e)| - 1];
    assert Resolution(call, e) == interrupts + [e];
    ResolvedConcat(done, interrupts + [e]);
    ResolvedConcat(interrupts, [e]);
    assert [e][..0] == [];
    if interrupts != [] {
      assert interrupts[..0] == [];
    }
  }

  /**
   Effect `i` belongs to a call: an interrupted terminal to the call resolved next, and a resolution
   to a call whose terminal, if it has one, was interrupted just before.
   */
  predicate BelongsToACall(calls: Calls, done: seq<Effect>, i: nat)
    requires i < |done|
  {
    match done[i]
    case Interrupted(terminalId) =>
      && i + 1 < |done| && !done[i + 1].Interrupted? && done[i + 1].id in calls
      && calls[done[i + 1].id].terminalId == Some(terminalId) && terminalId != ""
    case _ =>
      && done[i].id in calls
      && var terminal := calls[done[i].id].terminalId;
         terminal.Some? && terminal.value != "" ==> i > 0 && done[i - 1] == Interrupted(terminal.value)
  }

  ghost predicate InPairs(calls: Calls, done: seq<Effect>) {
    forall i: nat | i < |done| :: BelongsToACall(calls, done, i)
  }

  lemma PairsConcat(calls: Calls, a: seq<Effect>, b: seq<Effect>)
    requires InPairs(calls, a) && InPairs(calls, b)
    ensures InPairs(calls, a + b)
  {
    forall i: nat | i < |a + b| ensures BelongsToACall(calls, a + b, i) {
      if i < |a| {
        assert BelongsToACall(calls, a, i);
      } else {
        assert BelongsToACall(calls, b, i - |a|);
      }
    }
  }

  lemma ResolutionIsAPair(calls: Calls, id: string, e: Effect)
    requires id in calls && !e.Interrupted? && e.id == id
    ensures InPairs(calls, Resolution(calls[id], e))
  {
  }

  lemma {:induction false} CancellationsComeInPairs(calls: Calls, list: seq<string>)
    requires forall id | id in list :: id in calls && calls[id].id == id
    ensures InPairs(calls, Cancellations(calls, list)) && Resolved(Cancellations(calls, list)) == list
  {
    if list != [] {
      var before, last := list[..|list| - 1], list[|list| - 1];
      assert list == before + [last];
      CancellationsComeInPairs(calls, before);
      OneMoreComesInPairs(calls, before, last);
    }
  }

  lemma OneMoreComesInPairs(calls: Calls, list: seq<string>, id: string)
    requires id in calls && forall q | q in list :: q in calls
    requires InPairs(calls, Cancellations(calls, list)) && Resolved(Cancellations(calls, list)) == list
    requires calls[id].id == id
    ensures InPairs(calls, Cancellations(calls, list + [id]))
    ensures Resolved(Cancellations(calls, list + [id])) == list + [id]
  {
    hide Resolution, InPairs, Resolved, Cancellations;
    OneMoreCancellation(calls, list, id);
    ResolutionIsAPair(calls, id, CancelledWithParent(id));
    PairsConcat(calls, Cancellations(calls, list), Resolution(calls[id], CancelledWithParent(id)));
    ResolutionIsOne(Cancellations(calls, list), calls[id], CancelledWithParent(id));
  }

  /**
   A cancellation resolves the target and its descendants, each once and the target last, and
   interrupts the terminals of these calls and no others, each directly before its call is resolved.
   */
  lemma EachIsCancelledOnce(calls: Calls, target: string, done: seq<Effect>, ids: set<string>)
    requires target in calls && (forall id | id in calls :: calls[id].id == id) && CancelsExactly(calls, target, done)
    requires forall id :: id in ids <==> Descends(calls, target, id)
    ensures ListsOnce(Resolved(done), ids) && done != [] && done[|done| - 1] == CancelledByUser(target)
    ensures InPairs(calls, done)
  {
    hide Cancellations, Resolution, Resolved, InPairs, Descends;
    var list: seq<string> :| ListsDescendants(calls, target, list)
        && done == Cancellations(calls, list) + Resolution(calls[target], CancelledByUser(target));
    CancellationsComeInPairs(calls, list);
    ResolutionIsAPair(calls, target, CancelledByUser(target));
    PairsConcat(calls, Cancellations(calls, list), Resolution(calls[target], CancelledByUser(target)));
    ResolutionIsOne(Cancellations(calls, list), calls[target], CancelledByUser(target));
    ResolutionComesLast(calls[target], CancelledByUser(target));
    OrderIsComplete(calls, target, list, ids);
  }

  lemma ResolutionComesLast(call: Call, e: Effect)
    ensures Resolution(call, e) != [] && Resolution(call, e)[|Resolution(call, e)| - 1] == e
  {
  }

  lemma OrderIsComplete(calls: Calls, target: string, list: seq<string>, ids: set<string>)
    requires ListsDescendants(calls, target, list) && forall id :: id in ids <==> Descends(calls, target, id)
    ensures ListsOnce(list + [target], ids)
  {
    ItselfDescends(calls, target);
    hide Descends;
    assert ListsOnce(list, ids - {target});
    OneMoreId(list, ids - {target}, target);
    assert ids - {target} + {target} == ids;
  }

  // ---------------------------------------------------------------- what the closure means

  /** Cancelling reaches exactly the smallest set that holds the target and the children of its members. */
  lemma DescendantsAreTheLeastClosedSet(calls: Calls, target: string, found: set<string>)
    requires forall id :: id in found <==> Descends(calls, target, id)
    ensures target in found && Closed(calls, found)
    ensures forall other: set<string> | target in other && Closed(calls, other) :: found <= other
  {
    ItselfDescends(calls, target);
    forall parent, child | parent in found && IsChild(calls, parent, child)
      ensures child in found
    {
      ChildDescends(calls, target, parent, child);
    }
    forall other: set<string> | target in other && Closed(calls, other)
      ensures found <= other
    {
      forall id | id in found
        ensures id in other
      {
        var path: seq<string> :| Links(calls, path, target, id);
        ClosedHoldsChains(calls, other, path);
      }
    }
  }
}
