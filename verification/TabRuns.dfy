/**
 Whole runs of the tab controller (src/agent/ChatTabController.ts): calls interleave at their
 awaits, listeners re-enter, and saves of placements fail late and in any order.

 A `World` is the controller together with the layouts that suspended `setPlacement` calls could
 still restore and the identifiers handed out so far. Identifiers are assumed fresh, as random
 UUIDs are; the controller itself only compares a new one with the tabs it has.
 */
module TabRuns {
  import opened Wrappers
  import opened TabController

  /** `objects` remembers which layout each identity stands for. */
  datatype World = World(c: Controller, objects: map<nat, Layout>, undos: seq<Undo>, used: set<string>)

  datatype Step =
    | DoFocus(id: string)
    | DoCreate(sessionId: Option<string>, id: string)
    | DoBind(session: string)
    | DoReplace(id: string, expected: Option<string>, sessionId: Option<string>)
    | DoReorder(ids: seq<string>)
    | DoPlace(id: string, from: Placement, placement: Placement)
    | DoClose(id: string)
    | SaveFails(undo: nat)

  predicate Enabled(w: World, step: Step) {
    match step
    case DoCreate(_, id) => id !in w.used && IndexOf(w.c.layout.tabs, id).None?
    case DoBind(_) => IndexOf(w.c.layout.tabs, w.c.focused).Some?
    case SaveFails(i) => i < |w.undos|
    case _ => true
  }

  function Call(c: Controller, step: Step): Controller
    requires step.DoBind? ==> IndexOf(c.layout.tabs, c.focused).Some?
    requires !step.SaveFails?
  {
    match step
    case DoFocus(id) => Focus(c, id).0
    case DoCreate(sessionId, id) => Create(c, sessionId, id).0
    case DoBind(session) => Bind(c, session).0
    case DoReplace(id, expected, sessionId) => Replace(c, id, expected, sessionId).0
    case DoReorder(ids) => Reorder(c, ids).0
    case DoPlace(id, expected, placement) => Place(c, id, expected, placement).0
    case DoClose(id) => Close(c, id).0
  }

  function Next(w: World, step: Step): World
    requires Enabled(w, step)
  {
    if step.SaveFails? then
      w.(c := UndoPlacement(w.c, w.undos[step.undo]))
    else
      var d := Call(w.c, step);
      var result := if step.DoPlace? then Place(w.c, step.id, step.from, step.placement).1 else NotPlaced(NotFound);
      World(d, w.objects[d.stamp := d.layout],
            if result.Placed? then w.undos + [result.undo] else w.undos,
            if step.DoCreate? then w.used + {step.id} else w.used)
  }

  /** A step of a run is the call it is named after; a placement is remembered for the save that may fail. */
  lemma StepsAreCalls(w: World, step: Step)
    requires Enabled(w, step)
    ensures var c, c' := w.c, Next(w, step).c;
      match step
      case DoFocus(id) => c' == Focus(c, id).0
      case DoCreate(sessionId, id) => c' == Create(c, sessionId, id).0
      case DoBind(sessionId) => c' == Bind(c, sessionId).0
      case DoReplace(id, expected, sessionId) => c' == Replace(c, id, expected, sessionId).0
      case DoReorder(ids) => c' == Reorder(c, ids).0
      case DoPlace(id, from, placement) => c' == Place(c, id, from, placement).0
      case DoClose(id) => c' == Close(c, id).0
      case SaveFails(undo) => c' == UndoPlacement(c, w.undos[undo])
    ensures Next(w, step).undos == w.undos
            + (if step.DoPlace? && Place(w.c, step.id, step.from, step.placement).1.Placed?
               then [Place(w.c, step.id, step.from, step.placement).1.undo] else [])
    ensures Next(w, step).used == w.used + (if step.DoCreate? then {step.id} else {})
  {
    assert w.undos + [] == w.undos && w.used + {} == w.used;
  }

  /** Only a creation under an identifier drawn before, or one that some tab has, is ruled out. */
  lemma StepsArePossible(w: World, step: Step)
    ensures Enabled(w, step) <==>
            && (step.DoCreate? ==>
                  step.id !in w.used
                  && forall i: nat | i < |w.c.layout.tabs| :: w.c.layout.tabs[i].id != step.id)
            && (step.DoBind? ==>
                  exists i: nat :: i < |w.c.layout.tabs| && w.c.layout.tabs[i].id == w.c.focused)
            && (step.SaveFails? ==> step.undo < |w.undos|)
  {
  }

  predicate Runs(w: World, steps: seq<Step>)
    decreases |steps|
  {
    steps != [] ==> Enabled(w, steps[0]) && Runs(Next(w, steps[0]), steps[1..])
  }

  function After(w: World, steps: seq<Step>): World
    requires Runs(w, steps)
    decreases |steps|
  {
    if steps == [] then w else After(Next(w, steps[0]), steps[1..])
  }

  // ---------------------------------------------------------------- every call keeps the invariant

  lemma CallKeepsValid(c: Controller, step: Step)
    requires Valid(c) && !step.SaveFails?
    requires step.DoBind? ==> IndexOf(c.layout.tabs, c.focused).Some?
    requires step.DoCreate? ==> IndexOf(c.layout.tabs, step.id).None?
    ensures Valid(Call(c, step))
  {
    match step
    case DoFocus(id) => FocusKeepsValid(c, id);
    case DoCreate(sessionId, id) => CreateKeepsValid(c, sessionId, id);
    case DoBind(session) => BindKeepsValid(c, session);
    case DoReplace(id, expected, sessionId) => ReplaceKeepsValid(c, id, expected, sessionId);
    case DoReorder(ids) => ReorderKeepsValid(c, ids);
    case DoPlace(id, expected, placement) => PlaceKeepsValid(c, id, expected, placement);
    case DoClose(id) => CloseKeepsValid(c, id);
  }

  lemma FocusKeepsValid(c: Controller, id: string)
    requires Valid(c)
    ensures Valid(Focus(c, id).0)
  {
    var i := IndexOf(c.layout.tabs, id);
    if i.Some? {
      assert c.layout.tabs[i.value].id == id;
    }
  }

  /** A call changes the layout only by replacing it with a new object. */
  lemma CallsReplaceLayouts(c: Controller, step: Step)
    requires !step.SaveFails? && (step.DoBind? ==> IndexOf(c.layout.tabs, c.focused).Some?)
    ensures var d := Call(c, step);
      (d.stamp == c.stamp && d.stamps == c.stamps && d.layout == c.layout)
      || (d.stamp == c.stamps && d.stamps == c.stamps + 1)
  {
  }

  /** The two layouts bind the same sessions under the same generations. */
  predicate SameBindings(a: seq<Tab>, b: seq<Tab>) {
    && |a| == |b|
    && forall i: nat | i < |a| ::
      a[i].id == b[i].id && a[i].sessionId == b[i].sessionId && a[i].terminalGeneration == b[i].terminalGeneration
  }

  /** What a suspended `setPlacement` would restore is a good layout that binds what its own layout binds. */
  predicate UndoOk(w: World, u: Undo) {
    && u.attempted in w.objects && u.previousStamp in w.objects
    && w.objects[u.previousStamp] == u.previousLayout
    && Good(u.previousLayout, u.previousFocused)
    && SameBindings(w.objects[u.attempted].tabs, u.previousLayout.tabs)
  }

  predicate UndosOk(w: World) {
    forall i: nat | i < |w.undos| :: UndoOk(w, w.undos[i])
  }

  predicate ObjectsOk(w: World) {
    && (forall s | s in w.objects :: s < w.c.stamps)
    && w.c.stamp in w.objects && w.objects[w.c.stamp] == w.c.layout
  }

  predicate IdsUsed(w: World) {
    forall s, i: nat | s in w.objects && i < |w.objects[s].tabs| :: w.objects[s].tabs[i].id in w.used
  }

  predicate Inv(w: World) {
    Valid(w.c) && ObjectsOk(w) && UndosOk(w) && IdsUsed(w)
  }

  predicate Initial(w: World) {
    && Valid(w.c)
    && w.objects == map[w.c.stamp := w.c.layout]
    && w.undos == []
    && w.used == set i: nat | i < |w.c.layout.tabs| :: w.c.layout.tabs[i].id
  }

  lemma InitialIsInv(w: World)
    requires Initial(w)
    ensures Inv(w)
  {
  }

  /** Remembering one more layout disturbs no undo. */
  lemma UndosSurvive(w: World, w': World, u: Undo)
    requires UndoOk(w, u)
    requires forall s | s in w.objects :: s in w'.objects && w'.objects[s] == w.objects[s]
    ensures UndoOk(w', u)
  {
  }

  lemma NewUndoIsOk(w: World, id: string, expected: Placement, placement: Placement)
    requires Inv(w) && Place(w.c, id, expected, placement).1.Placed?
    ensures var (d, result) := Place(w.c, id, expected, placement);
      UndoOk(w.(objects := w.objects[d.stamp := d.layout]), result.undo)
  {
    var (d, result) := Place(w.c, id, expected, placement);
    var i := IndexOf(w.c.layout.tabs, id).value;
    ReplaceTabKeeps(w.c.layout.tabs, result.tab, i);
    assert d.stamp != w.c.stamp;
    assert SameBindings(d.layout.tabs, w.c.layout.tabs);
  }

  /** A tab keeps its binding, takes its first session, or moves to a later generation. */
  predicate Follows(before: Tab, after: Tab) {
    && after.id == before.id
    && (after.terminalGeneration > before.terminalGeneration
        || (after.terminalGeneration == before.terminalGeneration
            && (before.sessionId.None? || after.sessionId == before.sessionId)))
  }

  predicate FollowsSome(tabs: seq<Tab>, tab: Tab) {
    exists k: nat :: k < |tabs| && Follows(tabs[k], tab)
  }

  /** Every tab after a call is the tab `createTab` made, or follows a tab that was there before. */
  lemma TabsFollow(c: Controller, step: Step, i: nat)
    requires Valid(c) && !step.SaveFails? && (step.DoBind? ==> IndexOf(c.layout.tabs, c.focused).Some?)
    requires i < |Call(c, step).layout.tabs|
    ensures (step.DoCreate? && Call(c, step).layout.tabs[i].id == step.id)
            || FollowsSome(c.layout.tabs, Call(c, step).layout.tabs[i])
  {
    var tab := Call(c, step).layout.tabs[i];
    match step
    case DoReorder(ids) =>
      if Reorder(c, ids).1 {
        assert Follows(c.layout.tabs[IndexOf(c.layout.tabs, ids[i]).value], tab);
      } else {
        assert Follows(c.layout.tabs[i], tab);
      }
    case DoClose(id) =>
      if i < |c.layout.tabs| && tab == c.layout.tabs[i] {
        assert Follows(c.layout.tabs[i], tab);
      } else {
        assert Follows(c.layout.tabs[i + 1], tab);
      }
    case DoCreate(sessionId, id) =>
      if i < |c.layout.tabs| {
        assert Follows(c.layout.tabs[i], tab);
      }
    case DoFocus(_) => assert Follows(c.layout.tabs[i], tab);
    case DoBind(session) => BoundTabFollows(c, session, i);
    case DoReplace(id, expected, sessionId) => ReplacedTabFollows(c, id, expected, sessionId, i);
    case DoPlace(id, expected, placement) => PlacedTabFollows(c, id, expected, placement, i);
  }

  lemma BoundTabFollows(c: Controller, session: string, i: nat)
    requires Valid(c) && IndexOf(c.layout.tabs, c.focused).Some? && i < |Bind(c, session).0.layout.tabs|
    ensures FollowsSome(c.layout.tabs, Bind(c, session).0.layout.tabs[i])
  {
    if IndexOfSession(c.layout.tabs, session).None? {
      ReplaceTabKeeps(c.layout.tabs, Bind(c, session).1, IndexOf(c.layout.tabs, c.focused).value);
    }
    assert Follows(c.layout.tabs[i], Bind(c, session).0.layout.tabs[i]);
  }

  lemma ReplacedTabFollows(c: Controller, id: string, expected: Option<string>, sessionId: Option<string>, i: nat)
    requires Valid(c) && i < |Replace(c, id, expected, sessionId).0.layout.tabs|
    ensures FollowsSome(c.layout.tabs, Replace(c, id, expected, sessionId).0.layout.tabs[i])
  {
    var (d, result) := Replace(c, id, expected, sessionId);
    if d != c {
      ReplaceTabKeeps(c.layout.tabs, result.tab, IndexOf(c.layout.tabs, id).value);
    }
    assert Follows(c.layout.tabs[i], d.layout.tabs[i]);
  }

  lemma PlacedTabFollows(c: Controller, id: string, expected: Placement, placement: Placement, i: nat)
    requires Valid(c) && i < |Place(c, id, expected, placement).0.layout.tabs|
    ensures FollowsSome(c.layout.tabs, Place(c, id, expected, placement).0.layout.tabs[i])
  {
    var (d, result) := Place(c, id, expected, placement);
    if result.Placed? {
      ReplaceTabKeeps(c.layout.tabs, result.tab, IndexOf(c.layout.tabs, id).value);
    }
    assert Follows(c.layout.tabs[i], d.layout.tabs[i]);
  }

  lemma StepKeepsInv(w: World, step: Step)
    requires Inv(w) && Enabled(w, step)
    ensures Inv(Next(w, step))
  {
    if step.SaveFails? {
      assert UndoOk(w, w.undos[step.undo]);
      assert forall i: nat | i < |w.undos| :: UndoOk(w, w.undos[i]);
    } else {
      CallKeepsInv(w, step);
    }
  }

  lemma CallKeepsInv(w: World, step: Step)
    requires Inv(w) && Enabled(w, step) && !step.SaveFails?
    ensures Inv(Next(w, step))
  {
    CallKeepsValid(w.c, step);
    CallsReplaceLayouts(w.c, step);
    CallKeepsUndos(w, step);
    CallKeepsIds(w, step);
  }

  lemma CallKeepsUndos(w: World, step: Step)
    requires Inv(w) && Enabled(w, step) && !step.SaveFails?
    ensures UndosOk(Next(w, step))
  {
    var w' := Next(w, step);
    CallsReplaceLayouts(w.c, step);
    forall i: nat | i < |w'.undos|
      ensures UndoOk(w', w'.undos[i])
    {
      if i < |w.undos| {
        UndosSurvive(w, w', w.undos[i]);
      } else {
        NewUndoIsOk(w, step.id, step.from, step.placement);
      }
    }
  }

  lemma CallKeepsIds(w: World, step: Step)
    requires Inv(w) && Enabled(w, step) && !step.SaveFails?
    ensures IdsUsed(Next(w, step))
  {
    var d, w' := Call(w.c, step), Next(w, step);
    assert forall k: nat | k < |w.c.layout.tabs| :: w.objects[w.c.stamp].tabs[k].id in w.used;
    forall s, i: nat | s in w'.objects && i < |w'.objects[s].tabs|
      ensures w'.objects[s].tabs[i].id in w'.used
    {
      if s == d.stamp {
        TabsFollow(w.c, step, i);
      }
    }
  }

  lemma {:induction false} RunKeepsInv(w: World, steps: seq<Step>)
    requires Inv(w) && Runs(w, steps)
    ensures Inv(After(w, steps))
    decreases |steps|
  {
    if steps != [] {
      StepKeepsInv(w, steps[0]);
      RunKeepsInv(Next(w, steps[0]), steps[1..]);
    }
  }

  /**
   In every reachable state identifiers, display numbers and sessions are unique, the focused tab is there
   and docked, and the next display number is above them all.
   */
  lemma LayoutsStayGood(w: World, steps: seq<Step>)
    requires Initial(w) && Runs(w, steps)
    ensures var c := After(w, steps).c;
      && IdsDiffer(c.layout.tabs)
      && NumbersDiffer(c.layout.tabs)
      && SessionsDiffer(c.layout.tabs)
      && NumbersBelow(c.layout)
      && HasDocked(c.layout.tabs, c.focused)
  {
    InitialIsInv(w);
    RunKeepsInv(w, steps);
  }

  // ---------------------------------------------------------------- sessions and generations

  /**
   No tab of the layout still carries `t`'s identifier and an older binding, or another session under
   its generation.
   */
  predicate Settled(tabs: seq<Tab>, t: Tab) {
    forall i: nat | i < |tabs| && tabs[i].id == t.id ::
      tabs[i].terminalGeneration > t.terminalGeneration
      || (tabs[i].terminalGeneration == t.terminalGeneration && tabs[i].sessionId == t.sessionId)
  }

  lemma StepKeepsSettled(w: World, step: Step, t: Tab)
    requires Inv(w) && Enabled(w, step)
    requires t.id in w.used && t.sessionId.Some? && Settled(w.c.layout.tabs, t)
    ensures t.id in Next(w, step).used && Settled(Next(w, step).c.layout.tabs, t)
  {
    var w' := Next(w, step);
    forall i: nat | i < |w'.c.layout.tabs| && w'.c.layout.tabs[i].id == t.id
      ensures w'.c.layout.tabs[i].terminalGeneration > t.terminalGeneration
              || (w'.c.layout.tabs[i].terminalGeneration == t.terminalGeneration
                  && w'.c.layout.tabs[i].sessionId == t.sessionId)
    {
      if step.SaveFails? {
        assert UndoOk(w, w.undos[step.undo]);
      } else {
        TabsFollow(w.c, step, i);
        var k: nat :| k < |w.c.layout.tabs| && Follows(w.c.layout.tabs[k], w'.c.layout.tabs[i]);
      }
    }
  }

  lemma {:induction false} RunKeepsSettled(w: World, steps: seq<Step>, t: Tab)
    requires Inv(w) && Runs(w, steps)
    requires t.id in w.used && t.sessionId.Some? && Settled(w.c.layout.tabs, t)
    ensures Settled(After(w, steps).c.layout.tabs, t)
    decreases |steps|
  {
    if steps != [] {
      StepKeepsInv(w, steps[0]);
      StepKeepsSettled(w, steps[0], t);
      RunKeepsSettled(Next(w, steps[0]), steps[1..], t);
    }
  }

  /**
   Over a whole run, a tab identifier and terminal generation are bound to at most one session: if tab
   `i` of a reachable layout shows a session, any later tab with the same identifier and generation shows it too.
   */
  lemma GenerationHasOneSession(start: World, before: seq<Step>, steps: seq<Step>, i: nat, k: nat)
    requires Initial(start) && Runs(start, before) && Runs(After(start, before), steps)
    requires var tabs, later := After(start, before).c.layout.tabs, After(After(start, before), steps).c.layout.tabs;
      && i < |tabs| && tabs[i].sessionId.Some?
      && k < |later| && later[k].id == tabs[i].id
      && later[k].terminalGeneration == tabs[i].terminalGeneration
    ensures After(After(start, before), steps).c.layout.tabs[k].sessionId
         == After(start, before).c.layout.tabs[i].sessionId
  {
    InitialIsInv(start);
    RunKeepsInv(start, before);
    var w := After(start, before);
    var t := w.c.layout.tabs[i];
    assert w.objects[w.c.stamp].tabs[i].id in w.used;
    assert Settled(w.c.layout.tabs, t);
    RunKeepsSettled(w, steps, t);
  }

  // ---------------------------------------------------------------- the empty session identifier

  /** Session uniqueness without the exception for the empty string. */
  predicate AllSessionsDiffer(tabs: seq<Tab>) {
    forall i: nat, k: nat | i < k < |tabs| :: tabs[i].sessionId == tabs[k].sessionId ==> tabs[i].sessionId.None?
  }

  /** `createTab` looks for an open tab only under a non-empty session id, so exactly `""` can be opened twice. */
  lemma CreateKeepsSessionsApartIff(c: Controller, sessionId: Option<string>, id: string)
    requires Valid(c) && AllSessionsDiffer(c.layout.tabs) && IndexOf(c.layout.tabs, id).None?
    ensures AllSessionsDiffer(Create(c, sessionId, id).0.layout.tabs)
       <==> !(sessionId == Some("") && IndexOfSession(c.layout.tabs, "").Some?)
  {
    var d := Create(c, sessionId, id).0;
    var n := |c.layout.tabs|;
    if sessionId == Some("") && IndexOfSession(c.layout.tabs, "").Some? {
      var i := IndexOfSession(c.layout.tabs, "").value;
      assert d.layout.tabs[i].sessionId == d.layout.tabs[n].sessionId == Some("");
    }
  }
}
