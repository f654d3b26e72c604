/**
 Tab layouts over whole runs and across a reload: src/agent/ChatTabController.ts with its saved
 layouts. The controller does not treat the empty string as a session identifier when it looks
 for an open tab, and its saved layouts do not restore one; both properties below hold in a run
 exactly as long as no call brings the empty string in.
 */
module TabPersistence {
  import opened Wrappers
  import opened TabController
  import opened TabRuns
  import LayoutRestore

  // ---------------------------------------------------------------- properties of whole runs

  /** `good` holds in every state of the run. */
  ghost predicate Always(good: World -> bool, w: World, steps: seq<Step>)
    requires Runs(w, steps)
    decreases |steps|
  {
    good(w) && (steps != [] ==> Always(good, Next(w, steps[0]), steps[1..]))
  }

  /** No step of the run is taken in a state in which it is `bad`. */
  ghost predicate Never(bad: (World, Step) -> bool, w: World, steps: seq<Step>)
    requires Runs(w, steps)
    decreases |steps|
  {
    steps != [] ==> !bad(w, steps[0]) && Never(bad, Next(w, steps[0]), steps[1..])
  }

  lemma {:induction false} AlwaysIffNever(good: World -> bool, bad: (World, Step) -> bool, w: World, steps: seq<Step>)
    requires Inv(w) && good(w) && Runs(w, steps)
    requires forall v, step | Inv(v) && good(v) && Enabled(v, step) :: good(Next(v, step)) <==> !bad(v, step)
    ensures Always(good, w, steps) <==> Never(bad, w, steps)
    decreases |steps|
  {
    if steps != [] {
      StepKeepsInv(w, steps[0]);
      if good(Next(w, steps[0])) {
        AlwaysIffNever(good, bad, Next(w, steps[0]), steps[1..]);
      } else {
        assert bad(w, steps[0]);
      }
    }
  }

  // ---------------------------------------------------------------- sessions stay apart

  ghost predicate SessionsApart(w: World) {
    AllSessionsDiffer(w.c.layout.tabs)
  }

  /** The empty session is opened while a tab shows it. */
  ghost predicate OpensEmptyAgain(w: World, step: Step) {
    step.DoCreate? && step.sessionId == Some("") && IndexOfSession(w.c.layout.tabs, "").Some?
  }

  lemma RebindingKeepsApart(tabs: seq<Tab>, i: nat, tab: Tab)
    requires AllSessionsDiffer(tabs) && i < |tabs|
    requires forall k: nat | k < |tabs| && k != i :: tab.sessionId.Some? ==> tabs[k].sessionId != tab.sessionId
    ensures AllSessionsDiffer(tabs[i := tab])
  {
  }

  lemma BindKeepsApart(c: Controller, session: string)
    requires Valid(c) && AllSessionsDiffer(c.layout.tabs) && IndexOf(c.layout.tabs, c.focused).Some?
    ensures AllSessionsDiffer(Bind(c, session).0.layout.tabs)
  {
    if IndexOfSession(c.layout.tabs, session).None? {
      var i, tab := IndexOf(c.layout.tabs, c.focused).value, Bind(c, session).1;
      ReplaceTabKeeps(c.layout.tabs, tab, i);
      RebindingKeepsApart(c.layout.tabs, i, tab);
    }
  }

  lemma ReplaceKeepsApart(c: Controller, id: string, expected: Option<string>, sessionId: Option<string>)
    requires Valid(c) && AllSessionsDiffer(c.layout.tabs)
    ensures AllSessionsDiffer(Replace(c, id, expected, sessionId).0.layout.tabs)
  {
    var (d, result) := Replace(c, id, expected, sessionId);
    if d != c {
      var i := IndexOf(c.layout.tabs, id).value;
      ReplaceTabKeeps(c.layout.tabs, result.tab, i);
      RebindingKeepsApart(c.layout.tabs, i, result.tab);
    }
  }

  lemma PlaceKeepsApart(c: Controller, id: string, expected: Placement, placement: Placement)
    requires Valid(c) && AllSessionsDiffer(c.layout.tabs)
    ensures AllSessionsDiffer(Place(c, id, expected, placement).0.layout.tabs)
  {
    var (d, result) := Place(c, id, expected, placement);
    if result.Placed? {
      var i := IndexOf(c.layout.tabs, id).value;
      ReplaceTabKeeps(c.layout.tabs, result.tab, i);
      RebindingKeepsApart(c.layout.tabs, i, result.tab);
    }
  }

  lemma ReorderKeepsApart(c: Controller, ids: seq<string>)
    requires Valid(c) && AllSessionsDiffer(c.layout.tabs)
    ensures AllSessionsDiffer(Reorder(c, ids).0.layout.tabs)
  {
    ReorderKeepsValid(c, ids);
    var d := Reorder(c, ids).0;
    if Reorder(c, ids).1 {
      forall i: nat, k: nat | i < k < |d.layout.tabs| && d.layout.tabs[i].sessionId == d.layout.tabs[k].sessionId
        ensures d.layout.tabs[i].sessionId.None?
      {
        var a, b := IndexOf(c.layout.tabs, ids[i]).value, IndexOf(c.layout.tabs, ids[k]).value;
        assert d.layout.tabs[i].id != d.layout.tabs[k].id;
      }
    }
  }

  lemma CloseKeepsApart(c: Controller, id: string)
    requires AllSessionsDiffer(c.layout.tabs)
    ensures AllSessionsDiffer(Close(c, id).0.layout.tabs)
  {
  }

  lemma CallKeepsApartIff(w: World, step: Step)
    requires Inv(w) && SessionsApart(w) && Enabled(w, step) && !step.SaveFails?
    ensures SessionsApart(Next(w, step)) <==> !OpensEmptyAgain(w, step)
  {
    match step
    case DoFocus(id) =>
    case DoCreate(sessionId, id) => CreateKeepsSessionsApartIff(w.c, sessionId, id);
    case DoBind(session) => BindKeepsApart(w.c, session);
    case DoReplace(id, expected, sessionId) => ReplaceKeepsApart(w.c, id, expected, sessionId);
    case DoReorder(ids) => ReorderKeepsApart(w.c, ids);
    case DoPlace(id, expected, placement) => PlaceKeepsApart(w.c, id, expected, placement);
    case DoClose(id) => CloseKeepsApart(w.c, id);
  }

  lemma StepKeepsApartIff(w: World, step: Step)
    requires Inv(w) && SessionsApart(w) && Enabled(w, step)
    ensures SessionsApart(Next(w, step)) <==> !OpensEmptyAgain(w, step)
  {
    if step.SaveFails? {
      assert UndoOk(w, w.undos[step.undo]);
    } else {
      CallKeepsApartIff(w, step);
    }
  }

  /**
   Over a whole run no two tabs ever show the same session, the empty string included, if and only
   if the run never opens the empty session while a tab shows it.
   */
  lemma SessionsStayApartIff(w: World, steps: seq<Step>)
    requires Initial(w) && SessionsApart(w) && Runs(w, steps)
    ensures Always(SessionsApart, w, steps) <==> Never(OpensEmptyAgain, w, steps)
  {
    InitialIsInv(w);
    forall v, step | Inv(v) && SessionsApart(v) && Enabled(v, step)
      ensures SessionsApart(Next(v, step)) <==> !OpensEmptyAgain(v, step)
    {
      StepKeepsApartIff(v, step);
    }
    AlwaysIffNever(SessionsApart, OpensEmptyAgain, w, steps);
  }

  // ---------------------------------------------------------------- saving and restoring

  ghost predicate TabsRestorable(tabs: seq<Tab>) {
    forall i: nat | i < |tabs| :: LayoutRestore.TabOk(tabs[i])
  }

  /** Nothing a reload would repair or drop. */
  ghost predicate Restorable(w: World) {
    TabsRestorable(w.c.layout.tabs)
  }

  /** The call would give a tab the empty string as its session or its identifier. */
  ghost predicate BringsEmpty(w: World, step: Step) {
    match step
    case DoCreate(sessionId, id) =>
      sessionId == Some("") || (id == ""
          && !(sessionId.Some? && IndexOfSession(w.c.layout.tabs, sessionId.value).Some?))
    case DoBind(session) => session == ""
    case DoReplace(id, expected, sessionId) =>
      sessionId == Some("") && IndexOf(w.c.layout.tabs, id).Some?
      && w.c.layout.tabs[IndexOf(w.c.layout.tabs, id).value].sessionId == expected
    case _ => false
  }

  lemma CreateKeepsRestorableIff(w: World, sessionId: Option<string>, id: string)
    requires Inv(w) && Restorable(w) && IndexOf(w.c.layout.tabs, id).None?
    ensures (forall i: nat | i < |Create(w.c, sessionId, id).0.layout.tabs| ::
               LayoutRestore.TabOk(Create(w.c, sessionId, id).0.layout.tabs[i]))
       <==> !BringsEmpty(w, DoCreate(sessionId, id))
  {
    var tabs := Create(w.c, sessionId, id).0.layout.tabs;
    var n := |w.c.layout.tabs|;
    assert sessionId.Some? && sessionId.value == "" ==> IndexOfSession(w.c.layout.tabs, "").None?;
    if |tabs| == n + 1 {
      assert tabs[n] == Create(w.c, sessionId, id).1;
    }
  }

  lemma BindKeepsRestorableIff(w: World, session: string)
    requires Inv(w) && Restorable(w) && Enabled(w, DoBind(session))
    ensures Restorable(Next(w, DoBind(session))) <==> session != ""
  {
    var tabs := w.c.layout.tabs;
    if IndexOfSession(tabs, session).None? {
      var i := IndexOf(tabs, w.c.focused).value;
      ReplaceTabKeeps(tabs, Bind(w.c, session).1, i);
      assert LayoutRestore.TabOk(tabs[i]);
      assert Next(w, DoBind(session)).c.layout.tabs[i] == Bind(w.c, session).1;
    }
  }

  /** A replacement that is not refused changes the session and the generation of one tab. */
  lemma ReplacedTab(c: Controller, id: string, expected: Option<string>, sessionId: Option<string>) returns (i: nat)
    requires Valid(c) && Replace(c, id, expected, sessionId).0 != c
    ensures IndexOf(c.layout.tabs, id) == Some(i) && i < |c.layout.tabs| && c.layout.tabs[i].sessionId == expected
    ensures var tab := c.layout.tabs[i];
      Replace(c, id, expected, sessionId).0.layout.tabs ==
      c.layout.tabs[i := tab.(sessionId := sessionId, terminalGeneration := tab.terminalGeneration + 1)]
  {
    i := IndexOf(c.layout.tabs, id).value;
    ReplaceTabKeeps(c.layout.tabs, Replace(c, id, expected, sessionId).1.tab, i);
  }

  lemma OneTabRestorableIff(tabs: seq<Tab>, i: nat, sessionId: Option<string>)
    requires i < |tabs| && TabsRestorable(tabs)
    ensures var tab := tabs[i].(sessionId := sessionId, terminalGeneration := tabs[i].terminalGeneration + 1);
      TabsRestorable(tabs[i := tab]) <==> sessionId != Some("")
  {
    var tab := tabs[i].(sessionId := sessionId, terminalGeneration := tabs[i].terminalGeneration + 1);
    assert LayoutRestore.TabOk(tabs[i]);
    assert tabs[i := tab][i] == tab;
  }

  /** A refused replacement to the empty session would not have been of the expected tab. */
  lemma UnchangedBringsNothing(w: World, id: string, expected: Option<string>, sessionId: Option<string>)
    requires Restorable(w) && Replace(w.c, id, expected, sessionId).0 == w.c && Valid(w.c)
    ensures !BringsEmpty(w, DoReplace(id, expected, sessionId))
  {
    var i := IndexOf(w.c.layout.tabs, id);
    if i.Some? {
      assert LayoutRestore.TabOk(w.c.layout.tabs[i.value]);
      EmptyIsOpenNowhere(w, id);
    }
  }

  lemma EmptyIsOpenNowhere(w: World, id: string)
    requires Restorable(w)
    ensures !OpenElsewhere(w.c.layout.tabs, id, "")
  {
    forall i: nat | i < |w.c.layout.tabs| ensures w.c.layout.tabs[i].sessionId != Some("") {
      assert LayoutRestore.TabOk(w.c.layout.tabs[i]);
    }
  }

  lemma ReplaceKeepsRestorableIff(w: World, id: string, expected: Option<string>, sessionId: Option<string>)
    requires Inv(w) && Restorable(w)
    ensures Restorable(Next(w, DoReplace(id, expected, sessionId))) <==>
            !BringsEmpty(w, DoReplace(id, expected, sessionId))
  {
    assert Valid(w.c);
    hide Inv, Replace, Valid;
    if Replace(w.c, id, expected, sessionId).0 == w.c {
      UnchangedBringsNothing(w, id, expected, sessionId);
    } else {
      var i := ReplacedTab(w.c, id, expected, sessionId);
      OneTabRestorableIff(w.c.layout.tabs, i, sessionId);
    }
  }

  /** Every other call keeps, drops or moves tabs without touching what a reload looks at. */
  lemma OtherCallKeepsRestorable(w: World, step: Step)
    requires Inv(w) && Restorable(w) && Enabled(w, step)
    requires step.DoFocus? || step.DoReorder? || step.DoPlace? || step.DoClose?
    ensures Restorable(Next(w, step))
  {
    if step.DoPlace? && Place(w.c, step.id, step.from, step.placement).1.Placed? {
      var i := IndexOf(w.c.layout.tabs, step.id).value;
      ReplaceTabKeeps(w.c.layout.tabs, Place(w.c, step.id, step.from, step.placement).1.tab, i);
      assert LayoutRestore.TabOk(w.c.layout.tabs[i]);
    }
  }

  lemma FailedSaveKeepsRestorable(w: World, undo: nat)
    requires Inv(w) && Restorable(w) && undo < |w.undos|
    ensures Restorable(Next(w, SaveFails(undo)))
  {
    var u := w.undos[undo];
    assert UndoOk(w, u);
    if w.c.stamp == u.attempted {
      forall i: nat | i < |u.previousLayout.tabs| ensures LayoutRestore.TabOk(u.previousLayout.tabs[i]) {
        assert LayoutRestore.TabOk(w.c.layout.tabs[i]);
      }
    }
  }

  lemma StepKeepsRestorableIff(w: World, step: Step)
    requires Inv(w) && Restorable(w) && Enabled(w, step)
    ensures Restorable(Next(w, step)) <==> !BringsEmpty(w, step)
  {
    match step
    case DoCreate(sessionId, id) => CreateKeepsRestorableIff(w, sessionId, id);
    case DoBind(session) => BindKeepsRestorableIff(w, session);
    case DoReplace(id, expected, sessionId) => ReplaceKeepsRestorableIff(w, id, expected, sessionId);
    case SaveFails(undo) => FailedSaveKeepsRestorable(w, undo);
    case _ => OtherCallKeepsRestorable(w, step);
  }

  ghost predicate RestoredAsSaved(w: World) {
    forall id | id != "" :: LayoutRestore.Restore(LayoutRestore.Encode(w.c.layout), id) == (w.c.layout, false)
  }

  /** A layout of the controller is restored as it was saved, unreported, exactly when nothing in it needs repair. */
  lemma RestoredAsSavedIff(w: World)
    requires Inv(w)
    ensures RestoredAsSaved(w) <==> Restorable(w)
  {
    var layout := w.c.layout;
    if Restorable(w) {
      var i: nat :| i < |layout.tabs| && layout.tabs[i].id == w.c.focused && layout.tabs[i].placement == Docked;
      forall id | id != "" ensures LayoutRestore.Restore(LayoutRestore.Encode(layout), id) == (layout, false) {
        LayoutRestore.RestoreInvertsEncode(layout, id);
      }
    } else if RestoredAsSaved(w) {
      assert LayoutRestore.Restore(LayoutRestore.Encode(layout), "x") == (layout, false);
      LayoutRestore.RestoreIsComplete(LayoutRestore.Encode(layout), "x");
    }
  }

  /**
   Over a whole run every layout can be saved and is restored exactly as it was if and only if the
   run never gives a tab the empty string.
   */
  lemma LayoutsSurviveReloadIff(w: World, steps: seq<Step>)
    requires Initial(w) && RestoredAsSaved(w) && Runs(w, steps)
    ensures Always(RestoredAsSaved, w, steps) <==> Never(BringsEmpty, w, steps)
  {
    InitialIsInv(w);
    forall v, step | Inv(v) && RestoredAsSaved(v) && Enabled(v, step)
      ensures RestoredAsSaved(Next(v, step)) <==> !BringsEmpty(v, step)
    {
      RestoredAsSavedIff(v);
      StepKeepsInv(v, step);
      StepKeepsRestorableIff(v, step);
      RestoredAsSavedIff(Next(v, step));
    }
    AlwaysIffNever(RestoredAsSaved, BringsEmpty, w, steps);
  }
}
