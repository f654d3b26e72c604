/**
 What the panel host's methods leave behind at each of their steps, for every state that a
 run can reach: which surface drives the tab afterwards, which panel is registered, and what is
 still suspended. Source: src/agent/ChatTabPanelHost.ts.

 The steps that complete a hand-off are in `PanelHost`; here are the ones that begin, move on,
 fail or are superseded, and what a closed or released tab is left with.
 */
module PanelOutcomes {
  import opened Wrappers
  import opened PaneAuthority
  import opened PanelRegistry
  import opened PanelHost
  import opened PaneAnswers

  ghost predicate Reachable(h: Host, tab: string) {
    exists start: Host, steps: seq<Step> :: ReachedBy(h, tab, start, steps)
  }

  predicate ReachedBy(h: Host, tab: string, start: Host, steps: seq<Step>) {
    Initial(start, tab) && Runs(start, tab, steps) && h == PanelHost.After(start, tab, steps)
  }

  predicate NoEditorStands(s: Slot) {
    !IsEditor(s.pane.active) && !IsEditor(s.pane.pending)
  }

  /** The sidebar lease in charge, if there is one. */
  function SidebarOf(p: Pane): Option<Lease> {
    if p.active.Some? && p.active.value.surface == Sidebar then p.active else None
  }

  // ---------------------------------------------------------------- two more invariants

  /** While the last transition is an attachment, no hand-off to the sidebar is under way. */
  predicate AttachmentsAwaitTheEditor(h: Host) {
    h.purpose == ForAttach && h.slot.pane.pending.Some? ==> h.slot.pane.pending.value.surface == Editor
  }

  /** A disposed host leaves the tab with no panel and no surface. */
  predicate DisposedIsEmpty(h: Host) {
    h.disposed ==> h.slot.registered.None? && h.slot.pane.active.None? && h.slot.pane.pending.None?
  }

  predicate Settled(h: Host) {
    AttachmentsAwaitTheEditor(h) && DisposedIsEmpty(h)
  }

  lemma AttachStaysSettled(h: Host, tab: string, panel: nat, expected: Placement, source: Source)
    requires Settled(h) && !h.disposed && h.placement.Some?
    ensures Settled(Attach(h, tab, panel, expected, source))
  {
  }

  lemma FailureStaysSettled(h: Host, tab: string, i: nat, fallback: nat)
    requires Inv(h) && Settled(h) && i < |h.tasks|
    ensures h.tasks[i].Docking? ==> Settled(DockFails(h, i))
    ensures h.tasks[i].Readying? ==> Settled(ReadyFails(h, tab, i))
    ensures h.tasks[i].Closing? ==> Settled(CloseFails(h, tab, i, fallback))
  {
    assert TaskOk(h, h.tasks[i]);
    if h.tasks[i].Closing? && h.placement.Some? && !h.disposed {
      AttachStaysSettled(Finish(h, i), tab, fallback, Popped, Fallback);
    }
  }

  lemma StepStaysSettled(h: Host, tab: string, step: Step)
    requires Inv(h) && Settled(h) && Enabled(h, step)
    ensures Settled(Next(h, tab, step))
  {
    match step
    case PopOut(panel, _) =>
      if h.placement.Some? && !h.disposed { AttachStaysSettled(h, tab, panel, Docked, Pop); }
    case Deserialize(panel) =>
      if h.placement.Some? && !h.disposed { AttachStaysSettled(h, tab, panel, Popped, Serialized); }
    case RestoreMissing(panel) =>
      if h.placement.Some? && !h.disposed { AttachStaysSettled(h, tab, panel, Popped, Fallback); }
    case DockHydrated(i, _) => FailureStaysSettled(h, tab, i, 0); assert TaskOk(h, h.tasks[i]);
    case DockPlaced(i, _) => FailureStaysSettled(h, tab, i, 0); assert TaskOk(h, h.tasks[i]);
    case ReadyHydrated(i, _, _) => FailureStaysSettled(h, tab, i, 0); assert TaskOk(h, h.tasks[i]);
    case ReadyPlaced(i, _) => FailureStaysSettled(h, tab, i, 0);
    case CloseHydrated(i, _, fallback) => FailureStaysSettled(h, tab, i, fallback); assert TaskOk(h, h.tasks[i]);
    case ClosePlaced(i, _, fallback) => FailureStaysSettled(h, tab, i, fallback);
    case _ =>
  }

  lemma {:induction false} RunStaysSettled(h: Host, tab: string, steps: seq<Step>)
    requires Inv(h) && Settled(h) && Runs(h, tab, steps)
    ensures Inv(PanelHost.After(h, tab, steps)) && Settled(PanelHost.After(h, tab, steps))
    decreases |steps|
  {
    if steps != [] {
      StepKeepsInv(h, tab, steps[0]);
      StepStaysSettled(h, tab, steps[0]);
      RunStaysSettled(Next(h, tab, steps[0]), tab, steps[1..]);
    }
  }

  lemma ReachableHolds(h: Host, tab: string)
    requires Reachable(h, tab)
    ensures Inv(h) && Settled(h)
  {
    var start, steps :| ReachedBy(h, tab, start, steps);
    InitialIsInv(start, tab);
    RunStaysSettled(start, tab, steps);
  }

  // ---------------------------------------------------------------- steps that begin

  /** `panel` was opened: it is registered, waits for the editor lease, and whoever drives the tab still does. */
  predicate Opened(h: Host, h': Host, tab: string, panel: nat, expected: Placement, source: Source) {
    && h'.slot.registered.Some? && h'.slot.registered.value.panel == panel
    && var lease := h'.slot.registered.value.lease;
       && lease.surface == Editor
       && (h.slot.pane.pending.None? ==> lease == Lease(tab, Editor, h.slot.pane.next))
       && h'.slot.pane.pending == Some(lease) && h'.slot.pane.active == h.slot.pane.active
       && h'.editorPane == Some(EditorPane(lease, h.transition + 1, source))
       && h'.connections == h.connections + [Connection(lease, expected, h.transition + 1)]
       && h'.transition == h.transition + 1
       && h'.tasks == h.tasks && h'.disposed == h.disposed && h'.placement == h.placement
  }

  predicate SidebarIsComing(h: Host) {
    h.slot.pane.pending.Some? && h.slot.pane.pending.value.surface == Sidebar
  }

  /** A pop-out or a missing panel opens one unless the tab has a panel, is gone, or the sidebar is taking over. */
  lemma PopOutAnswers(h: Host, tab: string, panel: nat, allowed: bool)
    ensures var h' := Next(h, tab, PopOut(panel, allowed));
      if !h.disposed && allowed && h.slot.registered.None? && h.placement.Some? && !SidebarIsComing(h)
      then Opened(h, h', tab, panel, Docked, Pop)
      else h' == h
    ensures var h' := Next(h, tab, RestoreMissing(panel));
      if !h.disposed && h.placement == Some(Popped) && h.slot.registered.None? && !SidebarIsComing(h)
      then Opened(h, h', tab, panel, Popped, Fallback)
      else h' == h
  {
  }

  /** A panel the editor restored is opened for a popped tab; a fallback panel makes way for it first. */
  lemma DeserializeAnswers(h: Host, tab: string, panel: nat)
    requires Reachable(h, tab)
    ensures var h' := Next(h, tab, Deserialize(panel));
      var makesWay := h.editorPane.Some? && h.editorPane.value.source == Fallback;
      var cleared := if makesWay then h.(editorPane := None, slot := DropPanel(h.slot).0) else h;
      if h.disposed || h.placement != Some(Popped) then h' == h
      else if (h.slot.registered.None? || makesWay) && !SidebarIsComing(h)
      then Opened(cleared, h', tab, panel, Popped, Serialized)
      else h' == cleared
  {
    ReachableHolds(h, tab);
  }

  /** A popped tab with an editor pane starts to dock unless the editor is taking over. */
  lemma DockAnswers(h: Host, tab: string)
    ensures var h' := Next(h, tab, StartDock);
      if !h.disposed && h.placement == Some(Popped) && h.editorPane.Some? && !IsEditor(h.slot.pane.pending)
      then
        && SidebarIsComing(h')
        && (h.slot.pane.pending.None? ==> h'.slot.pane.pending == Some(Lease(tab, Sidebar, h.slot.pane.next)))
        && h'.slot.registered == h.slot.registered && h'.slot.pane.active == h.slot.pane.active
        && h'.transition == h.transition + 1 && !h'.disposed
        && h'.tasks == h.tasks
             + [Docking(h'.slot.pane.pending.value, h'.transition, h.editorPane.value, Hydrating)]
        && h'.editorPane == h.editorPane && h'.connections == h.connections && h'.placement == h.placement
      else h' == h
  {
  }

  /** The connection is the one of the open panel, and no other method has begun since. */
  predicate StillOpen(h: Host, transition: nat) {
    && !h.disposed && h.transition == transition
    && h.editorPane.Some? && h.editorPane.value.transition == transition
    && h.slot.registered.Some?
  }

  lemma EditorReadyAnswers(h: Host, tab: string, c: nat)
    requires c < |h.connections|
    ensures Next(h, tab, EditorReady(c)) ==
            if StillOpen(h, h.connections[c].transition)
            then h.(tasks := h.tasks + [Readying(h.connections[c], Hydrating)]) else h
  {
  }

  // ---------------------------------------------------------------- steps that move on

  /** `surface` drives the tab now, and task `i` remembers who did before. */
  predicate TakesOver(h: Host, h': Host, i: nat, lease: Lease, t: Task)
    requires i < |h.tasks|
  {
    && h'.slot.pane.active == Some(lease) && h'.slot.pane.pending.None?
    && h'.slot.registered == h.slot.registered && h'.tasks == h.tasks[i := t]
    && h'.transition == h.transition && h'.editorPane == h.editorPane && h'.disposed == h.disposed
  }

  /** A hydrated sidebar takes over when nothing has happened meanwhile. */
  lemma DockMovesOn(h: Host, tab: string, i: nat)
    requires Reachable(h, tab) && Enabled(h, DockHydrated(i, true))
    requires !h.disposed && h.transition == h.tasks[i].transition
    requires h.editorPane == Some(h.tasks[i].pane) && h.placement == Some(Popped)
    ensures var t := h.tasks[i];
      TakesOver(h, Next(h, tab, DockHydrated(i, true)), i, t.lease,
                Docking(t.lease, t.transition, t.pane, Placing(h.slot.pane.active)))
  {
    ReachableHolds(h, tab);
    assert TaskOk(h, h.tasks[i]);
  }

  /** A hydrated panel takes over when it is still the open one and bound to the tab's session. */
  lemma ReadyMovesOn(h: Host, tab: string, i: nat)
    requires Reachable(h, tab) && Enabled(h, ReadyHydrated(i, true, true))
    requires StillOpen(h, h.tasks[i].connection.transition) && h.placement.Some?
    requires h.slot.pane.active != Some(h.tasks[i].connection.lease)
    ensures var c := h.tasks[i].connection;
      TakesOver(h, Next(h, tab, ReadyHydrated(i, true, true)), i, c.lease,
                Readying(c, Placing(h.slot.pane.active)))
  {
    ReachableHolds(h, tab);
    assert TaskOk(h, h.tasks[i]);
  }

  lemma CloseMovesOn(h: Host, tab: string, i: nat, fallback: nat)
    requires Reachable(h, tab) && Enabled(h, CloseHydrated(i, true, fallback))
    requires !h.disposed && h.transition == h.tasks[i].transition && h.placement == Some(Popped)
    ensures var t := h.tasks[i];
      TakesOver(h, Next(h, tab, CloseHydrated(i, true, fallback)), i, t.lease,
                Closing(t.lease, t.transition, Placing(h.slot.pane.active)))
  {
    ReachableHolds(h, tab);
    assert TaskOk(h, h.tasks[i]);
  }

  // ---------------------------------------------------------------- steps that complete

  /** `dock` succeeds exactly when the layout was saved and nothing else has happened; only then the panel goes. */
  lemma DockCompletesIff(h: Host, tab: string, i: nat, ok: bool)
    requires Reachable(h, tab) && Enabled(h, DockPlaced(i, ok))
    ensures var h' := Next(h, tab, DockPlaced(i, ok));
      var t := h.tasks[i];
      && h'.tasks == h.tasks[i := Finished]
      && (if ok && !h.disposed && h.transition == t.transition
             && h.editorPane == Some(t.pane) && h.placement == Some(Docked)
          then h'.slot.registered.None? && h'.slot.pane.active == Some(t.lease) && h'.slot.pane.pending.None?
          else h'.slot.registered == h.slot.registered)
  {
    ReachableHolds(h, tab);
    assert TaskOk(h, h.tasks[i]);
  }

  /** A pop-out or a hand-off after a close that completes changes nothing but that it is no longer suspended. */
  lemma CompletionOnlyFinishes(h: Host, tab: string, i: nat, fallback: nat)
    ensures Enabled(h, ReadyPlaced(i, true)) && StillOpen(h, h.tasks[i].connection.transition)
              && h.placement == Some(Popped) ==>
              Next(h, tab, ReadyPlaced(i, true)) == h.(tasks := h.tasks[i := Finished])
    ensures Enabled(h, ClosePlaced(i, true, fallback)) && !h.disposed && h.transition == h.tasks[i].transition
              && h.placement == Some(Docked) ==>
              Next(h, tab, ClosePlaced(i, true, fallback)) == h.(tasks := h.tasks[i := Finished])
  {
  }

  // ---------------------------------------------------------------- steps that fail

  /** A step of a panel becoming ready that cannot go on: a call failed, or the panel or its tab has changed. */
  predicate ReadyGivesUp(h: Host, step: Step, i: nat)
    requires i < |h.tasks| && h.tasks[i].Readying?
  {
    var open := StillOpen(h, h.tasks[i].connection.transition);
    match step
    case ReadyHydrated(k, ok, bound) => k == i && (!ok || !bound || h.placement.None? || !open)
    case ReadyPlaced(k, ok) => k == i && (!ok || h.placement != Some(Popped) || !open)
    case _ => false
  }

  /**
   A pop-out that fails while it is the tab's last transition leaves no panel, and a tab that still exists is
   driven by the sidebar: by the lease it had when the hand-off was still pending, otherwise by the lease in
   charge or a new one.
   */
  lemma FailedPopOutEndsInTheSidebar(h: Host, tab: string, step: Step, i: nat)
    requires Reachable(h, tab) && i < |h.tasks| && h.tasks[i].Readying? && Enabled(h, step)
    requires ReadyGivesUp(h, step, i) && !h.disposed && h.transition == h.tasks[i].connection.transition
    ensures var h' := Next(h, tab, step);
      && h'.slot.registered.None? && h'.slot.pane.pending.None? && NoEditorStands(h'.slot)
      && h'.tasks == h.tasks[i := Finished]
      && (if h.slot.pane.pending == Some(h.tasks[i].connection.lease) then
            h'.slot.pane.active == h.slot.pane.active && h'.slot.pane.next == h.slot.pane.next
          else if h.placement.Some? && SidebarOf(h.slot.pane).None? then
            h'.slot.pane.active == Some(Lease(tab, Sidebar, h.slot.pane.next))
          else
            h'.slot.pane.active == SidebarOf(h.slot.pane))
  {
    ReachableHolds(h, tab);
    assert TaskOk(h, h.tasks[i]);
  }

  /** A dock that fails before the sidebar took over takes the hand-off back, and the editor keeps the tab. */
  lemma FailedDockLeavesTheEditor(h: Host, tab: string, i: nat, ok: bool)
    requires Reachable(h, tab) && Enabled(h, DockHydrated(i, ok))
    requires !h.disposed && h.transition == h.tasks[i].transition
    requires !ok || h.editorPane != Some(h.tasks[i].pane) || h.placement != Some(Popped)
    ensures var h' := Next(h, tab, DockHydrated(i, ok));
      && h.slot.pane.pending == Some(h.tasks[i].lease)
      && h' == h.(slot := h.slot.(pane := h.slot.pane.(pending := None)), tasks := h.tasks[i := Finished])
  {
    ReachableHolds(h, tab);
    assert TaskOk(h, h.tasks[i]);
  }

  /**
   A close whose hand-off fails: before the sidebar took over the hand-off is taken back; afterwards the
   sidebar keeps the tab while a fallback panel is opened, if the tab still exists.
   */
  lemma FailedCloseOpensAFallback(h: Host, tab: string, step: Step, i: nat, fallback: nat)
    requires Reachable(h, tab) && i < |h.tasks| && h.tasks[i].Closing? && Enabled(h, step)
    requires !h.disposed && h.transition == h.tasks[i].transition
    requires match step
             case CloseHydrated(k, ok, f) => k == i && f == fallback && (!ok || h.placement != Some(Popped))
             case ClosePlaced(k, ok, f) => k == i && f == fallback && (!ok || h.placement != Some(Docked))
             case _ => false
    ensures var h' := Next(h, tab, step);
      var finished := h.(tasks := h.tasks[i := Finished]);
      if step.CloseHydrated? then
        h' == finished.(slot := h.slot.(pane := h.slot.pane.(pending := None))) && h.slot.registered.None?
      else
        && h.slot.pane.active == Some(h.tasks[i].lease)
        && if h.placement.Some? then Opened(finished, h', tab, fallback, Popped, Fallback) else h' == finished
  {
    ReachableHolds(h, tab);
    assert TaskOk(h, h.tasks[i]);
  }

  /** The suspended method that a step resumes. */
  function Resumed(step: Step): Option<nat> {
    match step
    case DockHydrated(i, _) => Some(i)
    case DockPlaced(i, _) => Some(i)
    case ReadyHydrated(i, _, _) => Some(i)
    case ReadyPlaced(i, _) => Some(i)
    case CloseHydrated(i, _, _) => Some(i)
    case ClosePlaced(i, _, _) => Some(i)
    case _ => None
  }

  /** A method that is no longer the tab's last transition ends and touches nothing. */
  lemma SupersededStepsTouchNothing(h: Host, tab: string, step: Step)
    requires Enabled(h, step) && Resumed(step).Some?
    requires h.disposed || h.transition != TransitionOf(h.tasks[Resumed(step).value])
    ensures Next(h, tab, step) == h.(tasks := h.tasks[Resumed(step).value := Finished])
  {
  }

  // ---------------------------------------------------------------- a panel closed by the user

  /**
   When the user closes a tab's panel no editor lease stands and every suspended method is superseded. A
   docked tab goes back to the sidebar at once, a popped one begins a hand-off to it.
   */
  lemma UserCloseHandsBack(h: Host, tab: string)
    requires Reachable(h, tab) && h.slot.registered.Some? && !h.disposed
    ensures var h' := Next(h, tab, UserClosesPanel);
      && h'.slot.registered.None? && NoEditorStands(h'.slot)
      && h'.transition == h.transition + 1
      && (forall i: nat | i < |h.tasks| && !h.tasks[i].Finished? :: TransitionOf(h.tasks[i]) < h'.transition)
      && (h.placement.None? ==> h'.tasks == h.tasks && h'.slot == DropPanel(h.slot).0)
      && (h.placement == Some(Docked) ==>
            && h'.tasks == h.tasks
            && (if SidebarIsComing(h) then h'.slot.pane.pending == h.slot.pane.pending
                else h'.slot.pane.pending.None?
                     && h'.slot.pane.active == (if SidebarOf(h.slot.pane).Some? then SidebarOf(h.slot.pane)
                                                else Some(Lease(tab, Sidebar, h.slot.pane.next)))))
      && (h.placement == Some(Popped) ==>
            && h'.slot.pane.active == SidebarOf(h.slot.pane)
            && h'.slot.pane.pending == (if SidebarIsComing(h) then h.slot.pane.pending
                                        else Some(Lease(tab, Sidebar, h.slot.pane.next)))
            && h'.tasks == h.tasks + [Closing(h'.slot.pane.pending.value, h'.transition, Hydrating)])
  {
    ReachableHolds(h, tab);
    forall i: nat | i < |h.tasks| && !h.tasks[i].Finished?
      ensures TransitionOf(h.tasks[i]) <= h.transition
    {
      assert TaskOk(h, h.tasks[i]);
    }
  }

  /** Only the editor pane of the closed panel is forgotten. */
  lemma UserCloseForgetsThePane(h: Host, tab: string)
    requires h.slot.registered.Some? && !h.disposed
    ensures var h' := Next(h, tab, UserClosesPanel);
      var closed := h.slot.registered.value.lease;
      && h'.connections == h.connections && h'.placement == h.placement && !h'.disposed
      && h'.editorPane ==
         if h.editorPane.Some? && h.editorPane.value.lease.epoch == closed.epoch
            && h.editorPane.value.lease.surface == closed.surface
         then None else h.editorPane
  {
  }

  // ---------------------------------------------------------------- release and disposal

  /** Releasing a tab leaves it no panel and no surface, and supersedes every suspended method. */
  lemma ReleaseLeavesNothing(h: Host, tab: string)
    requires Reachable(h, tab)
    ensures var h' := Next(h, tab, ReleaseTab);
      && h'.slot.registered.None? && h'.slot.pane.active.None? && h'.slot.pane.pending.None?
      && h'.editorPane.None? && h'.slot.pane.next == h.slot.pane.next
      && forall i: nat | i < |h.tasks| && !h.tasks[i].Finished? :: TransitionOf(h.tasks[i]) < h'.transition
  {
    ReachableHolds(h, tab);
    forall i: nat | i < |h.tasks| && !h.tasks[i].Finished?
      ensures TransitionOf(h.tasks[i]) <= h.transition
    {
      assert TaskOk(h, h.tasks[i]);
    }
  }

  /** Once the host is disposed the tab has no panel and no surface, whatever happens afterwards. */
  lemma DisposalIsForGood(h: Host, tab: string, steps: seq<Step>)
    requires Reachable(h, tab) && Runs(Next(h, tab, DisposeHost), tab, steps)
    ensures var h' := PanelHost.After(Next(h, tab, DisposeHost), tab, steps);
      h'.disposed && h'.slot.registered.None? && h'.slot.pane.active.None? && h'.slot.pane.pending.None?
  {
    ReachableHolds(h, tab);
    var gone := Next(h, tab, DisposeHost);
    StepKeepsInv(h, tab, DisposeHost);
    StepStaysSettled(h, tab, DisposeHost);
    RunStaysSettled(gone, tab, steps);
    StaysDisposed(gone, tab, steps);
  }

  lemma StepStaysDisposed(h: Host, tab: string, step: Step)
    requires h.disposed && Enabled(h, step)
    ensures Next(h, tab, step).disposed
  {
  }

  lemma {:induction false} StaysDisposed(h: Host, tab: string, steps: seq<Step>)
    requires h.disposed && Runs(h, tab, steps)
    ensures PanelHost.After(h, tab, steps).disposed
    decreases |steps|
  {
    if steps != [] {
      StepStaysDisposed(h, tab, steps[0]);
      StaysDisposed(Next(h, tab, steps[0]), tab, steps[1..]);
    }
  }
}
