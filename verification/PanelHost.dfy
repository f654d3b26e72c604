/**
 Popping a tab out into an editor panel and docking it back:
 src/agent/ChatTabPanelHost.ts.

 The host's methods suspend while a surface hydrates and while the layout is saved,
 so pop-out, dock, user close, restore and release interleave. One tab's `Host` holds
 the shared fields and the suspended methods; a `Step` is everything one method does
 between two awaits, and `Next` says what it does. Hydration and saving may succeed or
 fail, and the tab's placement may change under any suspended method.

 The theorem is `RunsKeepInv`: in every reachable state editor authority belongs to
 the panel that is registered now. Its corollary for docking is that a failed dock never
 revives the lease of a panel that is gone.
 */
module PanelHost {
  import opened Wrappers
  import opened PaneAuthority
  import opened PanelRegistry

  datatype Source = Pop | Fallback | Serialized

  datatype Placement = Docked | Popped

  /** An entry of `editorPanes`. A transition number names one attachment and so one connection. */
  datatype EditorPane = EditorPane(lease: Lease, transition: nat, source: Source)

  datatype Connection = Connection(lease: Lease, expected: Placement, transition: nat)

  /** A suspended method; the stage says what it is waiting for. */
  datatype Stage = Hydrating | Placing(previous: Option<Lease>)

  datatype Task =
    | Docking(lease: Lease, transition: nat, pane: EditorPane, stage: Stage)
    | Readying(connection: Connection, stage: Stage)
    | Closing(lease: Lease, transition: nat, stage: Stage)
    | Finished

  /**
   Which method called `beginTransition` last. The source does not store this; it only helps to state
   the invariant.
   */
  datatype Purpose = ForDock | ForAttach | ForClose | ForRelease

  datatype Host = Host(
    slot: Slot,
    editorPane: Option<EditorPane>,
    transition: nat,
    purpose: Purpose,
    disposed: bool,
    placement: Option<Placement>,
    connections: seq<Connection>,
    tasks: seq<Task>)

  datatype Step =
    | PopOut(panel: nat, allowed: bool)
    | Deserialize(panel: nat)
    | RestoreMissing(panel: nat)
    | StartDock
    | DockHydrated(task: nat, ok: bool)
    | DockPlaced(task: nat, ok: bool)
    | EditorReady(connection: nat)
    | ReadyHydrated(task: nat, ok: bool, bound: bool)
    | ReadyPlaced(task: nat, ok: bool)
    | UserClosesPanel
    | PaneForgotten
    | CloseHydrated(task: nat, ok: bool, fallback: nat)
    | ClosePlaced(task: nat, ok: bool, fallback: nat)
    | ReleaseTab
    | DisposeHost
    | PlacementChanges(placement: Option<Placement>)

  // ---------------------------------------------------------------- shared pieces

  predicate Current(h: Host, transition: nat) {
    !h.disposed && h.transition == transition
  }

  function Begin(h: Host, purpose: Purpose): Host {
    h.(transition := h.transition + 1, purpose := purpose)
  }

  function WithPane(h: Host, pane: Pane): Host {
    h.(slot := h.slot.(pane := pane))
  }

  function Finish(h: Host, i: nat): Host
    requires i < |h.tasks|
  {
    h.(tasks := h.tasks[i := Finished])
  }

  /** A restored panel takes the place of the fallback panel the host opened meanwhile. */
  function DropFallback(h: Host, source: Source): Host {
    if source == Serialized && h.editorPane.Some? && h.editorPane.value.source == Fallback
    then h.(editorPane := None, slot := DropPanel(h.slot).0)
    else h
  }

  function Attach(h: Host, tab: string, panel: nat, expected: Placement, source: Source): Host {
    var h1 := DropFallback(h, source);
    var (slot, result) := Register(h1.slot, tab, h1.placement.Some?, panel);
    var h2 := h1.(slot := slot);
    if !result.Attached? then
      h2
    else if h2.placement.None? then
      h2.(slot := CancelPanel(slot, result.lease).0)
    else
      var h3 := Begin(h2, ForAttach);
      h3.(editorPane := Some(EditorPane(result.lease, h3.transition, source)),
          connections := h3.connections + [Connection(result.lease, expected, h3.transition)])
  }

  /** `isLiveEditorTransition` */
  predicate Live(h: Host, transition: nat) {
    && Current(h, transition)
    && h.editorPane.Some?
    && h.editorPane.value.transition == transition
    && h.slot.registered.Some?
  }

  // ---------------------------------------------------------------- docking

  function Dock(h: Host, tab: string): Host {
    if h.disposed || h.placement != Some(Popped) || h.editorPane.None? then
      h
    else
      var (pane, prepared) := Prepare(h.slot.pane, tab, true, Sidebar);
      if prepared.Refused? then
        WithPane(h, pane)
      else
        var h1 := Begin(WithPane(h, pane), ForDock);
        h1.(tasks := h1.tasks + [Docking(prepared.lease, h1.transition, h.editorPane.value, Hydrating)])
  }

  function DockFails(h: Host, i: nat): Host
    requires i < |h.tasks| && h.tasks[i].Docking?
  {
    var t := h.tasks[i];
    var h1 := Finish(h, i);
    if !Current(h, t.transition) then
      h1
    else if t.stage.Hydrating? then
      WithPane(h1, Cancel(h.slot.pane, t.lease).0)
    else
      WithPane(h1, Rollback(h.slot.pane, t.lease, t.stage.previous).0)
  }

  predicate Superseded(h: Host, t: Task, placement: Placement)
    requires t.Docking?
  {
    !Current(h, t.transition) || h.editorPane != Some(t.pane) || h.placement != Some(placement)
  }

  function DockResumes(h: Host, i: nat, ok: bool): Host
    requires i < |h.tasks| && h.tasks[i].Docking? && h.tasks[i].stage.Hydrating?
  {
    var t := h.tasks[i];
    if !ok || Superseded(h, t, Popped) then
      DockFails(h, i)
    else
      var (pane, activated) := Activate(h.slot.pane, t.lease);
      if !activated.ok then
        DockFails(WithPane(h, pane), i)
      else
        var h1 := WithPane(h, pane);
        h1.(tasks := h1.tasks[i := Docking(t.lease, t.transition, t.pane, Placing(activated.previous))])
  }

  /** `dock` returns true exactly when this holds at its last step. */
  predicate DockSucceeds(h: Host, i: nat, ok: bool)
    requires i < |h.tasks| && h.tasks[i].Docking?
  {
    ok && !Superseded(h, h.tasks[i], Docked)
  }

  function DockCompletes(h: Host, i: nat, ok: bool): Host
    requires i < |h.tasks| && h.tasks[i].Docking? && h.tasks[i].stage.Placing?
  {
    if DockSucceeds(h, i, ok) then Finish(h, i).(slot := DropPanel(h.slot).0)
    else DockFails(h, i)
  }

  // ---------------------------------------------------------------- a panel becomes ready

  function ReadyFails(h: Host, tab: string, i: nat): Host
    requires i < |h.tasks| && h.tasks[i].Readying?
  {
    var c := h.tasks[i].connection;
    var h1 := Finish(h, i);
    if !Current(h, c.transition) then
      h1
    else
      var (slot, cancelled) := CancelPanel(h.slot, c.lease);
      if cancelled then
        h1.(slot := slot)
      else
        var dropped := DropPanel(h.slot).0;
        h1.(slot := dropped.(pane := Adopt(dropped.pane, tab, h.placement.Some?).0))
  }

  function ReadyResumes(h: Host, tab: string, i: nat, ok: bool, bound: bool): Host
    requires i < |h.tasks| && h.tasks[i].Readying? && h.tasks[i].stage.Hydrating?
  {
    var c := h.tasks[i].connection;
    if !ok || !bound || h.placement.None? || !Live(h, c.transition) then
      ReadyFails(h, tab, i)
    else
      var (slot, activated) := ActivatePanel(h.slot, c.lease);
      var h1 := h.(slot := slot);
      if !activated.ok then ReadyFails(h1, tab, i)
      else h1.(tasks := h1.tasks[i := Readying(c, Placing(activated.previous))])
  }

  function ReadyCompletes(h: Host, tab: string, i: nat, ok: bool): Host
    requires i < |h.tasks| && h.tasks[i].Readying? && h.tasks[i].stage.Placing?
  {
    if !ok || !Live(h, h.tasks[i].connection.transition) || h.placement != Some(Popped)
    then ReadyFails(h, tab, i)
    else Finish(h, i)
  }

  // ---------------------------------------------------------------- the user closes the panel

  /** The panel is gone, every suspended method superseded, and a popped tab prepares its way back. */
  function UserCloses(h: Host, tab: string): Host
    requires h.slot.registered.Some?
  {
    var closed := h.slot.registered.value.lease;
    var h1 := h.(slot := DropPanel(h.slot).0);
    if h.disposed then
      h1
    else
      var h2 := Begin(h1, ForClose);
      var h3 := if h2.editorPane.Some? && h2.editorPane.value.lease.epoch == closed.epoch
                   && h2.editorPane.value.lease.surface == closed.surface
                then h2.(editorPane := None) else h2;
      if h3.placement.None? then h3
      else if h3.placement.value == Docked then WithPane(h3, Adopt(h3.slot.pane, tab, true).0)
      else WithPane(h3, Prepare(h3.slot.pane, tab, true, Sidebar).0)
  }

  function UserClose(h: Host, tab: string): Host
    requires h.slot.registered.Some?
  {
    var h1 := UserCloses(h, tab);
    var prepared := Prepare(DropPanel(h.slot).0.pane, tab, true, Sidebar).1;
    if h.disposed || h.placement != Some(Popped) || prepared.Refused? then h1
    else h1.(tasks := h1.tasks + [Closing(prepared.lease, h1.transition, Hydrating)])
  }

  function CloseFails(h: Host, tab: string, i: nat, fallback: nat): Host
    requires i < |h.tasks| && h.tasks[i].Closing?
  {
    var t := h.tasks[i];
    var h1 := Finish(h, i);
    if !Current(h, t.transition) then
      h1
    else if h.slot.pane.active != Some(t.lease) then
      WithPane(h1, Cancel(h.slot.pane, t.lease).0)
    else if h.slot.registered.None? then
      Attach(h1, tab, fallback, Popped, Fallback)
    else
      h1
  }

  function CloseResumes(h: Host, tab: string, i: nat, ok: bool, fallback: nat): Host
    requires i < |h.tasks| && h.tasks[i].Closing? && h.tasks[i].stage.Hydrating?
  {
    var t := h.tasks[i];
    if !ok || !Current(h, t.transition) || h.placement != Some(Popped) then
      CloseFails(h, tab, i, fallback)
    else
      var (pane, activated) := Activate(h.slot.pane, t.lease);
      var h1 := WithPane(h, pane);
      if !activated.ok then CloseFails(h1, tab, i, fallback)
      else h1.(tasks := h1.tasks[i := Closing(t.lease, t.transition, Placing(activated.previous))])
  }

  function CloseCompletes(h: Host, tab: string, i: nat, ok: bool, fallback: nat): Host
    requires i < |h.tasks| && h.tasks[i].Closing? && h.tasks[i].stage.Placing?
  {
    if !ok || !Current(h, h.tasks[i].transition) || h.placement != Some(Docked)
    then CloseFails(h, tab, i, fallback)
    else Finish(h, i)
  }

  // ---------------------------------------------------------------- steps

  predicate Waits(h: Host, i: nat, forPlacement: bool) {
    i < |h.tasks| && !h.tasks[i].Finished? && h.tasks[i].stage.Placing? == forPlacement
  }

  predicate Enabled(h: Host, step: Step) {
    match step
    case PopOut(_, _) => true
    case Deserialize(_) => true
    case RestoreMissing(_) => true
    case StartDock => true
    case DockHydrated(i, _) => Waits(h, i, false) && h.tasks[i].Docking?
    case DockPlaced(i, _) => Waits(h, i, true) && h.tasks[i].Docking?
    case EditorReady(c) => c < |h.connections|
    case ReadyHydrated(i, _, _) => Waits(h, i, false) && h.tasks[i].Readying?
    case ReadyPlaced(i, _) => Waits(h, i, true) && h.tasks[i].Readying?
    case UserClosesPanel => h.slot.registered.Some?
    case PaneForgotten => true
    case CloseHydrated(i, _, _) => Waits(h, i, false) && h.tasks[i].Closing?
    case ClosePlaced(i, _, _) => Waits(h, i, true) && h.tasks[i].Closing?
    case ReleaseTab => true
    case DisposeHost => true
    case PlacementChanges(_) => true
  }

  function Next(h: Host, tab: string, step: Step): Host
    requires Enabled(h, step)
  {
    match step
    case PopOut(panel, allowed) =>
      if h.disposed || h.slot.registered.Some? || !allowed then h
      else Attach(h, tab, panel, Docked, Pop)
    case Deserialize(panel) =>
      if h.disposed || h.placement != Some(Popped) then h
      else Attach(h, tab, panel, Popped, Serialized)
    case RestoreMissing(panel) =>
      if h.disposed || h.placement != Some(Popped) || h.slot.registered.Some? then h
      else Attach(h, tab, panel, Popped, Fallback)
    case StartDock => Dock(h, tab)
    case DockHydrated(i, ok) => DockResumes(h, i, ok)
    case DockPlaced(i, ok) => DockCompletes(h, i, ok)
    case EditorReady(c) =>
      if !Live(h, h.connections[c].transition) then h
      else h.(tasks := h.tasks + [Readying(h.connections[c], Hydrating)])
    case ReadyHydrated(i, ok, bound) => ReadyResumes(h, tab, i, ok, bound)
    case ReadyPlaced(i, ok) => ReadyCompletes(h, tab, i, ok)
    case UserClosesPanel => UserClose(h, tab)
    case PaneForgotten => h.(editorPane := None)
    case CloseHydrated(i, ok, fallback) => CloseResumes(h, tab, i, ok, fallback)
    case ClosePlaced(i, ok, fallback) => CloseCompletes(h, tab, i, ok, fallback)
    case ReleaseTab => Begin(h, ForRelease).(editorPane := None, slot := ReleaseSlot(h.slot))
    case DisposeHost =>
      if h.disposed then h
      else h.(disposed := true, editorPane := None, slot := ReleaseSlot(DropPanel(h.slot).0))
    case PlacementChanges(placement) => h.(placement := placement)
  }

  /** A host whose controller has just started: a docked tab was handed to the sidebar. */
  predicate Initial(h: Host, tab: string) {
    && h.slot.registered.None?
    && (var unused := Pane(FIRST_EPOCH, None, None);
        h.slot.pane == if h.placement == Some(Docked) then Adopt(unused, tab, true).0 else unused)
    && h.editorPane.None?
    && !h.disposed
    && h.connections == []
    && h.tasks == []
  }

  predicate Runs(h: Host, tab: string, steps: seq<Step>)
    decreases |steps|
  {
    steps != [] ==> Enabled(h, steps[0]) && Runs(Next(h, tab, steps[0]), tab, steps[1..])
  }

  function After(h: Host, tab: string, steps: seq<Step>): Host
    requires Runs(h, tab, steps)
    decreases |steps|
  {
    if steps == [] then h else After(Next(h, tab, steps[0]), tab, steps[1..])
  }

  // ---------------------------------------------------------------- the invariant

  /** If a panel is registered it is the one with `lease`, and that lease is active, or still pending. */
  predicate OwnsPanel(s: Slot, lease: Lease, activated: bool) {
    s.registered.Some? ==>
      && s.registered.value.lease == lease
      && (s.pane.active == Some(lease) || (!activated && s.pane.pending == Some(lease)))
  }

  /**
   What a suspended method may rely on while its transition is the tab's last one. A hand-off to the
   sidebar holds the pending lease until it is activated and the active lease afterwards; an editor lease
   that a dock displaced is still the lease of the registered panel; and a panel becoming ready is
   the registered one, unless it is gone.
   */
  predicate Holds(h: Host, t: Task)
    requires !t.Finished?
  {
    match t
    case Docking(lease, _, _, Hydrating) => h.purpose == ForDock && h.slot.pane.pending == Some(lease)
    case Docking(lease, _, _, Placing(previous)) =>
      && h.purpose == ForDock
      && h.slot.pane.active == Some(lease) && h.slot.pane.pending.None?
      && OfRegisteredPanel(h.slot, previous)
      && (previous.Some? ==> previous.value.epoch < h.slot.pane.next)
    case Readying(c, stage) => h.purpose == ForAttach && OwnsPanel(h.slot, c.lease, stage.Placing?)
    case Closing(lease, _, Hydrating) =>
      h.purpose == ForClose && h.slot.registered.None? && h.slot.pane.pending == Some(lease)
    case Closing(lease, _, Placing(_)) =>
      && h.purpose == ForClose && h.slot.registered.None?
      && h.slot.pane.active == Some(lease) && h.slot.pane.pending.None?
  }

  function TransitionOf(t: Task): nat
    requires !t.Finished?
  {
    if t.Readying? then t.connection.transition else t.transition
  }

  predicate TaskOk(h: Host, t: Task) {
    !t.Finished? ==>
      && (t.Readying? || t.lease.surface == Sidebar)
      && TransitionOf(t) <= h.transition
      && (Current(h, TransitionOf(t)) ==> Holds(h, t))
  }

  predicate ConnectionOk(h: Host, c: Connection) {
    && c.transition <= h.transition
    && (Current(h, c.transition) ==> h.purpose == ForAttach && OwnsPanel(h.slot, c.lease, false))
  }

  predicate TasksOk(h: Host) {
    forall i: nat | i < |h.tasks| :: TaskOk(h, h.tasks[i])
  }

  predicate ToSidebar(t: Task) {
    t.Docking? || t.Closing?
  }

  /** Two suspended hand-offs to the sidebar never share a transition. */
  predicate HandoffsDiffer(tasks: seq<Task>) {
    forall i: nat, j: nat | i < j < |tasks| && ToSidebar(tasks[i]) && ToSidebar(tasks[j]) ::
      tasks[i].transition != tasks[j].transition
  }

  predicate ConnectionsOk(h: Host) {
    forall i: nat | i < |h.connections| :: ConnectionOk(h, h.connections[i])
  }

  predicate Inv(h: Host) {
    Guarded(h.slot) && TasksOk(h) && HandoffsDiffer(h.tasks) && ConnectionsOk(h)
  }

  lemma InitialIsInv(h: Host, tab: string)
    requires Initial(h, tab)
    ensures Inv(h)
  {
  }

  // A new transition supersedes every suspended method.

  lemma Supersedes(h: Host, h': Host)
    requires TasksOk(h) && ConnectionsOk(h)
    requires h'.transition == h.transition + 1 || (h'.transition == h.transition && (h.disposed || h'.disposed))
    requires h.disposed ==> h'.disposed
    requires h'.tasks == h.tasks && h'.connections == h.connections
    ensures TasksOk(h') && ConnectionsOk(h')
  {
    forall i: nat | i < |h.tasks|
      ensures TaskOk(h', h'.tasks[i])
    {
      assert TaskOk(h, h.tasks[i]);
    }
    forall i: nat | i < |h.connections|
      ensures ConnectionOk(h', h'.connections[i])
    {
      assert ConnectionOk(h, h.connections[i]);
    }
  }

  /** The slot is the same, or it lost its panel while a sidebar lease is pending, and keeps that lease. */
  predicate SlotSafe(s: Slot, s': Slot) {
    || s' == s
    || (&& s'.registered.None? && s'.pane.pending == s.pane.pending
        && s.pane.pending.Some? && s.pane.pending.value.surface == Sidebar)
  }

  lemma SafeSlotKeeps(h: Host, h': Host)
    requires TasksOk(h) && ConnectionsOk(h) && SlotSafe(h.slot, h'.slot)
    requires h'.transition == h.transition && h'.purpose == h.purpose && h'.disposed == h.disposed
    requires h'.tasks == h.tasks && h'.connections == h.connections
    ensures TasksOk(h') && ConnectionsOk(h')
  {
    forall i: nat | i < |h.tasks|
      ensures TaskOk(h', h'.tasks[i])
    {
      assert TaskOk(h, h.tasks[i]);
    }
    forall i: nat | i < |h.connections|
      ensures ConnectionOk(h', h'.connections[i])
    {
      assert ConnectionOk(h, h.connections[i]);
    }
  }

  lemma TaskAdded(h: Host, t: Task)
    requires TasksOk(h) && TaskOk(h, t) && HandoffsDiffer(h.tasks)
    requires ToSidebar(t) ==>
               forall i: nat | i < |h.tasks| && ToSidebar(h.tasks[i]) :: h.tasks[i].transition < t.transition
    ensures var h' := h.(tasks := h.tasks + [t]); TasksOk(h') && HandoffsDiffer(h'.tasks)
  {
    var h' := h.(tasks := h.tasks + [t]);
    forall i: nat | i < |h'.tasks|
      ensures TaskOk(h', h'.tasks[i])
    {
      assert i < |h.tasks| ==> TaskOk(h, h.tasks[i]);
      assert TaskOk(h', t);
    }
  }

  lemma AttachKeepsInv(h: Host, tab: string, panel: nat, expected: Placement, source: Source)
    requires Inv(h) && (source == Serialized ==> h.placement.Some?)
    ensures Inv(Attach(h, tab, panel, expected, source))
  {
    var h1 := DropFallback(h, source);
    var (slot, result) := Register(h1.slot, tab, h1.placement.Some?, panel);
    var h2 := h1.(slot := slot);
    if result.Attached? {
      var h3 := Begin(h2, ForAttach);
      Supersedes(h, h3);
    } else {
      SafeSlotKeeps(h, h2);
    }
  }

  lemma EarlierTasks(h: Host)
    requires TasksOk(h)
    ensures forall i: nat | i < |h.tasks| && ToSidebar(h.tasks[i]) :: h.tasks[i].transition <= h.transition
  {
    forall i: nat | i < |h.tasks| && ToSidebar(h.tasks[i])
      ensures h.tasks[i].transition <= h.transition
    {
      assert TaskOk(h, h.tasks[i]);
    }
  }

  lemma DockKeepsInv(h: Host, tab: string)
    requires Inv(h)
    ensures Inv(Dock(h, tab))
  {
    if !h.disposed && h.placement == Some(Popped) && h.editorPane.Some? {
      var (pane, prepared) := Prepare(h.slot.pane, tab, true, Sidebar);
      if prepared.Granted? {
        var h1 := Begin(WithPane(h, pane), ForDock);
        EarlierTasks(h);
        Supersedes(h, h1);
        TaskAdded(h1, Docking(prepared.lease, h1.transition, h.editorPane.value, Hydrating));
      }
    }
  }

  /** Task `i`, a hand-off to the sidebar under the current transition, moves on; nothing else relies on the slot. */
  lemma HandoffMoves(h: Host, h': Host, i: nat, t: Task)
    requires Inv(h) && i < |h.tasks| && ToSidebar(h.tasks[i]) && Current(h, h.tasks[i].transition)
    requires h'.tasks == h.tasks[i := t] && h'.connections == h.connections
    requires h'.transition == h.transition && h'.purpose == h.purpose && h'.disposed == h.disposed
    requires ToSidebar(t) ==> t.transition == h.tasks[i].transition
    requires TaskOk(h', t)
    ensures TasksOk(h') && HandoffsDiffer(h'.tasks) && ConnectionsOk(h')
  {
    assert TaskOk(h, h.tasks[i]);
    forall k: nat | k < |h.tasks|
      ensures TaskOk(h', h'.tasks[k])
    {
      assert TaskOk(h, h.tasks[k]);
      assert k != i && ToSidebar(h.tasks[k]) ==> h.tasks[k].transition != h.tasks[i].transition;
    }
    forall k: nat | k < |h.connections|
      ensures ConnectionOk(h', h'.connections[k])
    {
      assert ConnectionOk(h, h.connections[k]);
    }
  }

  lemma FinishKeepsInv(h: Host, i: nat)
    requires Inv(h) && i < |h.tasks|
    ensures Inv(Finish(h, i))
  {
    var h' := Finish(h, i);
    forall k: nat | k < |h.tasks|
      ensures TaskOk(h', h'.tasks[k])
    {
      assert TaskOk(h, h.tasks[k]);
    }
    forall k: nat | k < |h.connections|
      ensures ConnectionOk(h', h'.connections[k])
    {
      assert ConnectionOk(h, h.connections[k]);
    }
  }

  lemma DockFailsKeepsInv(h: Host, i: nat)
    requires Inv(h) && i < |h.tasks| && h.tasks[i].Docking?
    ensures Inv(DockFails(h, i))
  {
    var t := h.tasks[i];
    if Current(h, t.transition) {
      assert TaskOk(h, t);
      HandoffMoves(h, DockFails(h, i), i, Finished);
    } else {
      FinishKeepsInv(h, i);
    }
  }

  lemma DockResumesKeepsInv(h: Host, i: nat, ok: bool)
    requires Inv(h) && i < |h.tasks| && h.tasks[i].Docking? && h.tasks[i].stage.Hydrating?
    ensures Inv(DockResumes(h, i, ok))
  {
    var t := h.tasks[i];
    if !ok || Superseded(h, t, Popped) {
      DockFailsKeepsInv(h, i);
    } else {
      assert TaskOk(h, t);
      var activated := Activate(h.slot.pane, t.lease).1;
      HandoffMoves(h, DockResumes(h, i, ok), i, Docking(t.lease, t.transition, t.pane, Placing(activated.previous)));
    }
  }

  lemma DockCompletesKeepsInv(h: Host, i: nat, ok: bool)
    requires Inv(h) && i < |h.tasks| && h.tasks[i].Docking? && h.tasks[i].stage.Placing?
    ensures Inv(DockCompletes(h, i, ok))
  {
    if DockSucceeds(h, i, ok) {
      HandoffMoves(h, DockCompletes(h, i, ok), i, Finished);
    } else {
      DockFailsKeepsInv(h, i);
    }
  }

  /** The registered panel is the same and active, or gone. */
  predicate PanelSettled(s: Slot, s': Slot) {
    s'.registered.None? || (s'.registered == s.registered && s'.pane.active == Some(s.registered.value.lease))
  }

  /** Task `i`, a panel becoming ready under the current transition, moves on. */
  lemma ReadyMoves(h: Host, h': Host, i: nat, t: Task)
    requires Inv(h) && i < |h.tasks| && h.tasks[i].Readying? && Current(h, h.tasks[i].connection.transition)
    requires h'.tasks == h.tasks[i := t] && h'.connections == h.connections && !ToSidebar(t)
    requires h'.transition == h.transition && h'.purpose == h.purpose && h'.disposed == h.disposed
    requires PanelSettled(h.slot, h'.slot)
    requires TaskOk(h', t)
    ensures TasksOk(h') && HandoffsDiffer(h'.tasks) && ConnectionsOk(h')
  {
    assert TaskOk(h, h.tasks[i]);
    forall k: nat | k < |h.tasks|
      ensures TaskOk(h', h'.tasks[k])
    {
      assert TaskOk(h, h.tasks[k]);
    }
    forall k: nat | k < |h.connections|
      ensures ConnectionOk(h', h'.connections[k])
    {
      assert ConnectionOk(h, h.connections[k]);
    }
  }

  lemma ReadyFailsKeepsInv(h: Host, tab: string, i: nat)
    requires Inv(h) && i < |h.tasks| && h.tasks[i].Readying?
    ensures Inv(ReadyFails(h, tab, i))
  {
    if Current(h, h.tasks[i].connection.transition) {
      ReadyMoves(h, ReadyFails(h, tab, i), i, Finished);
    } else {
      FinishKeepsInv(h, i);
    }
  }

  lemma ReadyActivates(s: Slot, lease: Lease)
    requires Guarded(s) && s.registered.Some? && OwnsPanel(s, lease, false)
    ensures var (t, activated) := ActivatePanel(s, lease);
      activated.ok && Guarded(t) && PanelSettled(s, t) && OwnsPanel(t, lease, true) && t.registered.Some?
  {
  }

  lemma ReadyResumesKeepsInv(h: Host, tab: string, i: nat, ok: bool, bound: bool)
    requires Inv(h) && i < |h.tasks| && h.tasks[i].Readying? && h.tasks[i].stage.Hydrating?
    ensures Inv(ReadyResumes(h, tab, i, ok, bound))
  {
    var c := h.tasks[i].connection;
    if !ok || !bound || h.placement.None? || !Live(h, c.transition) {
      ReadyFailsKeepsInv(h, tab, i);
    } else {
      assert TaskOk(h, h.tasks[i]);
      ReadyActivates(h.slot, c.lease);
      var activated := ActivatePanel(h.slot, c.lease).1;
      ReadyMoves(h, ReadyResumes(h, tab, i, ok, bound), i, Readying(c, Placing(activated.previous)));
    }
  }

  lemma UserCloseIsGuarded(h: Host, tab: string)
    requires Guarded(h.slot) && h.slot.registered.Some?
    ensures Guarded(UserCloses(h, tab).slot)
  {
  }

  lemma UserClosesEffect(h: Host, tab: string)
    requires h.slot.registered.Some?
    ensures var h' := UserCloses(h, tab);
      && h'.tasks == h.tasks && h'.connections == h.connections && h'.disposed == h.disposed
      && h'.transition == (if h.disposed then h.transition else h.transition + 1)
      && (!h.disposed ==> h'.purpose == ForClose)
    ensures !h.disposed && h.placement == Some(Popped) ==>
              UserCloses(h, tab).slot.pane == Prepare(DropPanel(h.slot).0.pane, tab, true, Sidebar).0
  {
  }

  lemma UserCloseKeepsInv(h: Host, tab: string)
    requires Inv(h) && h.slot.registered.Some?
    ensures Inv(UserClose(h, tab))
  {
    UserClosesEffect(h, tab);
    UserCloseIsGuarded(h, tab);
    hide Guarded, UserCloses, ConnectionsOk, HandoffsDiffer, TasksOk;
    Supersedes(h, UserCloses(h, tab));
    if !h.disposed && h.placement == Some(Popped) {
      var h1 := UserCloses(h, tab);
      var prepared := Prepare(DropPanel(h.slot).0.pane, tab, true, Sidebar).1;
      if prepared.Granted? {
        EarlierTasks(h);
        TaskAdded(h1, Closing(prepared.lease, h1.transition, Hydrating));
      }
    }
  }

  lemma CloseFailsKeepsInv(h: Host, tab: string, i: nat, fallback: nat)
    requires Inv(h) && i < |h.tasks| && h.tasks[i].Closing?
    ensures Inv(CloseFails(h, tab, i, fallback))
  {
    var t := h.tasks[i];
    assert TaskOk(h, t);
    FinishKeepsInv(h, i);
    if Current(h, t.transition) {
      if h.slot.pane.active != Some(t.lease) {
        HandoffMoves(h, CloseFails(h, tab, i, fallback), i, Finished);
      } else if h.slot.registered.None? {
        AttachKeepsInv(Finish(h, i), tab, fallback, Popped, Fallback);
      }
    }
  }

  lemma CloseResumesKeepsInv(h: Host, tab: string, i: nat, ok: bool, fallback: nat)
    requires Inv(h) && i < |h.tasks| && h.tasks[i].Closing? && h.tasks[i].stage.Hydrating?
    ensures Inv(CloseResumes(h, tab, i, ok, fallback))
  {
    var t := h.tasks[i];
    if !ok || !Current(h, t.transition) || h.placement != Some(Popped) {
      CloseFailsKeepsInv(h, tab, i, fallback);
    } else {
      assert TaskOk(h, t);
      var activated := Activate(h.slot.pane, t.lease).1;
      HandoffMoves(h, CloseResumes(h, tab, i, ok, fallback), i,
                   Closing(t.lease, t.transition, Placing(activated.previous)));
    }
  }

  lemma StepKeepsInv(h: Host, tab: string, step: Step)
    requires Inv(h) && Enabled(h, step)
    ensures Inv(Next(h, tab, step))
  {
    match step
    case PopOut(panel, _) => AttachKeepsInv(h, tab, panel, Docked, Pop);
    case Deserialize(panel) =>
      if h.placement == Some(Popped) { AttachKeepsInv(h, tab, panel, Popped, Serialized); }
    case RestoreMissing(panel) => AttachKeepsInv(h, tab, panel, Popped, Fallback);
    case StartDock => DockKeepsInv(h, tab);
    case DockHydrated(i, ok) => DockResumesKeepsInv(h, i, ok);
    case DockPlaced(i, ok) => DockCompletesKeepsInv(h, i, ok);
    case EditorReady(c) =>
      if Live(h, h.connections[c].transition) {
        assert ConnectionOk(h, h.connections[c]);
        TaskAdded(h, Readying(h.connections[c], Hydrating));
      }
    case ReadyHydrated(i, ok, bound) => ReadyResumesKeepsInv(h, tab, i, ok, bound);
    case ReadyPlaced(i, ok) =>
      ReadyFailsKeepsInv(h, tab, i);
      FinishKeepsInv(h, i);
    case UserClosesPanel => UserCloseKeepsInv(h, tab);
    case PaneForgotten => SafeSlotKeeps(h, h.(editorPane := None));
    case CloseHydrated(i, ok, fallback) => CloseResumesKeepsInv(h, tab, i, ok, fallback);
    case ClosePlaced(i, ok, fallback) =>
      CloseFailsKeepsInv(h, tab, i, fallback);
      FinishKeepsInv(h, i);
    case ReleaseTab => Supersedes(h, Next(h, tab, step));
    case DisposeHost => Supersedes(h, Next(h, tab, step));
    case PlacementChanges(placement) => SafeSlotKeeps(h, h.(placement := placement));
  }

  lemma {:induction false} RunKeepsInv(h: Host, tab: string, steps: seq<Step>)
    requires Inv(h) && Runs(h, tab, steps)
    ensures Inv(After(h, tab, steps))
    decreases |steps|
  {
    if steps != [] {
      StepKeepsInv(h, tab, steps[0]);
      RunKeepsInv(Next(h, tab, steps[0]), tab, steps[1..]);
    }
  }

  // ---------------------------------------------------------------- theorems

  /** In every reachable state an active or pending editor lease is the lease of the registered panel. */
  lemma EditorAuthorityHasAPanel(start: Host, tab: string, steps: seq<Step>)
    requires Initial(start, tab) && Runs(start, tab, steps)
    ensures var slot := After(start, tab, steps).slot;
      && OfRegisteredPanel(slot, slot.pane.active)
      && OfRegisteredPanel(slot, slot.pane.pending)
  {
    InitialIsInv(start, tab);
    RunKeepsInv(start, tab, steps);
  }

  /**
   A dock that fails after activation, while it is still the tab's last transition, gives
   authority back to exactly the lease it displaced, and if that is an editor
   lease its panel is still registered.
   */
  lemma FailedDockRestoresALivePanel(start: Host, tab: string, steps: seq<Step>, i: nat, ok: bool)
    requires Initial(start, tab) && Runs(start, tab, steps)
    requires var h := After(start, tab, steps);
      && Enabled(h, DockPlaced(i, ok)) && !DockSucceeds(h, i, ok) && Current(h, h.tasks[i].transition)
    ensures var h := After(start, tab, steps);
      var h' := Next(h, tab, DockPlaced(i, ok));
      && h'.slot.pane.active == h.tasks[i].stage.previous
      && h'.slot.registered == h.slot.registered
      && OfRegisteredPanel(h'.slot, h'.slot.pane.active)
  {
    InitialIsInv(start, tab);
    RunKeepsInv(start, tab, steps);
    var h := After(start, tab, steps);
    assert TaskOk(h, h.tasks[i]);
  }

  /** A dock that returns true leaves the tab to its sidebar lease, with no panel and no hand-off pending. */
  lemma SuccessfulDockEndsInTheSidebar(start: Host, tab: string, steps: seq<Step>, i: nat, ok: bool)
    requires Initial(start, tab) && Runs(start, tab, steps)
    requires var h := After(start, tab, steps); Enabled(h, DockPlaced(i, ok)) && DockSucceeds(h, i, ok)
    ensures var h := After(start, tab, steps);
      var h' := Next(h, tab, DockPlaced(i, ok));
      && h'.slot.pane.active == Some(h.tasks[i].lease) && h.tasks[i].lease.surface == Sidebar
      && h'.slot.pane.pending.None?
      && h'.slot.registered.None?
  {
    InitialIsInv(start, tab);
    RunKeepsInv(start, tab, steps);
    var h := After(start, tab, steps);
    assert TaskOk(h, h.tasks[i]);
  }

  /** A pop-out that completes leaves the tab to the lease of its own panel, which is the registered one. */
  lemma SuccessfulPopOutEndsInTheEditor(start: Host, tab: string, steps: seq<Step>, i: nat)
    requires Initial(start, tab) && Runs(start, tab, steps)
    requires var h := After(start, tab, steps);
      && Enabled(h, ReadyPlaced(i, true))
      && Live(h, h.tasks[i].connection.transition) && h.placement == Some(Popped)
    ensures var h := After(start, tab, steps);
      var h' := Next(h, tab, ReadyPlaced(i, true));
      var lease := h.tasks[i].connection.lease;
      && h'.slot.pane.active == Some(lease) && lease.surface == Editor
      && h'.slot.registered.Some? && h'.slot.registered.value.lease == lease
  {
    InitialIsInv(start, tab);
    RunKeepsInv(start, tab, steps);
    var h := After(start, tab, steps);
    assert TaskOk(h, h.tasks[i]);
  }

  /** A tab whose panel the user closed ends, when the hand-off completes, in the sidebar with no panel. */
  lemma SuccessfulCloseEndsInTheSidebar(start: Host, tab: string, steps: seq<Step>, i: nat, fallback: nat)
    requires Initial(start, tab) && Runs(start, tab, steps)
    requires var h := After(start, tab, steps);
      && Enabled(h, ClosePlaced(i, true, fallback))
      && Current(h, h.tasks[i].transition) && h.placement == Some(Docked)
    ensures var h := After(start, tab, steps);
      var h' := Next(h, tab, ClosePlaced(i, true, fallback));
      && h'.slot.pane.active == Some(h.tasks[i].lease) && h.tasks[i].lease.surface == Sidebar
      && h'.slot.pane.pending.None? && h'.slot.registered.None?
  {
    InitialIsInv(start, tab);
    RunKeepsInv(start, tab, steps);
    var h := After(start, tab, steps);
    assert TaskOk(h, h.tasks[i]);
  }
}
