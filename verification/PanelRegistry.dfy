/**
 The editor panels of chat tabs: src/agent/ChatTabPanelRegistry.ts.

 The registry keeps at most one panel per tab, together with the editor lease that
 panel was given, and asks the authority controller to grant or revoke that lease.
 Each method is proved to act on one tab as a function of its `Slot`. The property
 kept by all of them is `Guarded`: editor authority, held or pending, is always
 the authority of the panel that is registered now.
 */
module PanelRegistry {
  import opened Wrappers
  import opened PaneAuthority

  datatype Registered = Registered(panel: nat, lease: Lease)

  datatype Registration = Attached(lease: Lease) | Duplicate(lease: Lease) | Rejected(reason: Reason)

  /** One tab: who may drive it, and which panel is registered for it. */
  datatype Slot = Slot(pane: Pane, registered: Option<Registered>)

  // ---------------------------------------------------------------- one tab, one call

  function Register(s: Slot, tab: string, known: bool, panel: nat): (Slot, Registration) {
    if s.registered.Some? then
      (s, Duplicate(s.registered.value.lease))
    else
      var (pane, prepared) := Prepare(s.pane, tab, known, Editor);
      if prepared.Refused? then
        (s.(pane := pane), Rejected(prepared.reason))
      else
        (Slot(pane, Some(Registered(panel, prepared.lease))), Attached(prepared.lease))
  }

  function ActivatePanel(s: Slot, lease: Lease): (Slot, Activation) {
    if s.registered.None? || s.registered.value.lease != lease then
      (s, Activation(false, None))
    else
      var (pane, activation) := Activate(s.pane, lease);
      (s.(pane := pane), activation)
  }

  function CancelPanel(s: Slot, lease: Lease): (Slot, bool) {
    if s.registered.None? || s.registered.value.lease != lease then
      (s, false)
    else
      var (pane, done) := Cancel(s.pane, lease);
      if done then (Slot(pane, None), true) else (s, false)
  }

  function DropPanel(s: Slot): (Slot, bool) {
    if s.registered.None? then (s, false)
    else (Slot(Revoke(s.pane, s.registered.value.lease).0, None), true)
  }

  function ReleaseSlot(s: Slot): Slot {
    Slot(Release(s.pane), None)
  }

  // ---------------------------------------------------------------- the registry

  /** A registration is compared by identity, not by value. */
  class PanelRegistration {
    const panel: nat
    const lease: Lease

    constructor (panel: nat, lease: Lease)
      ensures this.panel == panel && this.lease == lease
    {
      this.panel := panel;
      this.lease := lease;
    }
  }

  /** What the registry does to panels and tells its owner, in order. */
  datatype Effect = Revealed(panel: nat) | Closed(panel: nat) | UserClosed(tab: string, lease: Lease)

  /** The list names every tab of the set once, and nothing else. */
  ghost predicate ListsOnce(order: seq<string>, tabs: set<string>) {
    && (forall i: nat, k: nat | i < k < |order| :: order[i] != order[k])
    && (forall tab :: tab in order <==> tab in tabs)
  }

  /** The effects close the panels of the tabs in this order. */
  predicate ClosesInOrder(panels: map<string, nat>, order: seq<string>, closings: seq<Effect>) {
    |closings| == |order|
    && forall i: nat | i < |order| :: order[i] in panels && closings[i] == Closed(panels[order[i]])
  }

  /** The effects close the panel of every tab of the set once, and no other. */
  ghost predicate ClosesEach(panels: map<string, nat>, tabs: set<string>, closings: seq<Effect>) {
    exists order: seq<string> :: ListsOnce(order, tabs) && ClosesInOrder(panels, order, closings)
  }

  lemma NothingClosed(panels: map<string, nat>, tabs: set<string>)
    requires tabs == {}
    ensures ClosesEach(panels, tabs, [])
  {
    assert ListsOnce([], tabs) && ClosesInOrder(panels, [], []);
  }

  lemma OneMoreClosed(panels: map<string, nat>, open: set<string>, closings: seq<Effect>, tab: string)
    requires ClosesEach(panels, panels.Keys - open, closings) && tab in open && open <= panels.Keys
    ensures ClosesEach(panels, panels.Keys - (open - {tab}), closings + [Closed(panels[tab])])
  {
    var order :| ListsOnce(order, panels.Keys - open) && ClosesInOrder(panels, order, closings);
    assert forall i: nat | i < |order| :: order[i] in order;
    assert ListsOnce(order + [tab], panels.Keys - (open - {tab}));
    assert ClosesInOrder(panels, order + [tab], closings + [Closed(panels[tab])]);
  }

  lemma Appended(effects: seq<Effect>, closings: seq<Effect>, last: Effect)
    ensures effects + closings + [last] == effects + (closings + [last])
  {
  }

  class ChatTabPanelRegistry {
    const authority: ChatPaneAuthorityController
    var panels: map<string, PanelRegistration>
    var disposing: bool
    var effects: seq<Effect>

    ghost predicate Valid()
      reads this, authority
    {
      authority.Valid() && forall tab | tab in panels :: panels[tab].lease.tab == tab
    }

    function View(tab: string): Slot
      reads this, authority
    {
      Slot(authority.View(tab),
           if tab in panels then Some(Registered(panels[tab].panel, panels[tab].lease)) else None)
    }

    /** The panel of each tab. */
    function Panels(): map<string, nat>
      reads this
    {
      map tab | tab in panels :: panels[tab].panel
    }

    twostate predicate OthersUntouched(tab: string)
      reads this, authority
    {
      forall other :: other != tab ==> View(other) == old(View(other))
    }

    constructor (authority: ChatPaneAuthorityController)
      requires authority.Valid()
      ensures Valid() && this.authority == authority && !disposing && effects == []
      ensures forall tab :: View(tab) == Slot(authority.View(tab), None)
    {
      this.authority := authority;
      panels := map[];
      disposing := false;
      effects := [];
    }

    /** `known` answers the authority's `isKnownTab`. */
    method RegisterPanel(tab: string, known: bool, panel: nat) returns (result: Registration)
      requires Valid()
      modifies this, authority
      ensures Valid() && OthersUntouched(tab) && disposing == old(disposing)
      ensures (View(tab), result) == Register(old(View(tab)), tab, known, panel)
      ensures effects == old(effects)
              + (if tab in old(panels) then [Revealed(old(panels)[tab].panel), Closed(panel)]
                 else if result.Rejected? then [Closed(panel)] else [])
    {
      if tab in panels {
        effects := effects + [Revealed(panels[tab].panel), Closed(panel)];
        return Duplicate(panels[tab].lease);
      }
      var prepared := authority.PrepareHandoff(tab, known, Editor);
      if prepared.Refused? {
        effects := effects + [Closed(panel)];
        return Rejected(prepared.reason);
      }
      var registration := new PanelRegistration(panel, prepared.lease);
      panels := panels[tab := registration];
      return Attached(prepared.lease);
    }

    method ActivateRegistered(tab: string, lease: Lease) returns (result: Activation)
      requires Valid()
      modifies authority
      ensures Valid() && OthersUntouched(tab)
      ensures (View(tab), result) == ActivatePanel(old(View(tab)), lease)
    {
      if tab !in panels || panels[tab].lease != lease {
        return Activation(false, None);
      }
      result := authority.ActivateLease(lease);
    }

    method CancelPanelHandoff(tab: string, lease: Lease) returns (done: bool)
      requires Valid()
      modifies this, authority
      ensures Valid() && OthersUntouched(tab) && disposing == old(disposing)
      ensures (View(tab), done) == CancelPanel(old(View(tab)), lease)
      ensures effects == old(effects) + (if done then [Closed(old(View(tab)).registered.value.panel)] else [])
    {
      if tab !in panels || panels[tab].lease != lease {
        return false;
      }
      var cancelled := authority.CancelHandoff(lease);
      if !cancelled {
        return false;
      }
      effects := effects + [Closed(panels[tab].panel)];
      panels := panels - {tab};
      return true;
    }

    method DisposePanel(tab: string) returns (done: bool)
      requires Valid()
      modifies this, authority
      ensures Valid() && OthersUntouched(tab) && disposing == old(disposing)
      ensures (View(tab), done) == DropPanel(old(View(tab)))
      ensures panels == old(panels) - {tab}
      ensures effects == old(effects) + (if tab in old(panels) then [Closed(old(panels)[tab].panel)] else [])
    {
      if tab !in panels {
        assert panels == panels - {tab};
        return false;
      }
      var registration := panels[tab];
      panels := panels - {tab};
      var _ := authority.RevokeLease(registration.lease);
      effects := effects + [Closed(registration.panel)];
      return true;
    }

    method ReleaseTab(tab: string)
      requires Valid()
      modifies this, authority
      ensures Valid() && OthersUntouched(tab) && disposing == old(disposing)
      ensures View(tab) == ReleaseSlot(old(View(tab)))
      ensures effects == old(effects) + (if tab in old(panels) then [Closed(old(panels)[tab].panel)] else [])
    {
      var _ := DisposePanel(tab);
      authority.ReleaseTab(tab);
    }

    /** The user closed the panel of `registration`; a panel that is no longer registered changes nothing. */
    method HandlePanelDisposed(tab: string, registration: PanelRegistration)
      requires Valid()
      modifies this, authority
      ensures Valid() && OthersUntouched(tab) && disposing == old(disposing)
      ensures View(tab) == if tab in old(panels) && old(panels)[tab] == registration
                           then DropPanel(old(View(tab))).0 else old(View(tab))
      ensures effects == old(effects)
              + (if tab in old(panels) && old(panels)[tab] == registration && !disposing
                 then [UserClosed(tab, registration.lease)] else [])
    {
      if tab !in panels || panels[tab] != registration {
        return;
      }
      panels := panels - {tab};
      var _ := authority.RevokeLease(registration.lease);
      if disposing {
        return;
      }
      effects := effects + [UserClosed(tab, registration.lease)];
    }

    method Dispose()
      requires Valid()
      modifies this, authority
      ensures Valid() && disposing
      ensures old(disposing) ==>
                panels == old(panels) && effects == old(effects) && forall tab :: View(tab) == old(View(tab))
      ensures !old(disposing) ==> panels == map[] && forall tab :: View(tab) == DropPanel(old(View(tab))).0
      // Every panel is closed once, in some order.
      ensures !old(disposing) ==>
                && |old(effects)| <= |effects| && effects[..|old(effects)|] == old(effects)
                && ClosesEach(old(Panels()), old(Panels()).Keys, effects[|old(effects)|..])
    {
      hide ClosesEach, Revoke;
      if disposing {
        return;
      }
      disposing := true;
      ghost var before := Panels();
      ghost var closings: seq<Effect> := [];
      NothingClosed(before, before.Keys - panels.Keys);
      while panels != map[]
        invariant Valid() && disposing
        invariant panels.Keys <= before.Keys
        invariant forall tab | tab in panels :: panels[tab].panel == before[tab]
        invariant effects == old(effects) + closings
        invariant ClosesEach(before, before.Keys - panels.Keys, closings)
        invariant forall tab :: View(tab) == if tab in panels then old(View(tab)) else DropPanel(old(View(tab))).0
        decreases panels.Keys
      {
        var tab :| tab in panels;
        label Before:
        ghost var open := panels.Keys;
        OneMoreClosed(before, open, closings, tab);
        var _ := DisposePanel(tab);
        assert panels.Keys == open - {tab};
        Appended(old(effects), closings, Closed(before[tab]));
        closings := closings + [Closed(before[tab])];
        forall other
          ensures View(other) == if other in panels then old(View(other)) else DropPanel(old(View(other))).0
        {
          assert other != tab ==> View(other) == old@Before(View(other));
        }
      }
      assert before.Keys - panels.Keys == before.Keys;
    }
  }

  // ---------------------------------------------------------------- what is kept

  predicate IsEditor(lease: Option<Lease>) {
    lease.Some? && lease.value.surface == Editor
  }

  predicate OfRegisteredPanel(s: Slot, lease: Option<Lease>) {
    IsEditor(lease) ==> s.registered.Some? && s.registered.value.lease == lease.value
  }

  /** Editor authority, held or pending, belongs to the panel registered now. */
  predicate Guarded(s: Slot) {
    && Ordered(s.pane)
    && OfRegisteredPanel(s, s.pane.active)
    && OfRegisteredPanel(s, s.pane.pending)
    && (s.registered.Some? ==> s.registered.value.lease.surface == Editor)
  }

  /** Every call of the registry, and the calls its owner makes on the authority for the sidebar, keep it. */
  lemma CallsKeepGuarded(s: Slot, tab: string, known: bool, panel: nat, lease: Lease)
    requires Guarded(s)
    ensures Guarded(Register(s, tab, known, panel).0)
    ensures Guarded(ActivatePanel(s, lease).0)
    ensures Guarded(CancelPanel(s, lease).0)
    ensures Guarded(DropPanel(s).0)
    ensures Guarded(ReleaseSlot(s))
    ensures Guarded(s.(pane := Adopt(s.pane, tab, known).0))
    ensures Guarded(s.(pane := Prepare(s.pane, tab, known, Sidebar).0))
    ensures Guarded(s.(pane := Activate(s.pane, lease).0))
    ensures lease.surface == Sidebar ==> Guarded(s.(pane := Cancel(s.pane, lease).0))
  {
  }

  /** A panel whose registration is dropped loses all editor authority with it. */
  lemma DroppedPanelHasNoAuthority(s: Slot)
    requires Guarded(s)
    ensures var dropped := DropPanel(s).0;
      dropped.registered.None? && !IsEditor(dropped.pane.active) && !IsEditor(dropped.pane.pending)
  {
  }
}
