/**
 What the single calls on pane authority and panel registry answer: when a lease is granted, which
 lease that is, what a call leaves alone, and how a hand-off is taken back.
 Sources: src/agent/ChatPaneAuthorityController.ts and src/agent/ChatTabPanelRegistry.ts.
 */
module PaneAnswers {
  import opened Wrappers
  import opened PaneAuthority
  import opened PanelRegistry

  /** The lease may drive the tab now, or is about to. */
  predicate Stands(p: Pane, lease: Lease) {
    p.active == Some(lease) || p.pending == Some(lease)
  }

  // ---------------------------------------------------------------- authority

  /** The sidebar is adopted unless the tab is unknown, has an editor in charge, or has a hand-off under way. */
  lemma AdoptAnswers(p: Pane, tab: string, known: bool)
    ensures var (q, result) := Adopt(p, tab, known);
      && (result == Refused(UnknownTab) <==> !known)
      && (result == Refused(HandoffInProgress) <==>
            known && (p.pending.Some? || (p.active.Some? && p.active.value.surface == Editor)))
      && (result.Refused? ==> q == p)
      && (result.Granted? ==> q.active == Some(result.lease) && q.pending == None && result.lease.surface == Sidebar)
      && (result.Granted? && p.active.Some? ==> q == p)
      && (result.Granted? && p.active.None? ==> result.lease == Lease(tab, Sidebar, p.next) && q.next == p.next + 1)
  {
  }

  /**
   A hand-off is prepared unless the tab is unknown or a hand-off to the other surface is under way. The active
   lease stays; a hand-off to the same surface that is under way is continued.
   */
  lemma PrepareAnswers(p: Pane, tab: string, known: bool, surface: Surface)
    ensures var (q, result) := Prepare(p, tab, known, surface);
      && (result == Refused(UnknownTab) <==> !known)
      && (result == Refused(HandoffInProgress) <==> known && p.pending.Some? && p.pending.value.surface != surface)
      && (result.Refused? ==> q == p)
      && (result.Granted? ==>
            q.active == p.active && q.pending == Some(result.lease) && result.lease.surface == surface)
      && (result.Granted? && p.pending.Some? ==> q == p)
      && (result.Granted? && p.pending.None? ==> result.lease == Lease(tab, surface, p.next) && q.next == p.next + 1)
  {
  }

  /** Exactly a lease that stands can be activated; it is in charge then, and the answer is who was before. */
  lemma ActivateAnswers(p: Pane, lease: Lease)
    ensures var (q, result) := Activate(p, lease);
      && (result.ok <==> Stands(p, lease))
      && (!result.ok ==> q == p && result.previous == None)
      && (result.ok ==> q.active == Some(lease) && q.next == p.next && result.previous == p.active)
      && (result.ok && p.active == Some(lease) ==> q == p)
      && (result.ok && p.active != Some(lease) ==> q.pending == None)
  {
  }

  /** Exactly the pending lease can be cancelled, and the active one stays. */
  lemma CancelAnswers(p: Pane, lease: Lease)
    ensures var (q, done) := Cancel(p, lease);
      && (done <==> p.pending == Some(lease))
      && q.next == p.next && q.active == p.active
      && q.pending == if done then None else p.pending
  {
  }

  /** An activation is taken back exactly while its lease is in charge and no further hand-off is under way. */
  lemma RollbackAnswers(p: Pane, lease: Lease, previous: Option<Lease>)
    ensures var (q, done) := Rollback(p, lease, previous);
      && (done <==> p.active == Some(lease) && p.pending == None)
      && q.next == p.next && q.pending == p.pending
      && q.active == if done then previous else p.active
  {
  }

  /** A lease that stands is revoked, and no other. */
  lemma RevokeAnswers(p: Pane, lease: Lease)
    requires p.active.Some? && p.pending.Some? ==> p.active != p.pending
    ensures var (q, done) := Revoke(p, lease);
      && (done <==> Stands(p, lease))
      && q.next == p.next && !Stands(q, lease)
      && forall other | other != lease :: Stands(q, other) <==> Stands(p, other)
    ensures var q := Revoke(p, lease).0;
      (p.active != Some(lease) ==> q.active == p.active) && (p.pending != Some(lease) ==> q.pending == p.pending)
  {
  }

  lemma ReleaseAnswers(p: Pane)
    ensures var q := Release(p); q.next == p.next && forall lease :: !Stands(q, lease)
  {
  }

  /** A hand-off that is prepared and cancelled, or activated and rolled back, leaves the lease in charge that was. */
  lemma HandoffIsTakenBack(p: Pane, tab: string, surface: Surface)
    requires p.pending == None && (p.active.Some? ==> p.active.value.epoch < p.next)
    ensures var (q, prepared) := Prepare(p, tab, true, surface);
      && prepared.Granted?
      && Cancel(q, prepared.lease) == (p.(next := p.next + 1), true)
      && var (r, activated) := Activate(q, prepared.lease);
         && activated.ok
         && Rollback(r, prepared.lease, activated.previous) == (p.(next := p.next + 1), true)
  {
  }

  // ---------------------------------------------------------------- panels

  /**
   A panel is registered with a new or continued editor lease, unless the tab has a panel already or the
   hand-off to the editor is refused; then nothing changes.
   */
  lemma RegisterAnswers(s: Slot, tab: string, known: bool, panel: nat)
    ensures var (t, result) := Register(s, tab, known, panel);
      && (result.Duplicate? <==> s.registered.Some?)
      && (result == Rejected(UnknownTab) <==> s.registered.None? && !known)
      && (result == Rejected(HandoffInProgress) <==>
            s.registered.None? && known && s.pane.pending.Some? && s.pane.pending.value.surface == Sidebar)
      && (!result.Attached? ==> t == s)
      && (result.Duplicate? ==> result.lease == s.registered.value.lease)
      && (result.Attached? ==>
            && t.registered == Some(Registered(panel, result.lease)) && result.lease.surface == Editor
            && t.pane.pending == Some(result.lease) && t.pane.active == s.pane.active
            && (s.pane.pending.None? ==>
                  result.lease == Lease(tab, Editor, s.pane.next) && t.pane.next == s.pane.next + 1)
            && (s.pane.pending.Some? ==> t.pane == s.pane))
  {
  }

  /** Only the lease of the registered panel is activated, and only while it stands. */
  lemma ActivatePanelAnswers(s: Slot, lease: Lease)
    ensures var (t, result) := ActivatePanel(s, lease);
      && (result.ok <==> s.registered.Some? && s.registered.value.lease == lease && Stands(s.pane, lease))
      && t.registered == s.registered
      && (!result.ok ==> t == s && result.previous == None)
      && (result.ok ==> t.pane.active == Some(lease) && t.pane.next == s.pane.next && result.previous == s.pane.active)
      && (result.ok && s.pane.active != Some(lease) ==> t.pane.pending == None)
      && (result.ok && s.pane.active == Some(lease) ==> t == s)
  {
  }

  /** A panel goes with its pending hand-off; once the lease is in charge the call does nothing. */
  lemma CancelPanelAnswers(s: Slot, lease: Lease)
    ensures var (t, done) := CancelPanel(s, lease);
      && (done <==> s.registered.Some? && s.registered.value.lease == lease && s.pane.pending == Some(lease))
      && (!done ==> t == s)
      && (done ==> t == Slot(s.pane.(pending := None), None))
  {
  }

  /** A panel that is dropped loses the lease it was given, whether pending or in charge, and nobody else loses one. */
  lemma DropPanelAnswers(s: Slot)
    requires s.pane.active.Some? && s.pane.pending.Some? ==> s.pane.active != s.pane.pending
    ensures var (t, done) := DropPanel(s);
      && (done <==> s.registered.Some?) && t.registered == None && t.pane.next == s.pane.next
      && (!done ==> t == s)
      && (done ==>
            && !Stands(t.pane, s.registered.value.lease)
            && forall other | other != s.registered.value.lease :: Stands(t.pane, other) <==> Stands(s.pane, other))
  {
    if s.registered.Some? {
      RevokeAnswers(s.pane, s.registered.value.lease);
    }
  }

  lemma ReleaseSlotAnswers(s: Slot)
    ensures var t := ReleaseSlot(s);
      t.registered == None && t.pane.next == s.pane.next && forall lease :: !Stands(t.pane, lease)
  {
  }
}
