/**
 What each call on the hub registry does, field by field: src/agent/ProjectMcpHubRegistry.ts.

 For every state that satisfies the invariant the lemmas say when a step is possible and which entry,
 generation or handle it changes and how; what they do not name stays as it was.
 */
module HubAnswers {
  import opened Wrappers
  import opened HubRegistry

  /** Nothing but entry `e` and what a project's name refers to may have changed. */
  predicate OnlyEntry(s: State, t: State, e: nat) {
    && t.handles == s.handles
    && e < |t.table| && |t.table| == (if e < |s.table| then |s.table| else |s.table| + 1)
    && forall k: nat | k < |s.table| && k != e :: t.table[k] == s.table[k]
  }

  /** The project names entry `e`: the one it named before, or else a new one. Other projects keep theirs. */
  ghost predicate NamesEntry(s: State, t: State, project: string, e: nat) {
    && project in t.entries && t.entries[project] == e
    && (if project in s.entries then e == s.entries[project] else e == |s.table|)
    && forall other | other != project ::
         (other in t.entries <==> other in s.entries)
         && (other in s.entries ==> t.entries[other] == s.entries[other])
  }

  /** The entry as it was, or the one every project starts with. */
  function EntryBefore(s: State, e: nat): Entry {
    if e < |s.table| then s.table[e] else Entry(1, None, 0, None, false, {})
  }

  /** A project without a current generation gets generation 0, without leases; otherwise nothing changes. */
  lemma EnsureAnswers(s: State, project: string)
    requires Inv(s)
    ensures Enabled(s, DoEnsure(project))
    ensures var t := Next(s, DoEnsure(project));
      if project in s.entries && s.table[s.entries[project]].current.Some? then t == s
      else
        && project in t.entries
        && var e := t.entries[project];
           && NamesEntry(s, t, project, e) && OnlyEntry(s, t, e)
           && t.table[e] == EntryBefore(s, e).(current := Some(|s.generations|))
           && t.generations == s.generations + [Generation(e, 0, 0, false, 0)]
  {
    if project in s.entries {
      assert EntryOk(s, s.entries[project]);
    }
  }

  /** A reload is queued behind the others of its project. */
  lemma ReloadAnswers(s: State, project: string)
    requires Inv(s)
    ensures Enabled(s, DoReload(project))
    ensures var t := Next(s, DoReload(project));
      && project in t.entries
      && var e := t.entries[project];
         && NamesEntry(s, t, project, e) && OnlyEntry(s, t, e) && t.generations == s.generations
         && t.table[e] == EntryBefore(s, e).(queued := EntryBefore(s, e).queued + 1)
  {
  }

  /** A queued reload begins when none of the entry is running, and takes the next number, which is used up. */
  lemma BeginAnswers(s: State, e: nat)
    requires e < |s.table|
    ensures Enabled(s, DoBegin(e)) <==> s.table[e].queued > 0 && s.table[e].running.None?
    ensures Enabled(s, DoBegin(e)) ==>
              var t := Next(s, DoBegin(e));
              var entry := s.table[e];
              && OnlyEntry(s, t, e) && t.entries == s.entries && t.generations == s.generations
              && t.table[e] == Entry(entry.nextGeneration + 1, entry.current, entry.queued - 1,
                                     Some(entry.nextGeneration), entry.retired, entry.discarded)
  {
  }

  /** A generation that is retired now; it is disconnected now if no lease holds it. */
  predicate RetiredNow(before: Generation, after: Generation) {
    && after.entry == before.entry && after.number == before.number && after.leases == before.leases
    && after.retired
    && after.disconnects == if before.disconnects == 0 && before.leases == 0 then 1 else before.disconnects
  }

  /**
   A reload that failed, or whose project was retired meanwhile, is discarded, and the current generation
   stays. Otherwise its generation becomes current and the one before is retired.
   */
  lemma EndAnswers(s: State, e: nat, ok: bool)
    requires Inv(s) && e < |s.table|
    ensures Enabled(s, DoEnd(e, ok)) <==> s.table[e].running.Some?
    ensures Enabled(s, DoEnd(e, ok)) ==>
              var t := Next(s, DoEnd(e, ok));
              var before := s.table[e];
              var number := before.running.value;
              var n := |s.generations|;
              && OnlyEntry(s, t, e) && t.entries == s.entries
              && if !ok || before.retired then
                   && t.generations == s.generations
                   && t.table[e] == before.(running := None, discarded := before.discarded + {number})
                 else
                   && t.table[e] == before.(running := None, current := Some(n))
                   && |t.generations| == n + 1 && t.generations[n] == Generation(e, number, 0, false, 0)
                   && forall g: nat | g < n ::
                        if before.current == Some(g) then RetiredNow(s.generations[g], t.generations[g])
                        else t.generations[g] == s.generations[g]
  {
    assert EntryOk(s, e);
  }

  /** One more lease of generation `g`, with a handle of its own. */
  predicate LeaseAdded(s: State, t: State, g: nat) {
    && t.entries == s.entries && t.table == s.table
    && t.handles == s.handles + [Handle(g, false)]
    && |t.generations| == |s.generations|
    && forall k: nat | k < |s.generations| ::
         t.generations[k] == if k == g then s.generations[k].(leases := s.generations[k].leases + 1)
                             else s.generations[k]
  }

  /** A lease is acquired exactly for a project with a current generation, and of that generation. */
  lemma AcquireAnswers(s: State, project: string)
    requires Inv(s)
    ensures Enabled(s, DoAcquire(project)) <==>
            project in s.entries && s.table[s.entries[project]].current.Some?
    ensures Enabled(s, DoAcquire(project)) ==>
              LeaseAdded(s, Next(s, DoAcquire(project)), s.table[s.entries[project]].current.value)
  {
    if project in s.entries {
      assert EntryOk(s, s.entries[project]);
    }
  }

  /** A handle is retained, for the same generation, exactly when it was not released. */
  lemma RetainAnswers(s: State, handle: nat)
    requires Inv(s) && handle < |s.handles|
    ensures Enabled(s, DoRetain(handle)) <==> !s.handles[handle].released
    ensures Enabled(s, DoRetain(handle)) ==>
              LeaseAdded(s, Next(s, DoRetain(handle)), s.handles[handle].generation)
  {
  }

  /**
   The first release of a handle gives back one lease, and the last lease of a retired generation
   disconnects its hub. A second release does nothing.
   */
  lemma ReleaseAnswers(s: State, handle: nat)
    requires Inv(s) && handle < |s.handles|
    ensures Enabled(s, DoRelease(handle))
    ensures var t := Next(s, DoRelease(handle));
      var g := s.handles[handle].generation;
      if s.handles[handle].released then t == s
      else
        && t.entries == s.entries && t.table == s.table
        && t.handles == s.handles[handle := Handle(g, true)]
        && |t.generations| == |s.generations|
        && forall k: nat | k < |s.generations| ::
             var before := s.generations[k];
             t.generations[k] ==
             if k != g then before
             else Generation(before.entry, before.number, before.leases - 1, before.retired,
                             if before.retired && before.leases == 1 then 1 else before.disconnects)
  {
    if !s.handles[handle].released {
      LiveHandleCounts(s.handles, handle);
      assert Drained(s.generations[s.handles[handle].generation]);
    }
  }

  /** A retired project loses its name at once, and its entry is marked, so that running reloads are discarded. */
  lemma RetireAnswers(s: State, project: string)
    requires Inv(s)
    ensures Enabled(s, DoRetire(project))
    ensures var t := Next(s, DoRetire(project));
      if project !in s.entries then t == s
      else
        var e := s.entries[project];
        && OnlyEntry(s, t, e) && t.generations == s.generations
        && t.entries == s.entries - {project} && t.table[e] == s.table[e].(retired := true)
  {
  }

  /** Once its reloads are over, the last generation of a retired project is retired as well. */
  lemma FinishRetireAnswers(s: State, e: nat)
    requires Inv(s) && e < |s.table|
    ensures Enabled(s, DoFinishRetire(e)) <==>
            s.table[e].retired && s.table[e].queued == 0 && s.table[e].running.None?
    ensures Enabled(s, DoFinishRetire(e)) ==>
              var t := Next(s, DoFinishRetire(e));
              && t.entries == s.entries && t.table == s.table && t.handles == s.handles
              && |t.generations| == |s.generations|
              && forall g: nat | g < |s.generations| ::
                   if s.table[e].current == Some(g) then RetiredNow(s.generations[g], t.generations[g])
                   else t.generations[g] == s.generations[g]
  {
    assert EntryOk(s, e);
  }

  /** A registry begins with nothing. */
  lemma InitiallyEmpty(s: State)
    ensures Initial(s) <==> s == State(map[], [], [], [])
  {
  }
}
