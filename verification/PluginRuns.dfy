/**
 Runs of the plugin registry whose steps are all allowed by some rule, and the steps that need
 no failure: an operation takes a free or stale lock, and an operation that holds the lock
 finishes and releases it.
 */
module PluginRuns {
  import opened Wrappers
  import opened PluginRegistry
  import opened PluginLock
  import opened PluginHistory

  // ---------------------------------------------------------------- runs under a rule

  /** Every step of the run is allowed in the state in which it is taken. */
  ghost predicate Allowed(ok: (World, Action) -> bool, w: World, actions: seq<Action>)
    decreases |actions|
  {
    actions == [] ||
    (var before := actions[..|actions| - 1];
     Allowed(ok, w, before) && Run(w, before).Some? && ok(Run(w, before).value, actions[|actions| - 1]))
  }

  ghost predicate Reaches(ok: (World, Action) -> bool, w: World, v: World) {
    exists actions :: Allowed(ok, w, actions) && Run(w, actions) == Some(v)
  }

  lemma ReachesItself(ok: (World, Action) -> bool, w: World)
    ensures Reaches(ok, w, w)
  {
    assert Allowed(ok, w, []) && Run(w, []) == Some(w);
  }

  /** One more step. */
  lemma Does(ok: (World, Action) -> bool, w: World, v: World, a: Action) returns (v': World)
    requires Reaches(ok, w, v) && Next(v, a).Some? && ok(v, a)
    ensures Reaches(ok, w, v') && Next(v, a) == Some(v')
  {
    v' := Next(v, a).value;
    var actions :| Allowed(ok, w, actions) && Run(w, actions) == Some(v);
    assert (actions + [a])[..|actions|] == actions;
    assert Allowed(ok, w, actions + [a]) && Run(w, actions + [a]) == Some(v');
  }

  lemma {:induction false} ReachesOn(ok: (World, Action) -> bool, w: World, v: World, actions: seq<Action>, u: World)
    requires Reaches(ok, w, v) && Allowed(ok, v, actions) && Run(v, actions) == Some(u)
    ensures Reaches(ok, w, u)
    decreases |actions|
  {
    if actions != [] {
      var before := actions[..|actions| - 1];
      var middle := Run(v, before).value;
      ReachesOn(ok, w, v, before, middle);
      var end := Does(ok, w, middle, actions[|actions| - 1]);
    }
  }

  lemma ReachesTransitively(ok: (World, Action) -> bool, w: World, v: World, u: World)
    requires Reaches(ok, w, v) && Reaches(ok, v, u)
    ensures Reaches(ok, w, u)
  {
    var actions :| Allowed(ok, v, actions) && Run(v, actions) == Some(u);
    ReachesOn(ok, w, v, actions, u);
  }

  lemma {:induction false} AllowedByMore(ok: (World, Action) -> bool, more: (World, Action) -> bool,
                                         w: World, actions: seq<Action>)
    requires Allowed(ok, w, actions) && forall v, a :: ok(v, a) ==> more(v, a)
    ensures Allowed(more, w, actions)
    decreases |actions|
  {
    if actions != [] {
      AllowedByMore(ok, more, w, actions[..|actions| - 1]);
    }
  }

  lemma ReachesByMore(ok: (World, Action) -> bool, more: (World, Action) -> bool, w: World, v: World)
    requires Reaches(ok, w, v) && forall u, a :: ok(u, a) ==> more(u, a)
    ensures Reaches(more, w, v)
  {
    var actions :| Allowed(ok, w, actions) && Run(w, actions) == Some(v);
    AllowedByMore(ok, more, w, actions);
  }

  lemma ReachedKeepsInv(ok: (World, Action) -> bool, w: World, v: World)
    requires Inv(w) && Reaches(ok, w, v)
    ensures Inv(v)
  {
    var actions :| Allowed(ok, w, actions) && Run(w, actions) == Some(v);
    RunKeepsInv(w, actions, v);
  }

  // ---------------------------------------------------------------- steps without failures

  /** Nothing fails or crashes, and no process or operation starts. */
  ghost predicate Smooth(w: World, a: Action) {
    !a.Spawn? && !a.Crash? && !a.Begin? && !a.Abandon? && !a.Strand?
  }

  /** The lock file can be had: there is none, or its owner is dead. */
  ghost predicate Available(w: World) {
    w.lock.None? || (w.lock.value.Full? && w.lock.value.record.owner !in w.alive)
  }

  /** The world in which `id` stands elsewhere with respect to the lock file. */
  function At(v: World, id: nat, lock: Option<LockFile>, critical: Critical): World
    requires id in v.tasks
  {
    v.(lock := lock, tasks := v.tasks[id := v.tasks[id].(critical := critical)])
  }

  lemma AtTwice(v: World, id: nat, lock: Option<LockFile>, critical: Critical,
                lock': Option<LockFile>, critical': Critical)
    requires id in v.tasks
    ensures At(At(v, id, lock, critical), id, lock', critical') == At(v, id, lock', critical')
  {
    assert At(At(v, id, lock, critical), id, lock', critical').tasks == At(v, id, lock', critical').tasks;
  }

  /** `id` is in the critical section and has read nothing there. */
  function Entered(v: World, id: nat): World
    requires id in v.tasks && !v.tasks[id].critical.Outside?
  {
    var token := v.tasks[id].critical.token;
    At(v, id, Some(Full(LockRecord(token, v.tasks[id].process))), Inside(token, None, None))
  }

  lemma EnteredFrom(v: World, id: nat, lock: Option<LockFile>, critical: Critical)
    requires id in v.tasks && !v.tasks[id].critical.Outside?
    requires !critical.Outside? && critical.token == v.tasks[id].critical.token
    ensures Entered(At(v, id, lock, critical), id) == Entered(v, id)
  {
    var token := critical.token;
    AtTwice(v, id, lock, critical, Some(Full(LockRecord(token, v.tasks[id].process))), Inside(token, None, None));
  }

  /** With one process per pid, a recorded owner is provably stale exactly when it is dead. */
  lemma StaleIffDead(w: World, owner: Process)
    requires ProcessesAreDistinct(w)
    ensures ProvablyStale(w.alive, owner) <==> owner !in w.alive
  {
    if owner !in w.alive && !Inspects(w.alive, owner.pid, Dead) {
      var p :| p in w.alive && p.pid == owner.pid;
      assert p.fingerprint != owner.fingerprint || p == owner;
    }
  }

  lemma CreateEffect(v: World, id: nat)
    requires id in v.tasks && v.tasks[id].critical.Contending? && v.lock.None?
    ensures Next(v, Create(id)) == Some(At(v, id, Some(Blank), Creating(v.tasks[id].critical.token, false)))
  {
  }

  lemma WriteEffect(v: World, id: nat)
    requires id in v.tasks && v.tasks[id].critical.Creating? && !v.tasks[id].critical.written && v.lock == Some(Blank)
    ensures Next(v, WriteLock(id)) ==
            Some(At(v, id, Some(Full(LockRecord(v.tasks[id].critical.token, v.tasks[id].process))),
                    Creating(v.tasks[id].critical.token, true)))
  {
  }

  lemma EnterEffect(v: World, id: nat)
    requires id in v.tasks && v.tasks[id].critical.Creating? && v.tasks[id].critical.written
        && v.lock == Some(LockOf(v.tasks[id]))
    ensures Next(v, Enter(id)) == Some(Entered(v, id))
  {
    assert Next(v, Enter(id)).value.tasks == Entered(v, id).tasks;
  }

  lemma ReadOwnerEffect(v: World, id: nat)
    requires id in v.tasks && v.tasks[id].critical.Contending? && v.lock.Some? && v.lock.value.Full?
    ensures Next(v, ReadOwner(id)) ==
            Some(At(v, id, v.lock, Contending(v.tasks[id].critical.token, Some(v.lock.value.record), false)))
  {
  }

  lemma InspectOwnerEffect(v: World, id: nat, seen: LockRecord)
    requires id in v.tasks && v.tasks[id].critical.Contending? && v.tasks[id].critical.seen == Some(seen)
    requires ProvablyStale(v.alive, seen.owner)
    ensures Next(v, InspectOwner(id)) ==
            Some(At(v, id, v.lock, Contending(v.tasks[id].critical.token, Some(seen), true)))
  {
  }

  lemma BreakLockEffect(v: World, id: nat, seen: LockRecord)
    requires id in v.tasks && v.tasks[id].critical.Contending? && v.tasks[id].critical.stale
    requires v.tasks[id].critical.seen == Some(seen) && v.lock == Some(Full(seen))
    ensures Next(v, BreakLock(id)) == Some(At(v, id, None, Contending(v.tasks[id].critical.token, None, false)))
  {
  }

  /** The lock file is written and closed, and the critical section begins. */
  lemma FinishesCreation(w: World, v: World, id: nat) returns (v': World)
    requires Reaches(Smooth, w, v) && id in v.tasks && v.tasks[id].critical.Creating?
        && v.lock == Some(LockOf(v.tasks[id]))
    ensures Reaches(Smooth, w, v') && v' == Entered(v, id)
  {
    var token := v.tasks[id].critical.token;
    var u := v;
    if !v.tasks[id].critical.written {
      WriteEffect(v, id);
      u := Does(Smooth, w, v, WriteLock(id));
      EnteredFrom(v, id, u.lock, Creating(token, true));
    }
    EnterEffect(u, id);
    v' := Does(Smooth, w, u, Enter(id));
  }

  lemma TakesFreeLock(w: World, v: World, id: nat) returns (v': World)
    requires Reaches(Smooth, w, v) && id in v.tasks && v.tasks[id].critical.Contending? && v.lock.None?
    ensures Reaches(Smooth, w, v') && v' == Entered(v, id)
  {
    CreateEffect(v, id);
    var u := Does(Smooth, w, v, Create(id));
    EnteredFrom(v, id, Some(Blank), Creating(v.tasks[id].critical.token, false));
    v' := FinishesCreation(w, u, id);
  }

  /** A waiting operation reads the dead owner, finds it stale and removes the file. */
  lemma BreaksStaleLock(w: World, v: World, id: nat) returns (v': World)
    requires Reaches(Smooth, w, v) && ProcessesAreDistinct(v) && id in v.tasks && v.tasks[id].critical.Contending?
    requires v.lock.Some? && Available(v)
    ensures Reaches(Smooth, w, v')
    ensures v' == At(v, id, None, Contending(v.tasks[id].critical.token, None, false))
  {
    var token, seen := v.tasks[id].critical.token, v.lock.value.record;
    StaleIffDead(v, seen.owner);
    ReadOwnerEffect(v, id);
    var v1 := Does(Smooth, w, v, ReadOwner(id));
    InspectOwnerEffect(v1, id, seen);
    var v2 := Does(Smooth, w, v1, InspectOwner(id));
    AtTwice(v, id, v.lock, Contending(token, Some(seen), false), v.lock, Contending(token, Some(seen), true));
    BreakLockEffect(v2, id, seen);
    v' := Does(Smooth, w, v2, BreakLock(id));
    AtTwice(v, id, v.lock, Contending(token, Some(seen), true), None, Contending(token, None, false));
  }

  /** A waiting operation takes an available lock. */
  lemma TakesLock(w: World, v: World, id: nat) returns (v': World)
    requires Reaches(Smooth, w, v) && ProcessesAreDistinct(v) && Available(v)
    requires id in v.tasks && v.tasks[id].critical.Contending?
    ensures Reaches(Smooth, w, v') && v' == Entered(v, id)
  {
    if v.lock.None? {
      v' := TakesFreeLock(w, v, id);
    } else {
      var u := BreaksStaleLock(w, v, id);
      EnteredFrom(v, id, None, Contending(v.tasks[id].critical.token, None, false));
      v' := TakesFreeLock(w, u, id);
    }
  }

  // ---------------------------------------------------------------- the holder finishes

  /** The processes and the operations other than `id` are as they were. */
  ghost predicate OnlyTask(v: World, id: nat, v': World) {
    && v'.alive == v.alive
    && forall q | q in v.tasks && q != id :: q in v'.tasks && v'.tasks[q] == v.tasks[q]
  }

  /** What the invariant says about one operation. */
  ghost predicate Fits(v: World, id: nat) {
    && v.history != [] && id in v.tasks
    && Informed(v.history, v.tasks[id]) && Staged(v.tasks[id])
    && (Occupies(v.tasks[id]) ==> v.lock == Some(LockOf(v.tasks[id])))
  }

  lemma ReachedFits(ok: (World, Action) -> bool, w: World, v: World, id: nat)
    requires Inv(w) && Reaches(ok, w, v) && id in v.tasks
    ensures Fits(v, id)
  {
    ReachedKeepsInv(ok, w, v);
  }

  /** The state in which `id` has done its work and holds the lock. */
  ghost predicate IsLeaving(v: World, id: nat) {
    && v.history != [] && id in v.tasks && v.tasks[id].critical.Leaving? && v.lock == Some(LockOf(v.tasks[id]))
  }

  lemma ReadInsideEffect(v: World, id: nat)
    requires id in v.tasks && v.tasks[id].critical.Inside? && v.tasks[id].critical.base.None? && v.history != []
    ensures Next(v, ReadInside(id)) ==
            Some(At(v, id, v.lock, Inside(v.tasks[id].critical.token, Some(Current(v)), Some(Current(v)))))
  {
  }

  lemma PurgeEffect(v: World, id: nat, gone: set<Package>)
    requires Initializing(v, id) && MustPurge(v.tasks[id].critical.latest.value)
    requires forall package | package in gone :: Unreferenced(v.tasks[id].critical.latest.value.installs, package)
    ensures Next(v, Purge(id, gone)) == Some(v.(packages := v.packages - gone))
  {
  }

  /** An initializing host deletes what no row mentions where a purge is due. */
  lemma PurgesFully(w: World, v: World, id: nat) returns (v': World)
    requires Reaches(Smooth, w, v) && Initializing(v, id)
    ensures Reaches(Smooth, w, v') && v' == v.(packages := v'.packages)
    ensures !MustPurge(v.tasks[id].critical.latest.value) ==> v'.packages == v.packages
    ensures MustPurge(v.tasks[id].critical.latest.value) ==>
              AllReferenced(v.tasks[id].critical.latest.value.installs, v'.packages)
  {
    hide Next;
    var latest := v.tasks[id].critical.latest.value;
    v' := v;
    if MustPurge(latest) {
      var gone := set package | package in v.packages && Unreferenced(latest.installs, package);
      PurgeEffect(v, id, gone);
      v' := Does(Smooth, w, v, Purge(id, gone));
    }
  }

  lemma HostFinishes(w: World, v: World, id: nat) returns (v': World)
    requires Reaches(Smooth, w, v) && Initializing(v, id) && v.lock == Some(LockOf(v.tasks[id]))
    ensures Reaches(Smooth, w, v') && IsLeaving(v', id) && OnlyTask(v, id, v')
  {
    var u := PurgesFully(w, v, id);
    var last := RegisterIsPossible(u, id);
    v' := Does(Smooth, w, u, Register(id));
  }

  lemma RegisterIsPossible(v: World, id: nat) returns (v': World)
    requires Initializing(v, id) && v.lock == Some(LockOf(v.tasks[id]))
    requires MustPurge(v.tasks[id].critical.latest.value) ==>
               AllReferenced(v.tasks[id].critical.latest.value.installs, v.packages)
    ensures Next(v, Register(id)) == Some(v') && IsLeaving(v', id) && OnlyTask(v, id, v')
  {
    v' := RegisterHost(v, id).value;
  }

  /** The one step with which an operation of the manager, or the end of a host, does its work under the lock. */
  function WorkOf(t: Task, id: nat): Action {
    if t.op.DisposeHost? then Unregister(id) else if t.stage == NeedsPublish then Publish(id) else CommitInside(id)
  }

  lemma UnregisterIsPossible(v: World, id: nat) returns (v': World)
    requires Fits(v, id) && v.tasks[id].critical.Inside? && v.tasks[id].critical.base.Some?
    requires v.tasks[id].op.DisposeHost?
    ensures UnregisterHost(v, id) == Some(v') && IsLeaving(v', id) && OnlyTask(v, id, v')
  {
    v' := UnregisterHost(v, id).value;
  }

  lemma CommitIsPossible(v: World, id: nat) returns (v': World)
    requires Fits(v, id) && v.tasks[id].critical.Inside? && v.tasks[id].critical.base.Some?
    requires v.tasks[id].op.OfManager() && v.tasks[id].stage == NeedsCommit
    ensures CommitUnderLock(v, id) == Some(v') && IsLeaving(v', id) && OnlyTask(v, id, v')
  {
    v' := CommitUnderLock(v, id).value;
  }

  lemma PublishIsPossible(v: World, id: nat) returns (v': World)
    requires Fits(v, id) && v.tasks[id].critical.Inside? && v.tasks[id].stage == NeedsPublish
    ensures PublishPackage(v, id) == Some(v') && IsLeaving(v', id) && OnlyTask(v, id, v')
  {
    v' := PublishPackage(v, id).value;
  }

  lemma WorkIsPossible(v: World, id: nat) returns (v': World)
    requires Fits(v, id) && v.tasks[id].critical.Inside? && v.tasks[id].critical.base.Some?
    requires !v.tasks[id].op.InitializeHost?
    ensures Next(v, WorkOf(v.tasks[id], id)) == Some(v') && IsLeaving(v', id) && OnlyTask(v, id, v')
  {
    hide Informed, OnlyTask, IsLeaving, UnregisterHost, PublishPackage, CommitUnderLock;
    if v.tasks[id].op.DisposeHost? {
      v' := UnregisterIsPossible(v, id);
    } else if v.tasks[id].stage == NeedsPublish {
      v' := PublishIsPossible(v, id);
    } else {
      v' := CommitIsPossible(v, id);
    }
  }

  /** An operation that has read the registry under the lock does what it came for. */
  lemma FinishesWork(w: World, v: World, id: nat) returns (v': World)
    requires Reaches(Smooth, w, v) && Fits(v, id)
    requires v.tasks[id].critical.Inside? && v.tasks[id].critical.base.Some?
    ensures Reaches(Smooth, w, v') && IsLeaving(v', id) && OnlyTask(v, id, v')
  {
    if v.tasks[id].op.InitializeHost? {
      v' := HostFinishes(w, v, id);
    } else {
      var u := WorkIsPossible(v, id);
      v' := Does(Smooth, w, v, WorkOf(v.tasks[id], id));
    }
  }

  lemma LeaveReleases(v: World, id: nat) returns (v': World)
    requires IsLeaving(v, id)
    ensures Next(v, Leave(id)) == Some(v') && v'.lock.None? && OnlyTask(v, id, v')
  {
    v' := LeaveLock(v, id).value;
    LeaveEffect(v, id, v');
  }

  /** Whoever occupies the lock file can finish, without a failure, and releases it. */
  lemma OccupantFinishes(w: World, v: World, id: nat) returns (v': World)
    requires Reaches(Smooth, w, v) && Inv(w) && id in v.tasks && Occupies(v.tasks[id])
    ensures Reaches(Smooth, w, v') && v'.lock.None? && OnlyTask(v, id, v')
  {
    ReachedFits(Smooth, w, v, id);
    var u := v;
    if v.tasks[id].critical.Creating? {
      u := FinishesCreation(w, v, id);
    }
    v' := HolderFinishes(w, u, id);
  }

  lemma HolderFinishes(w: World, v: World, id: nat) returns (v': World)
    requires Reaches(Smooth, w, v) && Inv(w) && id in v.tasks && Holds(v.tasks[id])
    ensures Reaches(Smooth, w, v') && v'.lock.None? && OnlyTask(v, id, v')
  {
    var u := v;
    ReachedFits(Smooth, w, v, id);
    if v.tasks[id].critical.Inside? {
      u := InsideFinishes(w, v, id);
    }
    var last := LeaveReleases(u, id);
    v' := Does(Smooth, w, u, Leave(id));
  }

  lemma InsideFinishes(w: World, v: World, id: nat) returns (v': World)
    requires Reaches(Smooth, w, v) && Inv(w) && id in v.tasks && v.tasks[id].critical.Inside?
    ensures Reaches(Smooth, w, v') && IsLeaving(v', id) && OnlyTask(v, id, v')
  {
    var u := v;
    ReachedFits(Smooth, w, v, id);
    if v.tasks[id].critical.base.None? {
      ReadInsideEffect(v, id);
      u := Does(Smooth, w, v, ReadInside(id));
      ReachedFits(Smooth, w, u, id);
    }
    v' := FinishesWork(w, u, id);
  }
}
