/**
 What an operation does when nothing disturbs it. From every state of a run in which the lock can
 be had, an operation of a manager that finds no reason to give up can be run from its
 start to its end without a failure, and then exactly its own change has been written on top of
 the registry there was.
 */
module PluginSequential {
  import opened Wrappers
  import opened PluginRegistry
  import opened PluginLock
  import opened PluginHistory
  import opened PluginHosts
  import opened PluginRuns
  import opened PluginOperations
  import opened PluginAnswers

  /** Nothing fails or crashes. */
  ghost predicate Undisturbed(w: World, a: Action) {
    !a.Spawn? && !a.Crash? && !a.Abandon? && !a.Strand?
  }

  // ---------------------------------------------------------------- the effect of an operation

  predicate EditDone(edit: RowEdit, was: Row, row: Row) {
    match edit
    case SetEnabled(enabled) => row == was.(enabled := enabled)
    case Rollback => was.previous.Some? && row == was.(current := was.previous.value, previous := Some(was.current))
    case SetPolicy(server, update) =>
      var before := if server in was.policy then Some(was.policy[server]) else None;
      row == was.(policy := was.policy[server := update(before)])
  }

  /** The row of an install; a replaced plugin keeps its policy overlay and its last other digest. */
  predicate InstallDone(op: Operation, installs: map<InstallId, Row>, row: Row)
    requires op.Install?
  {
    && row.id == op.id && row.scope == op.scope && row.name == op.name
    && row.current == op.digest && row.enabled == op.enabled
    && (!op.replacing ==> row.previous == None && row.policy == map[])
    && (op.replacing ==>
          && op.id in installs && row.policy == installs[op.id].policy
          && row.previous == if installs[op.id].current != op.digest then Some(installs[op.id].current)
                             else installs[op.id].previous)
  }

  predicate RowsChanged(op: Operation, was: map<InstallId, Row>, now: map<InstallId, Row>)
    requires op.OfManager()
  {
    match op
    case Install(id, _, _, _, _, _) => id in now && now == was[id := now[id]] && InstallDone(op, was, now[id])
    case Edit(target, edit, _) =>
      target in was && target in now && now == was[target := now[target]] && EditDone(edit, was[target], now[target])
    case Remove(removed) => removed in was && now == was - {removed}
    case RequestPurge => now == was
  }

  predicate TakesEffect(op: Operation, was: Registry, now: Registry)
    requires op.OfManager()
  {
    && now.revision == was.revision + 1 && now.liveHosts == was.liveHosts
    && now.purgeRequested == (was.purgeRequested || op.RequestPurge?)
    && RowsChanged(op, was.installs, now.installs)
  }

  // ---------------------------------------------------------------- reading

  /** An operation of a manager that has not read yet, or lost a race, may read. */
  lemma ReadIsPossible(w: World, id: nat, at: nat)
    requires id in w.tasks && w.tasks[id].op.OfManager() && w.tasks[id].critical == Outside
    requires w.tasks[id].stage == Fresh || w.tasks[id].stage == Retry
    requires w.tasks[id].process in w.enabledAt && w.enabledAt[w.tasks[id].process] <= at < |w.history|
    ensures ReadRegistry(w, id, at).Some?
  {
  }

  /** The operation has read the registry as it is, and goes on. */
  ghost predicate HasRead(t: Task, p: Process, op: Operation, at: nat, installs: map<InstallId, Row>) {
    && t.op == op && t.process == p && t.critical == Outside && t.snapshot == at && t.attempt == 0
    && t.stage == (if op.Install? then NeedsPublish else NeedsCommit)
    && (op.Install? ==> t.row.Some? && InstallDone(op, installs, t.row.value))
  }

  lemma ReadIsRemembered(w: World, id: nat, p: Process, op: Operation, at: nat, w': World)
    requires id in w.tasks && w.tasks[id] == Started(p, op) && op.OfManager()
    requires ReadRegistry(w, id, at) == Some(w') && !GivesUp(op, Fresh, w.history[at])
    ensures id in w'.tasks && w' == w.(tasks := w.tasks[id := w'.tasks[id]])
    ensures HasRead(w'.tasks[id], p, op, at, w.history[at].installs)
  {
    ReadGivesUpIff(w, id, at, w');
    hide GivesUp;
    if op.Install? {
      InstallBuilds(w, id, at, w');
    }
  }

  lemma Begins(v: World, p: Process, op: Operation) returns (u: World, id: nat)
    requires p in v.alive && p in v.enabledAt && op.OfManager()
    ensures Reaches(Undisturbed, v, u) && id !in v.tasks && u == WithTask(v, id, Started(p, op))
  {
    id := FreshToken(v.tasks.Keys);
    BeginEffect(v, id, p, op);
    ReachesItself(Undisturbed, v);
    hide Next;
    u := Does(Undisturbed, v, v, Begin(id, p, op));
  }

  lemma ReadsNow(v: World, w: World, id: nat, p: Process, op: Operation, at: nat) returns (u: World)
    requires Reaches(Undisturbed, v, w) && id in w.tasks && w.tasks[id] == Started(p, op)
    requires op.OfManager() && p in w.enabledAt && w.enabledAt[p] <= at < |w.history|
    requires !GivesUp(op, Fresh, w.history[at])
    ensures Reaches(Undisturbed, v, u) && id in u.tasks && u == w.(tasks := w.tasks[id := u.tasks[id]])
    ensures HasRead(u.tasks[id], p, op, at, w.history[at].installs)
  {
    ReadIsPossible(w, id, at);
    hide ReadRegistry, GivesUp, HasRead;
    u := Does(Undisturbed, v, w, Read(id, at));
    ReadIsRemembered(w, id, p, op, at, u);
  }

  lemma BeginsAndReads(v: World, p: Process, op: Operation) returns (u: World, id: nat)
    requires v.history != [] && op.OfManager() && !GivesUp(op, Fresh, Current(v))
    requires p in v.alive && p in v.enabledAt && v.enabledAt[p] < |v.history|
    ensures Reaches(Undisturbed, v, u) && id !in v.tasks && id in u.tasks
    ensures u == v.(tasks := v.tasks[id := u.tasks[id]])
    ensures HasRead(u.tasks[id], p, op, |v.history| - 1, Current(v).installs)
  {
    hide GivesUp, HasRead, Next;
    var w: World;
    w, id := Begins(v, p, op);
    u := ReadsNow(v, w, id, p, op, |v.history| - 1);
    assert w.tasks[id := u.tasks[id]] == v.tasks[id := u.tasks[id]];
  }

  // ---------------------------------------------------------------- committing an edit

  /** The registry an edit writes on top of `base`. */
  function Edited(t: Task, base: Registry): Registry
    requires t.op.Edit? && t.row.Some?
  {
    base.(revision := base.revision + 1, installs := base.installs[t.op.target := t.row.value])
  }

  lemma EditCommitEffect(v: World, id: nat)
    requires InCritical(v, id) && v.tasks[id].stage == NeedsCommit && v.tasks[id].snapshot == |v.history| - 1
    requires v.tasks[id].op.Edit? && v.tasks[id].row.Some?
    ensures var t := v.tasks[id];
      Next(v, CommitInside(id)) ==
      Some(v.(history := v.history + [Edited(t, Current(v))],
              log := v.log + [CommitOf(t)],
              tasks := v.tasks[id := t.(critical := Leaving(t.critical.token), stage := Finished)]))
  {
  }

  lemma EditCommitsInside(w: World, v: World, id: nat) returns (v': World)
    requires Reaches(Smooth, w, v)
    requires InCritical(v, id) && v.tasks[id].stage == NeedsCommit && v.tasks[id].snapshot == |v.history| - 1
    requires v.tasks[id].op.Edit? && v.tasks[id].row.Some?
    ensures Reaches(Smooth, w, v') && Released(v, v') && v'.packages == v.packages && v'.tasks == v.tasks - {id}
    ensures v'.history == v.history + [Edited(v.tasks[id], Current(v))]
  {
    hide Next;
    EditCommitEffect(v, id);
    var u := Does(Smooth, w, v, CommitInside(id));
    LeaveEffectOn(u, id);
    v' := Does(Smooth, w, u, Leave(id));
    assert v'.tasks == v.tasks - {id};
  }

  lemma EditCommits(w: World, v: World, id: nat) returns (v': World)
    requires Reaches(Smooth, w, v) && Inv(v) && v.history != [] && Available(v) && AtLock(v, id)
    requires v.tasks[id].stage == NeedsCommit && v.tasks[id].snapshot == |v.history| - 1
    requires v.tasks[id].op.Edit? && v.tasks[id].row.Some?
    ensures Reaches(Smooth, w, v') && Released(v, v') && v'.packages == v.packages && v'.tasks == v.tasks - {id}
    ensures v'.history == v.history + [Edited(v.tasks[id], Current(v))]
  {
    assert LockInv(v);
    hide Inv, LockInv, Reaches, Available, Locked, Released, InCritical, Retrying, Published, Edited;
    var u, token := Locks(w, v, id);
    LockedIsCritical(v, id, token);
    v' := EditCommitsInside(w, u, id);
    SinceLocked(v, id, token, v', v.tasks[id]);
  }

  lemma EditTakesEffect(v: World, id: nat, now: Registry)
    requires Inv(v) && v.history != [] && id in v.tasks && v.tasks[id].op.Edit?
    requires v.tasks[id].stage == NeedsCommit && v.tasks[id].snapshot == |v.history| - 1 && v.tasks[id].row.Some?
    requires now == Edited(v.tasks[id], Current(v))
    ensures TakesEffect(v.tasks[id].op, Current(v), now)
  {
    assert Informed(v.history, v.tasks[id]);
  }

  lemma RowIsReady(v: World, id: nat)
    requires Inv(v) && id in v.tasks && v.tasks[id].op.Edit? && v.tasks[id].stage == NeedsCommit
    ensures v.tasks[id].row.Some?
  {
    assert Informed(v.history, v.tasks[id]);
  }

  lemma RemovalIsReady(v: World, id: nat)
    requires Inv(v) && v.history != [] && id in v.tasks && v.tasks[id].op.Remove? && v.tasks[id].stage == NeedsCommit
    requires v.tasks[id].snapshot == |v.history| - 1
    ensures v.tasks[id].op.removed in Current(v).installs
  {
    assert Informed(v.history, v.tasks[id]);
  }

  // ---------------------------------------------------------------- the whole operation

  lemma PublishesAndCommits(u: World, id: nat) returns (v': World)
    requires Inv(u) && u.history != [] && Available(u) && AtLock(u, id) && u.tasks[id].critical == Outside
    requires u.tasks[id].op.Install? && u.tasks[id].snapshot == |u.history| - 1
    requires u.tasks[id].stage == NeedsPublish && u.tasks[id].row.Some?
    ensures Reaches(Smooth, u, v') && Released(u, v') && v'.tasks == u.tasks - {id}
    ensures v'.history == u.history + [Written(Published(u.tasks[id]), Current(u))]
    ensures v'.packages == u.packages + {(u.tasks[id].op.id, u.tasks[id].op.digest)}
  {
    hide Inv, Reaches, Written, Released, Available;
    ReachesItself(Smooth, u);
    var x := Publishes(u, u, id);
    ReachedKeepsInv(Smooth, u, x);
    PublishedIsAtLock(u, id, x);
    v' := Commits(u, x, id);
    ReleasedTwice(u, x, v');
    assert v'.tasks == u.tasks - {id};
  }

  lemma PublishedIsAtLock(u: World, id: nat, x: World)
    requires id in u.tasks && u.tasks[id].op.Install? && Released(u, x)
    requires x.tasks == u.tasks[id := Published(u.tasks[id])]
    ensures Available(x) && AtLock(x, id)
  {
  }

  lemma ReleasedTwice(u: World, x: World, v: World)
    requires Released(u, x) && Released(x, v)
    ensures Released(u, v)
  {
  }

  /** The package an operation stores. */
  function Package(op: Operation): set<PluginRegistry.Package> {
    if op.Install? then {(op.id, op.digest)} else {}
  }

  lemma WrittenBySame(t: Task, t': Task, base: Registry)
    requires t.op == t'.op && t.row == t'.row && t.op.OfManager() && (t.op.Install? ==> t.row.Some?)
    ensures Written(t, base) == Written(t', base)
  {
  }

  lemma OtherTakesEffect(t: Task, base: Registry)
    requires t.op.OfManager() && !t.op.Edit?
    requires t.op.Install? ==> t.row.Some? && InstallDone(t.op, base.installs, t.row.value)
    requires t.op.Remove? ==> t.op.removed in base.installs
    ensures TakesEffect(t.op, base, Written(t, base))
  {
  }

  /** An operation that has read the registry as it is goes on to the end. */
  lemma Finishes(u: World, id: nat) returns (v': World)
    requires Inv(u) && u.history != [] && Available(u) && AtLock(u, id) && u.tasks[id].critical == Outside
    requires u.tasks[id].op.OfManager() && u.tasks[id].snapshot == |u.history| - 1
    requires u.tasks[id].stage == (if u.tasks[id].op.Install? then NeedsPublish else NeedsCommit)
    requires u.tasks[id].op.Install? ==>
               u.tasks[id].row.Some? && InstallDone(u.tasks[id].op, Current(u).installs, u.tasks[id].row.value)
    ensures Reaches(Smooth, u, v') && Released(u, v') && v'.tasks == u.tasks - {id}
    ensures v'.history != [] && v'.history == u.history + [Current(v')]
    ensures TakesEffect(u.tasks[id].op, Current(u), Current(v'))
    ensures v'.packages == u.packages + Package(u.tasks[id].op)
  {
    hide LockInv, HistoryIsSequential, AllInformed, AllStaged, UniqueNames, TakesEffect, Written, InstallDone, Released;
    if u.tasks[id].op.Edit? {
      RowIsReady(u, id);
      ReachesItself(Smooth, u);
      v' := EditCommits(u, u, id);
      EditTakesEffect(u, id, Current(v'));
      assert u.packages + {} == u.packages;
    } else {
      if u.tasks[id].op.Remove? {
        RemovalIsReady(u, id);
      }
      if u.tasks[id].op.Install? {
        v' := PublishesAndCommits(u, id);
        WrittenBySame(u.tasks[id], Published(u.tasks[id]), Current(u));
      } else {
        ReachesItself(Smooth, u);
        v' := Commits(u, u, id);
        assert u.packages + {} == u.packages;
      }
      OtherTakesEffect(u.tasks[id], Current(u));
    }
  }

  lemma ReleasedSinceBegin(v: World, id: nat, t: Task, u: World, v': World)
    requires id !in v.tasks && u == v.(tasks := v.tasks[id := t]) && Released(u, v') && v'.tasks == u.tasks - {id}
    ensures Released(v, v') && v'.tasks == v.tasks
  {
    assert v'.tasks == v.tasks;
  }

  /**
   An operation that finds no reason to give up can run to its end without a failure as soon as the lock can be
   had. Then its change, and no other, is written on top of the registry there was, the package of an install
   is stored, the lock is free, and no other operation was touched.
   */
  lemma UndisturbedOperationTakesEffect(v: World, p: Process, op: Operation) returns (v': World)
    requires Inv(v) && v.history != [] && Available(v) && op.OfManager() && !GivesUp(op, Fresh, Current(v))
    requires p in v.alive && p in v.enabledAt && v.enabledAt[p] < |v.history|
    ensures Reaches(Undisturbed, v, v') && Released(v, v') && v'.tasks == v.tasks
    ensures v'.history != [] && v'.history == v.history + [Current(v')]
    ensures TakesEffect(op, Current(v), Current(v'))
    ensures v'.packages == v.packages + if op.Install? then {(op.id, op.digest)} else {}
  {
    var u, id := BeginsAndReads(v, p, op);
    ReachedKeepsInv(Undisturbed, v, u);
    hide Inv, GivesUp, TakesEffect, InstallDone, Released;
    v' := Finishes(u, id);
    ReleasedSinceBegin(v, id, u.tasks[id], u, v');
    ReachesByMore(Smooth, Undisturbed, u, v');
    ReachesTransitively(Undisturbed, v, u, v');
  }
}
