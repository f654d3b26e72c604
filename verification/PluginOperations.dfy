/**
 Whole operations as runs: an operation takes the available lock, does its work on the registry
 as it is now, and releases the lock. Each lemma says what such a run leaves behind.
 */
module PluginOperations {
  import opened Wrappers
  import opened PluginRegistry
  import opened PluginLock
  import opened PluginHistory
  import opened PluginRuns

  lemma FreshToken(used: set<Token>) returns (token: Token)
    ensures token !in used
  {
    token := Above(used);
  }

  lemma {:induction false} Above(used: set<nat>) returns (bound: nat)
    ensures forall n | n in used :: n < bound
  {
    if used == {} {
      bound := 0;
    } else {
      var n :| n in used;
      var rest := Above(used - {n});
      bound := if rest > n then rest else n + 1;
      forall m | m in used ensures m < bound {
        if m != n {
          assert m in used - {n};
        }
      }
    }
  }

  // ---------------------------------------------------------------- taking the lock

  predicate AtLock(v: World, id: nat) {
    id in v.tasks && (WantsLock(v.tasks[id]) || v.tasks[id].critical.Contending?)
  }

  /** The world in which `id` has taken the lock and read the registry. */
  function Locked(v: World, id: nat, token: Token): World
    requires id in v.tasks && v.history != []
  {
    v.(tokens := v.tokens[token := v.tasks[id].process],
       lock := Some(Full(LockRecord(token, v.tasks[id].process))),
       tasks := v.tasks[id := v.tasks[id].(critical := Inside(token, Some(Current(v)), Some(Current(v))))])
  }

  lemma ContendEffect(v: World, id: nat, token: Token)
    requires id in v.tasks && WantsLock(v.tasks[id]) && token !in v.tokens
    ensures Next(v, Contend(id, token)) ==
            Some(At(v.(tokens := v.tokens[token := v.tasks[id].process]), id, v.lock, Contending(token, None, false)))
  {
  }

  /** `id` holds the lock and has read the registry as it is now. */
  ghost predicate InCritical(v: World, id: nat) {
    && v.history != [] && id in v.tasks
    && v.tasks[id].critical.Inside?
    && v.tasks[id].critical.base == Some(Current(v))
    && v.lock == Some(LockOf(v.tasks[id]))
  }

  /**
   What a whole operation may change besides the registry and the packages: the lock is free again, and
   tokens are used up.
   */
  ghost predicate Released(v: World, v': World) {
    v' == v.(history := v'.history, log := v'.log, packages := v'.packages, tasks := v'.tasks, tokens := v'.tokens,
        lock := None)
  }

  /** The operation after a commit that failed on the revision, and after it has published its package. */
  function Retrying(t: Task): Task {
    t.(stage := Retry, attempt := t.attempt + 1, critical := Outside)
  }

  function Published(t: Task): Task {
    t.(stage := NeedsCommit, critical := Outside)
  }

  lemma LockedIsCritical(v: World, id: nat, token: Token)
    requires id in v.tasks && v.history != []
    ensures var u := Locked(v, id, token);
      && InCritical(u, id) && Current(u) == Current(v) && u.history == v.history && u.packages == v.packages
      && u.tasks[id] == v.tasks[id].(critical := Inside(token, Some(Current(v)), Some(Current(v))))
      && u.tasks[id].op == v.tasks[id].op
      && Retrying(u.tasks[id]) == Retrying(v.tasks[id]) && Published(u.tasks[id]) == Published(v.tasks[id])
  {
  }

  /** What follows the taking of the lock, as seen from before. */
  lemma SinceLocked(v: World, id: nat, token: Token, v': World, t: Task)
    requires id in v.tasks && v.history != [] && Released(Locked(v, id, token), v')
    ensures Released(v, v') && Locked(v, id, token).tasks - {id} == v.tasks - {id}
    ensures Locked(v, id, token).tasks[id := t] == v.tasks[id := t]
  {
    assert Locked(v, id, token).tasks[id := t] == v.tasks[id := t];
  }

  /** Taking the lock and reading the registry, put together. */
  lemma EnteredAndRead(v: World, id: nat)
    requires id in v.tasks && v.history != [] && !v.tasks[id].critical.Outside?
    requires LockRecordIsGenuine(v, LockRecord(v.tasks[id].critical.token, v.tasks[id].process))
    ensures var token, u := v.tasks[id].critical.token, Entered(v, id);
      && id in u.tasks && u.history == v.history && u.tasks[id].critical == Inside(token, None, None)
      && At(u, id, u.lock, Inside(token, Some(Current(u)), Some(Current(u)))) == Locked(v, id, token)
  {
    var token, u := v.tasks[id].critical.token, Entered(v, id);
    var r := At(u, id, u.lock, Inside(token, Some(Current(u)), Some(Current(u))));
    assert r.tasks == Locked(v, id, token).tasks;
    assert r.tokens == Locked(v, id, token).tokens;
  }

  lemma WaiterIsGenuine(v: World, id: nat)
    requires LockInv(v) && id in v.tasks && v.tasks[id].critical.Contending?
    ensures LockRecordIsGenuine(v, LockRecord(v.tasks[id].critical.token, v.tasks[id].process))
  {
  }

  lemma WaiterLocks(w: World, v: World, id: nat) returns (v': World)
    requires Reaches(Smooth, w, v) && LockInv(v) && v.history != [] && Available(v)
    requires id in v.tasks && v.tasks[id].critical.Contending?
    ensures Reaches(Smooth, w, v') && v' == Locked(v, id, v.tasks[id].critical.token)
  {
    hide TokensAreGenuine, LockIsHeld, ProcessesAreDistinct, Next, Entered, At, Locked;
    WaiterIsGenuine(v, id);
    EnteredAndRead(v, id);
    var u := TakesLock(w, v, id);
    ReadInsideEffect(u, id);
    v' := Does(Smooth, w, u, ReadInside(id));
  }

  /** An operation takes the available lock and reads the registry. */
  lemma Locks(w: World, v: World, id: nat) returns (v': World, token: Token)
    requires Reaches(Smooth, w, v) && LockInv(v) && v.history != [] && Available(v) && AtLock(v, id)
    ensures Reaches(Smooth, w, v') && v' == Locked(v, id, token)
  {
    hide LockInv, Locked, Next;
    var u := v;
    if WantsLock(v.tasks[id]) {
      token := FreshToken(v.tokens.Keys);
      ContendEffect(v, id, token);
      u := Does(Smooth, w, v, Contend(id, token));
      StepKeepsLockInv(v, Contend(id, token), u);
    } else {
      token := v.tasks[id].critical.token;
    }
    v' := WaiterLocks(w, u, id);
    LockedAfterContending(v, id, token, u, v');
  }

  lemma LockedAfterContending(v: World, id: nat, token: Token, u: World, v': World)
    requires id in v.tasks && v.history != [] && id in u.tasks && u.history == v.history && v' == Locked(u, id, token)
    requires var drawn := v.(tokens := v.tokens[token := v.tasks[id].process]);
      u == v || u == At(drawn, id, v.lock, Contending(token, None, false))
    ensures v' == Locked(v, id, token)
  {
    assert v'.tasks == Locked(v, id, token).tasks;
    assert v'.tokens == Locked(v, id, token).tokens;
  }

  lemma LeaveEffectOn(v: World, id: nat)
    requires IsLeaving(v, id) && !v.tasks[id].op.InitializeHost?
    ensures Next(v, Leave(id)) ==
            Some(v.(lock := None,
                    tasks := if v.tasks[id].stage == Finished then v.tasks - {id}
                             else v.tasks[id := v.tasks[id].(critical := Outside)]))
  {
  }

  // ---------------------------------------------------------------- committing

  /** The registry an operation with the last generation in hand writes. */
  function Written(t: Task, base: Registry): Registry
    requires t.op.OfManager() && (t.op.Install? ==> t.row.Some?)
  {
    base.(revision := base.revision + 1, installs := Apply(CommitOf(t), base.installs),
          purgeRequested := t.op.RequestPurge? || base.purgeRequested)
  }

  lemma CommitEffect(v: World, id: nat)
    requires InCritical(v, id) && v.tasks[id].stage == NeedsCommit && v.tasks[id].snapshot == |v.history| - 1
    requires v.tasks[id].op.OfManager() && !v.tasks[id].op.Edit? && (v.tasks[id].op.Install? ==> v.tasks[id].row.Some?)
    ensures var t := v.tasks[id];
      Next(v, CommitInside(id)) ==
      Some(v.(history := v.history + [Written(t, Current(v))], log := v.log + [CommitOf(t)],
              tasks := v.tasks[id := t.(critical := Leaving(t.critical.token), stage := Finished)]))
  {
  }

  lemma CommitsInside(w: World, v: World, id: nat) returns (v': World)
    requires Reaches(Smooth, w, v)
    requires InCritical(v, id) && v.tasks[id].stage == NeedsCommit && v.tasks[id].snapshot == |v.history| - 1
    requires v.tasks[id].op.OfManager() && !v.tasks[id].op.Edit? && (v.tasks[id].op.Install? ==> v.tasks[id].row.Some?)
    ensures Reaches(Smooth, w, v') && Released(v, v') && v'.packages == v.packages
    ensures v'.tasks == v.tasks - {id}
    ensures v'.history == v.history + [Written(v.tasks[id], Current(v))]
  {
    hide Next;
    CommitEffect(v, id);
    var u := Does(Smooth, w, v, CommitInside(id));
    LeaveEffectOn(u, id);
    v' := Does(Smooth, w, u, Leave(id));
    assert v'.tasks == v.tasks - {id};
  }

  /** An up-to-date operation commits and ends. */
  lemma Commits(w: World, v: World, id: nat) returns (v': World)
    requires Reaches(Smooth, w, v) && Inv(v) && v.history != [] && Available(v) && AtLock(v, id)
    requires v.tasks[id].stage == NeedsCommit && v.tasks[id].snapshot == |v.history| - 1
    requires v.tasks[id].op.OfManager() && !v.tasks[id].op.Edit? && (v.tasks[id].op.Install? ==> v.tasks[id].row.Some?)
    ensures Reaches(Smooth, w, v') && Released(v, v') && v'.packages == v.packages
    ensures v'.tasks == v.tasks - {id}
    ensures v'.history == v.history + [Written(v.tasks[id], Current(v))]
  {
    hide LockInv, HistoryIsSequential, AllInformed, AllStaged, UniqueNames;
    hide Locked, Released, InCritical, Retrying, Published;
    var u, token := Locks(w, v, id);
    LockedIsCritical(v, id, token);
    v' := CommitsInside(w, u, id);
    SinceLocked(v, id, token, v', v.tasks[id]);
  }

  lemma ConflictEffect(v: World, id: nat)
    requires InCritical(v, id) && v.tasks[id].stage == NeedsCommit && v.tasks[id].attempt < 2
    requires v.tasks[id].op.Install? && v.tasks[id].row.Some?
    requires v.tasks[id].snapshot < |v.history| && v.history[v.tasks[id].snapshot].revision != Current(v).revision
    ensures var t := v.tasks[id];
      Next(v, CommitInside(id)) ==
      Some(WithTask(v, id, t.(stage := Retry, attempt := t.attempt + 1, critical := Leaving(t.critical.token))))
  {
  }

  lemma LosesRaceInside(w: World, v: World, id: nat) returns (v': World)
    requires Reaches(Smooth, w, v)
    requires InCritical(v, id) && v.tasks[id].stage == NeedsCommit && v.tasks[id].attempt < 2
    requires v.tasks[id].op.Install? && v.tasks[id].row.Some?
    requires v.tasks[id].snapshot < |v.history| && v.history[v.tasks[id].snapshot].revision != Current(v).revision
    ensures Reaches(Smooth, w, v') && Released(v, v') && v'.packages == v.packages && v'.history == v.history
    ensures v'.tasks == v.tasks[id := Retrying(v.tasks[id])]
  {
    hide Next;
    ConflictEffect(v, id);
    var u := Does(Smooth, w, v, CommitInside(id));
    LeaveEffectOn(u, id);
    v' := Does(Smooth, w, u, Leave(id));
    assert v'.tasks == v.tasks[id := Retrying(v.tasks[id])];
  }

  lemma OutOfDate(v: World, id: nat)
    requires Inv(v) && id in v.tasks && v.tasks[id].op.Install? && v.tasks[id].stage == NeedsCommit
    requires v.tasks[id].snapshot < |v.history| - 1
    ensures v.tasks[id].row.Some? && v.history[v.tasks[id].snapshot].revision != Current(v).revision
  {
    assert Informed(v.history, v.tasks[id]);
  }

  /** The commit of an install whose snapshot is out of date fails, and the install will read again. */
  lemma LosesRace(w: World, v: World, id: nat) returns (v': World)
    requires Reaches(Smooth, w, v) && Inv(v) && v.history != [] && Available(v) && AtLock(v, id)
    requires v.tasks[id].op.Install? && v.tasks[id].stage == NeedsCommit && v.tasks[id].attempt < 2
    requires v.tasks[id].snapshot < |v.history| - 1
    ensures Reaches(Smooth, w, v') && Released(v, v') && v'.packages == v.packages && v'.history == v.history
    ensures v'.tasks == v.tasks[id := Retrying(v.tasks[id])]
  {
    OutOfDate(v, id);
    hide LockInv, HistoryIsSequential, AllInformed, AllStaged, UniqueNames;
    hide Locked, Released, InCritical, Retrying, Published;
    var u, token := Locks(w, v, id);
    LockedIsCritical(v, id, token);
    v' := LosesRaceInside(w, u, id);
    SinceLocked(v, id, token, v', Retrying(v.tasks[id]));
  }

  lemma PublishEffect(v: World, id: nat)
    requires InCritical(v, id) && v.tasks[id].op.Install? && v.tasks[id].stage == NeedsPublish
    ensures var t := v.tasks[id];
      Next(v, Publish(id)) ==
      Some(v.(packages := v.packages + {(t.op.id, t.op.digest)},
              tasks := v.tasks[id := t.(stage := NeedsCommit, critical := Leaving(t.critical.token))]))
  {
  }

  lemma PublishesInside(w: World, v: World, id: nat) returns (v': World)
    requires Reaches(Smooth, w, v) && InCritical(v, id) && v.tasks[id].op.Install? && v.tasks[id].stage == NeedsPublish
    ensures Reaches(Smooth, w, v') && Released(v, v') && v'.history == v.history
    ensures v'.tasks == v.tasks[id := Published(v.tasks[id])]
    ensures v'.packages == v.packages + {(v.tasks[id].op.id, v.tasks[id].op.digest)}
  {
    hide Next;
    PublishEffect(v, id);
    var u := Does(Smooth, w, v, Publish(id));
    LeaveEffectOn(u, id);
    v' := Does(Smooth, w, u, Leave(id));
    assert v'.tasks == v.tasks[id := Published(v.tasks[id])];
  }

  /** An install publishes its package. */
  lemma Publishes(w: World, v: World, id: nat) returns (v': World)
    requires Reaches(Smooth, w, v) && Inv(v) && v.history != [] && Available(v) && AtLock(v, id)
    requires v.tasks[id].op.Install? && v.tasks[id].stage == NeedsPublish
    ensures Reaches(Smooth, w, v') && Released(v, v') && v'.history == v.history
    ensures v'.tasks == v.tasks[id := Published(v.tasks[id])]
    ensures v'.packages == v.packages + {(v.tasks[id].op.id, v.tasks[id].op.digest)}
  {
    hide LockInv, HistoryIsSequential, AllInformed, AllStaged, UniqueNames;
    hide Locked, Released, InCritical, Retrying, Published;
    var u, token := Locks(w, v, id);
    LockedIsCritical(v, id, token);
    v' := PublishesInside(w, u, id);
    SinceLocked(v, id, token, v', Published(v.tasks[id]));
  }

  // ---------------------------------------------------------------- the life cycle of a host

  function WithoutMarker(r: Registry, marker: Token): Registry {
    r.(revision := r.revision + 1, liveHosts := r.liveHosts - {marker})
  }

  lemma UnregisterEffect(v: World, id: nat)
    requires InCritical(v, id) && v.tasks[id].op.DisposeHost? && v.tasks[id].stage == Fresh
    ensures var t := v.tasks[id];
      var left := v.tasks[id := t.(stage := Finished, critical := Leaving(t.critical.token))];
      Next(v, Unregister(id)) ==
      Some(if t.op.marker in Current(v).liveHosts
           then v.(history := v.history + [WithoutMarker(Current(v), t.op.marker)], log := v.log + [Untouched],
               tasks := left)
           else v.(tasks := left))
  {
  }

  /** A disposal that has read the registry under the lock removes its marker and ends. */
  lemma Unregisters(w: World, v: World, id: nat) returns (v': World)
    requires Reaches(Smooth, w, v) && InCritical(v, id) && v.tasks[id].op.DisposeHost? && v.tasks[id].stage == Fresh
    ensures Reaches(Smooth, w, v') && Released(v, v') && v'.packages == v.packages && v'.tasks == v.tasks - {id}
    ensures (v'.history == v.history && v.tasks[id].op.marker !in Current(v).liveHosts)
            || v'.history == v.history + [WithoutMarker(Current(v), v.tasks[id].op.marker)]
  {
    hide Next;
    UnregisterEffect(v, id);
    var u := Does(Smooth, w, v, Unregister(id));
    LeaveEffectOn(u, id);
    v' := Does(Smooth, w, u, Leave(id));
    assert v'.tasks == v.tasks - {id};
  }

  /** A disposal runs from the start to the end. */
  lemma FinishesDisposal(w: World, v: World, id: nat) returns (v': World)
    requires Reaches(Smooth, w, v) && Inv(v) && v.history != [] && Available(v) && AtLock(v, id)
    requires v.tasks[id].op.DisposeHost? && v.tasks[id].stage == Fresh
    ensures Reaches(Smooth, w, v') && Released(v, v') && v'.packages == v.packages && v'.tasks == v.tasks - {id}
    ensures (v'.history == v.history && v.tasks[id].op.marker !in Current(v).liveHosts)
            || v'.history == v.history + [WithoutMarker(Current(v), v.tasks[id].op.marker)]
  {
    hide LockInv, HistoryIsSequential, AllInformed, AllStaged, UniqueNames;
    hide Locked, Released, InCritical, Retrying, Published;
    var u, token := Locks(w, v, id);
    LockedIsCritical(v, id, token);
    v' := Unregisters(w, u, id);
    SinceLocked(v, id, token, v', v.tasks[id]);
  }

  // ---------------------------------------------------------------- operations of a living process

  /** No lock file, and nothing of `p` in the registry: `p` is the only living process. */
  ghost predicate Calm(v: World, p: Process) {
    && v.history != [] && v.lock.None? && v.alive == {p}
    && p in v.enabledAt && v.enabledAt[p] < |v.history|
    && forall marker | marker in Current(v).liveHosts :: Current(v).liveHosts[marker] != p
  }

  function Started(p: Process, op: Operation): Task {
    Task(p, op, Fresh, 0, 0, None, Outside)
  }

  lemma BeginEffect(v: World, id: nat, p: Process, op: Operation)
    requires id !in v.tasks && p in v.alive && p in v.enabledAt && op.OfManager()
    ensures Next(v, Begin(id, p, op)) == Some(WithTask(v, id, Started(p, op)))
  {
  }

  /** A removal of a row that is there, or a request to purge. */
  predicate Simple(op: Operation, installs: map<InstallId, Row>) {
    op.RequestPurge? || (op.Remove? && op.removed in installs)
  }

  lemma SimpleReadEffect(v: World, id: nat, p: Process, op: Operation)
    requires v.history != [] && p in v.enabledAt && v.enabledAt[p] < |v.history| && Simple(op, Current(v).installs)
    ensures Next(WithTask(v, id, Started(p, op)), Read(id, |v.history| - 1)) ==
            Some(WithTask(v, id, Started(p, op).(stage := NeedsCommit, snapshot := |v.history| - 1)))
  {
    assert v.tasks[id := Started(p, op)][id := Started(p, op).(stage := NeedsCommit, snapshot := |v.history| - 1)] ==
           v.tasks[id := Started(p, op).(stage := NeedsCommit, snapshot := |v.history| - 1)];
  }

  lemma StartsSimply(v: World, p: Process, op: Operation) returns (u: World, id: nat)
    requires v.history != [] && p in v.alive && p in v.enabledAt && v.enabledAt[p] < |v.history|
    requires Simple(op, Current(v).installs)
    ensures id !in v.tasks && Reaches(Tame, v, u)
    ensures u == WithTask(v, id, Started(p, op).(stage := NeedsCommit, snapshot := |v.history| - 1))
  {
    id := FreshToken(v.tasks.Keys);
    BeginEffect(v, id, p, op);
    SimpleReadEffect(v, id, p, op);
    ReachesItself(Tame, v);
    var v1 := Does(Tame, v, v, Begin(id, p, op));
    u := Does(Tame, v, v1, Read(id, |v.history| - 1));
  }

  /** A living process removes a row or requests a purge, from the start to the end. */
  lemma SimplyWrites(v: World, p: Process, op: Operation) returns (v': World)
    requires Inv(v) && Available(v) && p in v.alive && p in v.enabledAt && v.enabledAt[p] < |v.history|
    requires Simple(op, Current(v).installs)
    ensures Reaches(Tame, v, v') && Released(v, v') && v'.packages == v.packages && v'.tasks == v.tasks
    ensures v'.history == v.history + [Written(Started(p, op), Current(v))]
  {
    var u, id := StartsSimply(v, p, op);
    v' := CommitsSimply(v, u, id);
    SimplyWritten(v, u, id, p, op, v');
  }

  lemma SimplyWritten(v: World, u: World, id: nat, p: Process, op: Operation, v': World)
    requires v.history != [] && id !in v.tasks && Simple(op, Current(v).installs)
    requires u == WithTask(v, id, Started(p, op).(stage := NeedsCommit, snapshot := |v.history| - 1))
    requires Released(u, v') && v'.packages == u.packages && v'.tasks == u.tasks - {id}
    requires v'.history == u.history + [Written(u.tasks[id], Current(u))]
    ensures Released(v, v') && v'.packages == v.packages && v'.tasks == v.tasks
    ensures v'.history == v.history + [Written(Started(p, op), Current(v))]
  {
    assert v'.tasks == v.tasks;
  }

  lemma CommitsSimply(v: World, u: World, id: nat) returns (v': World)
    requires Inv(v) && Reaches(Tame, v, u) && Available(u) && AtLock(u, id)
    requires u.tasks[id].stage == NeedsCommit && u.tasks[id].snapshot == |u.history| - 1
    requires u.tasks[id].op.Remove? || u.tasks[id].op.RequestPurge?
        || (u.tasks[id].op.Install? && u.tasks[id].row.Some?)
    ensures Reaches(Tame, v, v') && Released(u, v') && v'.packages == u.packages
    ensures v'.tasks == u.tasks - {id}
    ensures v'.history == u.history + [Written(u.tasks[id], Current(u))]
  {
    ReachedKeepsInv(Tame, v, u);
    ReachesItself(Smooth, u);
    v' := Commits(u, u, id);
    Tamely(v, u, v');
  }

  // ---------------------------------------------------------------- a new host

  /** A new process begins to initialize a host; no marker in the registry is its own. */
  lemma HostBegins(v: World, p: Process) returns (u: World, id: nat, q: Process, marker: Token)
    requires Calm(v, p) && v.hosts.Keys <= v.alive
    ensures Reaches(Tame, v, u) && id !in v.tasks && q != p && q !in v.hosts
    ensures u == v.(alive := {p, q}, everAlive := v.everAlive + {q}, tokens := v.tokens[marker := q],
                    tasks := v.tasks[id := Started(q, InitializeHost(marker))])
    ensures forall m | m in Current(v).liveHosts :: Current(v).liveHosts[m] !in {p, q}
  {
    var fingerprint := FreshToken((set r | r in v.everAlive :: r.fingerprint)
                                  + (set r | r in Current(v).liveHosts.Values :: r.fingerprint));
    q := Process(p.pid + 1, fingerprint);
    assert q !in v.everAlive && q !in Current(v).liveHosts.Values;
    ReachesItself(Tame, v);
    var v1 := Does(Tame, v, v, Spawn(q));
    id := FreshToken(v.tasks.Keys);
    marker := FreshToken(v.tokens.Keys);
    u := Does(Tame, v, v1, Begin(id, q, InitializeHost(marker)));
    assert v.alive + {q} == {p, q};
  }

  lemma DropEffect(v: World, id: nat, marker: Token)
    requires Initializing(v, id) && marker in v.tasks[id].critical.latest.value.liveHosts
    requires ProvablyStale(v.alive, v.tasks[id].critical.latest.value.liveHosts[marker])
    ensures var t := v.tasks[id];
      var latest := t.critical.latest.value;
      Next(v, DropMarker(id, marker)) == Some(WithTask(v, id, t.(critical := t.critical.(latest := Some(
        latest.(liveHosts := latest.liveHosts - {marker}, revision := t.critical.base.value.revision + 1))))))
  {
  }

  /** `latest` has the rows and the purge request of `base`. */
  predicate SameRows(latest: Registry, base: Registry) {
    latest.installs == base.installs && latest.purgeRequested == base.purgeRequested
  }

  function Gathered(v: World, id: nat, latest: Registry): World
    requires id in v.tasks && v.tasks[id].critical.Inside?
  {
    WithTask(v, id, v.tasks[id].(critical := v.tasks[id].critical.(latest := Some(latest))))
  }

  lemma GatheredTwice(v: World, id: nat, one: Registry, two: Registry)
    requires id in v.tasks && v.tasks[id].critical.Inside?
    ensures Gathered(Gathered(v, id, one), id, two) == Gathered(v, id, two)
  {
    assert Gathered(Gathered(v, id, one), id, two).tasks == Gathered(v, id, two).tasks;
  }

  /** An initializing host drops every marker when all their processes are dead. */
  lemma {:induction false} DropsAll(w: World, v: World, id: nat) returns (v': World, latest: Registry)
    requires Reaches(Smooth, w, v) && ProcessesAreDistinct(v) && Initializing(v, id)
    requires forall m | m in v.tasks[id].critical.latest.value.liveHosts ::
               v.tasks[id].critical.latest.value.liveHosts[m] !in v.alive
    ensures Reaches(Smooth, w, v') && v' == Gathered(v, id, latest)
    ensures latest.liveHosts == map[] && SameRows(latest, v.tasks[id].critical.latest.value)
    decreases |v.tasks[id].critical.latest.value.liveHosts|
  {
    hide Next, ProcessesAreDistinct, ProvablyStale;
    var now := v.tasks[id].critical.latest.value;
    if now.liveHosts == map[] {
      v', latest := v, now;
      assert v'.tasks == Gathered(v, id, latest).tasks;
    } else {
      var marker :| marker in now.liveHosts;
      StaleIffDead(v, now.liveHosts[marker]);
      DropEffect(v, id, marker);
      var u := Does(Smooth, w, v, DropMarker(id, marker));
      var less := u.tasks[id].critical.latest.value;
      FewerMarkers(now.liveHosts, marker);
      DroppingKeepsProcesses(v, u, id);
      v', latest := DropsAll(w, u, id);
      GatheredTwice(v, id, less, latest);
    }
  }

  lemma FewerMarkers(liveHosts: map<Token, Process>, marker: Token)
    requires marker in liveHosts
    ensures |liveHosts - {marker}| < |liveHosts|
  {
    assert (liveHosts - {marker}).Keys == liveHosts.Keys - {marker};
    assert |(liveHosts - {marker}).Keys| < |liveHosts.Keys|;
  }

  lemma DroppingKeepsProcesses(v: World, u: World, id: nat)
    requires ProcessesAreDistinct(v) && id in v.tasks && id in u.tasks && u.tasks[id].process == v.tasks[id].process
    requires u == v.(tasks := v.tasks[id := u.tasks[id]])
    ensures ProcessesAreDistinct(u)
  {
  }

  lemma RegisterEffect(v: World, id: nat)
    requires v.history != [] && Initializing(v, id) && v.tasks[id].critical.latest.value.liveHosts == map[]
    requires v.tasks[id].critical.latest.value.purgeRequested ==>
               AllReferenced(v.tasks[id].critical.latest.value.installs, v.packages)
    ensures var t := v.tasks[id];
      var latest := t.critical.latest.value;
      var next := Registry(latest.revision + 1, latest.installs, map[t.op.marker := t.process], false);
      Next(v, Register(id)) ==
      Some(v.(history := v.history + [next],
              log := v.log + [Untouched],
              tasks := v.tasks[id := t.(stage := Finished, critical := Leaving(t.critical.token))]))
  {
  }

  lemma HostLeaveEffect(v: World, id: nat)
    requires IsLeaving(v, id) && v.tasks[id].op.InitializeHost? && v.tasks[id].stage == Finished
    ensures Next(v, Leave(id)) ==
            Some(v.(lock := None, tasks := v.tasks - {id},
                    hosts := v.hosts[v.tasks[id].process := v.tasks[id].op.marker],
                    enabledAt := v.enabledAt[v.tasks[id].process := |v.history| - 1]))
  {
  }

  /** What a host leaves behind that has initialized where no other living process is registered. */
  ghost predicate HostUp(v: World, id: nat, v': World) {
    && id in v.tasks && v.tasks[id].op.InitializeHost? && v.history != []
    && v'.lock.None? && v'.alive == v.alive && v'.everAlive == v.everAlive && v'.tasks == v.tasks - {id}
    && v'.hosts == v.hosts[v.tasks[id].process := v.tasks[id].op.marker]
    && v'.enabledAt == v.enabledAt[v.tasks[id].process := |v.history|]
    && |v'.history| == |v.history| + 1 && v'.history[..|v.history|] == v.history
    && Current(v').installs == Current(v).installs
    && Current(v').liveHosts == map[v.tasks[id].op.marker := v.tasks[id].process]
    && (Current(v).purgeRequested ==> AllReferenced(Current(v).installs, v'.packages))
  }

  lemma HostRegisters(w: World, v: World, id: nat) returns (v': World)
    requires Reaches(Smooth, w, v) && v.history != [] && Initializing(v, id) && v.lock == Some(LockOf(v.tasks[id]))
    requires v.tasks[id].critical.latest.value.liveHosts == map[]
        && SameRows(v.tasks[id].critical.latest.value, Current(v))
    ensures Reaches(Smooth, w, v') && HostUp(v, id, v')
  {
    var u := PurgesFully(w, v, id);
    RegisterEffect(u, id);
    var u1 := Does(Smooth, w, u, Register(id));
    v' := RegisteredHostIsUp(w, v, u.packages, u1, id);
  }

  lemma RegisteredHostIsUp(w: World, v: World, packages: set<Package>, u: World, id: nat) returns (v': World)
    requires Reaches(Smooth, w, u) && v.history != [] && Initializing(v, id) && v.lock == Some(LockOf(v.tasks[id]))
    requires Current(v).purgeRequested ==> AllReferenced(Current(v).installs, packages)
    requires var t := v.tasks[id];
      exists revision: nat ::
        u == v.(packages := packages,
                history := v.history + [Registry(revision, Current(v).installs, map[t.op.marker := t.process], false)],
                log := v.log + [Untouched],
                tasks := v.tasks[id := t.(stage := Finished, critical := Leaving(t.critical.token))])
    ensures Reaches(Smooth, w, v') && HostUp(v, id, v')
  {
    HostLeaveEffect(u, id);
    v' := Does(Smooth, w, u, Leave(id));
    assert v'.tasks == v.tasks - {id};
  }

  /** A host that has just begun to initialize cleans up, purges where that is due, and registers. */
  lemma HostInitializes(w: World, v: World, id: nat) returns (v': World)
    requires Reaches(Smooth, w, v) && Inv(v) && v.history != [] && Available(v) && AtLock(v, id)
    requires v.tasks[id].op.InitializeHost? && v.tasks[id].stage == Fresh
    requires forall m | m in Current(v).liveHosts :: Current(v).liveHosts[m] !in v.alive
    ensures Reaches(Smooth, w, v') && HostUp(v, id, v')
  {
    assert ProcessesAreDistinct(v);
    hide Inv, ProcessesAreDistinct;
    var u, token := Locks(w, v, id);
    LockingKeepsProcesses(v, id, token, u);
    v' := HostCleansUp(w, u, id);
    assert v'.tasks == v.tasks - {id};
  }

  lemma LockingKeepsProcesses(v: World, id: nat, token: Token, u: World)
    requires ProcessesAreDistinct(v) && id in v.tasks && v.history != [] && u == Locked(v, id, token)
    ensures ProcessesAreDistinct(u)
  {
  }

  lemma HostCleansUp(w: World, v: World, id: nat) returns (v': World)
    requires Reaches(Smooth, w, v) && ProcessesAreDistinct(v) && InCritical(v, id)
    requires v.tasks[id].critical.latest == Some(Current(v))
    requires v.tasks[id].op.InitializeHost? && v.tasks[id].stage == Fresh
    requires forall m | m in Current(v).liveHosts :: Current(v).liveHosts[m] !in v.alive
    ensures Reaches(Smooth, w, v') && HostUp(v, id, v')
  {
    var u, latest := DropsAll(w, v, id);
    GatheringFits(v, id, latest);
    v' := HostRegisters(w, u, id);
    GatheringIsUp(v, id, latest, v');
  }

  lemma GatheringFits(v: World, id: nat, latest: Registry)
    requires InCritical(v, id) && v.tasks[id].critical.latest.Some? && v.tasks[id].op.InitializeHost?
        && v.tasks[id].stage == Fresh
    ensures var u := Gathered(v, id, latest);
      && u.history != [] && Initializing(u, id) && u.lock == Some(LockOf(u.tasks[id])) && Current(u) == Current(v)
      && u.tasks[id].critical.latest.value == latest
  {
  }

  lemma GatheringIsUp(v: World, id: nat, latest: Registry, v': World)
    requires id in v.tasks && v.tasks[id].critical.Inside? && HostUp(Gathered(v, id, latest), id, v')
    ensures HostUp(v, id, v')
  {
    assert v'.tasks == v.tasks - {id};
  }

  /**
   Where no living process is registered, a new host comes up, and deletes what no row mentions if a
   purge was requested.
   */
  lemma NewHost(v: World, p: Process) returns (v': World, q: Process)
    requires Inv(v) && Calm(v, p)
    ensures Reaches(Tame, v, v') && q != p && v'.alive == {p, q} && v'.lock.None? && v'.tasks == v.tasks
    ensures q in v'.hosts && q in v'.enabledAt && v'.enabledAt[q] == |v.history|
    ensures p in v'.enabledAt && v'.enabledAt[p] == v.enabledAt[p]
    ensures |v'.history| == |v.history| + 1 && v'.history[..|v.history|] == v.history
    ensures Current(v').installs == Current(v).installs
    ensures forall m | m in Current(v').liveHosts :: Current(v').liveHosts[m] == q
    ensures Current(v).purgeRequested ==> AllReferenced(Current(v).installs, v'.packages)
  {
    var u, id, marker;
    u, id, q, marker := HostBegins(v, p);
    ReachedKeepsInv(Tame, v, u);
    ReachesItself(Smooth, u);
    v' := HostInitializes(u, u, id);
    Tamely(v, u, v');
    UpAndCalm(v, p, u, id, q, marker, v');
  }

  lemma UpAndCalm(v: World, p: Process, u: World, id: nat, q: Process, marker: Token, v': World)
    requires Calm(v, p) && id !in v.tasks && q != p && HostUp(u, id, v')
    requires u == v.(alive := {p, q}, everAlive := v.everAlive + {q}, tokens := v.tokens[marker := q],
                     tasks := v.tasks[id := Started(q, InitializeHost(marker))])
    ensures v'.alive == {p, q} && v'.lock.None? && v'.tasks == v.tasks
    ensures q in v'.hosts && q in v'.enabledAt && v'.enabledAt[q] == |v.history|
    ensures p in v'.enabledAt && v'.enabledAt[p] == v.enabledAt[p]
    ensures |v'.history| == |v.history| + 1 && v'.history[..|v.history|] == v.history
    ensures Current(v').installs == Current(v).installs
    ensures forall m | m in Current(v').liveHosts :: Current(v').liveHosts[m] == q
    ensures Current(v).purgeRequested ==> AllReferenced(Current(v).installs, v'.packages)
  {
    assert v'.tasks == v.tasks;
  }

  /** The other living process crashes. */
  lemma HostCrashes(v: World, p: Process, q: Process) returns (v': World)
    requires v.alive == {p, q} && p != q && forall id | id in v.tasks :: v.tasks[id].process == p
    ensures Reaches(Tame, v, v') && v' == v.(alive := {p}, hosts := v.hosts - {q}, enabledAt := v.enabledAt - {q})
  {
    ReachesItself(Tame, v);
    v' := Does(Tame, v, v, Crash(q));
    assert v.alive - {q} == {p};
    assert v'.tasks == v.tasks;
  }

  // ---------------------------------------------------------------- a new row

  /** A first installation of `op.id` under the name and scope of `op`. */
  function FirstInstall(op: Operation): Operation
    requires op.Install?
  {
    Install(op.id, op.name, op.scope, op.digest, true, false)
  }

  function FirstRow(op: Operation): Row
    requires op.Install?
  {
    Row(op.id, op.scope, op.name, op.digest, None, true, map[])
  }

  /** A first installation that has read the last registry. */
  function FirstTask(v: World, q: Process, op: Operation): Task
    requires op.Install? && v.history != []
  {
    Started(q, FirstInstall(op)).(stage := NeedsPublish, snapshot := |v.history| - 1, row := Some(FirstRow(op)))
  }

  lemma FirstReadEffect(v: World, id: nat, q: Process, op: Operation)
    requires op.Install? && v.history != [] && q in v.enabledAt && v.enabledAt[q] < |v.history|
    requires NoConflict(Current(v).installs, op.name, op.scope, None)
    ensures Next(WithTask(v, id, Started(q, FirstInstall(op))), Read(id, |v.history| - 1)) ==
            Some(WithTask(v, id, FirstTask(v, q, op)))
  {
    var t := FirstTask(v, q, op);
    assert v.tasks[id := Started(q, FirstInstall(op))][id := t] == v.tasks[id := t];
  }

  lemma StartsInstall(v: World, q: Process, op: Operation) returns (u: World, id: nat)
    requires op.Install? && v.history != [] && q in v.alive && q in v.hosts && q in v.enabledAt
    requires v.enabledAt[q] < |v.history| && NoConflict(Current(v).installs, op.name, op.scope, None)
    ensures id !in v.tasks && Reaches(Tame, v, u) && u == WithTask(v, id, FirstTask(v, q, op))
  {
    hide Next, NoConflict, FirstTask;
    id := FreshToken(v.tasks.Keys);
    BeginEffect(v, id, q, FirstInstall(op));
    FirstReadEffect(v, id, q, op);
    ReachesItself(Tame, v);
    var v1 := Does(Tame, v, v, Begin(id, q, FirstInstall(op)));
    u := Does(Tame, v, v1, Read(id, |v.history| - 1));
  }

  lemma PublishesTamely(v: World, u: World, id: nat) returns (u': World)
    requires Inv(v) && Reaches(Tame, v, u) && Available(u) && AtLock(u, id)
    requires u.tasks[id].op.Install? && u.tasks[id].stage == NeedsPublish
    ensures Reaches(Tame, v, u') && Released(u, u') && u'.history == u.history
    ensures u'.tasks == u.tasks[id := Published(u.tasks[id])]
    ensures u'.packages == u.packages + {(u.tasks[id].op.id, u.tasks[id].op.digest)}
  {
    ReachedKeepsInv(Tame, v, u);
    assert u.history != [];
    hide Inv;
    ReachesItself(Smooth, u);
    u' := Publishes(u, u, id);
    Tamely(v, u, u');
  }

  lemma PublishedFirst(v: World, id: nat, t: Task, u: World)
    requires Released(WithTask(v, id, t), u) && u.history == v.history
    requires u.tasks == WithTask(v, id, t).tasks[id := Published(t)]
    ensures Released(v, u) && u.tasks == v.tasks[id := Published(t)]
  {
  }

  lemma PublishesFirst(v: World, q: Process, op: Operation) returns (u: World, id: nat)
    requires Inv(v) && v.history != [] && v.lock.None? && op.Install?
    requires q in v.alive && q in v.hosts && q in v.enabledAt && v.enabledAt[q] < |v.history|
    requires NoConflict(Current(v).installs, op.name, op.scope, None)
    ensures id !in v.tasks && Reaches(Tame, v, u) && Released(v, u) && u.history == v.history
    ensures u.tasks == v.tasks[id := Published(FirstTask(v, q, op))]
  {
    hide Inv, NoConflict, Released, Published;
    var v1;
    v1, id := StartsInstall(v, q, op);
    u := PublishesTamely(v, v1, id);
    PublishedFirst(v, id, FirstTask(v, q, op), u);
  }

  lemma FirstCommit(v: World, id: nat, q: Process, op: Operation, u: World, v': World)
    requires op.Install? && v.history != [] && id !in v.tasks
    requires Released(v, u) && u.history == v.history && u.tasks == v.tasks[id := Published(FirstTask(v, q, op))]
    requires Released(u, v') && v'.tasks == u.tasks - {id}
    requires v'.history == u.history + [Written(Published(FirstTask(v, q, op)), Current(v))]
    ensures Released(v, v') && v'.tasks == v.tasks && v'.history == v.history + [Current(v')]
    ensures Current(v').installs == Current(v).installs[op.id := FirstRow(op)]
    ensures Current(v').liveHosts == Current(v).liveHosts
  {
    assert v'.tasks == v.tasks;
  }

  /** A host installs a plugin whose name is free, from the start to the end. */
  lemma Installs(v: World, q: Process, op: Operation) returns (v': World)
    requires Inv(v) && v.history != [] && v.lock.None? && op.Install?
    requires q in v.alive && q in v.hosts && q in v.enabledAt && v.enabledAt[q] < |v.history|
    requires NoConflict(Current(v).installs, op.name, op.scope, None)
    ensures Reaches(Tame, v, v') && Released(v, v') && v'.tasks == v.tasks
    ensures v'.history != [] && v'.history == v.history + [Current(v')]
    ensures Current(v').installs == Current(v).installs[op.id := FirstRow(op)]
    ensures Current(v').liveHosts == Current(v).liveHosts
  {
    hide Inv, NoConflict, Written, Reaches;
    var u, id := PublishesFirst(v, q, op);
    assert AtLock(u, id);
    v' := CommitsSimply(v, u, id);
    hide Released, Published, FirstTask;
    FirstCommit(v, id, q, op, u, v');
  }

  // ---------------------------------------------------------------- runs that begin no disposal

  /** No disposal begins, and only first installations on hosts with a marker. */
  ghost predicate Tame(w: World, a: Action) {
    a.Begin? ==>
      && !a.op.DisposeHost?
      && (a.op.Install? ==> a.process in w.hosts && a.process in w.enabledAt && !a.op.replacing)
  }

  lemma Tamely(w: World, v: World, u: World)
    requires Reaches(Tame, w, v) && Reaches(Smooth, v, u)
    ensures Reaches(Tame, w, u)
  {
    ReachesByMore(Smooth, Tame, v, u);
    ReachesTransitively(Tame, w, v, u);
  }
}
