/**
 When beginning an install is safe. It is not where nothing protects its process from a purge,
 or where the row it may build from an old registry names a package that is gone. The condition
 is exact: from every state an orderly run reaches, an install that begins can lead to a row
 without its package if and only if it is reckless.
 */
module PluginInstall {
  import opened Wrappers
  import opened PluginRegistry
  import opened PluginLock
  import opened PluginHistory
  import opened PluginRuns
  import opened PluginProgress
  import opened PluginHosts
  import opened PluginPackages
  import opened PluginOperations
  import opened PluginDispose

  /** The install has begun. */
  function Installing(v: World, p: Process, d: nat, op: Operation): World {
    WithTask(v, d, Started(p, op))
  }

  lemma InstallBegins(v: World, p: Process, d: nat, op: Operation)
    requires ProcessesAreDistinct(v) && p in v.enabledAt && d !in v.tasks && op.Install?
    ensures Next(v, Begin(d, p, op)) == Some(Installing(v, p, d, op)) && p in v.alive
  {
  }

  // ---------------------------------------------------------------- nothing protects the process

  /** A marker of an unprotected process is about to go. */
  lemma UnprotectedMarkerIsDue(v: World, p: Process, d: nat, op: Operation, marker: Token)
    requires HostInv(v) && d !in v.tasks && !Protected(v, p) && RegisteredIn(v, p, marker)
    ensures HasDisposal(Installing(v, p, d, op), p, marker)
  {
    assert !LeftBehind(v, p, marker);
    var e :| Disposes(v, e, marker);
    assert v.tokens[marker] == p;
    assert DisposesFor(Installing(v, p, d, op), e, p, marker);
  }

  lemma UnprotectedIsUnsafe(v: World, p: Process, d: nat, op: Operation)
    requires SoundInv(v) && p in v.enabledAt && d !in v.tasks && op.Install? && !Protected(v, p) && !LockLost(v, p)
    ensures Unsafe(Installing(v, p, d, op), p, d) && !LockLost(Installing(v, p, d, op), p)
  {
    var u := Installing(v, p, d, op);
    forall marker | RegisteredIn(u, p, marker) ensures HasDisposal(u, p, marker) {
      assert RegisteredIn(v, p, marker);
      UnprotectedMarkerIsDue(v, p, d, op, marker);
    }
    InstallingKeepsLock(v, p, d, op);
    hide LockLost, Inspects;
  }

  lemma InstallingKeepsLock(v: World, p: Process, d: nat, op: Operation)
    requires d !in v.tasks && op.Install?
    ensures LockLost(Installing(v, p, d, op), p) <==> LockLost(v, p)
  {
    var u := Installing(v, p, d, op);
    forall c ensures IsOccupant(u, c) <==> IsOccupant(v, c) {}
  }

  // ---------------------------------------------------------------- an old registry names a package that is gone

  /**
   The row of this install mentions a package that is neither on disk nor its own, and its snapshot
   is out of date.
   */
  ghost predicate Doubtful(v: World, p: Process, x: nat, gone: Package) {
    && v.history != [] && p in v.alive && p in v.enabledAt && v.enabledAt[p] < |v.history|
    && x in v.tasks && v.tasks[x].process == p && v.tasks[x].op.Install?
    && v.tasks[x].critical == Outside && v.tasks[x].attempt == 0 && v.tasks[x].snapshot < |v.history| - 1
    && v.tasks[x].row.Some? && gone in RowPackages(v.tasks[x].row.value)
    && gone !in v.packages && gone != (v.tasks[x].op.id, v.tasks[x].op.digest)
  }

  lemma OldReadEffect(v: World, p: Process, d: nat, op: Operation, k: nat)
    requires op.Install? && p in v.enabledAt && v.enabledAt[p] <= k < |v.history|
    requires BuildRow(op, v.history[k].installs).Some?
    ensures Next(Installing(v, p, d, op), Read(d, k)) == Some(WithTask(v, d,
        Started(p, op).(stage := NeedsPublish, snapshot := k, row := BuildRow(op, v.history[k].installs))))
  {
    var t := Started(p, op).(stage := NeedsPublish, snapshot := k, row := BuildRow(op, v.history[k].installs));
    assert v.tasks[d := Started(p, op)][d := t] == v.tasks[d := t];
  }

  /** The install reads an old registry that names a package which is gone. */
  lemma ReadsOldRegistry(v: World, p: Process, d: nat, op: Operation) returns (v': World, gone: Package)
    requires SoundInv(v) && p in v.enabledAt && d !in v.tasks && op.Install? && !ReadsBacked(v, p, op)
    ensures Reaches(Tame, Installing(v, p, d, op), v') && Doubtful(v', p, d, gone)
    ensures d in v'.tasks && v'.tasks[d].stage == NeedsPublish && v'.tasks[d].critical == Outside
    ensures v'.alive == v.alive && v'.lock == v.lock && v'.tasks == v.tasks[d := v'.tasks[d]]
  {
    var k :| v.enabledAt[p] <= k < |v.history| && BuildRow(op, v.history[k].installs).Some?
        && !(RowPackages(BuildRow(op, v.history[k].installs).value) <= v.packages + {(op.id, op.digest)});
    gone :| gone in RowPackages(BuildRow(op, v.history[k].installs).value)
        && gone !in v.packages + {(op.id, op.digest)};
    LastRegistryIsBacked(v, op, k);
    OldReadEffect(v, p, d, op, k);
    ReachesItself(Tame, Installing(v, p, d, op));
    v' := Does(Tame, Installing(v, p, d, op), Installing(v, p, d, op), Read(d, k));
  }

  lemma LastRegistryIsBacked(v: World, op: Operation, k: nat)
    requires SoundInv(v) && op.Install? && k < |v.history| && BuildRow(op, v.history[k].installs).Some?
    requires !(RowPackages(BuildRow(op, v.history[k].installs).value) <= v.packages + {(op.id, op.digest)})
    ensures k < |v.history| - 1
  {
    if k == |v.history| - 1 {
      BuiltRowIsBacked(op, Current(v).installs, v.packages);
    }
  }

  /** Whoever stands in the way of the install at the lock fails or crashes. */
  lemma LockIsMadeAvailable(v: World, p: Process, x: nat, gone: Package) returns (v': World)
    requires Inv(v) && Doubtful(v, p, x, gone) && !LockLost(v, p)
    ensures Reaches(Tame, v, v') && Doubtful(v', p, x, gone) && Available(v') && v'.tasks[x] == v.tasks[x]
  {
    ReachesItself(Tame, v);
    if HasOccupant(v) {
      var c :| IsOccupant(v, c);
      assert Fits(v, c);
      v' := FailsUnderLock(v, c);
    } else if Orphaned(v) {
      v' := Does(Tame, v, v, Crash(v.lock.value.record.owner));
    } else {
      v' := v;
    }
  }

  lemma PublishesDoubtfully(v: World, p: Process, x: nat, gone: Package) returns (v': World)
    requires Inv(v) && Doubtful(v, p, x, gone) && Available(v) && v.tasks[x].stage == NeedsPublish
    ensures Reaches(Tame, v, v') && Doubtful(v', p, x, gone) && Available(v') && v'.tasks[x].stage == NeedsCommit
  {
    ReachesItself(Tame, v);
    v' := PublishesTamely(v, v, x);
  }

  /** The name of the install is freed, so that it may read again. */
  lemma FreesNameDoubtfully(v: World, p: Process, x: nat, gone: Package) returns (v': World)
    requires Inv(v) && Doubtful(v, p, x, gone) && Available(v)
    ensures Reaches(Tame, v, v') && Doubtful(v', p, x, gone) && Available(v') && v'.tasks[x] == v.tasks[x]
    ensures NoConflict(Current(v').installs, v.tasks[x].op.name, v.tasks[x].op.scope, Replaced(v.tasks[x].op))
  {
    var op := v.tasks[x].op;
    if NoConflict(Current(v).installs, op.name, op.scope, Replaced(op)) {
      v' := v;
      ReachesItself(Tame, v);
    } else {
      var k :| k in Current(v).installs && Current(v).installs[k].name == op.name
          && Current(v).installs[k].scope == op.scope;
      NameIsFreed(Current(v).installs, op, k);
      v' := SimplyWrites(v, p, Remove(k));
    }
  }

  lemma LosesDoubtfully(v: World, p: Process, x: nat, gone: Package) returns (v': World)
    requires Inv(v) && Doubtful(v, p, x, gone) && Available(v) && v.tasks[x].stage == NeedsCommit
    ensures Reaches(Tame, v, v') && v'.tasks == v.tasks[x := Retrying(v.tasks[x])] && Available(v')
    ensures v'.history == v.history && v'.packages == v.packages && v'.enabledAt == v.enabledAt
  {
    ReachesItself(Smooth, v);
    v' := LosesRace(v, v, x);
    ReachesItself(Tame, v);
    Tamely(v, v, v');
  }

  /** An install that reads again commits the row it has built before. */
  lemma CommitsOldRow(v: World, x: nat) returns (v': World)
    requires Inv(v) && Available(v) && x in v.tasks && v.tasks[x].op.Install? && v.tasks[x].stage == Retry
        && v.tasks[x].critical == Outside && v.tasks[x].row.Some?
    requires v.tasks[x].process in v.enabledAt && v.enabledAt[v.tasks[x].process] < |v.history|
    requires NoConflict(Current(v).installs, v.tasks[x].op.name, v.tasks[x].op.scope, Replaced(v.tasks[x].op))
    requires !(RowPackages(v.tasks[x].row.value) <= v.packages)
    ensures Reaches(Tame, v, v') && Broken(v')
  {
    RetryReadEffect(v, x);
    ReachesItself(Tame, v);
    var u := Does(Tame, v, v, Read(x, |v.history| - 1));
    v' := CommitsSimply(v, u, x);
    assert Current(v').installs[v.tasks[x].op.id] == v.tasks[x].row.value;
  }

  lemma DoubtfulIsBroken(v: World, p: Process, x: nat, gone: Package) returns (v': World)
    requires Inv(v) && Doubtful(v, p, x, gone) && Available(v) && v.tasks[x].stage == NeedsCommit
    requires NoConflict(Current(v).installs, v.tasks[x].op.name, v.tasks[x].op.scope, Replaced(v.tasks[x].op))
    ensures Reaches(Tame, v, v') && Broken(v')
  {
    var u := LosesDoubtfully(v, p, x, gone);
    ReachedKeepsInv(Tame, v, u);
    v' := CommitsOldRow(u, x);
    ReachesTransitively(Tame, v, u, v');
  }

  /** An install that reads a registry naming a package that is gone can be made to commit that name. */
  lemma DoubtfulBreaks(v: World, p: Process, x: nat, gone: Package) returns (v': World)
    requires Inv(v) && Doubtful(v, p, x, gone) && !LockLost(v, p) && v.tasks[x].stage == NeedsPublish
    ensures Reaches(Tame, v, v') && Broken(v')
  {
    hide Inv, Doubtful, Available, LockLost;
    var v1 := LockIsMadeAvailable(v, p, x, gone);
    ReachedKeepsInv(Tame, v, v1);
    var v2 := PublishesDoubtfully(v1, p, x, gone);
    ReachesTransitively(Tame, v, v1, v2);
    ReachedKeepsInv(Tame, v, v2);
    var v3 := FreesNameDoubtfully(v2, p, x, gone);
    ReachesTransitively(Tame, v, v2, v3);
    ReachedKeepsInv(Tame, v, v3);
    v' := DoubtfulIsBroken(v3, p, x, gone);
    ReachesTransitively(Tame, v, v3, v');
  }

  // ---------------------------------------------------------------- the exact condition

  lemma UnprotectedInstallBreaks(v: World, p: Process, d: nat, op: Operation) returns (u: World)
    requires SoundInv(v) && p in v.enabledAt && d !in v.tasks && op.Install? && !Protected(v, p) && !LockLost(v, p)
    ensures Reaches(Orderly, Installing(v, p, d, op), u) && Broken(u)
  {
    UnprotectedIsUnsafe(v, p, d, op);
    InstallBegins(v, p, d, op);
    StepKeepsInv(v, Begin(d, p, op), Installing(v, p, d, op));
    u := UnsafeBreaks(Installing(v, p, d, op), p, d);
  }

  lemma LockIsNotLostYet(v: World, p: Process, d: nat, v': World)
    requires !LockLost(v, p) && d !in v.tasks && d in v'.tasks && v'.tasks[d].critical == Outside
    requires v'.alive == v.alive && v'.lock == v.lock && v'.tasks == v.tasks[d := v'.tasks[d]]
    ensures !LockLost(v', p)
  {
    forall c ensures IsOccupant(v', c) <==> IsOccupant(v, c) {}
  }

  lemma UnbackedInstallBreaks(v: World, p: Process, d: nat, op: Operation) returns (u: World)
    requires SoundInv(v) && p in v.enabledAt && d !in v.tasks && op.Install?
    requires !ReadsBacked(v, p, op) && !LockLost(v, p)
    ensures Reaches(Orderly, Installing(v, p, d, op), u) && Broken(u)
  {
    var w0 := Installing(v, p, d, op);
    InstallBegins(v, p, d, op);
    StepKeepsInv(v, Begin(d, p, op), w0);
    hide Inv, HostInv, PackagesAreStored, LockLost, ReadsBacked, Doubtful, Next, Orderly;
    var v1, gone := ReadsOldRegistry(v, p, d, op);
    LockIsNotLostYet(v, p, d, v1);
    ReachedKeepsInv(Tame, w0, v1);
    u := DoubtfulBreaks(v1, p, d, gone);
    ReachesTransitively(Tame, w0, v1, u);
    TamelyIsOrderly(w0, u);
  }

  /**
   In every state that an orderly run reaches: an install that begins can lead, by orderly steps,
   to a row whose package is not on disk if and only if it is reckless.
   */
  lemma InstallBreaksIffReckless(w: World, actions: seq<Action>, v: World, p: Process, d: nat, op: Operation)
    requires Initial(w) && Stored(Current(w).installs, w.packages)
    requires Allowed(Orderly, w, actions) && Run(w, actions) == Some(v)
    requires p in v.enabledAt && d !in v.tasks && op.Install?
    ensures Next(v, Begin(d, p, op)) == Some(Installing(v, p, d, op))
    ensures (exists u :: Reaches(Orderly, Installing(v, p, d, op), u) && Broken(u)) <==> Reckless(v, p, op)
  {
    InitialIsSound(w);
    OrderlyRunKeepsSoundInv(w, actions, v);
    InstallBegins(v, p, d, op);
    if !Reckless(v, p, op) {
      forall u | Reaches(Orderly, Installing(v, p, d, op), u) ensures !Broken(u) {
        OrderlyStepKeepsPackages(v, Begin(d, p, op), Installing(v, p, d, op), u);
      }
    } else if Protected(v, p) {
      var u := UnbackedInstallBreaks(v, p, d, op);
    } else {
      var u := UnprotectedInstallBreaks(v, p, d, op);
    }
  }

  /**
   The rule cannot be weakened in any state that it lets a run reach: a step of any kind can lead,
   by orderly steps, to a row whose package is not on disk if and only if it is not orderly.
   */
  lemma OrderlyIsExact(w: World, actions: seq<Action>, v: World, a: Action, v': World)
    requires Initial(w) && Stored(Current(w).installs, w.packages)
    requires Allowed(Orderly, w, actions) && Run(w, actions) == Some(v) && Next(v, a) == Some(v')
    ensures (exists u :: Reaches(Orderly, v', u) && Broken(u)) <==> !Orderly(v, a)
  {
    if Orderly(v, a) {
      InitialIsSound(w);
      OrderlyRunKeepsSoundInv(w, actions, v);
      forall u | Reaches(Orderly, v', u) ensures !Broken(u) {
        OrderlyStepKeepsPackages(v, a, v', u);
      }
    } else if a.op.Install? {
      InstallBreaksIffReckless(w, actions, v, a.process, a.task, a.op);
    } else {
      DisposalBreaksIffRisky(w, actions, v, a.process, a.task);
    }
  }

  // ---------------------------------------------------------------- reckless installs are possible

  lemma FirstHostGoes(u: World, v: World)
    requires u.history != [] && u.lock.None? && u.hosts == map[FIRST := 0] && FIRST in u.enabledAt
    requires u.tasks == map[] && Current(u).liveHosts == map[0 := FIRST] && v == Disposing(u, FIRST, 0)
    ensures !Risky(u, FIRST) && Reckless(v, FIRST, INSTALL)
  {
    forall id ensures !UnspentInstall(u, id, FIRST) {}
    assert Disposes(v, 0, 0);
    forall marker ensures !LeftBehind(v, FIRST, marker) {}
  }

  /** From an empty registry, an install right after the disposal of the host is reckless, and it is not refused. */
  lemma RecklessIsReachable(w: World) returns (v: World)
    requires Empty(w)
    ensures Initial(w) && Stored(Current(w).installs, w.packages)
    ensures Reaches(Orderly, w, v) && Next(v, Begin(1, FIRST, INSTALL)).Some? && Reckless(v, FIRST, INSTALL)
  {
    var u := FirstHostIsUp(w);
    hide Reckless, Risky;
    FirstHostGoes(u, Disposing(u, FIRST, 0));
    DisposalBegins(u, FIRST, 0);
    TamelyIsOrderly(w, u);
    v := Does(Orderly, w, u, Begin(0, FIRST, DisposeHost(0)));
    BeginEffect(v, 1, FIRST, INSTALL);
  }
}
