/**
 When disposing a host is safe. Disposing it while its process has an install that may still read
 the registry lets another host delete the published package before the install, retrying,
 commits the row that names it. The condition is exact: from every state an orderly run
 reaches, a disposal can lead to a row without its package if and only if it is risky.
 */
module PluginDispose {
  import opened Wrappers
  import opened PluginRegistry
  import opened PluginLock
  import opened PluginHistory
  import opened PluginRuns
  import opened PluginProgress
  import opened PluginHosts
  import opened PluginPackages
  import opened PluginOperations

  // ---------------------------------------------------------------- the last act: a row without its package

  /** An install of `p` that may still read, and is not at work under the lock. */
  predicate Open(v: World, p: Process, x: nat) {
    && x in v.tasks && v.tasks[x].process == p && v.tasks[x].op.Install? && !Occupies(v.tasks[x])
    && v.tasks[x].stage != Finished && (v.tasks[x].stage == NeedsCommit ==> v.tasks[x].attempt < 2)
  }

  /** Some calm time later: the same operations are under way. */
  ghost predicate CalmLater(v: World, p: Process, v': World) {
    && Calm(v', p) && v'.tasks == v.tasks
    && |v.history| <= |v'.history| && v'.history[..|v.history|] == v.history
  }

  lemma CalmLaterTwice(v: World, p: Process, u: World, v': World)
    requires CalmLater(v, p, u) && CalmLater(u, p, v')
    ensures CalmLater(v, p, v')
  {
    assert v'.history[..|v.history|] == v'.history[..|u.history|][..|v.history|];
  }

  lemma WritesCalmly(v: World, p: Process, op: Operation) returns (v': World)
    requires Inv(v) && Calm(v, p) && Simple(op, Current(v).installs)
    ensures Reaches(Tame, v, v') && Inv(v') && CalmLater(v, p, v') && |v'.history| == |v.history| + 1
    ensures Current(v') == Written(Started(p, op), Current(v)) && v'.packages == v.packages
  {
    v' := SimplyWrites(v, p, op);
    ReachedKeepsInv(Tame, v, v');
  }

  lemma HostGoes(v: World, u: World, p: Process, q: Process) returns (v': World)
    requires Calm(v, p) && q != p && u.alive == {p, q} && u.lock.None? && u.tasks == v.tasks
    requires forall id | id in v.tasks :: v.tasks[id].process == p
    requires p in u.enabledAt && u.enabledAt[p] == v.enabledAt[p]
    requires |u.history| == |v.history| + 1 && u.history[..|v.history|] == v.history
    requires forall m | m in Current(u).liveHosts :: Current(u).liveHosts[m] == q
    ensures Reaches(Tame, u, v') && CalmLater(v, p, v') && v'.history == u.history && v'.packages == u.packages
  {
    v' := HostCrashes(u, p, q);
    assert Current(v') == Current(u);
  }

  /** A new host comes up, cleans up and crashes. */
  lemma HostPasses(v: World, p: Process) returns (v': World)
    requires Inv(v) && Calm(v, p)
    ensures Reaches(Tame, v, v') && Inv(v') && CalmLater(v, p, v') && |v'.history| == |v.history| + 1
    ensures Current(v').installs == Current(v).installs
    ensures Current(v).purgeRequested ==>
              AllReferenced(Current(v).installs, v'.packages)
  {
    AllOf(v, p);
    hide Inv, Reaches;
    var u, q := NewHost(v, p);
    v' := HostGoes(v, u, p, q);
    assert Current(v') == Current(u);
    ReachesTransitively(Tame, v, u, v');
    ReachedKeepsInv(Tame, v, v');
  }

  /** The one row that may hold the name of `op`. */
  lemma NameIsFreed(installs: map<InstallId, Row>, op: Operation, k: InstallId)
    requires op.Install? && UniqueNames(installs) && k in installs
    requires KeyedById(installs) && installs[k].name == op.name && installs[k].scope == op.scope
    ensures NoConflict(installs - {k}, op.name, op.scope, Replaced(op))
  {
  }

  /** Some process frees the name of `op`. */
  lemma FreesName(v: World, p: Process, op: Operation) returns (v': World)
    requires Inv(v) && Calm(v, p) && op.Install?
    ensures Reaches(Tame, v, v') && Inv(v') && CalmLater(v, p, v')
    ensures NoConflict(Current(v').installs, op.name, op.scope, Replaced(op))
  {
    if NoConflict(Current(v).installs, op.name, op.scope, Replaced(op)) {
      v' := v;
      ReachesItself(Tame, v);
    } else {
      var k :| k in Current(v).installs && Current(v).installs[k].name == op.name
          && Current(v).installs[k].scope == op.scope;
      NameIsFreed(Current(v).installs, op, k);
      v' := WritesCalmly(v, p, Remove(k));
    }
  }

  lemma RemovesRow(v: World, p: Process, key: InstallId) returns (v': World)
    requires Inv(v) && Calm(v, p)
    ensures Reaches(Tame, v, v') && Inv(v') && CalmLater(v, p, v')
    ensures Current(v').installs == Current(v).installs - {key}
  {
    if key in Current(v).installs {
      v' := WritesCalmly(v, p, Remove(key));
    } else {
      v' := v;
      ReachesItself(Tame, v);
      assert Current(v).installs - {key} == Current(v).installs;
    }
  }

  /** Some process removes the row of `key` and requests a purge. */
  lemma RemovesAndRequests(v: World, p: Process, key: InstallId) returns (v': World)
    requires Inv(v) && Calm(v, p)
    ensures Reaches(Tame, v, v') && Inv(v') && CalmLater(v, p, v')
    ensures Current(v').installs == Current(v).installs - {key} && Current(v').purgeRequested
  {
    hide Inv, Calm;
    var u := RemovesRow(v, p, key);
    v' := WritesCalmly(u, p, RequestPurge);
    ReachesTransitively(Tame, v, u, v');
    CalmLaterTwice(v, p, u, v');
  }

  lemma OnlyItsRowRefers(installs: map<InstallId, Row>, package: Package)
    requires KeyedById(installs) && package.0 !in installs
    ensures Unreferenced(installs, package)
  {
  }

  /** Other hosts remove the row of `op` and delete its package; the name of `op` is free. */
  lemma DeletesPackage(v: World, p: Process, op: Operation) returns (v': World)
    requires Inv(v) && Calm(v, p) && op.Install?
    ensures Reaches(Tame, v, v') && Inv(v') && CalmLater(v, p, v') && |v.history| < |v'.history|
    ensures NoConflict(Current(v').installs, op.name, op.scope, Replaced(op))
    ensures (op.id, op.digest) !in v'.packages
  {
    var v1 := FreesName(v, p, op);
    var v2 := RemovesAndRequests(v1, p, op.id);
    OnlyItsRowRefers(Current(v2).installs, (op.id, op.digest));
    v' := HostPasses(v2, p);
    ReachesTransitively(Tame, v, v1, v2);
    ReachesTransitively(Tame, v, v2, v');
    CalmLaterTwice(v, p, v1, v2);
    CalmLaterTwice(v, p, v2, v');
  }

  ghost predicate Broken(v: World) {
    v.history != [] && !Stored(Current(v).installs, v.packages)
  }

  lemma RetryReadEffect(v: World, x: nat)
    requires v.history != [] && x in v.tasks && v.tasks[x].op.Install? && v.tasks[x].stage == Retry
        && v.tasks[x].critical == Outside
    requires v.tasks[x].process in v.enabledAt && v.enabledAt[v.tasks[x].process] < |v.history|
    requires NoConflict(Current(v).installs, v.tasks[x].op.name, v.tasks[x].op.scope, Replaced(v.tasks[x].op))
    ensures Next(v, Read(x, |v.history| - 1)) ==
            Some(WithTask(v, x, v.tasks[x].(stage := NeedsCommit, snapshot := |v.history| - 1)))
  {
  }

  /** An install that reads again commits the row it has, whatever became of its package. */
  lemma RetryCommits(v: World, p: Process, x: nat) returns (v': World)
    requires Inv(v) && Calm(v, p) && Open(v, p, x) && v.tasks[x].stage == Retry
    requires NoConflict(Current(v).installs, v.tasks[x].op.name, v.tasks[x].op.scope, Replaced(v.tasks[x].op))
    requires (v.tasks[x].op.id, v.tasks[x].op.digest) !in v.packages
    ensures Reaches(Tame, v, v') && Broken(v')
  {
    RowIsKnown(v, x);
    RetryReadEffect(v, x);
    ReachesItself(Tame, v);
    var u := Does(Tame, v, v, Read(x, |v.history| - 1));
    v' := CommitsSimply(v, u, x);
    RowIsBroken(v', v.tasks[x].op, v.tasks[x].row.value);
  }

  lemma RowIsKnown(v: World, x: nat)
    requires Inv(v) && x in v.tasks && v.tasks[x].op.Install? && v.tasks[x].stage == Retry
    ensures v.tasks[x].critical.Contending? || v.tasks[x].critical.Outside? || Occupies(v.tasks[x])
    ensures !Occupies(v.tasks[x]) ==> v.tasks[x].critical.Outside?
    ensures v.tasks[x].row.Some? && v.tasks[x].row.value.id == v.tasks[x].op.id
        && v.tasks[x].row.value.current == v.tasks[x].op.digest
  {
    assert Informed(v.history, v.tasks[x]) && Staged(v.tasks[x]);
  }

  lemma RowIsBroken(v: World, op: Operation, row: Row)
    requires v.history != [] && op.Install? && op.id in Current(v).installs && Current(v).installs[op.id] == row
    requires row.id == op.id && row.current == op.digest && (op.id, op.digest) !in v.packages
    ensures Broken(v)
  {
    assert (op.id, op.digest) in RowPackages(Current(v).installs[op.id]);
  }

  lemma OpenIsAtLock(v: World, p: Process, x: nat)
    requires Inv(v) && Open(v, p, x) && (v.tasks[x].stage == NeedsPublish || v.tasks[x].stage == NeedsCommit)
    ensures AtLock(v, x)
  {
    assert Staged(v.tasks[x]);
  }

  lemma LosesCalmly(v: World, p: Process, x: nat, v': World)
    requires Calm(v, p) && Open(v, p, x) && v.tasks[x].stage == NeedsCommit
    requires Released(v, v') && v'.history == v.history && v'.packages == v.packages
    requires v'.tasks == v.tasks[x := Retrying(v.tasks[x])]
    ensures Calm(v', p) && Open(v', p, x) && v'.tasks[x].stage == Retry && v'.tasks[x].op == v.tasks[x].op
    ensures Current(v') == Current(v)
  {
    assert Current(v') == Current(v);
  }

  lemma LosesTamely(v: World, p: Process, x: nat) returns (v': World)
    requires Inv(v) && Calm(v, p) && Open(v, p, x) && v.tasks[x].stage == NeedsCommit
        && v.tasks[x].snapshot < |v.history| - 1
    ensures Reaches(Tame, v, v') && Calm(v', p) && Current(v') == Current(v) && v'.packages == v.packages
    ensures Open(v', p, x) && v'.tasks[x].stage == Retry && v'.tasks[x].op == v.tasks[x].op
  {
    OpenIsAtLock(v, p, x);
    ReachesItself(Smooth, v);
    v' := LosesRace(v, v, x);
    LosesCalmly(v, p, x, v');
    ReachesItself(Tame, v);
    Tamely(v, v, v');
  }

  /** Once its package is gone, an install that can still read again breaks the registry. */
  lemma ReadsAgainAndCommits(v: World, p: Process, x: nat) returns (v': World)
    requires Inv(v) && Calm(v, p) && Open(v, p, x)
    requires v.tasks[x].stage == Retry || (v.tasks[x].stage == NeedsCommit && v.tasks[x].snapshot < |v.history| - 1)
    requires NoConflict(Current(v).installs, v.tasks[x].op.name, v.tasks[x].op.scope, Replaced(v.tasks[x].op))
    requires (v.tasks[x].op.id, v.tasks[x].op.digest) !in v.packages
    ensures Reaches(Tame, v, v') && Broken(v')
  {
    if v.tasks[x].stage == Retry {
      v' := RetryCommits(v, p, x);
    } else {
      var u := LosesTamely(v, p, x);
      ReachedKeepsInv(Tame, v, u);
      v' := RetryCommits(u, p, x);
      ReachesTransitively(Tame, v, u, v');
    }
  }

  lemma PublishedIsBroken(v: World, p: Process, x: nat) returns (v': World)
    requires Inv(v) && Calm(v, p) && Open(v, p, x) && (v.tasks[x].stage == Retry || v.tasks[x].stage == NeedsCommit)
    ensures Reaches(Tame, v, v') && Broken(v')
  {
    assert Informed(v.history, v.tasks[x]);
    var u := DeletesPackage(v, p, v.tasks[x].op);
    v' := ReadsAgainAndCommits(u, p, x);
    ReachesTransitively(Tame, v, u, v');
  }

  // ---------------------------------------------------------------- an install that has not published yet

  lemma UnpublishedIsBroken(v: World, p: Process, x: nat) returns (v': World)
    requires Inv(v) && Calm(v, p) && Open(v, p, x) && v.tasks[x].stage == NeedsPublish
    ensures Reaches(Tame, v, v') && Broken(v')
  {
    assert Staged(v.tasks[x]);
    ReachesItself(Tame, v);
    var u := PublishesTamely(v, v, x);
    ReachedKeepsInv(Tame, v, u);
    v' := PublishedIsBroken(u, p, x);
    ReachesTransitively(Tame, v, u, v');
  }

  lemma FreshReadsEffect(v: World, x: nat)
    requires v.history != [] && x in v.tasks && v.tasks[x].op.Install? && v.tasks[x].stage == Fresh
        && v.tasks[x].critical == Outside
    requires v.tasks[x].process in v.enabledAt && v.enabledAt[v.tasks[x].process] < |v.history|
    requires BuildRow(v.tasks[x].op, Current(v).installs).Some?
    ensures Next(v, Read(x, |v.history| - 1)) ==
            Some(WithTask(v, x, v.tasks[x].(stage := NeedsPublish, snapshot := |v.history| - 1,
                                            row := BuildRow(v.tasks[x].op, Current(v).installs))))
  {
  }

  /** An open operation that moves on, with nothing else changed, leaves it calm. */
  lemma StaysCalm(v: World, p: Process, x: nat, t: Task)
    requires Calm(v, p) && Open(v, p, x) && t.process == p && t.op == v.tasks[x].op
    requires t.stage == NeedsPublish && t.critical == Outside
    ensures Calm(WithTask(v, x, t), p) && Open(WithTask(v, x, t), p, x)
    ensures WithTask(v, x, t).tasks[x].stage == NeedsPublish
  {
    assert Current(WithTask(v, x, t)) == Current(v);
  }

  lemma FreshReads(v: World, p: Process, x: nat) returns (v': World)
    requires v.history != [] && Calm(v, p) && Open(v, p, x) && v.tasks[x].stage == Fresh
    requires v.tasks[x].critical == Outside && BuildRow(v.tasks[x].op, Current(v).installs).Some?
    ensures Reaches(Tame, v, v') && Calm(v', p) && Open(v', p, x) && v'.tasks[x].stage == NeedsPublish
  {
    FreshReadsEffect(v, x);
    ReachesItself(Tame, v);
    hide Next, BuildRow;
    v' := Does(Tame, v, v, Read(x, |v.history| - 1));
    StaysCalm(v, p, x, v'.tasks[x]);
    assert v' == WithTask(v, x, v'.tasks[x]);
  }

  lemma ReadableIsBroken(v: World, p: Process, x: nat) returns (v': World)
    requires Inv(v) && Calm(v, p) && Open(v, p, x) && v.tasks[x].stage == Fresh
    requires BuildRow(v.tasks[x].op, Current(v).installs).Some?
    ensures Reaches(Tame, v, v') && Broken(v')
  {
    assert Staged(v.tasks[x]);
    var u := FreshReads(v, p, x);
    ReachedKeepsInv(Tame, v, u);
    v' := UnpublishedIsBroken(u, p, x);
    ReachesTransitively(Tame, v, u, v');
  }

  /** Another host installs the plugin that the install of `p` is about to replace. */
  lemma InstallsFirst(v: World, p: Process, op: Operation) returns (v': World)
    requires Inv(v) && Calm(v, p) && op.Install? && NoConflict(Current(v).installs, op.name, op.scope, None)
    ensures Reaches(Tame, v, v') && CalmLater(v, p, v')
    ensures Current(v').installs == Current(v).installs[op.id := FirstRow(op)]
  {
    var u, q := NewHost(v, p);
    ReachedKeepsInv(Tame, v, u);
    AllOf(v, p);
    v' := InstallsAndCrashes(v, u, p, q, op);
    ReachesTransitively(Tame, v, u, v');
  }

  lemma AllOf(v: World, p: Process)
    requires Inv(v) && v.alive == {p}
    ensures forall id | id in v.tasks :: v.tasks[id].process == p
  {
  }

  lemma InstallsAndCrashes(v: World, u: World, p: Process, q: Process, op: Operation) returns (v': World)
    requires Calm(v, p) && Inv(u) && op.Install? && NoConflict(Current(v).installs, op.name, op.scope, None)
    requires forall id | id in v.tasks :: v.tasks[id].process == p
    requires q != p && u.alive == {p, q} && u.lock.None? && u.tasks == v.tasks
    requires q in u.hosts && q in u.enabledAt && u.enabledAt[q] == |v.history|
    requires p in u.enabledAt && u.enabledAt[p] == v.enabledAt[p]
    requires |u.history| == |v.history| + 1 && u.history[..|v.history|] == v.history
    requires Current(u).installs == Current(v).installs
    requires forall m | m in Current(u).liveHosts :: Current(u).liveHosts[m] == q
    ensures Reaches(Tame, u, v') && CalmLater(v, p, v')
    ensures Current(v').installs == Current(v).installs[op.id := FirstRow(op)]
  {
    hide Inv, NoConflict;
    var u1 := Installs(u, q, op);
    v' := HostCrashes(u1, p, q);
    ReachesTransitively(Tame, u, u1, v');
    assert v'.history[..|v.history|] == v'.history[..|u.history|][..|v.history|];
  }

  lemma FirstRowCanBeReplaced(installs: map<InstallId, Row>, op: Operation)
    requires op.Install? && op.replacing && NoConflict(installs, op.name, op.scope, Some(op.id))
    ensures BuildRow(op, installs[op.id := FirstRow(op)]).Some?
  {
  }

  lemma AbsentMeansFree(installs: map<InstallId, Row>, op: Operation)
    requires op.Install? && KeyedById(installs) && op.id !in installs
        && NoConflict(installs, op.name, op.scope, Replaced(op))
    ensures NoConflict(installs, op.name, op.scope, None)
  {
  }

  lemma FreshIsBroken(v: World, p: Process, x: nat) returns (v': World)
    requires Inv(v) && Calm(v, p) && Open(v, p, x) && v.tasks[x].stage == Fresh
    ensures Reaches(Tame, v, v') && Broken(v')
  {
    var op := v.tasks[x].op;
    var u := FreesName(v, p, op);
    if op.replacing && op.id !in Current(u).installs {
      AbsentMeansFree(Current(u).installs, op);
      var u1 := InstallsFirst(u, p, op);
      ReachedKeepsInv(Tame, u, u1);
      FirstRowCanBeReplaced(Current(u).installs, op);
      v' := ReadableIsBroken(u1, p, x);
      ReachesTransitively(Tame, u, u1, v');
    } else {
      v' := ReadableIsBroken(u, p, x);
    }
    ReachesTransitively(Tame, v, u, v');
  }

  /** Where no marker shields it, every install that may still read can be made to break the registry. */
  lemma OpenIsBroken(v: World, p: Process, x: nat) returns (v': World)
    requires Inv(v) && Calm(v, p) && Open(v, p, x)
    ensures Reaches(Tame, v, v') && Broken(v')
  {
    match v.tasks[x].stage
    case Fresh => v' := FreshIsBroken(v, p, x);
    case NeedsPublish => v' := UnpublishedIsBroken(v, p, x);
    case _ => v' := PublishedIsBroken(v, p, x);
  }

  // ---------------------------------------------------------------- the first act: the lock is freed

  predicate DisposesFor(v: World, e: nat, p: Process, marker: Token) {
    Disposes(v, e, marker) && v.tasks[e].process == p
  }

  ghost predicate HasDisposal(v: World, p: Process, marker: Token) {
    exists e :: DisposesFor(v, e, p, marker)
  }

  /** Every marker of `p` is about to be removed, and `x` is an install of `p` that may still read. */
  ghost predicate Unsafe(v: World, p: Process, x: nat) {
    && v.history != [] && p in v.alive
    && p in v.enabledAt && v.enabledAt[p] < |v.history|
    && UnspentInstall(v, x, p)
    && forall marker | RegisteredIn(v, p, marker) :: HasDisposal(v, p, marker)
  }

  /** Nobody has the lock, and its file does not outlive the other processes. */
  ghost predicate Unlocked(v: World, p: Process) {
    && !HasOccupant(v)
    && (v.lock.Some? ==> v.lock.value.Full? && v.lock.value.record.owner != p)
  }

  lemma UnspentIsOpen(v: World, p: Process, x: nat)
    requires UnspentInstall(v, x, p) && !HasOccupant(v)
    ensures Open(v, p, x)
  {
    assert !IsOccupant(v, x);
  }

  /** Whoever is creating or holding the lock file, before its work: it reads the registry under the lock. */
  lemma GetsInside(v: World, c: nat) returns (v': World)
    requires Fits(v, c) && (v.tasks[c].critical.Creating? || v.tasks[c].critical.Inside?)
    ensures Reaches(Smooth, v, v') && InCritical(v', c)
    ensures v' == v.(lock := v'.lock, tasks := v.tasks[c := v.tasks[c].(critical := v'.tasks[c].critical)])
  {
    ReachesItself(Smooth, v);
    var u := v;
    if v.tasks[c].critical.Creating? {
      u := FinishesCreation(v, v, c);
    }
    v' := ReadsInside(v, u, c);
    assert v'.tasks == v.tasks[c := v.tasks[c].(critical := v'.tasks[c].critical)];
  }

  lemma ReadsInside(w: World, v: World, c: nat) returns (v': World)
    requires Reaches(Smooth, w, v) && v.history != [] && c in v.tasks && v.tasks[c].critical.Inside?
        && v.lock == Some(LockOf(v.tasks[c]))
    requires v.tasks[c].critical.base.Some? ==> v.tasks[c].critical.base == Some(Current(v))
    ensures Reaches(Smooth, w, v') && InCritical(v', c)
    ensures v' == v.(lock := v'.lock, tasks := v.tasks[c := v.tasks[c].(critical := v'.tasks[c].critical)])
  {
    hide Next;
    v' := v;
    if v.tasks[c].critical.base.None? {
      ReadInsideEffect(v, c);
      v' := Does(Smooth, w, v, ReadInside(c));
    }
    assert v'.tasks == v.tasks[c := v.tasks[c].(critical := v'.tasks[c].critical)];
  }

  /** An install inside the critical section publishes or loses its race, and may still read. */
  lemma InsideReleases(w: World, v: World, p: Process, x: nat) returns (v': World)
    requires Reaches(Smooth, w, v) && InCritical(v, x) && UnspentInstall(v, x, p)
    requires v.tasks[x].stage == NeedsPublish ==> v.tasks[x].attempt == 0
    requires v.tasks[x].stage == NeedsPublish || v.tasks[x].stage == NeedsCommit
    requires v.tasks[x].stage == NeedsCommit ==>
               && v.tasks[x].row.Some?
               && v.tasks[x].snapshot < |v.history| && v.history[v.tasks[x].snapshot].revision != Current(v).revision
    ensures Reaches(Smooth, w, v') && Released(v, v') && v'.history == v.history
    ensures x in v'.tasks && v'.tasks == v.tasks[x := v'.tasks[x]] && Open(v', p, x) && v'.tasks[x].critical == Outside
  {
    if v.tasks[x].stage == NeedsPublish {
      v' := PublishesInside(w, v, x);
    } else {
      v' := LosesRaceInside(w, v, x);
    }
  }

  lemma LeavingReleases(v: World, p: Process, x: nat) returns (v': World)
    requires Fits(v, x) && UnspentInstall(v, x, p) && v.tasks[x].critical.Leaving?
    ensures Reaches(Smooth, v, v') && Released(v, v') && v'.history == v.history
    ensures x in v'.tasks && v'.tasks == v.tasks[x := v'.tasks[x]] && Open(v', p, x) && v'.tasks[x].critical == Outside
  {
    ReachesItself(Smooth, v);
    LeaveEffectOn(v, x);
    v' := Does(Smooth, v, v, Leave(x));
  }

  /** The install itself gives the lock up, and may still read. */
  lemma InstallReleases(v: World, p: Process, x: nat) returns (v': World)
    requires Fits(v, x) && UnspentInstall(v, x, p) && Occupies(v.tasks[x])
    requires v.tasks[x].stage == NeedsCommit && v.tasks[x].snapshot + 1 != |v.history| ==>
               v.tasks[x].snapshot < |v.history| && v.history[v.tasks[x].snapshot].revision != Current(v).revision
    ensures Reaches(Smooth, v, v') && Released(v, v') && v'.history == v.history
    ensures x in v'.tasks && v'.tasks == v.tasks[x := v'.tasks[x]] && Open(v', p, x) && v'.tasks[x].critical == Outside
  {
    if v.tasks[x].critical.Leaving? {
      v' := LeavingReleases(v, p, x);
    } else {
      InstallAtWork(v, x, p);
      v' := AtWorkReleases(v, p, x);
    }
  }

  lemma AtWorkReleases(v: World, p: Process, x: nat) returns (v': World)
    requires Fits(v, x) && UnspentInstall(v, x, p) && Occupies(v.tasks[x]) && !v.tasks[x].critical.Leaving?
    requires v.tasks[x].stage == NeedsPublish || v.tasks[x].stage == NeedsCommit
    requires v.tasks[x].stage == NeedsPublish ==> v.tasks[x].attempt == 0
    requires v.tasks[x].stage == NeedsCommit ==>
               && v.tasks[x].row.Some? && v.tasks[x].attempt < 2 && v.tasks[x].snapshot + 1 != |v.history|
               && v.tasks[x].snapshot < |v.history| && v.history[v.tasks[x].snapshot].revision != Current(v).revision
    ensures Reaches(Smooth, v, v') && Released(v, v') && v'.history == v.history
    ensures x in v'.tasks && v'.tasks == v.tasks[x := v'.tasks[x]] && Open(v', p, x) && v'.tasks[x].critical == Outside
  {
    hide Reaches, Released, Fits, InCritical, Open;
    var u := GetsInside(v, x);
    InsideIsUnspent(v, u, p, x);
    v' := InsideReleases(v, u, p, x);
    ReleasedFromInside(v, u, x, v');
  }

  /** Getting inside changes nothing about what the install is going to do. */
  lemma InsideIsUnspent(v: World, u: World, p: Process, x: nat)
    requires UnspentInstall(v, x, p) && u.history == v.history && v.history != []
    requires x in u.tasks && u.tasks[x] == v.tasks[x].(critical := u.tasks[x].critical)
    requires v.tasks[x].stage == NeedsCommit ==> v.tasks[x].attempt < 2 && v.tasks[x].snapshot + 1 != |v.history|
    ensures UnspentInstall(u, x, p) && Current(u) == Current(v)
  {
  }

  lemma InstallAtWork(v: World, x: nat, p: Process)
    requires Fits(v, x) && UnspentInstall(v, x, p) && Occupies(v.tasks[x]) && !v.tasks[x].critical.Leaving?
    ensures v.tasks[x].stage == NeedsPublish || v.tasks[x].stage == NeedsCommit
    ensures v.tasks[x].stage == NeedsPublish ==> v.tasks[x].attempt == 0
    ensures v.tasks[x].row.Some?
    ensures v.tasks[x].stage == NeedsCommit ==> v.tasks[x].attempt < 2 && v.tasks[x].snapshot + 1 != |v.history|
  {
  }

  lemma ReleasedFromInside(v: World, u: World, x: nat, v': World)
    requires x in v.tasks && x in u.tasks && u == v.(lock := u.lock, tasks := v.tasks[x := u.tasks[x]])
    requires Released(u, v') && x in v'.tasks && v'.tasks == u.tasks[x := v'.tasks[x]]
    ensures Released(v, v') && v'.tasks == v.tasks[x := v'.tasks[x]]
  {
    assert v'.tasks == v.tasks[x := v'.tasks[x]];
  }

  /** Once the only operation that may occupy the lock has ended or stepped back, none does. */
  lemma NobodyIsLeft(v: World, c: nat, v': World)
    requires LockIsHeld(v) && c in v.tasks && Occupies(v.tasks[c]) && c !in v'.tasks
    requires forall q | q in v'.tasks :: q in v.tasks && v'.tasks[q] == v.tasks[q]
    ensures !HasOccupant(v')
  {
    forall q ensures !IsOccupant(v', q) {
      assert q != c && q in v.tasks ==> !Occupies(v.tasks[q]);
    }
  }

  lemma InstallFreesLock(v: World, p: Process, x: nat) returns (v': World)
    requires Inv(v) && Unsafe(v, p, x) && Occupies(v.tasks[x])
    ensures Reaches(Smooth, v, v') && Unsafe(v', p, x) && Unlocked(v', p) && v'.lock.None?
  {
    OldRevisionDiffers(v, x);
    v' := InstallReleases(v, p, x);
    forall q ensures !IsOccupant(v', q) {
      assert q != x && q in v.tasks ==> !Occupies(v.tasks[q]);
    }
    ReleasedIsUnsafe(v, p, x, v');
  }

  lemma OldRevisionDiffers(v: World, x: nat)
    requires Inv(v) && x in v.tasks && v.tasks[x].op.Install?
    ensures Fits(v, x)
    ensures v.tasks[x].stage == NeedsCommit && v.tasks[x].snapshot + 1 != |v.history| ==>
              v.tasks[x].snapshot < |v.history| && v.history[v.tasks[x].snapshot].revision != Current(v).revision
  {
    assert Informed(v.history, v.tasks[x]) && Staged(v.tasks[x]);
  }

  lemma ReleasedIsUnsafe(v: World, p: Process, x: nat, v': World)
    requires Unsafe(v, p, x) && Released(v, v') && v'.history == v.history
    requires x in v'.tasks && v'.tasks == v.tasks[x := v'.tasks[x]] && Open(v', p, x) && v'.tasks[x].critical == Outside
    ensures Unsafe(v', p, x)
  {
    forall marker | RegisteredIn(v', p, marker) ensures HasDisposal(v', p, marker) {
      assert RegisteredIn(v, p, marker);
      var e :| DisposesFor(v, e, p, marker);
      assert DisposesFor(v', e, p, marker);
    }
  }

  /** A disposal that has the lock finishes: the marker it removes needs no disposal any more. */
  lemma DisposalFreesLock(v: World, p: Process, x: nat, c: nat) returns (v': World)
    requires Inv(v) && Unsafe(v, p, x) && c in v.tasks && Occupies(v.tasks[c])
    requires v.tasks[c].op.DisposeHost? && v.tasks[c].stage == Fresh && v.tasks[c].process == p
    ensures Reaches(Smooth, v, v') && Unsafe(v', p, x) && Unlocked(v', p) && v'.lock.None?
  {
    ReachesItself(Smooth, v);
    ReachesItself(Tame, v);
    FitsAndHeld(v, c);
    OnlyOneOccupies(v, c, x);
    hide Inv, Fits, LockIsHeld, Unsafe, Unlocked, Reaches, Released;
    v' := DisposalEnds(v, c);
    NobodyIsLeft(v, c, v');
    DisposedIsUnsafe(v, p, x, c, v');
    NobodyIsUnlocked(v', p);
  }

  lemma FitsAndHeld(v: World, c: nat)
    requires Inv(v) && c in v.tasks
    ensures Fits(v, c) && LockIsHeld(v)
  {
  }

  lemma OnlyOneOccupies(v: World, c: nat, x: nat)
    requires LockIsHeld(v) && c in v.tasks && Occupies(v.tasks[c]) && x in v.tasks && x != c
    ensures !Occupies(v.tasks[x])
  {
  }

  lemma NobodyIsUnlocked(v: World, p: Process)
    requires !HasOccupant(v) && v.lock.None?
    ensures Unlocked(v, p)
  {
  }

  /** A disposal that has the lock works on the registry as it is, and ends. */
  lemma DisposalEnds(v: World, c: nat) returns (v': World)
    requires Fits(v, c) && Occupies(v.tasks[c]) && v.tasks[c].op.DisposeHost? && v.tasks[c].stage == Fresh
    ensures Reaches(Smooth, v, v') && v'.lock.None? && v'.tasks == v.tasks - {c}
    ensures v'.alive == v.alive && v'.enabledAt == v.enabledAt
    ensures (v'.history == v.history && v.tasks[c].op.marker !in Current(v).liveHosts)
            || v'.history == v.history + [WithoutMarker(Current(v), v.tasks[c].op.marker)]
  {
    assert !v.tasks[c].critical.Leaving?;
    hide Fits, Reaches, Released, InCritical;
    var u := GetsInside(v, c);
    v' := Unregisters(v, u, c);
    EndedFromInside(v, u, c, v');
  }

  lemma EndedFromInside(v: World, u: World, c: nat, v': World)
    requires c in v.tasks && c in u.tasks && v.history != []
    requires u == v.(lock := u.lock, tasks := v.tasks[c := v.tasks[c].(critical := u.tasks[c].critical)])
    requires Released(u, v') && v'.tasks == u.tasks - {c}
    ensures v'.lock.None? && v'.tasks == v.tasks - {c} && v'.alive == v.alive && v'.enabledAt == v.enabledAt
    ensures u.history == v.history && Current(u) == Current(v) && u.tasks[c].op == v.tasks[c].op
  {
    assert v'.tasks == v.tasks - {c};
  }

  lemma DisposedIsUnsafe(v: World, p: Process, x: nat, c: nat, v': World)
    requires Unsafe(v, p, x) && c in v.tasks && v.tasks[c].op.DisposeHost? && !Occupies(v.tasks[x])
    requires v'.alive == v.alive && v'.enabledAt == v.enabledAt && v'.tasks == v.tasks - {c}
    requires (v'.history == v.history && v.tasks[c].op.marker !in Current(v).liveHosts)
             || v'.history == v.history + [WithoutMarker(Current(v), v.tasks[c].op.marker)]
    ensures Unsafe(v', p, x)
  {
    forall marker | RegisteredIn(v', p, marker) ensures HasDisposal(v', p, marker) {
      assert RegisteredIn(v, p, marker) && marker != v.tasks[c].op.marker;
      var e :| DisposesFor(v, e, p, marker);
      assert DisposesFor(v', e, p, marker);
    }
  }

  /** Any other operation that has the lock fails, and thereby releases it. */
  lemma FailureFreesLock(v: World, p: Process, x: nat, c: nat) returns (v': World)
    requires Inv(v) && Unsafe(v, p, x) && c in v.tasks && Occupies(v.tasks[c]) && c != x
    requires !(v.tasks[c].op.DisposeHost? && v.tasks[c].stage == Fresh && v.tasks[c].process == p)
    ensures Reaches(Tame, v, v') && Unsafe(v', p, x) && Unlocked(v', p) && v'.lock.None?
  {
    FitsAndHeld(v, c);
    hide Inv, Fits, LockIsHeld, Unsafe, Unlocked, Reaches;
    v' := FailsUnderLock(v, c);
    NobodyIsLeft(v, c, v');
    FailedIsUnsafe(v, p, x, c, v');
    NobodyIsUnlocked(v', p);
  }

  lemma FailedIsUnsafe(v: World, p: Process, x: nat, c: nat, v': World)
    requires Unsafe(v, p, x) && c in v.tasks && c != x && v' == v.(lock := None, tasks := v.tasks - {c})
    requires !(v.tasks[c].op.DisposeHost? && v.tasks[c].stage == Fresh && v.tasks[c].process == p)
    ensures Unsafe(v', p, x)
  {
    forall marker | RegisteredIn(v', p, marker) ensures HasDisposal(v', p, marker) {
      assert RegisteredIn(v, p, marker);
      var e :| DisposesFor(v, e, p, marker);
      assert DisposesFor(v', e, p, marker);
    }
  }

  lemma AbandonEffect(v: World, c: nat)
    requires c in v.tasks && Holds(v.tasks[c]) && v.lock == Some(LockOf(v.tasks[c]))
    ensures Next(v, Abandon(c)) == Some(v.(lock := None, tasks := v.tasks - {c}))
  {
  }

  lemma FailsUnderLock(v: World, c: nat) returns (v': World)
    requires Fits(v, c) && Occupies(v.tasks[c])
    ensures Reaches(Tame, v, v') && v' == v.(lock := None, tasks := v.tasks - {c})
  {
    hide Next, Informed, Staged;
    ReachesItself(Smooth, v);
    ReachesItself(Tame, v);
    var u := v;
    if v.tasks[c].critical.Creating? {
      u := FinishesCreation(v, v, c);
    }
    Tamely(v, v, u);
    AbandonEffect(u, c);
    v' := Does(Tame, v, u, Abandon(c));
    assert v'.tasks == v.tasks - {c};
  }

  /** Whoever has the lock gives it up, and the install of `p` stays without protection. */
  lemma FreesLock(v: World, p: Process, x: nat) returns (v': World)
    requires Inv(v) && Unsafe(v, p, x) && !LockLost(v, p)
    ensures Reaches(Tame, v, v') && Unsafe(v', p, x) && Unlocked(v', p)
  {
    ReachesItself(Tame, v);
    if HasOccupant(v) {
      var c :| IsOccupant(v, c);
      if c == x {
        v' := InstallFreesLock(v, p, x);
        Tamely(v, v, v');
      } else if v.tasks[c].op.DisposeHost? && v.tasks[c].stage == Fresh && v.tasks[c].process == p {
        v' := DisposalFreesLock(v, p, x, c);
        Tamely(v, v, v');
      } else {
        v' := FailureFreesLock(v, p, x, c);
      }
    } else {
      v' := v;
    }
  }

  // ---------------------------------------------------------------- the second act: the other processes crash

  lemma CrashKeepsUnsafe(v: World, p: Process, x: nat, q: Process, v': World)
    requires Unsafe(v, p, x) && Unlocked(v, p) && q != p && CrashProcess(v, q) == Some(v')
    ensures Unsafe(v', p, x) && Unlocked(v', p)
  {
    forall c ensures !IsOccupant(v', c) {
      assert !IsOccupant(v, c);
    }
    forall marker | RegisteredIn(v', p, marker) ensures HasDisposal(v', p, marker) {
      assert RegisteredIn(v, p, marker);
      var e :| DisposesFor(v, e, p, marker);
      assert DisposesFor(v', e, p, marker);
    }
  }

  lemma {:induction false} OthersCrash(v: World, p: Process, x: nat) returns (v': World)
    requires Unsafe(v, p, x) && Unlocked(v, p)
    ensures Reaches(Tame, v, v') && Unsafe(v', p, x) && Unlocked(v', p) && v'.alive == {p} && v'.history == v.history
    ensures v'.lock == v.lock
    decreases |v.alive|
  {
    ReachesItself(Tame, v);
    if v.alive == {p} {
      v' := v;
    } else {
      var q :| q in v.alive && q != p;
      var u := Does(Tame, v, v, Crash(q));
      CrashKeepsUnsafe(v, p, x, q, u);
      v' := OthersCrash(u, p, x);
      ReachesTransitively(Tame, v, u, v');
    }
  }

  // ---------------------------------------------------------------- the third act: the disposals finish

  lemma DisposerIsAtLock(v: World, p: Process, e: nat, marker: Token)
    requires Inv(v) && DisposesFor(v, e, p, marker) && !HasOccupant(v)
    ensures AtLock(v, e)
  {
    assert Staged(v.tasks[e]) && !IsOccupant(v, e);
  }

  lemma OneDisposal(v: World, p: Process, x: nat, marker: Token) returns (v': World)
    requires Inv(v) && Unsafe(v, p, x) && Unlocked(v, p) && v.alive == {p} && RegisteredIn(v, p, marker)
    ensures Reaches(Smooth, v, v') && Unsafe(v', p, x) && Unlocked(v', p) && v'.alive == {p} && v'.lock.None?
    ensures |Current(v').liveHosts| < |Current(v).liveHosts|
  {
    hide Inv;
    assert HasDisposal(v, p, marker);
    var e :| DisposesFor(v, e, p, marker);
    DisposerIsAtLock(v, p, e, marker);
    ReachesItself(Smooth, v);
    v' := FinishesDisposal(v, v, e);
    forall c ensures !IsOccupant(v', c) {
      assert !IsOccupant(v, c);
    }
    assert !IsOccupant(v, x);
    DisposedIsUnsafe(v, p, x, e, v');
    FewerMarkers(Current(v).liveHosts, marker);
  }

  /** All markers of `p` go. */
  lemma {:induction false} AllDisposals(v: World, p: Process, x: nat) returns (v': World)
    requires Inv(v) && Unsafe(v, p, x) && Unlocked(v, p) && v.alive == {p} && v.lock.None?
    ensures Reaches(Tame, v, v') && Inv(v') && Calm(v', p) && Open(v', p, x)
    decreases |Current(v).liveHosts|
  {
    ReachesItself(Tame, v);
    if exists marker :: RegisteredIn(v, p, marker) {
      var marker :| RegisteredIn(v, p, marker);
      var u := OneDisposal(v, p, x, marker);
      Tamely(v, v, u);
      ReachedKeepsInv(Tame, v, u);
      v' := AllDisposals(u, p, x);
      ReachesTransitively(Tame, v, u, v');
    } else {
      v' := v;
      UnspentIsOpen(v, p, x);
      forall m | m in Current(v).liveHosts ensures Current(v).liveHosts[m] != p {
        assert !RegisteredIn(v, p, m);
      }
    }
  }

  /** A stale lock file goes with the next operation that takes the lock. */
  lemma StaleLockGoes(v: World, p: Process, x: nat) returns (v': World)
    requires Inv(v) && Unsafe(v, p, x) && Unlocked(v, p) && v.alive == {p}
    ensures Reaches(Tame, v, v') && Unsafe(v', p, x) && Unlocked(v', p) && v'.alive == {p} && v'.lock.None?
  {
    hide Inv;
    v' := SimplyWrites(v, p, RequestPurge);
    forall c ensures !IsOccupant(v', c) {
      assert !IsOccupant(v, c);
    }
    forall marker | RegisteredIn(v', p, marker) ensures HasDisposal(v', p, marker) {
      assert RegisteredIn(v, p, marker);
      var e :| DisposesFor(v, e, p, marker);
      assert DisposesFor(v', e, p, marker);
    }
    assert !IsOccupant(v, x);
  }

  /** Without protection an install can be made to break the registry. */
  lemma UnsafeIsBroken(v: World, p: Process, x: nat) returns (v': World)
    requires Inv(v) && Unsafe(v, p, x) && Unlocked(v, p)
    ensures Reaches(Tame, v, v') && Broken(v')
  {
    hide Inv, Unsafe, Unlocked;
    var v1 := OthersCrash(v, p, x);
    ReachedKeepsInv(Tame, v, v1);
    var v2 := StaleLockGoes(v1, p, x);
    ReachesTransitively(Tame, v, v1, v2);
    ReachedKeepsInv(Tame, v, v2);
    var v3 := AllDisposals(v2, p, x);
    ReachesTransitively(Tame, v, v2, v3);
    v' := OpenIsBroken(v3, p, x);
    ReachesTransitively(Tame, v, v3, v');
  }

  // ---------------------------------------------------------------- the exact condition

  /** The disposal of the host of `p` has begun. */
  function Disposing(v: World, p: Process, d: nat): World
    requires p in v.hosts
  {
    v.(hosts := v.hosts - {p}, tasks := v.tasks[d := Started(p, DisposeHost(v.hosts[p]))])
  }

  lemma DisposalBegins(v: World, p: Process, d: nat)
    requires p in v.alive && p in v.hosts && d !in v.tasks
    ensures Next(v, Begin(d, p, DisposeHost(v.hosts[p]))) == Some(Disposing(v, p, d))
  {
  }

  lemma EveryMarkerIsDue(v: World, p: Process, d: nat, marker: Token)
    requires HostInv(v) && p in v.hosts && d !in v.tasks && !Permanent(v, p) && RegisteredIn(v, p, marker)
    ensures HasDisposal(Disposing(v, p, d), p, marker)
  {
    var u := Disposing(v, p, d);
    assert !LeftBehind(v, p, marker);
    if v.hosts[p] == marker {
      assert DisposesFor(u, d, p, marker);
    } else {
      var e :| Disposes(v, e, marker);
      assert v.tokens[marker] == p;
      assert DisposesFor(u, e, p, marker);
    }
  }

  lemma RiskyIsUnsafe(v: World, p: Process, d: nat, x: nat)
    requires SoundInv(v) && p in v.hosts && d !in v.tasks && !Permanent(v, p) && !LockLost(v, p)
        && UnspentInstall(v, x, p)
    ensures Unsafe(Disposing(v, p, d), p, x) && !LockLost(Disposing(v, p, d), p)
  {
    var u := Disposing(v, p, d);
    assert HistoryStored(v, p) && EnabledInThePast(v) && p in v.alive;
    hide SoundInv, Inv, HostInv, PackagesAreStored, LockLost, Permanent;
    SoundHasMarkers(v);
    forall marker | RegisteredIn(u, p, marker) ensures HasDisposal(u, p, marker) {
      assert RegisteredIn(v, p, marker);
      EveryMarkerIsDue(v, p, d, marker);
    }
    LockStaysLost(v, p, d);
  }

  lemma SoundHasMarkers(v: World)
    requires SoundInv(v)
    ensures HostInv(v)
  {
  }

  lemma LockStaysLost(v: World, p: Process, d: nat)
    requires p in v.hosts && d !in v.tasks && !LockLost(v, p)
    ensures !LockLost(Disposing(v, p, d), p)
  {
    var u := Disposing(v, p, d);
    forall c ensures IsOccupant(u, c) <==> IsOccupant(v, c) {}
  }

  /** A risky disposal can break the registry, by steps that are all orderly. */
  lemma RiskyDisposalBreaks(v: World, p: Process, d: nat) returns (u: World)
    requires SoundInv(v) && p in v.hosts && d !in v.tasks && Risky(v, p)
    ensures Reaches(Orderly, Disposing(v, p, d), u) && Broken(u)
  {
    var x :| UnspentInstall(v, x, p);
    var w0 := Disposing(v, p, d);
    RiskyIsUnsafe(v, p, d, x);
    DisposalBegins(v, p, d);
    StepKeepsInv(v, Begin(d, p, DisposeHost(v.hosts[p])), w0);
    u := UnsafeBreaks(w0, p, x);
  }

  lemma UnsafeBreaks(v: World, p: Process, x: nat) returns (u: World)
    requires Inv(v) && Unsafe(v, p, x) && !LockLost(v, p)
    ensures Reaches(Orderly, v, u) && Broken(u)
  {
    var v1 := FreesLock(v, p, x);
    ReachedKeepsInv(Tame, v, v1);
    u := UnsafeIsBroken(v1, p, x);
    ReachesTransitively(Tame, v, v1, u);
    TamelyIsOrderly(v, u);
  }

  /** A first installation mentions its own package only. */
  lemma TameIsOrderly(w: World, a: Action)
    requires Tame(w, a)
    ensures Orderly(w, a)
  {
  }

  lemma TamelyIsOrderly(w: World, v: World)
    requires Reaches(Tame, w, v)
    ensures Reaches(Orderly, w, v)
  {
    forall u, a | Tame(u, a) ensures Orderly(u, a) {
      TameIsOrderly(u, a);
    }
    ReachesByMore(Tame, Orderly, w, v);
  }

  /** After one more orderly step, orderly steps never break the registry. */
  lemma OrderlyStepKeepsPackages(v: World, a: Action, v': World, u: World)
    requires SoundInv(v) && Orderly(v, a) && Next(v, a) == Some(v') && Reaches(Orderly, v', u)
    ensures !Broken(u)
  {
    StepKeepsSoundInv(v, a, v');
    hide Next, Orderly;
    var actions :| Allowed(Orderly, v', actions) && Run(v', actions) == Some(u);
    OrderlyRunKeepsSoundInv(v', actions, u);
  }

  /**
   In every state that an orderly run reaches: disposing the host of `p` can lead, by orderly
   steps, to a row whose package is not on disk if and only if the disposal is risky.
   */
  lemma DisposalBreaksIffRisky(w: World, actions: seq<Action>, v: World, p: Process, d: nat)
    requires Initial(w) && Stored(Current(w).installs, w.packages)
    requires Allowed(Orderly, w, actions) && Run(w, actions) == Some(v)
    requires p in v.hosts && d !in v.tasks
    ensures Next(v, Begin(d, p, DisposeHost(v.hosts[p]))) == Some(Disposing(v, p, d))
    ensures (exists u :: Reaches(Orderly, Disposing(v, p, d), u) && Broken(u)) <==> Risky(v, p)
  {
    InitialIsSound(w);
    OrderlyRunKeepsSoundInv(w, actions, v);
    DisposalBegins(v, p, d);
    if Risky(v, p) {
      var u := RiskyDisposalBreaks(v, p, d);
    } else {
      forall u | Reaches(Orderly, Disposing(v, p, d), u) ensures !Broken(u) {
        OrderlyStepKeepsPackages(v, Begin(d, p, DisposeHost(v.hosts[p])), Disposing(v, p, d), u);
      }
    }
  }

  // ---------------------------------------------------------------- risky states are reachable

  const INSTALL := Install(5, 6, GlobalScope, 7, true, false)

  lemma FirstHostBegins(w: World) returns (v: World)
    requires Empty(w)
    ensures Reaches(Tame, w, v) && v.history == w.history && v.lock.None? && v.packages == {}
    ensures v.alive == {FIRST} && v.hosts == map[] && v.enabledAt == map[]
    ensures v.tasks == map[0 := Started(FIRST, InitializeHost(0))]
  {
    ReachesItself(Tame, w);
    var u := Does(Tame, w, w, Spawn(FIRST));
    v := Does(Tame, w, u, Begin(0, FIRST, InitializeHost(0)));
  }

  lemma FirstHostIsUp(w: World) returns (v: World)
    requires Empty(w)
    ensures Initial(w) && Stored(Current(w).installs, w.packages)
    ensures Reaches(Tame, w, v) && v.history != [] && v.lock.None? && v.alive == {FIRST} && v.hosts == map[FIRST := 0]
    ensures FIRST in v.enabledAt && v.tasks == map[] && Current(v).liveHosts == map[0 := FIRST]
  {
    hide Inv, Reaches;
    InitialIsInv(w);
    assert Stored(Current(w).installs, w.packages);
    var u := FirstHostBegins(w);
    ReachedKeepsInv(Tame, w, u);
    ReachesItself(Smooth, u);
    v := HostInitializes(u, u, 0);
    Tamely(w, u, v);
    assert v.tasks == map[];
  }

  /** From an empty registry, a host that has just begun to install is at risk. */
  lemma RiskyIsReachable(w: World) returns (v: World)
    requires Empty(w)
    ensures Initial(w) && Stored(Current(w).installs, w.packages)
    ensures Reaches(Orderly, w, v) && FIRST in v.hosts && Risky(v, FIRST)
  {
    var u := FirstHostIsUp(w);
    v := FirstInstallBegins(w, u);
    TamelyIsOrderly(w, v);
  }

  lemma FirstInstallBegins(w: World, u: World) returns (v: World)
    requires Reaches(Tame, w, u) && u.history != [] && u.lock.None? && u.alive == {FIRST} && u.hosts == map[FIRST := 0]
    requires FIRST in u.enabledAt && u.tasks == map[] && Current(u).liveHosts == map[0 := FIRST]
    ensures Reaches(Tame, w, v) && FIRST in v.hosts && Risky(v, FIRST)
  {
    BeginEffect(u, 0, FIRST, INSTALL);
    v := Does(Tame, w, u, Begin(0, FIRST, INSTALL));
    assert UnspentInstall(v, 0, FIRST);
    forall marker ensures !LeftBehind(v, FIRST, marker) {}
  }
}
