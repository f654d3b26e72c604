/**
 Every digest the registry mentions names a package on disk.

 This holds in every orderly run: no install begins where nothing protects its process from a
 purge or where it may read a registry that names a package which is gone, and no host is
 disposed where that would take the last protection from an install of its process that may
 still read the registry. The modules PluginDispose and PluginInstall show that neither
 condition can be weakened.
 */
module PluginPackages {
  import opened Wrappers
  import opened PluginRegistry
  import opened PluginLock
  import opened PluginHistory
  import opened PluginRuns
  import opened PluginProgress
  import opened PluginHosts

  // ---------------------------------------------------------------- what protects an install

  /** The lock is taken, or being taken, and no commit of this operation is behind it yet. */
  predicate Holding(t: Task) {
    t.critical.Creating? || t.critical.Inside?
  }

  /** The next commit of the operation succeeds unless somebody writes before it. */
  predicate UpToDate(n: nat, t: Task) {
    t.stage == NeedsCommit && t.snapshot + 1 == n
  }

  /**
   The operation will not read the registry again, where the registry has `n` generations: it
   is finished, on its last attempt, or holds the lock with the last generation in hand.
   */
  predicate Spent(n: nat, t: Task) {
    t.stage == Finished || (t.stage == NeedsCommit && (t.attempt >= 2 || (Holding(t) && t.snapshot + 1 == n)))
  }

  predicate UnspentInstall(w: World, id: nat, p: Process) {
    id in w.tasks && w.tasks[id].process == p && w.tasks[id].op.Install? && !Spent(|w.history|, w.tasks[id])
  }

  predicate RegisteredIn(w: World, p: Process, marker: Token) {
    w.history != [] && Registered(Current(w), p, marker)
  }

  predicate Disposes(w: World, id: nat, marker: Token) {
    id in w.tasks && w.tasks[id].op.DisposeHost? && w.tasks[id].op.marker == marker && w.tasks[id].stage == Fresh
  }

  ghost predicate DisposalPending(w: World, marker: Token) {
    exists id :: Disposes(w, id, marker)
  }

  /** A registered marker that no operation is removing, other than the one the host of `p` would remove. */
  ghost predicate LeftBehind(w: World, p: Process, marker: Token) {
    && RegisteredIn(w, p, marker)
    && !DisposalPending(w, marker)
    && !(p in w.hosts && w.hosts[p] == marker)
  }

  /** A marker of an earlier disposal that failed, or of a second initialization, stays until `p` dies. */
  ghost predicate Permanent(w: World, p: Process) {
    exists marker :: LeftBehind(w, p, marker)
  }

  /** Nobody can take the lock again as long as `p` lives. */
  ghost predicate LockLost(w: World, p: Process) {
    Orphaned(w) && (w.lock.value.Full? ==> w.lock.value.record.owner == p)
  }

  /** A marker of `p` keeps purges away. */
  ghost predicate Protected(w: World, p: Process) {
    p in w.hosts || Permanent(w, p)
  }

  /** Every row that the install could build from a registry it may read mentions packages on disk, and its own. */
  ghost predicate ReadsBacked(w: World, p: Process, op: Operation)
    requires op.Install?
  {
    && p in w.enabledAt
    && forall k | w.enabledAt[p] <= k < |w.history| && BuildRow(op, w.history[k].installs).Some? ::
         RowPackages(BuildRow(op, w.history[k].installs).value) <= w.packages + {(op.id, op.digest)}
  }

  /** Beginning the install now puts a row without its package within reach. */
  ghost predicate Reckless(w: World, p: Process, op: Operation)
    requires op.Install?
  {
    !LockLost(w, p) && !(Protected(w, p) && ReadsBacked(w, p, op))
  }

  /** Disposing the host of `p` now leaves an install of `p` unprotected. */
  ghost predicate Risky(w: World, p: Process) {
    !Permanent(w, p) && !LockLost(w, p) && exists id :: UnspentInstall(w, id, p)
  }

  /** What a caller of the store can check before it starts an operation. */
  ghost predicate Orderly(w: World, a: Action) {
    a.Begin? ==>
      && (a.op.Install? ==> !Reckless(w, a.process, a.op))
      && (a.op.DisposeHost? ==> !Risky(w, a.process))
  }

  // ---------------------------------------------------------------- invariants

  /** The packages an operation relies on are on disk. */
  ghost predicate Backed(packages: set<Package>, t: Task) {
    t.op.Install? ==>
      && (t.stage == NeedsPublish ==> t.row.Some? && RowPackages(t.row.value) <= packages + {(t.op.id, t.op.digest)})
      && (t.stage == NeedsCommit || t.stage == Retry ==> t.row.Some? && RowPackages(t.row.value) <= packages)
  }

  ghost predicate Shielded(w: World, p: Process) {
    exists marker :: RegisteredIn(w, p, marker)
  }

  /** Every registry the process may still read mentions stored packages only. */
  ghost predicate HistoryStored(w: World, p: Process) {
    p in w.enabledAt && forall k | w.enabledAt[p] <= k < |w.history| :: Stored(w.history[k].installs, w.packages)
  }

  /**
   An install that may read again is backed and protected; one that will not is safe as long as its
   commit can succeed.
   */
  ghost predicate InstallIsSafe(w: World, t: Task)
    requires t.op.Install?
  {
    if Spent(|w.history|, t) then
      UpToDate(|w.history|, t) ==> Backed(w.packages, t) && (Holding(t) || Shielded(w, t.process))
    else
      Backed(w.packages, t) && Protected(w, t.process) && (t.stage == Fresh ==> ReadsBacked(w, t.process, t.op))
  }

  /** An install that can never take the lock does no harm either. */
  ghost predicate InstallOk(w: World, t: Task)
    requires t.op.Install?
  {
    LockLost(w, t.process) || InstallIsSafe(w, t)
  }

  ghost predicate InstallsAreOk(w: World) {
    forall id | id in w.tasks && w.tasks[id].op.Install? :: InstallOk(w, w.tasks[id])
  }

  ghost predicate PackagesAreStored(w: World) {
    && w.history != []
    && Stored(Current(w).installs, w.packages)
    && (forall p | p in w.hosts :: HistoryStored(w, p))
    && InstallsAreOk(w)
  }

  ghost predicate SoundInv(w: World) {
    Inv(w) && HostInv(w) && PackagesAreStored(w)
  }

  // ---------------------------------------------------------------- protection lasts

  lemma RegisteredStays(w: World, a: Action, w': World, p: Process, marker: Token)
    requires Inv(w) && HostInv(w) && Next(w, a) == Some(w')
    requires RegisteredIn(w, p, marker) && p in w.alive && !DisposalPending(w, marker)
    ensures RegisteredIn(w', p, marker)
  {
    if Writes(a) {
      if a.Unregister? {
        assert Disposes(w, a.task, w.tasks[a.task].op.marker);
      }
      WriteKeepsRegistered(w, a, w', p, marker);
    } else {
      OnlyWritersWrite(w, a, w');
    }
  }

  lemma PendingStays(w: World, a: Action, w': World, p: Process, marker: Token)
    requires HostInv(w) && Next(w, a) == Some(w')
    requires LeftBehind(w, p, marker)
    ensures !DisposalPending(w', marker)
  {
    if a.Begin? && a.op.DisposeHost? {
      BeginEnters(w, a.task, a.process, a.op, w');
      assert Registered(Current(w), a.process, a.op.marker);
    }
    forall id | Disposes(w', id, marker) ensures false {
      assert !Disposes(w, id, marker);
      DisposersStay(w, a, w', id);
    }
  }

  /** A disposal that is due in the new state was due before or begins now. */
  lemma DisposersStay(w: World, a: Action, w': World, id: nat)
    requires Next(w, a) == Some(w') && id in w'.tasks && w'.tasks[id].op.DisposeHost? && w'.tasks[id].stage == Fresh
    ensures (a.Begin? && a.task == id && a.op == w'.tasks[id].op) || Disposes(w, id, w'.tasks[id].op.marker)
  {
    if !a.Spawn? && !a.Crash? {
      TaskStepsKeepOthers(w, a, w');
      Footprint(w, a, w');
      if a.Begin? {
        BeginEnters(w, a.task, a.process, a.op, w');
      }
    }
  }

  lemma PermanentStays(w: World, a: Action, w': World, p: Process)
    requires Inv(w) && HostInv(w) && Next(w, a) == Some(w') && p in w.alive
    requires Permanent(w, p)
    ensures Protected(w', p)
  {
    var marker :| LeftBehind(w, p, marker);
    RegisteredStays(w, a, w', p, marker);
    PendingStays(w, a, w', p, marker);
    assert LeftBehind(w', p, marker) || (p in w'.hosts && w'.hosts[p] == marker);
  }

  lemma LockLostStays(w: World, a: Action, w': World, p: Process)
    requires LockInv(w) && Next(w, a) == Some(w') && p in w'.alive && LockLost(w, p)
    ensures LockLost(w', p)
  {
    OrphanStays(w, a, w');
  }

  lemma HostStays(w: World, a: Action, w': World, p: Process)
    requires Next(w, a) == Some(w') && p in w.hosts && p in w'.alive
    requires !(a.Begin? && a.op.DisposeHost? && a.process == p)
    ensures p in w'.hosts
  {
    if !a.Spawn? && !a.Crash? && !a.Begin? && !a.Leave? {
      Footprint(w, a, w');
    }
  }

  /** In an orderly step, the process of an install that may read again stays protected while it lives. */
  lemma ProtectionStays(w: World, a: Action, w': World, id: nat, p: Process)
    requires Inv(w) && HostInv(w) && Orderly(w, a) && Next(w, a) == Some(w')
    requires UnspentInstall(w, id, p) && Protected(w, p) && p in w'.alive
    ensures Protected(w', p) || LockLost(w', p)
  {
    if Permanent(w, p) {
      PermanentStays(w, a, w', p);
    } else if LockLost(w, p) {
      LockLostStays(w, a, w', p);
    } else {
      HostStays(w, a, w', p);
    }
  }

  /** A protected process has a marker in the registry. */
  lemma ProtectedIsShielded(w: World, p: Process)
    requires HostInv(w) && Protected(w, p)
    ensures Shielded(w, p)
  {
    if p in w.hosts {
      assert RegisteredIn(w, p, w.hosts[p]);
    } else {
      var marker :| LeftBehind(w, p, marker);
      assert RegisteredIn(w, p, marker);
    }
  }

  // ---------------------------------------------------------------- readable registries stay stored

  /** The registry is as it was, or has one more generation, which mentions stored packages only. */
  ghost predicate WroteStored(w: World, w': World) {
    || w'.history == w.history
    || exists r: Registry :: w'.history == w.history + [r] && Stored(r.installs, w.packages)
  }

  lemma StoredByMore(installs: map<InstallId, Row>, packages: set<Package>, more: set<Package>)
    requires Stored(installs, packages) && packages <= more
    ensures Stored(installs, more)
  {
  }

  /** The process may read no older registries than before. */
  ghost predicate EnabledKept(w: World, w': World, p: Process) {
    && p in w.enabledAt && p in w'.enabledAt
    && (w'.enabledAt[p] == w.enabledAt[p] || (w'.history == w.history && w'.enabledAt[p] == |w.history| - 1))
  }

  lemma ReadableStaysStored(w: World, w': World, p: Process)
    requires EnabledKept(w, w', p) && HistoryStored(w, p)
    requires w.history != [] && Stored(Current(w).installs, w.packages)
    requires WroteStored(w, w') && w.packages <= w'.packages
    ensures HistoryStored(w', p)
  {
    hide Stored;
    forall k | w'.enabledAt[p] <= k < |w'.history| ensures Stored(w'.history[k].installs, w'.packages) {
      StoredByMore(w'.history[k].installs, w.packages, w'.packages);
    }
  }

  lemma HistoryStaysStored(w: World, a: Action, w': World, p: Process)
    requires Next(w, a) == Some(w') && HistoryStored(w, p) && p in w'.alive
    requires w.history != [] && Stored(Current(w).installs, w.packages)
    requires WroteStored(w, w') && w.packages <= w'.packages
    ensures HistoryStored(w', p)
  {
    hide Next, Stored;
    EnabledStays(w, a, w', p);
    ReadableStaysStored(w, w', p);
  }

  lemma BuiltRowIsBacked(op: Operation, installs: map<InstallId, Row>, packages: set<Package>)
    requires op.Install? && BuildRow(op, installs).Some? && KeyedById(installs) && Stored(installs, packages)
    ensures RowPackages(BuildRow(op, installs).value) <= packages + {(op.id, op.digest)}
  {
    if op.replacing {
      assert RowPackages(installs[op.id]) <= packages;
      if installs[op.id].previous.Some? {
        assert (op.id, installs[op.id].previous.value) in RowPackages(installs[op.id]);
      }
    }
  }

  /** A process whose readable registries are stored may install anything. */
  lemma StoredReadsAreBacked(w: World, p: Process, op: Operation)
    requires HistoryIsSequential(w) && HistoryStored(w, p) && op.Install?
    ensures ReadsBacked(w, p, op)
  {
    forall k | w.enabledAt[p] <= k < |w.history| && BuildRow(op, w.history[k].installs).Some?
      ensures RowPackages(BuildRow(op, w.history[k].installs).value) <= w.packages + {(op.id, op.digest)}
    {
      assert Stored(w.history[k].installs, w.packages) && KeyedById(w.history[k].installs);
      BuiltRowIsBacked(op, w.history[k].installs, w.packages);
    }
  }

  lemma ReadableStaysBacked(w: World, w': World, p: Process, op: Operation)
    requires HistoryIsSequential(w') && EnabledInThePast(w) && EnabledKept(w, w', p)
    requires op.Install? && ReadsBacked(w, p, op) && WroteStored(w, w') && w.packages <= w'.packages
    ensures ReadsBacked(w', p, op)
  {
    hide Stored, BuildRow;
    forall k | w'.enabledAt[p] <= k < |w'.history| && BuildRow(op, w'.history[k].installs).Some?
      ensures RowPackages(BuildRow(op, w'.history[k].installs).value) <= w'.packages + {(op.id, op.digest)}
    {
      if k < |w.history| {
        assert w'.history[k] == w.history[k];
      } else {
        assert KeyedById(w'.history[k].installs);
        BuiltRowIsBacked(op, w'.history[k].installs, w.packages);
      }
    }
  }

  lemma ReadsStayBacked(w: World, a: Action, w': World, p: Process, op: Operation)
    requires HistoryIsSequential(w') && EnabledInThePast(w) && Next(w, a) == Some(w') && p in w'.alive
    requires op.Install? && ReadsBacked(w, p, op) && WroteStored(w, w') && w.packages <= w'.packages
    ensures ReadsBacked(w', p, op)
  {
    hide Next, HistoryIsSequential, EnabledInThePast, WroteStored;
    EnabledStays(w, a, w', p);
    ReadableStaysBacked(w, w', p, op);
  }

  /** Every host may install anything: no registry it may read names a package that is gone. */
  lemma HostsMayInstall(w: World, p: Process, op: Operation)
    requires SoundInv(w) && p in w.hosts && op.Install?
    ensures !Reckless(w, p, op)
  {
    StoredReadsAreBacked(w, p, op);
  }

  // ---------------------------------------------------------------- the other installs

  lemma ShieldStays(w: World, w': World, p: Process)
    requires w'.history == w.history && Shielded(w, p)
    ensures Shielded(w', p)
  {
    var marker :| RegisteredIn(w, p, marker);
    assert RegisteredIn(w', p, marker);
  }

  lemma SoundIsInv(w: World)
    requires SoundInv(w)
    ensures Inv(w) && LockInv(w)
  {
  }

  /** What the invariant says about one install. */
  lemma KnownInstall(w: World, id: nat)
    requires SoundInv(w) && id in w.tasks && w.tasks[id].op.Install?
    ensures InstallOk(w, w.tasks[id]) && Informed(w.history, w.tasks[id]) && Staged(w.tasks[id])
    ensures LockInv(w) && w.tasks[id].process in w.alive
  {
  }

  /** What an install that may read again relies on stays, whatever somebody else writes. */
  lemma ReliancesStay(w: World, a: Action, w': World, q: nat)
    requires SoundInv(w) && Orderly(w, a) && Next(w, a) == Some(w') && WroteStored(w, w') && w.packages <= w'.packages
    requires q in w.tasks && w.tasks[q].op.Install? && w.tasks[q].process in w'.alive
    requires !Spent(|w.history|, w.tasks[q]) && InstallIsSafe(w, w.tasks[q])
    ensures Backed(w'.packages, w.tasks[q])
    ensures Protected(w', w.tasks[q].process) || LockLost(w', w.tasks[q].process)
    ensures w.tasks[q].stage == Fresh ==> ReadsBacked(w', w.tasks[q].process, w.tasks[q].op)
  {
    var t := w.tasks[q];
    hide Inv, PackagesAreStored, Next, HistoryIsSequential;
    BackedByMoreIf(w.packages, w'.packages, t);
    ProtectionStays(w, a, w', q, t.process);
    if t.stage == Fresh {
      HistoryStaysSequential(w, a, w');
      ReadsStayBacked(w, a, w', t.process, t.op);
    }
  }

  lemma HistoryStaysSequential(w: World, a: Action, w': World)
    requires Inv(w) && Next(w, a) == Some(w')
    ensures HistoryIsSequential(w')
  {
    StepKeepsInv(w, a, w');
  }

  /** An install that does not act itself, in a step that leaves the registry alone and deletes nothing. */
  lemma QuietStepKeepsInstall(w: World, a: Action, w': World, q: nat)
    requires SoundInv(w) && Orderly(w, a) && Next(w, a) == Some(w')
    requires w'.history == w.history && w.packages <= w'.packages
    requires q in w.tasks && w.tasks[q].op.Install? && w.tasks[q].process in w'.alive
    ensures InstallOk(w', w.tasks[q])
  {
    var t := w.tasks[q];
    assert InstallOk(w, t) && LockInv(w);
    hide Inv, HostInv, PackagesAreStored, LockInv, Next;
    if LockLost(w, t.process) {
      LockLostStays(w, a, w', t.process);
    } else if !Spent(|w.history|, t) {
      ReliancesStay(w, a, w', q);
    } else if UpToDate(|w.history|, t) {
      BackedByMoreIf(w.packages, w'.packages, t);
      if !Holding(t) {
        ShieldStays(w, w', t.process);
      }
    }
  }

  lemma BackedByMoreIf(packages: set<Package>, more: set<Package>, t: Task)
    requires packages <= more
    ensures Backed(packages, t) ==> Backed(more, t)
  {
  }

  /** After a write every other install is out of date: it is on its last attempt, or must read again. */
  lemma WriteKeepsInstall(w: World, a: Action, w': World, q: nat, r: Registry)
    requires SoundInv(w) && Orderly(w, a) && Next(w, a) == Some(w') && Writes(a)
    requires w'.history == w.history + [r] && Stored(r.installs, w.packages) && w'.packages == w.packages
    requires q in w.tasks && w.tasks[q].op.Install? && q != a.task && w.tasks[q].process in w'.alive
    ensures InstallOk(w', w.tasks[q])
  {
    var t := w.tasks[q];
    assert InstallOk(w, t) && Informed(w.history, t) && LockInv(w);
    if LockLost(w, t.process) {
      LockLostStays(w, a, w', t.process);
    } else if !Spent(|w'.history|, t) {
      NotHolding(w, a, w', q);
      ReliancesStay(w, a, w', q);
    }
  }

  lemma NotHolding(w: World, a: Action, w': World, q: nat)
    requires LockInv(w) && Next(w, a) == Some(w') && Writes(a) && q in w.tasks && q != a.task
    ensures !Holding(w.tasks[q])
  {
    WriterLeaves(w, a, w');
    assert Occupies(w.tasks[a.task]);
  }

  // ---------------------------------------------------------------- the acting install

  /** The steps that move an operation with respect to the lock and do nothing else. */
  predicate Moves(a: Action) {
    a.Contend? || a.Create? || a.WriteLock? || a.Enter? || a.ReadOwner? || a.InspectOwner? || a.BreakLock?
    || a.ReadInside? || a.DropMarker? || a.Leave?
  }

  /** Where one operation stands with respect to the lock may have changed, but it has not stopped holding it. */
  ghost predicate Moved(w: World, id: nat, w': World) {
    && w'.history == w.history && w'.packages == w.packages && id in w.tasks
    && (id in w'.tasks ==>
          && w'.tasks[id] == w.tasks[id].(critical := w'.tasks[id].critical)
          && (Holding(w.tasks[id]) ==> Holding(w'.tasks[id])))
  }

  lemma MoveEffect(w: World, a: Action, w': World)
    requires Next(w, a) == Some(w') && Moves(a)
    ensures Moved(w, a.task, w') && w'.alive == w.alive
  {
    if a.Leave? {
      LeaveEffect(w, a.task, w');
    }
  }

  /** An install that moves is as safe as it was. */
  lemma MoveKeepsInstall(w: World, w': World, id: nat)
    requires Moved(w, id, w') && id in w'.tasks && w.tasks[id].op.Install?
    requires InstallOk(w, w.tasks[id]) && InstallOk(w', w.tasks[id])
    ensures InstallOk(w', w'.tasks[id])
  {
  }

  lemma ActingInstallStays(w: World, a: Action, w': World)
    requires SoundInv(w) && Moves(a) && Next(w, a) == Some(w') && Moved(w, a.task, w') && w'.alive == w.alive
    requires w.tasks[a.task].op.Install?
    ensures InstallOk(w, w.tasks[a.task]) && InstallOk(w', w.tasks[a.task])
  {
    hide SoundInv, LockInv, Next, InstallOk;
    KnownInstall(w, a.task);
    QuietStepKeepsInstall(w, a, w', a.task);
  }

  lemma PublishStages(w: World, id: nat, w': World)
    requires PublishPackage(w, id) == Some(w')
    ensures id in w.tasks && id in w'.tasks && w.tasks[id].op.Install? && w.tasks[id].stage == NeedsPublish
    ensures var t, t' := w.tasks[id], w'.tasks[id];
      && t' == t.(stage := NeedsCommit, critical := t'.critical)
      && w' == w.(packages := w.packages + {(t.op.id, t.op.digest)}, tasks := w'.tasks)
  {
  }

  /** A published install that may still read again is backed and protected. */
  lemma PublishedIsOk(w': World, t: Task, t': Task)
    requires t.op.Install? && t.stage == NeedsPublish && t' == t.(stage := NeedsCommit, critical := t'.critical)
    requires t.attempt == 0 && (t.op.id, t.op.digest) in w'.packages
    requires Backed(w'.packages, t) && (Protected(w', t.process) || LockLost(w', t.process))
    requires Shielded(w', t.process)
    ensures InstallOk(w', t')
  {
    hide Protected, LockLost, Shielded;
  }

  lemma PublishKeepsInstall(w: World, id: nat, w': World)
    requires SoundInv(w) && PublishPackage(w, id) == Some(w') && id in w'.tasks && w'.tasks[id].op.Install?
    ensures InstallOk(w', w'.tasks[id])
  {
    hide SoundInv, LockInv, PublishPackage, LockLost, Protected, Backed, Informed, RowPackages, ReadsBacked;
    assert Next(w, Publish(id)) == Some(w');
    hide Next;
    PublishStages(w, id, w');
    KnownInstall(w, id);
    var t := w.tasks[id];
    assert t.process in w'.alive;
    if LockLost(w, t.process) {
      LockLostStays(w, Publish(id), w', t.process);
    } else {
      ReliancesStay(w, Publish(id), w', id);
      SafeIsShielded(w, id, w');
      PublishedIsOk(w', t, w'.tasks[id]);
    }
  }

  /** An install that is protected before a quiet step is shielded after it. */
  lemma SafeIsShielded(w: World, id: nat, w': World)
    requires SoundInv(w) && id in w.tasks && w.tasks[id].op.Install? && InstallIsSafe(w, w.tasks[id])
    requires !Spent(|w.history|, w.tasks[id]) && w'.history == w.history
    ensures Shielded(w', w.tasks[id].process)
  {
    var p := w.tasks[id].process;
    assert Protected(w, p);
    hide InstallIsSafe, Protected, Shielded;
    ProtectedIsShielded(w, p);
    ShieldStays(w, w', p);
  }

  /** The row an install builds is backed; an install on its last attempt is shielded until somebody writes. */
  lemma ReaderIsOk(w': World, t: Task, t': Task, at: nat)
    requires t.op.Install? && t' == t.(stage := t'.stage, snapshot := at, row := t'.row) && t.critical == Outside
    requires t.process in w'.enabledAt && w'.enabledAt[t.process] <= at < |w'.history|
    requires || (t.stage == Fresh && t'.stage == NeedsPublish
                 && t'.row == BuildRow(t.op, w'.history[at].installs) && t'.row.Some?)
             || (t.stage == Retry && t'.stage == NeedsCommit && t'.row == t.row)
    requires Backed(w'.packages, t) && (Protected(w', t.process) || LockLost(w', t.process))
    requires t.stage == Fresh ==> ReadsBacked(w', t.process, t.op)
    requires Shielded(w', t.process)
    ensures InstallOk(w', t')
  {
    hide Protected, LockLost, Shielded, BuildRow, RowPackages;
  }

  lemma ReadKeepsInstall(w: World, id: nat, at: nat, w': World)
    requires SoundInv(w) && ReadRegistry(w, id, at) == Some(w')
    requires id in w.tasks && w.tasks[id].op.Install? && id in w'.tasks && w'.tasks[id].op.Install?
    ensures InstallOk(w', w'.tasks[id])
  {
    hide SoundInv, LockInv, ReadRegistry, BuildRow, LockLost, Protected, Backed, Informed, RowPackages;
    assert Next(w, Read(id, at)) == Some(w');
    hide Next;
    ReadStages(w, id, at, w');
    KnownInstall(w, id);
    var t := w.tasks[id];
    assert t.process in w'.alive;
    if LockLost(w, t.process) {
      LockLostStays(w, Read(id, at), w', t.process);
    } else {
      ReliancesStay(w, Read(id, at), w', id);
      SafeIsShielded(w, id, w');
      ReaderIsOk(w', t, w'.tasks[id], at);
    }
  }

  /** A commit that fails on the revision had an out-of-date snapshot; the install reads again or gives up. */
  lemma CommitKeepsInstall(w: World, id: nat, w': World)
    requires SoundInv(w) && CommitUnderLock(w, id) == Some(w')
    requires id in w.tasks && w.tasks[id].op.Install? && id in w'.tasks && w'.tasks[id].op.Install?
    ensures InstallOk(w', w'.tasks[id])
  {
    KnownInstall(w, id);
    hide SoundInv, LockInv, CommitUnderLock, LockLost, Protected, Backed, Shielded, ReadsBacked;
    if w'.tasks[id].stage == Retry {
      ConflictKeepsInstall(w, id, w');
    } else {
      CommitFinishes(w, id, w');
    }
  }

  lemma RetryingIsOk(w': World, t: Task, t': Task)
    requires t.op.Install? && t.stage == NeedsCommit
    requires t' == t.(stage := Retry, attempt := t.attempt + 1, critical := t'.critical)
    requires Backed(w'.packages, t) && (Protected(w', t.process) || LockLost(w', t.process))
    ensures InstallOk(w', t')
  {
    hide Protected, LockLost, RowPackages;
  }

  lemma ConflictKeepsInstall(w: World, id: nat, w': World)
    requires SoundInv(w) && CommitUnderLock(w, id) == Some(w')
    requires id in w.tasks && w.tasks[id].op.Install? && InstallOk(w, w.tasks[id]) && w.tasks[id].process in w.alive
    requires id in w'.tasks && w'.tasks[id].op.Install? && w'.tasks[id].stage == Retry
    ensures InstallOk(w', w'.tasks[id])
  {
    var t := w.tasks[id];
    hide SoundInv, LockInv, CommitUnderLock, LockLost, Protected, Shielded, ReadsBacked, Backed, Informed;
    assert Next(w, CommitInside(id)) == Some(w');
    hide Next;
    SoundIsInv(w);
    CommitConflicts(w, id, w');
    if LockLost(w, t.process) {
      LockLostStays(w, CommitInside(id), w', t.process);
    } else {
      ReliancesStay(w, CommitInside(id), w', id);
      RetryingIsOk(w', t, w'.tasks[id]);
    }
  }

  lemma CommitConflicts(w: World, id: nat, w': World)
    requires Inv(w) && CommitUnderLock(w, id) == Some(w') && id in w.tasks && id in w'.tasks
    requires w'.tasks[id].stage == Retry
    ensures var t, t' := w.tasks[id], w'.tasks[id];
      && t.attempt < 2 && t.snapshot + 1 != |w.history| && t.stage == NeedsCommit
      && t' == t.(stage := Retry, attempt := t.attempt + 1, critical := t'.critical)
    ensures w' == w.(tasks := w'.tasks)
  {
    assert Informed(w.history, w.tasks[id]);
  }

  lemma CommitFinishes(w: World, id: nat, w': World)
    requires CommitUnderLock(w, id) == Some(w') && id in w'.tasks && w'.tasks[id].stage != Retry
    ensures w'.tasks[id].stage == Finished
  {
  }

  // ---------------------------------------------------------------- what is written

  lemma EditKeepsPackagesOfRow(edit: RowEdit, row: Row)
    requires ApplyEdit(edit, row).Some?
    ensures RowPackages(ApplyEdit(edit, row).value) == RowPackages(row)
  {
  }

  /** An install that commits holds the lock with the last generation in hand. */
  lemma CommitterIsUpToDate(w: World, id: nat, w': World)
    requires Inv(w) && CommitUnderLock(w, id) == Some(w') && w'.history != w.history
    ensures UpToDate(|w.history|, w.tasks[id]) && Spent(|w.history|, w.tasks[id])
  {
    assert Informed(w.history, w.tasks[id]);
  }

  lemma AppliedIsStored(c: Commit, installs: map<InstallId, Row>, packages: set<Package>)
    requires Stored(installs, packages) && Applicable(c, installs) && (c.Put? ==> RowPackages(c.row) <= packages)
    ensures Stored(Apply(c, installs), packages)
  {
    if c.Change? {
      EditKeepsPackagesOfRow(c.edit, installs[c.id]);
    }
  }

  lemma CommittedRowIsStored(w: World, id: nat, w': World)
    requires SoundInv(w) && CommitUnderLock(w, id) == Some(w') && w'.history != w.history
    requires id in w.tasks && w.tasks[id].op.Install?
    ensures w.tasks[id].row.Some? && RowPackages(w.tasks[id].row.value) <= w.packages
  {
    KnownInstall(w, id);
    CommitterIsUpToDate(w, id, w');
    assert Holds(w.tasks[id]) && IsOccupant(w, id);
    hide SoundInv, LockInv, CommitUnderLock;
  }

  lemma CommitIsStored(w: World, id: nat, w': World)
    requires SoundInv(w) && CommitUnderLock(w, id) == Some(w')
    ensures WroteStored(w, w')
  {
    hide Inv, HostInv, CommitUnderLock, Apply, Stored;
    CommitIsSequential(w, id, w');
    if w'.history != w.history {
      CommitterIsInside(w, id, w');
      if w.tasks[id].op.Install? {
        CommittedRowIsStored(w, id, w');
      }
      AppliedIsStored(CommitOf(w.tasks[id]), Current(w).installs, w.packages);
    }
  }

  lemma CommitterIsInside(w: World, id: nat, w': World)
    requires CommitUnderLock(w, id) == Some(w')
    ensures id in w.tasks && w.tasks[id].critical.Inside? && w.tasks[id].op.OfManager()
    ensures w.tasks[id].op.Install? ==> w.tasks[id].row.Some?
  {
  }

  lemma WriteIsStored(w: World, a: Action, w': World)
    requires SoundInv(w) && Next(w, a) == Some(w') && Writes(a)
    ensures WroteStored(w, w')
  {
    if a.CommitInside? {
      CommitIsStored(w, a.task, w');
    } else {
      HostWriteIsSequential(w, a, w');
      if w'.history != w.history {
        assert Stored(Current(w').installs, w.packages);
      }
    }
  }

  // ---------------------------------------------------------------- steps

  lemma OtherInstallsStayOk(w: World, a: Action, w': World, q: nat)
    requires SoundInv(w) && Orderly(w, a) && Next(w, a) == Some(w')
    requires WroteStored(w, w') && w.packages <= w'.packages && (w'.history != w.history ==> Writes(a))
    requires q in w.tasks && w.tasks[q].op.Install? && w.tasks[q].process in w'.alive
    requires Writes(a) ==> q != a.task
    ensures InstallOk(w', w.tasks[q])
  {
    if w'.history != w.history {
      var r :| w'.history == w.history + [r] && Stored(r.installs, w.packages);
      Footprint(w, a, w');
      WriteKeepsInstall(w, a, w', q, r);
    } else {
      QuietStepKeepsInstall(w, a, w', q);
    }
  }

  /** All that is left to show when nothing is deleted: the acting install is safe. */
  lemma InstallsStayOkIf(w: World, a: Action, w': World)
    requires SoundInv(w) && Orderly(w, a) && Next(w, a) == Some(w') && !a.Spawn? && !a.Crash?
    requires WroteStored(w, w') && w.packages <= w'.packages && (w'.history != w.history ==> Writes(a))
    requires a.task in w'.tasks && w'.tasks[a.task].op.Install? ==> InstallOk(w', w'.tasks[a.task])
    ensures InstallsAreOk(w')
  {
    Footprint(w, a, w');
    TaskStepsKeepOthers(w, a, w');
    forall q | q in w'.tasks && w'.tasks[q].op.Install? ensures InstallOk(w', w'.tasks[q]) {
      if q != a.task {
        assert w.tasks[q].process in w.alive;
        OtherInstallsStayOk(w, a, w', q);
      }
    }
  }

  lemma StepKeepsPackagesIf(w: World, a: Action, w': World)
    requires SoundInv(w) && Orderly(w, a) && Next(w, a) == Some(w') && !a.Spawn? && !a.Crash?
    requires WroteStored(w, w') && w.packages <= w'.packages && (w'.history != w.history ==> Writes(a))
    requires a.task in w'.tasks && w'.tasks[a.task].op.Install? ==> InstallOk(w', w'.tasks[a.task])
    ensures PackagesAreStored(w')
  {
    InstallsStayOkIf(w, a, w');
    StepKeepsLockInv(w, a, w');
    HostsStayStored(w, a, w');
    StoredNow(w, w');
  }

  lemma StoredNow(w: World, w': World)
    requires w.history != [] && Stored(Current(w).installs, w.packages) && WroteStored(w, w')
        && w.packages <= w'.packages
    ensures w'.history != [] && Stored(Current(w').installs, w'.packages)
  {
    StoredByMore(Current(w').installs, w.packages, w'.packages);
  }

  lemma HostsStayStored(w: World, a: Action, w': World)
    requires SoundInv(w) && Next(w, a) == Some(w') && WroteStored(w, w') && w.packages <= w'.packages
    requires w'.hosts.Keys <= w'.alive
    ensures forall p | p in w'.hosts :: HistoryStored(w', p)
  {
    forall p | p in w'.hosts ensures HistoryStored(w', p) {
      if p in w.hosts {
        HistoryStaysStored(w, a, w', p);
      } else {
        NewHostIsStored(w, a, w', p);
      }
    }
  }

  lemma NewHostIsEnabled(w: World, a: Action, w': World, p: Process)
    requires Next(w, a) == Some(w') && p in w'.hosts && p !in w.hosts && w.history != []
    ensures p in w'.enabledAt && w'.history == w.history && w'.enabledAt[p] == |w.history| - 1
  {
    if a.Leave? {
      LeaveEffect(w, a.task, w');
    } else if !a.Spawn? && !a.Crash? && !a.Begin? {
      Footprint(w, a, w');
    }
  }

  lemma NewHostIsStored(w: World, a: Action, w': World, p: Process)
    requires Next(w, a) == Some(w') && p in w'.hosts && p !in w.hosts
    requires w.history != [] && Stored(Current(w).installs, w.packages) && w.packages <= w'.packages
    ensures HistoryStored(w', p)
  {
    hide Next, Stored;
    NewHostIsEnabled(w, a, w', p);
    StoredByMore(Current(w).installs, w.packages, w'.packages);
  }

  lemma InstallBegun(w: World, a: Action, w': World)
    requires ProcessesAreDistinct(w) && a.Begin? && a.op.Install? && Next(w, a) == Some(w')
    ensures w' == WithTask(w, a.task, Task(a.process, a.op, Fresh, 0, 0, None, Outside))
    ensures a.process in w.enabledAt && a.process in w.alive
  {
  }

  /** An install that begins where that is not reckless is safe. */
  lemma BegunInstallIsOk(w: World, a: Action, w': World)
    requires SoundInv(w) && a.Begin? && a.op.Install? && Orderly(w, a) && Next(w, a) == Some(w')
    ensures a.task in w'.tasks && InstallOk(w', w'.tasks[a.task])
  {
    assert EnabledInThePast(w);
    hide PackagesAreStored, TokensAreGenuine, LockIsHeld, Next, LockLost, Permanent, ReadsBacked;
    InstallBegun(w, a, w');
    if LockLost(w, a.process) {
      LockLostStays(w, a, w', a.process);
    } else {
      BegunIsProtected(w, a, w');
      ReadsStayBacked(w, a, w', a.process, a.op);
    }
  }

  lemma BegunIsProtected(w: World, a: Action, w': World)
    requires Inv(w) && HostInv(w) && Next(w, a) == Some(w') && a.Begin? && a.process in w.alive
    requires Protected(w, a.process) && w'.hosts == w.hosts
    ensures Protected(w', a.process)
  {
    if Permanent(w, a.process) {
      hide Permanent;
      PermanentStays(w, a, w', a.process);
    }
  }

  lemma BeginKeepsPackages(w: World, a: Action, w': World)
    requires SoundInv(w) && a.Begin? && Orderly(w, a) && Next(w, a) == Some(w')
    ensures PackagesAreStored(w')
  {
    BeginEnters(w, a.task, a.process, a.op, w');
    if a.op.Install? {
      BegunInstallIsOk(w, a, w');
    }
    StepKeepsPackagesIf(w, a, w');
  }

  lemma MovingKeepsPackages(w: World, a: Action, w': World)
    requires SoundInv(w) && Moves(a) && Next(w, a) == Some(w')
    ensures PackagesAreStored(w')
  {
    MoveEffect(w, a, w');
    hide SoundInv, InstallOk, PackagesAreStored, Next;
    if a.task in w'.tasks && w'.tasks[a.task].op.Install? {
      ActingInstallStays(w, a, w');
      MoveKeepsInstall(w, w', a.task);
    }
    StepKeepsPackagesIf(w, a, w');
  }

  lemma EndingEnds(w: World, a: Action, w': World)
    requires (a.Abandon? || a.Strand?) && Next(w, a) == Some(w')
    ensures a.task !in w'.tasks && w'.history == w.history && w'.packages == w.packages
  {
  }

  lemma EndingKeepsPackages(w: World, a: Action, w': World)
    requires SoundInv(w) && (a.Abandon? || a.Strand?) && Next(w, a) == Some(w')
    ensures PackagesAreStored(w')
  {
    EndingEnds(w, a, w');
    StepKeepsPackagesIf(w, a, w');
  }

  lemma ReadingKeepsPackages(w: World, id: nat, at: nat, w': World)
    requires SoundInv(w) && ReadRegistry(w, id, at) == Some(w')
    ensures PackagesAreStored(w')
  {
    ReadEffect(w, id, at, w');
    if id in w'.tasks && w'.tasks[id].op.Install? {
      ReadKeepsInstall(w, id, at, w');
    }
    StepKeepsPackagesIf(w, Read(id, at), w');
  }

  lemma PublishingKeepsPackages(w: World, id: nat, w': World)
    requires SoundInv(w) && PublishPackage(w, id) == Some(w')
    ensures PackagesAreStored(w')
  {
    hide SoundInv, InstallOk, PackagesAreStored;
    PublishStages(w, id, w');
    PublishKeepsInstall(w, id, w');
    hide PublishPackage;
    StepKeepsPackagesIf(w, Publish(id), w');
  }

  lemma WritingKeepsPackages(w: World, a: Action, w': World)
    requires SoundInv(w) && Next(w, a) == Some(w') && Writes(a)
    ensures PackagesAreStored(w')
  {
    hide SoundInv, InstallOk, PackagesAreStored, Next;
    WriteIsStored(w, a, w');
    Footprint(w, a, w');
    if a.task in w'.tasks && w'.tasks[a.task].op.Install? {
      InstallWritesByCommit(w, a, w');
      CommitKeepsInstall(w, a.task, w');
    }
    StepKeepsPackagesIf(w, a, w');
  }

  lemma InstallWritesByCommit(w: World, a: Action, w': World)
    requires Next(w, a) == Some(w') && Writes(a) && a.task in w.tasks && w.tasks[a.task].op.Install?
    ensures CommitUnderLock(w, a.task) == Some(w')
  {
  }

  /**
   A purge runs only when no living process is registered: whatever can still commit then holds nothing
   it could lose.
   */
  lemma PurgeKeepsPackages(w: World, id: nat, removed: set<Package>, w': World)
    requires SoundInv(w) && PurgePackages(w, id, removed) == Some(w')
    ensures PackagesAreStored(w')
  {
    assert Informed(w.history, w.tasks[id]);
    forall p | p in w.alive ensures !Shielded(w, p) && !LockLost(w, p) && !Protected(w, p) {
      PurgerSeesNoMarker(w, id, p);
    }
    forall q | q in w.tasks && w.tasks[q].op.Install? ensures InstallOk(w', w.tasks[q]) {
      assert InstallOk(w, w.tasks[q]);
      assert w.tasks[q].process in w.alive;
    }
  }

  lemma PurgerSeesNoMarker(w: World, id: nat, p: Process)
    requires SoundInv(w) && Initializing(w, id) && MustPurge(w.tasks[id].critical.latest.value) && p in w.alive
    ensures !Shielded(w, p) && !LockLost(w, p) && !Protected(w, p)
  {
    assert KeepsLive(Current(w).liveHosts, w.alive, w.tasks[id]);
    assert IsOccupant(w, id);
    forall marker ensures !RegisteredIn(w, p, marker) {}
    if Protected(w, p) {
      ProtectedIsShielded(w, p);
    }
  }

  lemma ProcessStepKeepsPackages(w: World, a: Action, w': World)
    requires SoundInv(w) && Next(w, a) == Some(w') && (a.Spawn? || a.Crash?)
    ensures PackagesAreStored(w')
  {
    StepKeepsLockInv(w, a, w');
    HostsStayStored(w, a, w');
    forall q | q in w'.tasks && w'.tasks[q].op.Install? ensures InstallOk(w', w'.tasks[q]) {
      QuietStepKeepsInstall(w, a, w', q);
    }
  }

  lemma StepKeepsPackages(w: World, a: Action, w': World)
    requires SoundInv(w) && Orderly(w, a) && Next(w, a) == Some(w')
    ensures PackagesAreStored(w')
  {
    if Writes(a) {
      WritingKeepsPackages(w, a, w');
    } else if a.Spawn? || a.Crash? {
      ProcessStepKeepsPackages(w, a, w');
    } else if a.Begin? {
      BeginKeepsPackages(w, a, w');
    } else if a.Read? {
      ReadingKeepsPackages(w, a.task, a.at, w');
    } else if a.Publish? {
      PublishingKeepsPackages(w, a.task, w');
    } else if a.Purge? {
      PurgeKeepsPackages(w, a.task, a.removed, w');
    } else if Moves(a) {
      MovingKeepsPackages(w, a, w');
    } else {
      EndingKeepsPackages(w, a, w');
    }
  }

  // ---------------------------------------------------------------- main result

  lemma StepKeepsSoundInv(w: World, a: Action, w': World)
    requires SoundInv(w) && Orderly(w, a) && Next(w, a) == Some(w')
    ensures SoundInv(w')
  {
    StepKeepsInv(w, a, w');
    StepKeepsHostInv(w, a, w');
    StepKeepsPackages(w, a, w');
  }

  lemma {:induction false} OrderlyRunKeepsSoundInv(w: World, actions: seq<Action>, w': World)
    requires SoundInv(w) && Allowed(Orderly, w, actions) && Run(w, actions) == Some(w')
    ensures SoundInv(w')
    decreases |actions|
  {
    if actions != [] {
      var before := actions[..|actions| - 1];
      OrderlyRunKeepsSoundInv(w, before, Run(w, before).value);
      StepKeepsSoundInv(Run(w, before).value, actions[|actions| - 1], w');
    }
  }

  lemma InitialIsSound(w: World)
    requires Initial(w) && Stored(Current(w).installs, w.packages)
    ensures SoundInv(w)
  {
    InitialIsInv(w);
    InitialIsHostInv(w);
  }

  /**
   In every orderly run from an initial registry whose packages are on disk, each current and
   previous digest in the registry names a package on disk.
   */
  lemma ReferencedPackagesAreOnDisk(w: World, actions: seq<Action>, w': World)
    requires Initial(w) && Stored(Current(w).installs, w.packages)
    requires Allowed(Orderly, w, actions) && Run(w, actions) == Some(w')
    ensures w'.history != [] && Stored(Current(w').installs, w'.packages)
  {
    InitialIsSound(w);
    OrderlyRunKeepsSoundInv(w, actions, w');
  }
}
