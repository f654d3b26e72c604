/**
 The lock file of the plugin registry: at most one live process is ever inside a critical
 section, although any process may break a lock it finds stale, any process may crash while it
 holds or writes the lock file, and an operation may fail to write or to remove it.
 */
module PluginLock {
  import opened Wrappers
  import opened PluginRegistry

  predicate Holds(t: Task) {
    t.critical.Inside? || t.critical.Leaving?
  }

  /** The lock file is this operation's, written or not. */
  predicate Occupies(t: Task) {
    Holds(t) || t.critical.Creating?
  }

  function LockOf(t: Task): LockFile
    requires Occupies(t)
  {
    if t.critical.Creating? && !t.critical.written then Blank else Full(LockRecord(t.critical.token, t.process))
  }

  /** Process instances are never reused, and one pid belongs to one live process. */
  ghost predicate ProcessesAreDistinct(w: World) {
    && w.alive <= w.everAlive
    && (forall p, q | p in w.alive && q in w.alive && p.pid == q.pid :: p == q)
    && w.hosts.Keys <= w.alive
    && w.enabledAt.Keys <= w.alive
    && (forall token | token in w.tokens :: w.tokens[token] in w.everAlive)
    && (forall id | id in w.tasks :: w.tasks[id].process in w.alive)
  }

  ghost predicate LockRecordIsGenuine(w: World, l: LockRecord) {
    l.token in w.tokens && w.tokens[l.token] == l.owner
  }

  /** A random token names one critical section of one operation. */
  ghost predicate TokensAreGenuine(w: World) {
    && (w.lock.Some? && w.lock.value.Full? ==> LockRecordIsGenuine(w, w.lock.value.record))
    && (forall id | id in w.tasks && !w.tasks[id].critical.Outside? ::
          LockRecordIsGenuine(w, LockRecord(w.tasks[id].critical.token, w.tasks[id].process)))
    && (forall id | id in w.tasks && w.tasks[id].critical.Contending? && w.tasks[id].critical.seen.Some? ::
          LockRecordIsGenuine(w, w.tasks[id].critical.seen.value))
    && (forall id, id' | id in w.tasks && id' in w.tasks && id != id'
          && !w.tasks[id].critical.Outside? && !w.tasks[id'].critical.Outside? ::
          w.tasks[id].critical.token != w.tasks[id'].critical.token)
  }

  ghost predicate LockIsHeld(w: World) {
    && (forall id | id in w.tasks && Occupies(w.tasks[id]) :: w.lock == Some(LockOf(w.tasks[id])))
    && (forall id, id' | id in w.tasks && id' in w.tasks && Occupies(w.tasks[id]) && Occupies(w.tasks[id']) ::
          id == id')
    && (forall id | id in w.tasks && w.tasks[id].critical.Contending? && w.tasks[id].critical.stale ::
          w.tasks[id].critical.seen.Some? && w.tasks[id].critical.seen.value.owner !in w.alive)
  }

  ghost predicate LockInv(w: World) {
    ProcessesAreDistinct(w) && TokensAreGenuine(w) && LockIsHeld(w)
  }

  /** A provably stale owner is dead. */
  lemma StaleMeansDead(w: World, owner: Process)
    requires ProcessesAreDistinct(w) && ProvablyStale(w.alive, owner)
    ensures owner !in w.alive
  {
  }

  /** A step inside or outside a critical section that leaves the lock, the tokens and the processes alone. */
  ghost predicate WorksOnItsOwn(w: World, id: nat, w': World) {
    && w' == w.(history := w'.history, log := w'.log, packages := w'.packages, tasks := w'.tasks)
    && id in w.tasks
    && (w'.tasks == w.tasks
        || (w'.tasks == w.tasks - {id} && w.tasks[id].critical.Outside?)
        || (id in w'.tasks
            && w'.tasks == w.tasks[id := w'.tasks[id]]
            && w'.tasks[id].process == w.tasks[id].process
            && w'.tasks[id].op == w.tasks[id].op
            && (w'.tasks[id].critical == w.tasks[id].critical
                || (Holds(w.tasks[id]) && Holds(w'.tasks[id])
                    && w'.tasks[id].critical.token == w.tasks[id].critical.token))))
  }

  /** The steps that only work with the registry and the packages. */
  predicate OfRegistry(a: Action) {
    a.Read? || a.ReadInside? || a.Publish? || a.CommitInside? || a.DropMarker? || a.Purge? || a.Register?
        || a.Unregister?
  }

  lemma RegistryStepsWorkOnTheirOwn(w: World, a: Action, w': World)
    requires OfRegistry(a) && Next(w, a) == Some(w')
    ensures WorksOnItsOwn(w, a.task, w')
  {
    match a
    case Read(id, at) => ReadEffect(w, id, at, w');
    case CommitInside(_) => WritesWorkOnTheirOwn(w, a, w');
    case Register(_) => WritesWorkOnTheirOwn(w, a, w');
    case Unregister(_) => WritesWorkOnTheirOwn(w, a, w');
    case _ =>
  }

  lemma WritesWorkOnTheirOwn(w: World, a: Action, w': World)
    requires (a.CommitInside? || a.Register? || a.Unregister?) && Next(w, a) == Some(w')
    ensures WorksOnItsOwn(w, a.task, w')
  {
  }

  /** Reading either ends the operation or advances its stage. */
  lemma ReadEffect(w: World, id: nat, at: nat, w': World)
    requires ReadRegistry(w, id, at) == Some(w')
    ensures id in w.tasks && w.tasks[id].critical.Outside?
    ensures w' == WithoutTask(w, id) ||
            (id in w'.tasks && w' == WithTask(w, id,
                w.tasks[id].(stage := w'.tasks[id].stage, snapshot := at, row := w'.tasks[id].row)))
  {
  }

  lemma SpawnKeepsLockInv(w: World, p: Process, w': World)
    requires LockInv(w) && SpawnProcess(w, p) == Some(w')
    ensures LockInv(w')
  {
  }

  lemma CrashKeepsLockInv(w: World, p: Process, w': World)
    requires LockInv(w) && CrashProcess(w, p) == Some(w')
    ensures LockInv(w')
  {
  }

  /** A new operation enters, outside the lock; it may have drawn a token. */
  ghost predicate Enters(w: World, id: nat, p: Process, op: Operation, w': World) {
    && id !in w.tasks && p in w.alive
    && w' == w.(tasks := w.tasks[id := Task(p, op, Fresh, 0, 0, None, Outside)], tokens := w'.tokens, hosts := w'.hosts)
    && w'.hosts.Keys <= w.hosts.Keys
    && (forall token | token in w.tokens :: token in w'.tokens && w'.tokens[token] == w.tokens[token])
    && (forall token | token in w'.tokens :: token in w.tokens || w'.tokens[token] == p)
  }

  lemma BeginEnters(w: World, id: nat, p: Process, op: Operation, w': World)
    requires BeginTask(w, id, p, op) == Some(w')
    ensures Enters(w, id, p, op, w')
  {
  }

  lemma EnteringKeepsLockInv(w: World, id: nat, p: Process, op: Operation, w': World)
    requires LockInv(w) && Enters(w, id, p, op, w')
    ensures LockInv(w')
  {
    EnteringKeepsProcesses(w, id, p, op, w');
    EnteringKeepsTokens(w, id, p, op, w');
    EnteringKeepsHeld(w, id, p, op, w');
  }

  lemma EnteringKeepsHeld(w: World, id: nat, p: Process, op: Operation, w': World)
    requires LockIsHeld(w) && Enters(w, id, p, op, w')
    ensures LockIsHeld(w')
  {
  }

  lemma EnteringKeepsProcesses(w: World, id: nat, p: Process, op: Operation, w': World)
    requires ProcessesAreDistinct(w) && Enters(w, id, p, op, w')
    ensures ProcessesAreDistinct(w')
  {
  }

  lemma EnteringKeepsTokens(w: World, id: nat, p: Process, op: Operation, w': World)
    requires TokensAreGenuine(w) && Enters(w, id, p, op, w')
    ensures TokensAreGenuine(w')
  {
  }

  /** One operation draws a token, or acts on the lock file, or ends; nothing else changes. */
  ghost predicate ActsOnLock(w: World, id: nat, w': World) {
    && id in w.tasks
    && w' == w.(lock := w'.lock, tasks := w'.tasks, tokens := w'.tokens)
    && (w'.tasks == w.tasks - {id}
        || (id in w'.tasks && w'.tasks == w.tasks[id := w'.tasks[id]] && w'.tasks[id].process == w.tasks[id].process))
    && (forall token | token in w.tokens :: token in w'.tokens && w'.tokens[token] == w.tokens[token])
    && (forall token | token in w'.tokens :: token in w.tokens || w'.tokens[token] == w.tasks[id].process)
  }

  lemma ActingKeepsProcesses(w: World, id: nat, w': World)
    requires ProcessesAreDistinct(w) && ActsOnLock(w, id, w')
    ensures ProcessesAreDistinct(w')
  {
    assert w.tasks[id].process in w.alive;
  }

  /** The token of the operation stays its own, or is a new one; what it saw was in the lock file. */
  ghost predicate TokenKept(w: World, id: nat, w': World) {
    && ActsOnLock(w, id, w')
    && (w'.lock.Some? && w'.lock.value.Full? && w'.lock != w.lock ==> LockRecordIsGenuine(w', w'.lock.value.record))
    && (id in w'.tasks && !w'.tasks[id].critical.Outside? ==>
          var token := w'.tasks[id].critical.token;
          && LockRecordIsGenuine(w', LockRecord(token, w'.tasks[id].process))
          && ((!w.tasks[id].critical.Outside? && w.tasks[id].critical.token == token) || token !in w.tokens))
    && (id in w'.tasks && w'.tasks[id].critical.Contending? && w'.tasks[id].critical.seen.Some? ==>
          LockRecordIsGenuine(w, w'.tasks[id].critical.seen.value))
  }

  lemma ActingKeepsTokens(w: World, id: nat, w': World)
    requires TokensAreGenuine(w) && TokenKept(w, id, w')
    ensures TokensAreGenuine(w')
  {
    forall q | q in w'.tasks && q != id ensures q in w.tasks && w'.tasks[q] == w.tasks[q] {}
  }

  /** The lock file is left alone or changed by the only operation it may belong to. */
  ghost predicate OccupancyKept(w: World, id: nat, w': World) {
    && ActsOnLock(w, id, w')
    && (w'.lock != w.lock ==> forall q | q in w.tasks && q != id :: !Occupies(w.tasks[q]))
    && (id in w'.tasks && Occupies(w'.tasks[id]) ==>
          && w'.lock == Some(LockOf(w'.tasks[id]))
          && forall q | q in w.tasks && q != id :: !Occupies(w.tasks[q]))
    && (id in w'.tasks && w'.tasks[id].critical.Contending? && w'.tasks[id].critical.stale ==>
          w'.tasks[id].critical.seen.Some? && w'.tasks[id].critical.seen.value.owner !in w.alive)
  }

  lemma ActingKeepsHeld(w: World, id: nat, w': World)
    requires LockIsHeld(w) && OccupancyKept(w, id, w')
    ensures LockIsHeld(w')
  {
    forall q | q in w'.tasks && q != id ensures q in w.tasks && w'.tasks[q] == w.tasks[q] {}
  }

  lemma ActingKeepsLockInv(w: World, id: nat, w': World)
    requires LockInv(w) && TokenKept(w, id, w') && OccupancyKept(w, id, w')
    ensures LockInv(w')
  {
    ActingKeepsProcesses(w, id, w');
    ActingKeepsTokens(w, id, w');
    ActingKeepsHeld(w, id, w');
  }

  lemma WorkingKeepsLockInv(w: World, id: nat, w': World)
    requires LockInv(w) && WorksOnItsOwn(w, id, w')
    ensures LockInv(w')
  {
    var u := w'.(history := w.history, log := w.log, packages := w.packages);
    WorkingActsOnLock(w, id, w', u);
    ActingKeepsLockInv(w, id, u);
  }

  lemma WorkingActsOnLock(w: World, id: nat, w': World, u: World)
    requires LockInv(w) && WorksOnItsOwn(w, id, w')
    requires u == w'.(history := w.history, log := w.log, packages := w.packages)
    ensures TokenKept(w, id, u) && OccupancyKept(w, id, u)
  {
    var t := w.tasks[id];
    assert w.tasks[id := t] == w.tasks;
    assert !t.critical.Outside? ==> LockRecordIsGenuine(w, LockRecord(t.critical.token, t.process));
  }

  predicate OfLock(a: Action) {
    a.Contend? || a.Create? || a.WriteLock? || a.Enter? || a.ReadOwner? || a.InspectOwner? || a.BreakLock?
        || a.Abandon? || a.Strand?
  }

  lemma LockStepsKeepTokens(w: World, a: Action, w': World)
    requires LockInv(w) && OfLock(a) && Next(w, a) == Some(w')
    ensures TokenKept(w, a.task, w')
  {
    var t := w.tasks[a.task];
    assert !t.critical.Outside? ==> LockRecordIsGenuine(w, LockRecord(t.critical.token, t.process));
    if a.Abandon? || a.Strand? {
      EndingKeepsTokens(w, a, w');
    } else if a.Create? || a.WriteLock? || a.Enter? {
      CreatingKeepsTokens(w, a, w');
    }
  }

  lemma EndingKeepsTokens(w: World, a: Action, w': World)
    requires LockInv(w) && (a.Abandon? || a.Strand?) && Next(w, a) == Some(w')
    ensures TokenKept(w, a.task, w')
  {
    hide Next;
    EndingEffect(w, a, w');
  }

  lemma CreatingKeepsTokens(w: World, a: Action, w': World)
    requires LockInv(w) && (a.Create? || a.WriteLock? || a.Enter?) && Next(w, a) == Some(w')
    ensures TokenKept(w, a.task, w')
  {
    assert LockIsHeld(w);
    hide Next;
    CreatingEffect(w, a, w');
    var t := w.tasks[a.task];
    assert LockRecordIsGenuine(w, LockRecord(t.critical.token, t.process));
  }

  lemma LockStepsKeepOccupancy(w: World, a: Action, w': World)
    requires LockInv(w) && OfLock(a) && !a.BreakLock? && Next(w, a) == Some(w')
    ensures OccupancyKept(w, a.task, w')
  {
    hide LockInv, OccupancyKept, Next;
    if a.Contend? || a.ReadOwner? || a.InspectOwner? {
      WaitingKeepsOccupancy(w, a, w');
    } else if a.Abandon? || a.Strand? {
      EndingKeepsOccupancy(w, a, w');
    } else {
      CreatingKeepsOccupancy(w, a, w');
    }
  }

  lemma EndingEffect(w: World, a: Action, w': World)
    requires (a.Abandon? || a.Strand?) && Next(w, a) == Some(w')
    ensures a.task in w.tasks && w' == w.(lock := w'.lock, tasks := w.tasks - {a.task})
    ensures w'.lock != w.lock ==> a.Abandon? && w'.lock.None? && Holds(w.tasks[a.task])
    ensures a.Strand? ==> Holds(w.tasks[a.task])
    ensures a.Abandon? && Holds(w.tasks[a.task]) && w.lock == Some(LockOf(w.tasks[a.task])) ==> w'.lock.None?
  {
  }

  lemma EndingKeepsOccupancy(w: World, a: Action, w': World)
    requires LockInv(w) && (a.Abandon? || a.Strand?) && Next(w, a) == Some(w')
    ensures OccupancyKept(w, a.task, w')
  {
    assert LockIsHeld(w);
    hide Next, LockInv;
    EndingEffect(w, a, w');
  }

  /** The operation that creates the lock file, writes it or enters has it, or found none. */
  lemma CreatingEffect(w: World, a: Action, w': World)
    requires (a.Create? || a.WriteLock? || a.Enter?) && Next(w, a) == Some(w')
    requires a.task in w.tasks && Occupies(w.tasks[a.task]) ==> w.lock == Some(LockOf(w.tasks[a.task]))
    ensures a.task in w.tasks && a.task in w'.tasks && w.tasks[a.task].critical != Outside
    ensures var t, t' := w.tasks[a.task], w'.tasks[a.task];
      && t' == t.(critical := t'.critical) && Occupies(t') && t'.critical.token == t.critical.token
      && w' == w.(lock := Some(LockOf(t')), tasks := w.tasks[a.task := t'])
      && (w.lock.None? || Occupies(t))
  {
  }

  lemma CreatingKeepsOccupancy(w: World, a: Action, w': World)
    requires LockInv(w) && (a.Create? || a.WriteLock? || a.Enter?) && Next(w, a) == Some(w')
    ensures OccupancyKept(w, a.task, w')
  {
    assert LockIsHeld(w);
    hide Next, LockInv;
    CreatingEffect(w, a, w');
  }

  lemma WaitingKeepsOccupancy(w: World, a: Action, w': World)
    requires LockInv(w) && (a.Contend? || a.ReadOwner? || a.InspectOwner?) && Next(w, a) == Some(w')
    ensures OccupancyKept(w, a.task, w')
  {
    assert LockIsHeld(w) && ProcessesAreDistinct(w);
    WaitingEffect(w, a, w');
    hide Next, LockInv;
    if a.InspectOwner? {
      StaleMeansDead(w, w.tasks[a.task].critical.seen.value.owner);
    }
  }

  lemma WaitingEffect(w: World, a: Action, w': World)
    requires (a.Contend? || a.ReadOwner? || a.InspectOwner?) && Next(w, a) == Some(w')
    ensures ActsOnLock(w, a.task, w') && w'.lock == w.lock
    ensures a.task in w'.tasks && w'.tasks[a.task].critical.Contending?
    ensures w'.tasks[a.task].critical.stale ==>
              && a.InspectOwner? && w.tasks[a.task].critical.Contending? && w.tasks[a.task].critical.seen.Some?
              && w'.tasks[a.task].critical.seen == w.tasks[a.task].critical.seen
              && ProvablyStale(w.alive, w.tasks[a.task].critical.seen.value.owner)
  {
  }

  lemma LockStepKeepsLockInv(w: World, a: Action, w': World)
    requires LockInv(w) && OfLock(a) && Next(w, a) == Some(w')
    ensures LockInv(w')
  {
    LockStepsKeepTokens(w, a, w');
    if a.BreakLock? {
      BreakKeepsOccupancy(w, a.task, w');
    } else {
      LockStepsKeepOccupancy(w, a, w');
    }
    ActingKeepsLockInv(w, a.task, w');
  }

  /** A lock is only broken when its owner is dead, so no live holder loses it. */
  lemma BreakKeepsOccupancy(w: World, id: nat, w': World)
    requires LockInv(w) && BreakStaleLock(w, id) == Some(w')
    ensures OccupancyKept(w, id, w')
  {
  }

  /** No live holder loses its lock to a process that finds it stale. */
  lemma BreakKeepsLockInv(w: World, id: nat, w': World)
    requires LockInv(w) && BreakStaleLock(w, id) == Some(w')
    ensures LockInv(w')
    ensures forall q | q in w.tasks && Occupies(w.tasks[q]) ::
              w'.lock == w.lock && q in w'.tasks && w'.tasks[q] == w.tasks[q]
  {
    LockStepKeepsLockInv(w, BreakLock(id), w');
    BreakKeepsOccupancy(w, id, w');
  }

  lemma LeaveEffect(w: World, id: nat, w': World)
    requires LeaveLock(w, id) == Some(w')
    ensures id in w.tasks && w.tasks[id].critical.Leaving?
    ensures w' == w.(lock := RemoveLockIfTokenMatches(w.lock, w.tasks[id].critical.token),
                     tasks := w'.tasks, hosts := w'.hosts, enabledAt := w'.enabledAt)
    ensures w'.tasks == w.tasks - {id} || w'.tasks == w.tasks[id := w.tasks[id].(critical := Outside)]
    ensures w'.hosts.Keys <= w.hosts.Keys + {w.tasks[id].process}
    ensures w'.enabledAt.Keys <= w.enabledAt.Keys + {w.tasks[id].process}
  {
  }

  lemma LeaveKeepsLockInv(w: World, id: nat, w': World)
    requires LockInv(w) && LeaveLock(w, id) == Some(w')
    ensures LockInv(w')
  {
    LeaveEffect(w, id, w');
    hide LeaveLock, TokensAreGenuine, LockIsHeld, TokenKept, OccupancyKept;
    var u := w'.(hosts := w.hosts, enabledAt := w.enabledAt);
    LeaveActsOnLock(w, id, w', u);
    ActingKeepsLockInv(w, id, u);
    assert w.tasks[id].process in w.alive;
    HostsDoNotMatter(u, w');
  }

  /** Only the processes care about who is a host. */
  lemma HostsDoNotMatter(w: World, w': World)
    requires LockInv(w) && w' == w.(hosts := w'.hosts, enabledAt := w'.enabledAt)
    requires w'.hosts.Keys <= w.alive && w'.enabledAt.Keys <= w.alive
    ensures LockInv(w')
  {
  }

  lemma LeaveActsOnLock(w: World, id: nat, w': World, u: World)
    requires LockInv(w) && LeaveLock(w, id) == Some(w') && u == w'.(hosts := w.hosts, enabledAt := w.enabledAt)
    ensures TokenKept(w, id, u) && OccupancyKept(w, id, u)
  {
    LeaveEffect(w, id, w');
  }

  lemma StepKeepsLockInv(w: World, a: Action, w': World)
    requires LockInv(w) && Next(w, a) == Some(w')
    ensures LockInv(w')
  {
    if OfRegistry(a) {
      RegistryStepsWorkOnTheirOwn(w, a, w');
      WorkingKeepsLockInv(w, a.task, w');
    } else {
      match a
      case Spawn(p) => SpawnKeepsLockInv(w, p, w');
      case Crash(p) => CrashKeepsLockInv(w, p, w');
      case Begin(id, p, op) =>
        BeginEnters(w, id, p, op, w');
        EnteringKeepsLockInv(w, id, p, op, w');
      case Leave(id) => LeaveKeepsLockInv(w, id, w');
      case _ => LockStepKeepsLockInv(w, a, w');
    }
  }

  lemma AtMostOneHolder(w: World, id: nat, id': nat)
    requires LockInv(w)
    requires id in w.tasks && id' in w.tasks && Holds(w.tasks[id]) && Holds(w.tasks[id'])
    ensures id == id'
    ensures w.tasks[id].process in w.alive
  {
  }
}
