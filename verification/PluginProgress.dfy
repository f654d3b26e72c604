/**
 Who can wait for the registry lock in vain. A lock file whose owner is dead can be broken by
 whoever waits, and whoever holds the lock can finish; but the file is created before its record
 is written, and neither a failure in between nor a failure to remove the file takes it away.
 An operation that waits can go on exactly as long as no such failure has left an orphan.
 */
module PluginProgress {
  import opened Wrappers
  import opened PluginRegistry
  import opened PluginLock
  import opened PluginHistory
  import opened PluginRuns

  predicate HoldsWith(w: World, id: nat, token: Token) {
    id in w.tasks && Holds(w.tasks[id]) && w.tasks[id].critical.token == token
  }

  predicate IsOccupant(w: World, id: nat) {
    id in w.tasks && Occupies(w.tasks[id])
  }

  ghost predicate HasOccupant(w: World) {
    exists id :: IsOccupant(w, id)
  }

  /** A lock file that belongs to no operation, and that nobody may break. */
  ghost predicate Orphaned(w: World) {
    && w.lock.Some? && !HasOccupant(w)
    && (w.lock.value.Full? ==> w.lock.value.record.owner in w.alive)
  }

  // ---------------------------------------------------------------- which steps leave an orphan

  /** `id` has created the lock file and not written its record yet. */
  predicate IsUnwritten(w: World, id: nat) {
    id in w.tasks && w.tasks[id].critical.Creating? && !w.tasks[id].critical.written
  }

  predicate IsUnwrittenOf(w: World, id: nat, p: Process) {
    IsUnwritten(w, id) && w.tasks[id].process == p
  }

  /**
   The creation of the lock file fails after the file is there, its removal fails, or its
   creator crashes before the record is written.
   */
  ghost predicate LeavesOrphan(w: World, a: Action) {
    match a
    case Abandon(id) => id in w.tasks && w.tasks[id].critical.Creating?
    case Strand(_) => true
    case Crash(p) => exists id :: IsUnwrittenOf(w, id, p)
    case _ => false
  }

  /** The owner of the lock file crashes: its written record can be found stale from now on. */
  predicate FreesOrphan(w: World, a: Action) {
    a.Crash? && w.lock.Some? && w.lock.value.Full? && w.lock.value.record.owner == a.process
  }

  lemma FailureLeavesOrphan(w: World, a: Action, w': World)
    requires LockInv(w) && Next(w, a) == Some(w') && (a.Abandon? || a.Strand?)
    ensures Orphaned(w') <==> LeavesOrphan(w, a) || Orphaned(w)
  {
    EndingEffect(w, a, w');
    assert LockIsHeld(w);
    hide LockInv, Next;
    if LeavesOrphan(w, a) {
      assert IsOccupant(w, a.task) && w'.lock == w.lock;
      forall q ensures !IsOccupant(w', q) {}
    } else if Orphaned(w) {
      assert !IsOccupant(w, a.task);
      forall q ensures !IsOccupant(w', q) {
        assert !IsOccupant(w, q);
      }
    } else if w.lock.Some? && HasOccupant(w) {
      AbandonKeepsOccupied(w, a, w');
    }
  }

  /** An operation that fails elsewhere leaves the lock with its occupant, or releases it. */
  lemma AbandonKeepsOccupied(w: World, a: Action, w': World)
    requires LockInv(w) && Next(w, a) == Some(w') && a.Abandon? && !w.tasks[a.task].critical.Creating?
    requires w.lock.Some? && HasOccupant(w)
    ensures !Orphaned(w')
  {
    EndingEffect(w, a, w');
    var c :| IsOccupant(w, c);
    if c != a.task {
      assert IsOccupant(w', c);
    }
  }

  lemma CrashLeavesOrphan(w: World, p: Process, w': World)
    requires LockInv(w) && CrashProcess(w, p) == Some(w')
    ensures Orphaned(w') <==> LeavesOrphan(w, Crash(p)) || (Orphaned(w) && !FreesOrphan(w, Crash(p)))
  {
    forall q | IsOccupant(w', q) ensures IsOccupant(w, q) {}
    if HasOccupant(w) {
      var c :| IsOccupant(w, c);
      assert w.lock == Some(LockOf(w.tasks[c]));
      if w.tasks[c].process != p {
        assert IsOccupant(w', c);
      } else {
        forall q ensures !IsOccupant(w', q) {}
        assert IsUnwrittenOf(w, c, p) <==> w.lock == Some(Blank);
      }
    } else {
      forall q ensures !IsUnwrittenOf(w, q, p) {
        assert !IsOccupant(w, q);
      }
    }
  }

  lemma SpawnKeepsOrphan(w: World, p: Process, w': World)
    requires LockInv(w) && SpawnProcess(w, p) == Some(w')
    ensures Orphaned(w') <==> Orphaned(w)
  {
    forall q ensures IsOccupant(w', q) <==> IsOccupant(w, q) {}
    assert w.lock.Some? && w.lock.value.Full? ==> LockRecordIsGenuine(w, w.lock.value.record);
  }

  /**
   Any other step of an operation: it stays or becomes the occupant, or releases the lock, or has
   nothing to do with it.
   */
  lemma OtherStepKeepsOrphan(w: World, a: Action, w': World)
    requires LockInv(w) && Next(w, a) == Some(w') && !a.Spawn? && !a.Crash? && !a.Abandon? && !a.Strand?
    ensures Orphaned(w') <==> Orphaned(w)
  {
    hide LockInv, Next, Orphaned;
    LockAndOccupant(w, a, w');
    TaskStepsKeepOthers(w, a, w');
    if HasOccupant(w) && w'.lock == w.lock {
      OccupantStays(w, a, w');
    }
    OccupancyStepKeepsOrphan(w, a.task, w');
  }

  lemma OccupancyStepKeepsOrphan(w: World, id: nat, w': World)
    requires OccupancyStep(w, id, w') && OthersKept(w, id, w')
    requires HasOccupant(w) && w'.lock == w.lock ==> HasOccupant(w')
    ensures Orphaned(w') <==> Orphaned(w)
  {
    if Orphaned(w) {
      assert !IsOccupant(w, id);
      forall q ensures !IsOccupant(w', q) {
        assert !IsOccupant(w, q);
      }
    }
  }

  /** How one operation may change the lock file and its own part in it. */
  ghost predicate OccupancyStep(w: World, id: nat, w': World) {
    && w'.alive == w.alive
    && (w'.lock != w.lock ==>
          && (w'.lock.None? || IsOccupant(w', id))
          && (w.lock.Some? ==> IsOccupant(w, id) || (w.lock.value.Full? && w.lock.value.record.owner !in w.alive)))
    && (IsOccupant(w', id) ==> IsOccupant(w, id) || w.lock.None?)
    && (IsOccupant(w, id) && w'.lock == w.lock ==> IsOccupant(w', id))
  }

  lemma LockAndOccupant(w: World, a: Action, w': World)
    requires LockInv(w) && Next(w, a) == Some(w') && !a.Spawn? && !a.Crash? && !a.Abandon? && !a.Strand?
    ensures OccupancyStep(w, a.task, w')
  {
    hide LockInv, LeaveLock, BeginTask, OccupancyStep;
    if a.Leave? {
      LeaveAndOccupant(w, a.task, w');
    } else if OfRegistry(a) {
      RegistryStepsWorkOnTheirOwn(w, a, w');
      WorkAndOccupant(w, a.task, w');
    } else if a.Begin? {
      BeginEnters(w, a.task, a.process, a.op, w');
      EntryAndOccupant(w, a.task, a.process, a.op, w');
    } else {
      LockStepAndOccupant(w, a, w');
    }
  }

  lemma LeaveAndOccupant(w: World, id: nat, w': World)
    requires LockInv(w) && LeaveLock(w, id) == Some(w')
    ensures OccupancyStep(w, id, w')
  {
    LeaveEffect(w, id, w');
  }

  lemma WorkAndOccupant(w: World, id: nat, w': World)
    requires WorksOnItsOwn(w, id, w')
    ensures OccupancyStep(w, id, w')
  {
  }

  lemma EntryAndOccupant(w: World, id: nat, p: Process, op: Operation, w': World)
    requires Enters(w, id, p, op, w')
    ensures OccupancyStep(w, id, w')
  {
  }

  lemma LockStepAndOccupant(w: World, a: Action, w': World)
    requires LockInv(w) && Next(w, a) == Some(w') && OfLock(a) && !a.Abandon? && !a.Strand?
    ensures OccupancyStep(w, a.task, w')
  {
    if a.Create? || a.WriteLock? || a.Enter? {
      CreationStepAndOccupant(w, a, w');
    }
  }

  lemma CreationStepAndOccupant(w: World, a: Action, w': World)
    requires LockInv(w) && Next(w, a) == Some(w') && (a.Create? || a.WriteLock? || a.Enter?)
    ensures OccupancyStep(w, a.task, w')
  {
  }

  lemma OccupantStays(w: World, a: Action, w': World)
    requires LockInv(w) && Next(w, a) == Some(w') && !a.Spawn? && !a.Crash? && !a.Abandon? && !a.Strand?
    requires HasOccupant(w) && w'.lock == w.lock
    ensures HasOccupant(w')
  {
    LockAndOccupant(w, a, w');
    var c :| IsOccupant(w, c);
    if c != a.task {
      OtherTaskStays(w, a, w', c);
    }
    assert IsOccupant(w', c);
  }

  lemma OtherTaskStaysAtLock(w: World, a: Action, w': World, c: nat)
    requires Next(w, a) == Some(w') && OfLock(a) && c in w.tasks && c != a.task
    ensures c in w'.tasks && w'.tasks[c] == w.tasks[c]
  {
    if a.Abandon? || a.Strand? {
      EndingEffect(w, a, w');
    }
  }

  lemma OtherTaskStays(w: World, a: Action, w': World, c: nat)
    requires Next(w, a) == Some(w') && !a.Spawn? && !a.Crash? && c in w.tasks && c != a.task
    ensures c in w'.tasks && w'.tasks[c] == w.tasks[c]
  {
    if OfLock(a) {
      OtherTaskStaysAtLock(w, a, w', c);
    } else if OfRegistry(a) {
      RegistryStepsWorkOnTheirOwn(w, a, w');
    } else if a.Leave? {
      LeaveEffect(w, a.task, w');
    } else if a.Begin? {
      BeginEnters(w, a.task, a.process, a.op, w');
    }
  }

  /** Exactly the failures of `LeavesOrphan` make an orphan, and only the death of its recorded owner ends one. */
  lemma OrphanStepIff(w: World, a: Action, w': World)
    requires LockInv(w) && Next(w, a) == Some(w')
    ensures Orphaned(w') <==> LeavesOrphan(w, a) || (Orphaned(w) && !FreesOrphan(w, a))
  {
    match a
    case Spawn(p) => SpawnKeepsOrphan(w, p, w');
    case Crash(p) => CrashLeavesOrphan(w, p, w');
    case Abandon(_) => FailureLeavesOrphan(w, a, w');
    case Strand(_) => FailureLeavesOrphan(w, a, w');
    case _ => OtherStepKeepsOrphan(w, a, w');
  }

  /** The run has left an orphan whose owner, where it is recorded, has not crashed since. */
  ghost predicate OrphanedBy(w: World, actions: seq<Action>)
    decreases |actions|
  {
    if actions == [] then w.lock == Some(Blank)
    else
      var before, a := actions[..|actions| - 1], actions[|actions| - 1];
      Run(w, before).Some? &&
      (LeavesOrphan(Run(w, before).value, a) || (OrphanedBy(w, before) && !FreesOrphan(Run(w, before).value, a)))
  }

  lemma {:induction false} OrphanedIffByRun(w: World, actions: seq<Action>, v: World)
    requires Initial(w) && Run(w, actions) == Some(v)
    ensures Orphaned(v) <==> OrphanedBy(w, actions)
    decreases |actions|
  {
    InitialIsInv(w);
    if actions == [] {
      forall q ensures !IsOccupant(w, q) {}
    } else {
      var before := actions[..|actions| - 1];
      var u := Run(w, before).value;
      OrphanedIffByRun(w, before, u);
      RunKeepsInv(w, before, u);
      OrphanStepIff(u, actions[|actions| - 1], v);
    }
  }

  // ---------------------------------------------------------------- an orphan blocks

  lemma OrphanStays(w: World, a: Action, w': World)
    requires LockInv(w) && Orphaned(w) && Next(w, a) == Some(w') && !FreesOrphan(w, a)
    ensures LockInv(w') && Orphaned(w') && w'.lock == w.lock
  {
    StepKeepsLockInv(w, a, w');
    OrphanStepIff(w, a, w');
    if !a.Spawn? && !a.Crash? && !a.Abandon? && !a.Strand? {
      LockAndOccupant(w, a, w');
      assert !IsOccupant(w, a.task);
    } else if a.Abandon? {
      assert !IsOccupant(w, a.task);
    }
  }

  lemma DeadStayDead(w: World, a: Action, w': World, p: Process)
    requires Next(w, a) == Some(w') && p in w.everAlive && p !in w.alive
    ensures p in w'.everAlive && p !in w'.alive
  {
    if a.Read? {
      ReadEffect(w, a.task, a.at, w');
    } else if a.Leave? {
      LeaveEffect(w, a.task, w');
    } else if a.Begin? {
      BeginEnters(w, a.task, a.process, a.op, w');
    }
  }

  lemma {:induction false} DeadAllRun(w: World, actions: seq<Action>, v: World, p: Process)
    requires Run(w, actions) == Some(v) && p in w.everAlive && p !in w.alive
    ensures p in v.everAlive && p !in v.alive
    decreases |actions|
  {
    if actions != [] {
      var before := actions[..|actions| - 1];
      DeadAllRun(w, before, Run(w, before).value, p);
      DeadStayDead(Run(w, before).value, actions[|actions| - 1], v, p);
    }
  }

  /**
   A lock file without a record blocks for good, whatever runs or crashes; a written one as long as its
   owner lives.
   */
  lemma {:induction false} OrphanBlocks(w: World, actions: seq<Action>, v: World, id: nat)
    requires LockInv(w) && Orphaned(w) && Run(w, actions) == Some(v)
    requires w.lock.value.Blank? || w.lock.value.record.owner in v.alive
    ensures LockInv(v) && Orphaned(v) && v.lock == w.lock
    ensures !(id in v.tasks && Holds(v.tasks[id]))
    decreases |actions|
  {
    assert !IsOccupant(w, id);
    if actions != [] {
      var before, a := actions[..|actions| - 1], actions[|actions| - 1];
      var u := Run(w, before).value;
      if w.lock.value.Full? {
        OwnerLivesUntil(w, before, u, a, v);
      }
      OrphanBlocks(w, before, u, id);
      OrphanStays(u, a, v);
      assert !IsOccupant(v, id);
    }
  }

  /** An owner that is alive in the end was alive before the last step. */
  lemma OwnerLivesUntil(w: World, before: seq<Action>, u: World, a: Action, v: World)
    requires LockInv(w) && Run(w, before) == Some(u) && Next(u, a) == Some(v)
    requires w.lock.Some? && w.lock.value.Full? && w.lock.value.record.owner in w.alive
    requires w.lock.value.record.owner in v.alive
    ensures w.lock.value.record.owner in u.alive
    ensures u.lock == w.lock ==> !FreesOrphan(u, a)
  {
    var p := w.lock.value.record.owner;
    EverAliveGrows(w, before, u, p);
    if p !in u.alive {
      DeadStayDead(u, a, v, p);
    }
  }

  lemma {:induction false} EverAliveGrows(w: World, actions: seq<Action>, v: World, p: Process)
    requires Run(w, actions) == Some(v) && p in w.everAlive
    ensures p in v.everAlive
    decreases |actions|
  {
    if actions != [] {
      var before := actions[..|actions| - 1];
      EverAliveGrows(w, before, Run(w, before).value, p);
      EverAliveStep(Run(w, before).value, actions[|actions| - 1], v, p);
    }
  }

  lemma EverAliveStep(w: World, a: Action, w': World, p: Process)
    requires Next(w, a) == Some(w') && p in w.everAlive
    ensures p in w'.everAlive
  {
    if a.Read? {
      ReadEffect(w, a.task, a.at, w');
    } else if a.Leave? {
      LeaveEffect(w, a.task, w');
    } else if a.Begin? {
      BeginEnters(w, a.task, a.process, a.op, w');
    }
  }

  // ---------------------------------------------------------------- without an orphan nobody waits in vain

  /** A waiting operation takes the lock as soon as the operation that occupies it has finished. */
  lemma WaiterProceeds(v: World, id: nat) returns (u: World)
    requires Inv(v) && !Orphaned(v) && id in v.tasks && v.tasks[id].critical.Contending?
    ensures Reaches(Smooth, v, u) && HoldsWith(u, id, v.tasks[id].critical.token)
  {
    ReachesItself(Smooth, v);
    var free := v;
    if HasOccupant(v) {
      var c :| IsOccupant(v, c);
      free := OccupantFinishes(v, v, c);
      ReachedKeepsInv(Smooth, v, free);
    }
    u := TakesLock(v, free, id);
  }

  lemma {:induction false} OrphanBlocksSmoothRuns(v: World, actions: seq<Action>, u: World)
    requires LockInv(v) && Orphaned(v) && Allowed(Smooth, v, actions) && Run(v, actions) == Some(u)
    ensures LockInv(u) && Orphaned(u)
    decreases |actions|
  {
    if actions != [] {
      var before := actions[..|actions| - 1];
      OrphanBlocksSmoothRuns(v, before, Run(v, before).value);
      OrphanStays(Run(v, before).value, actions[|actions| - 1], u);
    }
  }

  /**
   After any run, an operation that waits for the lock can get it, by steps none of which is a
   crash or a failure, if and only if the run has left no orphan.
   */
  lemma WaiterProceedsIff(w: World, actions: seq<Action>, v: World, id: nat)
    requires Initial(w) && Run(w, actions) == Some(v)
    requires id in v.tasks && v.tasks[id].critical.Contending?
    ensures (exists u :: Reaches(Smooth, v, u) && HoldsWith(u, id, v.tasks[id].critical.token))
            <==> !OrphanedBy(w, actions)
  {
    InitialIsInv(w);
    RunKeepsInv(w, actions, v);
    OrphanedIffByRun(w, actions, v);
    if Orphaned(v) {
      forall u | Reaches(Smooth, v, u) ensures !HoldsWith(u, id, v.tasks[id].critical.token) {
        var more :| Allowed(Smooth, v, more) && Run(v, more) == Some(u);
        OrphanBlocksSmoothRuns(v, more, u);
        assert !IsOccupant(u, id);
      }
    } else {
      var u := WaiterProceeds(v, id);
    }
  }

  /** The lock of a dead owner never stands in the way. */
  lemma DeadOwnersLockIsTaken(v: World, id: nat) returns (u: World)
    requires LockInv(v) && id in v.tasks && v.tasks[id].critical.Contending?
    requires v.lock.Some? && v.lock.value.Full? && v.lock.value.record.owner !in v.alive
    ensures Reaches(Smooth, v, u) && HoldsWith(u, id, v.tasks[id].critical.token)
    ensures u.lock == Some(Full(LockRecord(v.tasks[id].critical.token, v.tasks[id].process)))
  {
    ReachesItself(Smooth, v);
    u := TakesLock(v, v, id);
  }

  // ---------------------------------------------------------------- a blank file that is no orphan

  /** The creator writes the record, fails, or crashes. */
  predicate EndsCreation(w: World, c: nat, a: Action) {
    a == WriteLock(c) || a == Abandon(c) || (c in w.tasks && a == Crash(w.tasks[c].process))
  }

  lemma UnwrittenStepIff(w: World, a: Action, w': World, c: nat)
    requires LockInv(w) && Next(w, a) == Some(w')
    ensures IsUnwritten(w', c) <==> a == Create(c) || (IsUnwritten(w, c) && !EndsCreation(w, c, a))
  {
    hide Next, LockInv;
    if a.Spawn? || a.Crash? {
      ProcessStepAndCreation(w, a, w', c);
    } else if a.task == c {
      OwnStepAndCreation(w, a, w');
    } else {
      TaskStepsKeepOthers(w, a, w');
      if IsUnwritten(w, c) {
        OtherTaskStays(w, a, w', c);
      }
    }
  }

  lemma ProcessStepAndCreation(w: World, a: Action, w': World, c: nat)
    requires Next(w, a) == Some(w') && (a.Spawn? || a.Crash?)
    ensures IsUnwritten(w', c) <==> IsUnwritten(w, c) && !EndsCreation(w, c, a)
  {
  }

  lemma OwnStepAndCreation(w: World, a: Action, w': World)
    requires Next(w, a) == Some(w') && !a.Spawn? && !a.Crash?
    ensures IsUnwritten(w', a.task) <==> a.Create? || (IsUnwritten(w, a.task) && !a.WriteLock? && !a.Abandon?)
  {
    if a.Leave? {
      LeaveEffect(w, a.task, w');
    } else if OfRegistry(a) {
      RegistryStepsWorkOnTheirOwn(w, a, w');
    } else if a.Begin? {
      BeginEnters(w, a.task, a.process, a.op, w');
    } else {
      LockStepAndCreation(w, a, w');
    }
  }

  lemma LockStepAndCreation(w: World, a: Action, w': World)
    requires Next(w, a) == Some(w') && OfLock(a)
    ensures IsUnwritten(w', a.task) <==> a.Create? || (IsUnwritten(w, a.task) && !a.WriteLock? && !a.Abandon?)
  {
    if a.Abandon? || a.Strand? {
      EndingEffect(w, a, w');
    } else if a.Contend? || a.ReadOwner? || a.InspectOwner? {
      WaitingAndCreation(w, a, w');
    }
  }

  lemma WaitingAndCreation(w: World, a: Action, w': World)
    requires Next(w, a) == Some(w') && (a.Contend? || a.ReadOwner? || a.InspectOwner?)
    ensures !IsUnwritten(w', a.task) && !IsUnwritten(w, a.task)
  {
  }

  /** In the run, `c` has created the lock file, and has not written the record, failed or crashed since. */
  ghost predicate CreatingAfter(w: World, actions: seq<Action>, c: nat)
    decreases |actions|
  {
    if actions == [] then false
    else
      var before, a := actions[..|actions| - 1], actions[|actions| - 1];
      Run(w, before).Some? &&
      (a == Create(c) || (CreatingAfter(w, before, c) && !EndsCreation(Run(w, before).value, c, a)))
  }

  lemma {:induction false} UnwrittenIffByRun(w: World, actions: seq<Action>, v: World, c: nat)
    requires Initial(w) && Run(w, actions) == Some(v)
    ensures IsUnwritten(v, c) <==> CreatingAfter(w, actions, c)
    decreases |actions|
  {
    if actions != [] {
      var before := actions[..|actions| - 1];
      var u := Run(w, before).value;
      UnwrittenIffByRun(w, before, u, c);
      InitialIsInv(w);
      RunKeepsInv(w, before, u);
      UnwrittenStepIff(u, actions[|actions| - 1], v, c);
    }
  }

  /**
   After any run, a waiter meets a lock file without a record that is no orphan if and only if one
   living operation has just created it and is about to write.
   */
  lemma BlankWithoutOrphanIff(w: World, actions: seq<Action>, v: World)
    requires Initial(w) && Run(w, actions) == Some(v)
    ensures v.lock == Some(Blank) && !OrphanedBy(w, actions) <==> exists c :: CreatingAfter(w, actions, c)
  {
    InitialIsInv(w);
    RunKeepsInv(w, actions, v);
    OrphanedIffByRun(w, actions, v);
    if c :| CreatingAfter(w, actions, c) {
      UnwrittenIffByRun(w, actions, v, c);
      assert IsOccupant(v, c);
    }
    if v.lock == Some(Blank) && HasOccupant(v) {
      var c :| IsOccupant(v, c);
      UnwrittenIffByRun(w, actions, v, c);
    }
  }

  /** A waiter can neither read nor break such a file. */
  lemma BlankIsUnreadable(v: World, id: nat)
    requires v.lock == Some(Blank)
    ensures Next(v, ReadOwner(id)).None? && Next(v, BreakLock(id)).None? && Next(v, Create(id)).None?
  {
  }

  lemma WaiterFailsEffect(v: World, id: nat)
    requires id in v.tasks && v.tasks[id].critical.Contending?
    ensures Next(v, Abandon(id)) == Some(WithoutTask(v, id))
  {
  }

  /** The waiter that fails on such a file disturbs nobody: the creator still has the file and can write. */
  lemma FailedWaiterDoesNoHarm(v: World, c: nat, id: nat) returns (v': World)
    requires Inv(v) && IsUnwritten(v, c) && id in v.tasks && v.tasks[id].critical.Contending?
    ensures Next(v, ReadOwner(id)).None? && Next(v, BreakLock(id)).None? && Next(v, Create(id)).None?
    ensures Next(v, Abandon(id)) == Some(v') && v'.lock == v.lock && !Orphaned(v')
    ensures IsUnwritten(v', c) && Next(v', WriteLock(c)).Some?
  {
    assert v.lock == Some(LockOf(v.tasks[c]));
    hide Inv, Next;
    BlankIsUnreadable(v, id);
    WaiterFailsEffect(v, id);
    v' := WithoutTask(v, id);
    assert IsOccupant(v', c);
    WriteEffect(v', c);
  }

  // ---------------------------------------------------------------- a concrete orphan

  /** Nothing was ever installed, started or locked. */
  predicate Empty(w: World) {
    w == World([Registry(0, map[], map[], false)], [], None, {}, {}, {}, map[], map[], map[], map[])
  }

  const FIRST := Process(1, 1)
  const SECOND := Process(2, 1)

  /** Two windows start; the first crashes right after it has created the lock file, and the second waits for good. */
  lemma CrashAfterCreationBlocksForGood(w: World) returns (v: World)
    requires Empty(w)
    ensures Initial(w)
    ensures Run(w, [Spawn(FIRST), Begin(0, FIRST, InitializeHost(0)), Contend(0, 1), Create(0), Crash(FIRST),
                    Spawn(SECOND), Begin(1, SECOND, InitializeHost(2)), Contend(1, 3)]) == Some(v)
    ensures 1 in v.tasks && v.tasks[1].critical.Contending? && Orphaned(v)
    ensures forall more, u | Run(v, more) == Some(u) :: !(1 in u.tasks && Holds(u.tasks[1]))
  {
    var w1 := FirstCrashes(w);
    v := SecondWaits(w, w1);
    InitialIsInv(w);
    forall q ensures !IsOccupant(v, q) {}
    hide Run;
    RunKeepsInv(w, [Spawn(FIRST), Begin(0, FIRST, InitializeHost(0)), Contend(0, 1), Create(0), Crash(FIRST),
                    Spawn(SECOND), Begin(1, SECOND, InitializeHost(2)), Contend(1, 3)], v);
    assert LockInv(v);
    NobodyEverHolds(v, 1);
  }

  lemma NobodyEverHolds(v: World, id: nat)
    requires LockInv(v) && Orphaned(v) && v.lock == Some(Blank)
    ensures forall more, u | Run(v, more) == Some(u) :: !(id in u.tasks && Holds(u.tasks[id]))
  {
    forall more, u | Run(v, more) == Some(u) ensures !(id in u.tasks && Holds(u.tasks[id])) {
      OrphanBlocks(v, more, u, id);
    }
  }

  lemma RunOneMore(w: World, actions: seq<Action>, v: World, a: Action)
    requires Run(w, actions) == Some(v)
    ensures Run(w, actions + [a]) == Next(v, a)
  {
    assert (actions + [a])[..|actions|] == actions;
  }

  lemma FirstContends(w: World) returns (v: World)
    requires Empty(w)
    ensures Run(w, [Spawn(FIRST), Begin(0, FIRST, InitializeHost(0)), Contend(0, 1)]) == Some(v)
    ensures v == w.(alive := {FIRST}, everAlive := {FIRST}, tokens := map[0 := FIRST, 1 := FIRST],
                    tasks := map[0 := Task(FIRST, InitializeHost(0), Fresh, 0, 0, None, Contending(1, None, false))])
  {
    var start: seq<Action> := [];
    assert Run(w, start) == Some(w);
    hide Run;
    RunOneMore(w, start, w, Spawn(FIRST));
    var w1 := Next(w, Spawn(FIRST)).value;
    RunOneMore(w, start + [Spawn(FIRST)], w1, Begin(0, FIRST, InitializeHost(0)));
    var w2 := Next(w1, Begin(0, FIRST, InitializeHost(0))).value;
    RunOneMore(w, start + [Spawn(FIRST)] + [Begin(0, FIRST, InitializeHost(0))], w2, Contend(0, 1));
    v := Next(w2, Contend(0, 1)).value;
    assert start + [Spawn(FIRST)] + [Begin(0, FIRST, InitializeHost(0))] + [Contend(0, 1)] ==
           [Spawn(FIRST), Begin(0, FIRST, InitializeHost(0)), Contend(0, 1)];
  }

  lemma FirstCrashes(w: World) returns (v: World)
    requires Empty(w)
    ensures Run(w, [Spawn(FIRST), Begin(0, FIRST, InitializeHost(0)), Contend(0, 1), Create(0), Crash(FIRST)])
         == Some(v)
    ensures v == w.(everAlive := {FIRST}, lock := Some(Blank), tokens := v.tokens) && v.tokens.Keys == {0, 1}
  {
    hide Run;
    var u := FirstContends(w);
    var s := [Spawn(FIRST), Begin(0, FIRST, InitializeHost(0)), Contend(0, 1)];
    RunOneMore(w, s, u, Create(0));
    CreateEffect(u, 0);
    var u1 := Next(u, Create(0)).value;
    RunOneMore(w, s + [Create(0)], u1, Crash(FIRST));
    v := Next(u1, Crash(FIRST)).value;
    assert v.tasks == map[];
    assert s + [Create(0)] + [Crash(FIRST)] ==
           [Spawn(FIRST), Begin(0, FIRST, InitializeHost(0)), Contend(0, 1), Create(0), Crash(FIRST)];
  }

  lemma SecondWaits(w: World, u: World) returns (v: World)
    requires Empty(w)
    requires Run(w, [Spawn(FIRST), Begin(0, FIRST, InitializeHost(0)), Contend(0, 1), Create(0), Crash(FIRST)])
          == Some(u)
    requires u == w.(everAlive := {FIRST}, lock := Some(Blank), tokens := u.tokens) && u.tokens.Keys == {0, 1}
    ensures Run(w, [Spawn(FIRST), Begin(0, FIRST, InitializeHost(0)), Contend(0, 1), Create(0), Crash(FIRST),
                    Spawn(SECOND), Begin(1, SECOND, InitializeHost(2)), Contend(1, 3)]) == Some(v)
    ensures v.lock == Some(Blank) && v.tasks.Keys == {1} && v.tasks[1].critical.Contending?
  {
    var s := [Spawn(FIRST), Begin(0, FIRST, InitializeHost(0)), Contend(0, 1), Create(0), Crash(FIRST)];
    RunOneMore(w, s, u, Spawn(SECOND));
    var u1 := Next(u, Spawn(SECOND)).value;
    RunOneMore(w, s + [Spawn(SECOND)], u1, Begin(1, SECOND, InitializeHost(2)));
    var u2 := Next(u1, Begin(1, SECOND, InitializeHost(2))).value;
    RunOneMore(w, s + [Spawn(SECOND)] + [Begin(1, SECOND, InitializeHost(2))], u2, Contend(1, 3));
    v := Next(u2, Contend(1, 3)).value;
    assert s + [Spawn(SECOND)] + [Begin(1, SECOND, InitializeHost(2))] + [Contend(1, 3)] ==
           [Spawn(FIRST), Begin(0, FIRST, InitializeHost(0)), Contend(0, 1), Create(0), Crash(FIRST),
            Spawn(SECOND), Begin(1, SECOND, InitializeHost(2)), Contend(1, 3)];
  }
}
