/**
 The history of the registry file: revisions strictly increase, every write is one sequential
 operation on the installs before it, so no update is lost, and (manifest name, scope) stays
 unique. All of it holds in every run, with any crashes and any lock breaking.
 */
module PluginHistory {
  import opened Wrappers
  import opened PluginRegistry
  import opened PluginLock

  // ---------------------------------------------------------------- sequential meaning of a write

  function Apply(c: Commit, installs: map<InstallId, Row>): map<InstallId, Row> {
    match c
    case Put(id, row) => installs[id := row]
    case Change(id, edit, _) =>
      if id in installs && ApplyEdit(edit, installs[id]).Some?
      then installs[id := ApplyEdit(edit, installs[id]).value] else installs
    case Delete(id) => installs - {id}
    case Untouched => installs
  }

  /** An edit that is committed found its row, and the row allowed it. */
  ghost predicate Applicable(c: Commit, installs: map<InstallId, Row>) {
    c.Change? ==> c.id in installs && ApplyEdit(c.edit, installs[c.id]).Some?
  }

  /** The revision an edit names is the one it was applied to. */
  predicate MeetsRevision(c: Commit, base: Registry) {
    c.Change? && c.expectedRevision.Some? ==> base.revision == c.expectedRevision.value
  }

  function Replay(log: seq<Commit>, installs: map<InstallId, Row>): map<InstallId, Row> {
    if log == [] then installs
    else Apply(log[|log| - 1], Replay(log[..|log| - 1], installs))
  }

  ghost predicate UniqueNames(installs: map<InstallId, Row>) {
    forall i, j | i in installs && j in installs && i != j ::
      !(installs[i].name == installs[j].name && installs[i].scope == installs[j].scope)
  }

  ghost predicate KeyedById(installs: map<InstallId, Row>) {
    forall k | k in installs :: installs[k].id == k
  }

  // ---------------------------------------------------------------- invariants

  ghost predicate HistoryIsSequential(w: World) {
    && |w.history| == |w.log| + 1
    && (forall i, j | 0 <= i < j < |w.history| :: w.history[i].revision < w.history[j].revision)
    && (forall k | 0 <= k < |w.log| :: Applicable(w.log[k], w.history[k].installs))
    && (forall k | 0 <= k < |w.log| :: MeetsRevision(w.log[k], w.history[k]))
    && (forall k | 0 <= k < |w.log| :: w.history[k + 1].installs == Apply(w.log[k], w.history[k].installs))
    && (forall k | 0 <= k < |w.history| :: KeyedById(w.history[k].installs))
  }

  /** What an operation knows agrees with the history. */
  ghost predicate Informed(history: seq<Registry>, t: Task) {
    && (t.critical.Inside? && t.critical.base.Some? ==>
          && history != [] && t.critical.base.value == history[|history| - 1]
          && t.critical.latest.Some?
          && t.critical.latest.value.installs == t.critical.base.value.installs
          && t.critical.latest.value.purgeRequested == t.critical.base.value.purgeRequested
          && t.critical.latest.value.revision >= t.critical.base.value.revision)
    && (t.stage == NeedsPublish || t.stage == NeedsCommit ==> t.op.OfManager() && t.snapshot < |history|)
    && (t.op.Install? && (t.stage == NeedsPublish || t.stage == NeedsCommit || t.stage == Retry) ==>
          && t.row.Some?
          && t.row.value.id == t.op.id && t.row.value.name == t.op.name && t.row.value.scope == t.op.scope
          && t.row.value.current == t.op.digest)
    && (t.op.Install? && (t.stage == NeedsPublish || t.stage == NeedsCommit) ==>
          NoConflict(history[t.snapshot].installs, t.op.name, t.op.scope, Replaced(t.op)))
    && (t.op.Edit? && t.stage == NeedsCommit ==>
          && t.op.target in history[t.snapshot].installs
          && t.row.Some? && t.row == ApplyEdit(t.op.edit, history[t.snapshot].installs[t.op.target])
          && (t.op.expectedRevision.Some? ==> history[t.snapshot].revision == t.op.expectedRevision.value))
    && (t.op.Remove? && t.stage == NeedsCommit ==> t.op.removed in history[t.snapshot].installs)
  }

  /** The stage of an operation fits where it stands with respect to the lock. */
  predicate Staged(t: Task) {
    && (t.stage == NeedsPublish ==> t.op.Install?)
    && (t.stage == Fresh || t.stage == NeedsPublish ==> t.attempt == 0)
    && match t.critical
       case Outside => if t.op.OfManager() then t.stage != Finished else t.stage == Fresh
       case Leaving(_) => if t.op.OfManager() then t.stage != Fresh && t.stage != NeedsPublish else t.stage == Finished
       case _ => if t.op.OfManager() then t.stage == NeedsPublish || t.stage == NeedsCommit else t.stage == Fresh
  }

  ghost predicate AllStaged(w: World) {
    forall id | id in w.tasks :: Staged(w.tasks[id])
  }

  ghost predicate AllInformed(w: World) {
    forall id | id in w.tasks :: Informed(w.history, w.tasks[id])
  }

  ghost predicate Inv(w: World) {
    && LockInv(w)
    && HistoryIsSequential(w)
    && AllInformed(w)
    && AllStaged(w)
    && UniqueNames(Current(w).installs)
  }

  // ---------------------------------------------------------------- frames

  ghost predicate OthersKept(w: World, id: nat, w': World) {
    forall q | q in w'.tasks && q != id :: q in w.tasks && w'.tasks[q] == w.tasks[q]
  }

  predicate Writes(a: Action) {
    a.CommitInside? || a.Register? || a.Unregister?
  }

  lemma LockStepsKeepOthers(w: World, a: Action, w': World)
    requires Next(w, a) == Some(w') && OfLock(a)
    ensures OthersKept(w, a.task, w')
  {
  }

  lemma TaskStepsKeepOthers(w: World, a: Action, w': World)
    requires Next(w, a) == Some(w') && !a.Spawn? && !a.Crash?
    ensures OthersKept(w, a.task, w')
  {
    if OfLock(a) {
      LockStepsKeepOthers(w, a, w');
    } else if a.Read? {
      ReadEffect(w, a.task, a.at, w');
    } else if a.Leave? {
      LeaveEffect(w, a.task, w');
    } else if a.Begin? {
      BeginEnters(w, a.task, a.process, a.op, w');
    }
  }

  lemma OnlyWritersWrite(w: World, a: Action, w': World)
    requires Next(w, a) == Some(w') && !Writes(a)
    ensures w'.history == w.history && w'.log == w.log
  {
    if a.Read? {
      ReadEffect(w, a.task, a.at, w');
    } else if a.Leave? {
      LeaveEffect(w, a.task, w');
    } else if a.Begin? {
      BeginEnters(w, a.task, a.process, a.op, w');
    }
  }

  /** A longer history does not disturb an operation outside the critical section. */
  lemma LongerHistoryKeepsInformed(history: seq<Registry>, r: Registry, t: Task)
    requires Informed(history, t) && !(t.critical.Inside? && t.critical.base.Some?)
    ensures Informed(history + [r], t)
  {
  }

  // ---------------------------------------------------------------- the acting operation

  /** How reading advances an install. */
  lemma ReadStages(w: World, id: nat, at: nat, w': World)
    requires ReadRegistry(w, id, at) == Some(w') && w.tasks[id].op.Install? && id in w'.tasks
    ensures var t, t' := w.tasks[id], w'.tasks[id];
      && t' == t.(stage := t'.stage, snapshot := at, row := t'.row) && w' == w.(tasks := w'.tasks)
      && t.critical == Outside && t.process in w.enabledAt && w.enabledAt[t.process] <= at < |w.history|
      && NoConflict(w.history[at].installs, t.op.name, t.op.scope, Replaced(t.op))
      && ((t.stage == Fresh && t'.stage == NeedsPublish
           && t'.row == BuildRow(t.op, w.history[at].installs) && t'.row.Some?)
          || (t.stage == Retry && t'.stage == NeedsCommit && t'.row == t.row))
  {
  }

  lemma BuiltRowIsOfInstall(op: Operation, installs: map<InstallId, Row>)
    requires op.Install? && BuildRow(op, installs).Some?
    ensures var row := BuildRow(op, installs).value;
      row.id == op.id && row.name == op.name && row.scope == op.scope && row.current == op.digest
  {
  }

  lemma InstallReadInforms(w: World, id: nat, at: nat, w': World)
    requires Inv(w) && ReadRegistry(w, id, at) == Some(w') && w.tasks[id].op.Install?
    ensures id in w'.tasks ==> Informed(w'.history, w'.tasks[id])
  {
    assert Informed(w.history, w.tasks[id]);
    if id in w'.tasks {
      ReadStages(w, id, at, w');
      hide Inv, ReadRegistry, BuildRow, NoConflict;
      if w.tasks[id].stage == Fresh {
        BuiltRowIsOfInstall(w.tasks[id].op, w.history[at].installs);
      }
      assert Informed(w'.history, w'.tasks[id]);
    }
  }

  lemma EditReadInforms(w: World, id: nat, at: nat, w': World)
    requires ReadRegistry(w, id, at) == Some(w') && w.tasks[id].op.Edit?
    ensures id in w'.tasks ==> Informed(w'.history, w'.tasks[id])
  {
  }

  lemma OtherReadInforms(w: World, id: nat, at: nat, w': World)
    requires ReadRegistry(w, id, at) == Some(w') && !w.tasks[id].op.Install? && !w.tasks[id].op.Edit?
    ensures id in w'.tasks ==> Informed(w'.history, w'.tasks[id])
  {
  }

  lemma WorkingInsideInforms(w: World, a: Action, w': World)
    requires Inv(w) && Next(w, a) == Some(w') && (a.ReadInside? || a.Publish? || a.DropMarker? || a.Purge?)
    ensures a.task in w'.tasks ==> Informed(w'.history, w'.tasks[a.task])
  {
    assert Informed(w.history, w.tasks[a.task]);
  }

  lemma LockingInforms(w: World, a: Action, w': World)
    requires Inv(w) && Next(w, a) == Some(w')
    requires a.Contend? || a.Create? || a.WriteLock? || a.Enter? || a.ReadOwner? || a.InspectOwner? || a.BreakLock?
    ensures a.task in w'.tasks ==> Informed(w'.history, w'.tasks[a.task])
  {
    assert Informed(w.history, w.tasks[a.task]);
  }

  lemma EnteringOrEndingInforms(w: World, a: Action, w': World)
    requires Inv(w) && Next(w, a) == Some(w') && (a.Begin? || a.Leave? || a.Abandon? || a.Strand?)
    ensures a.task in w'.tasks ==> Informed(w'.history, w'.tasks[a.task])
  {
    if a.Begin? {
      BeginEnters(w, a.task, a.process, a.op, w');
      hide Inv, Next;
      assert Informed(w'.history, w'.tasks[a.task]);
    } else if a.Leave? {
      assert Informed(w.history, w.tasks[a.task]);
      LeaveEffect(w, a.task, w');
      hide Inv, Next, LeaveLock;
    } else {
      EndingEffect(w, a, w');
    }
  }

  lemma ActingTaskIsInformed(w: World, a: Action, w': World)
    requires Inv(w) && Next(w, a) == Some(w') && !a.Spawn? && !a.Crash? && !Writes(a)
    ensures a.task in w'.tasks ==> Informed(w'.history, w'.tasks[a.task])
  {
    hide Inv, Informed, BuildRow, ApplyEdit;
    match a
    case Read(id, at) =>
      if w.tasks[id].op.Install? {
        InstallReadInforms(w, id, at, w');
      } else if w.tasks[id].op.Edit? {
        EditReadInforms(w, id, at, w');
      } else {
        OtherReadInforms(w, id, at, w');
      }
    case Begin(_, _, _) => EnteringOrEndingInforms(w, a, w');
    case Leave(_) => EnteringOrEndingInforms(w, a, w');
    case Abandon(_) => EnteringOrEndingInforms(w, a, w');
    case Strand(_) => EnteringOrEndingInforms(w, a, w');
    case ReadInside(_) => WorkingInsideInforms(w, a, w');
    case Publish(_) => WorkingInsideInforms(w, a, w');
    case DropMarker(_, _) => WorkingInsideInforms(w, a, w');
    case Purge(_, _) => WorkingInsideInforms(w, a, w');
    case _ => LockingInforms(w, a, w');
  }

  /** Writing ends the operation's business with the registry. */
  lemma WriterIsInformed(w: World, a: Action, w': World)
    requires Inv(w) && Next(w, a) == Some(w') && Writes(a)
    ensures a.task in w.tasks && a.task in w'.tasks
    ensures w.tasks[a.task].critical.Inside?
    ensures Informed(w'.history, w'.tasks[a.task])
  {
    assert Informed(w.history, w.tasks[a.task]);
    WriterEnds(w, a, w');
  }

  lemma WriterEnds(w: World, a: Action, w': World)
    requires Next(w, a) == Some(w') && Writes(a)
    ensures a.task in w.tasks && a.task in w'.tasks && w.tasks[a.task].critical.Inside?
    ensures var t, t' := w.tasks[a.task], w'.tasks[a.task];
      t' == t.(stage := t'.stage, attempt := t'.attempt, critical := Leaving(t.critical.token))
      && (t'.stage == Finished || (t'.stage == Retry && t.stage == NeedsCommit))
  {
  }

  // ---------------------------------------------------------------- writes

  /** Equal revisions mean the operation saw the registry as it is now. */
  lemma SameRevisionSameRegistry(w: World, k: nat)
    requires HistoryIsSequential(w) && k < |w.history|
    requires w.history[k].revision == Current(w).revision
    ensures w.history[k] == Current(w)
  {
  }

  lemma AppendKeepsOrder(history: seq<Registry>, r: Registry)
    requires history != [] && r.revision > history[|history| - 1].revision
    requires forall i, j | 0 <= i < j < |history| :: history[i].revision < history[j].revision
    ensures forall i, j | 0 <= i < j < |history + [r]| :: (history + [r])[i].revision < (history + [r])[j].revision
  {
  }

  lemma AppendKeepsHistory(w: World, r: Registry, c: Commit, w': World)
    requires HistoryIsSequential(w)
    requires w'.history == w.history + [r] && w'.log == w.log + [c]
    requires r.revision > Current(w).revision && r.installs == Apply(c, Current(w).installs) && KeyedById(r.installs)
    requires Applicable(c, Current(w).installs) && MeetsRevision(c, Current(w))
    ensures HistoryIsSequential(w')
  {
    hide Apply, Applicable, MeetsRevision, KeyedById;
    AppendKeepsOrder(w.history, r);
  }

  /**
   The outcome of `mutateRegistry`: either the revision moved and nothing is written, or one
   registry is appended, one revision later, whose installs are the sequential effect of the
   operation on the installs right before it.
   */
  lemma CommitIsSequential(w: World, id: nat, w': World)
    requires Inv(w) && CommitUnderLock(w, id) == Some(w')
    ensures (w'.history == w.history && w'.log == w.log) ||
            (&& |w'.history| == |w.history| + 1 && w'.history[..|w.history|] == w.history
             && w'.log == w.log + [CommitOf(w.tasks[id])]
             && w'.history == w.history + [Current(w')]
             && Current(w').revision == Current(w).revision + 1
             && Current(w').installs == Apply(CommitOf(w.tasks[id]), Current(w).installs)
             && KeyedById(Current(w').installs)
             && (w.tasks[id].op.Install? ==>
                   NoConflict(Current(w).installs, w.tasks[id].op.name, w.tasks[id].op.scope, Replaced(w.tasks[id].op)))
             && (w.tasks[id].op.Edit? ==>
                   && w.tasks[id].op.target in Current(w).installs
                   && ApplyEdit(w.tasks[id].op.edit, Current(w).installs[w.tasks[id].op.target]).Some?)
             && MeetsRevision(CommitOf(w.tasks[id]), Current(w)))
  {
    var t := w.tasks[id];
    assert Informed(w.history, t);
    if w'.history != w.history {
      SameRevisionSameRegistry(w, t.snapshot);
    }
  }

  /** A host's write leaves the rows alone. */
  ghost predicate RowsKept(w: World, w': World) {
    || (w'.history == w.history && w'.log == w.log)
    || (&& w.history != [] && w'.history != []
        && w'.history == w.history + [Current(w')] && w'.log == w.log + [Untouched]
        && Current(w').revision > Current(w).revision
        && Current(w').installs == Current(w).installs)
  }

  lemma RegisterKeepsRows(w: World, id: nat, w': World)
    requires w.history != [] && RegisterHost(w, id) == Some(w') && Informed(w.history, w.tasks[id])
    ensures RowsKept(w, w')
  {
  }

  lemma UnregisterKeepsRows(w: World, id: nat, w': World)
    requires w.history != [] && UnregisterHost(w, id) == Some(w') && Informed(w.history, w.tasks[id])
    ensures RowsKept(w, w')
  {
  }

  lemma HostWriteIsSequential(w: World, a: Action, w': World)
    requires Inv(w) && Next(w, a) == Some(w') && (a.Register? || a.Unregister?)
    ensures RowsKept(w, w')
  {
    assert Informed(w.history, w.tasks[a.task]) && w.history != [];
    hide Inv, Informed, RegisterHost, UnregisterHost;
    if a.Register? {
      RegisterKeepsRows(w, a.task, w');
    } else {
      UnregisterKeepsRows(w, a.task, w');
    }
  }

  lemma EditKeepsIdentity(edit: RowEdit, row: Row)
    requires ApplyEdit(edit, row).Some?
    ensures var r := ApplyEdit(edit, row).value; r.id == row.id && r.name == row.name && r.scope == row.scope
  {
  }

  /** A sequential install that met no conflict, or an edit, or a removal keeps names unique. */
  lemma ApplyKeepsNamesUnique(t: Task, installs: map<InstallId, Row>)
    requires t.op.OfManager() && UniqueNames(installs) && KeyedById(installs)
    requires t.op.Install? ==>
               && t.row.Some? && t.row.value.id == t.op.id && t.row.value.name == t.op.name
                   && t.row.value.scope == t.op.scope
               && NoConflict(installs, t.op.name, t.op.scope, Replaced(t.op))
    ensures UniqueNames(Apply(CommitOf(t), installs))
  {
    if t.op.Edit? && t.op.target in installs && ApplyEdit(t.op.edit, installs[t.op.target]).Some? {
      EditKeepsIdentity(t.op.edit, installs[t.op.target]);
    }
  }

  lemma CommitKeepsHistory(w: World, id: nat, w': World)
    requires Inv(w) && CommitUnderLock(w, id) == Some(w')
    ensures w'.history != [] && HistoryIsSequential(w') && UniqueNames(Current(w').installs)
    ensures w'.history == w.history || exists r :: w'.history == w.history + [r]
  {
    var t := w.tasks[id];
    assert Informed(w.history, t);
    CommitIsSequential(w, id, w');
    if w'.history != w.history {
      AppendKeepsHistory(w, Current(w'), CommitOf(t), w');
      ApplyKeepsNamesUnique(t, Current(w).installs);
    }
  }

  lemma WriteKeepsInv(w: World, a: Action, w': World)
    requires Inv(w) && Next(w, a) == Some(w') && Writes(a)
    ensures w'.history != [] && HistoryIsSequential(w') && UniqueNames(Current(w').installs)
    ensures w'.history == w.history || exists r :: w'.history == w.history + [r]
  {
    hide Inv, HistoryIsSequential, UniqueNames, CommitUnderLock, RegisterHost, UnregisterHost;
    if a.CommitInside? {
      CommitKeepsHistory(w, a.task, w');
    } else {
      HostWriteKeepsHistory(w, a, w');
    }
  }

  lemma HostWriteKeepsHistory(w: World, a: Action, w': World)
    requires Inv(w) && Next(w, a) == Some(w') && (a.Register? || a.Unregister?)
    ensures w'.history != [] && HistoryIsSequential(w') && UniqueNames(Current(w').installs)
    ensures w'.history == w.history || exists r :: w'.history == w.history + [r]
  {
    assert HistoryIsSequential(w) && UniqueNames(Current(w).installs);
    hide Next, Inv, UniqueNames, HistoryIsSequential;
    HostWriteIsSequential(w, a, w');
    RowsKeptIsSequential(w, w');
  }

  lemma RowsKeptIsSequential(w: World, w': World)
    requires HistoryIsSequential(w) && RowsKept(w, w')
    ensures w'.history != [] && HistoryIsSequential(w') && Current(w').installs == Current(w).installs
    ensures w'.history == w.history || exists r :: w'.history == w.history + [r]
  {
    if w'.history != w.history {
      AppendKeepsHistory(w, Current(w'), Untouched, w');
      assert w'.history == w.history + [Current(w')];
    }
  }

  // ---------------------------------------------------------------- every step, every run

  lemma WriteKeepsAllInformed(w: World, a: Action, w': World)
    requires Inv(w) && Next(w, a) == Some(w') && Writes(a)
    ensures AllInformed(w')
  {
    WriterIsInformed(w, a, w');
    WriteKeepsInv(w, a, w');
    TaskStepsKeepOthers(w, a, w');
    forall q | q in w'.tasks ensures Informed(w'.history, w'.tasks[q]) {
      if q != a.task {
        assert Informed(w.history, w.tasks[q]);
        if Holds(w.tasks[q]) {
          AtMostOneHolder(w, q, a.task);
        }
        if w'.history != w.history {
          var r :| w'.history == w.history + [r];
          LongerHistoryKeepsInformed(w.history, r, w.tasks[q]);
        }
      }
    }
  }

  lemma QuietStepKeepsAllInformed(w: World, a: Action, w': World)
    requires Inv(w) && Next(w, a) == Some(w') && !Writes(a)
    ensures AllInformed(w')
  {
    OnlyWritersWrite(w, a, w');
    if !a.Spawn? && !a.Crash? {
      TaskStepsKeepOthers(w, a, w');
      ActingTaskIsInformed(w, a, w');
      forall q | q in w'.tasks ensures Informed(w'.history, w'.tasks[q]) {
        assert q != a.task ==> Informed(w.history, w.tasks[q]);
      }
    }
  }

  lemma ActingTaskIsStaged(w: World, a: Action, w': World)
    requires AllStaged(w) && Next(w, a) == Some(w') && !a.Spawn? && !a.Crash?
    ensures a.task in w'.tasks ==> Staged(w'.tasks[a.task])
  {
    if OfLock(a) {
      LockingIsStaged(w, a, w');
    } else if a.Read? {
      ReadIsStaged(w, a.task, a.at, w');
    } else if OfRegistry(a) {
      WorkingIsStaged(w, a, w');
    } else if a.Begin? {
      BeginEnters(w, a.task, a.process, a.op, w');
    } else {
      LeavingIsStaged(w, a.task, w');
    }
  }

  lemma LockingIsStaged(w: World, a: Action, w': World)
    requires AllStaged(w) && Next(w, a) == Some(w') && OfLock(a)
    ensures a.task in w'.tasks ==> Staged(w'.tasks[a.task])
  {
    assert Staged(w.tasks[a.task]);
  }

  lemma WorkingIsStaged(w: World, a: Action, w': World)
    requires AllStaged(w) && Next(w, a) == Some(w') && OfRegistry(a) && !a.Read?
    ensures a.task in w'.tasks ==> Staged(w'.tasks[a.task])
  {
    assert Staged(w.tasks[a.task]);
  }

  lemma LeavingIsStaged(w: World, id: nat, w': World)
    requires AllStaged(w) && LeaveLock(w, id) == Some(w')
    ensures id in w'.tasks ==> Staged(w'.tasks[id])
  {
    assert Staged(w.tasks[id]);
    LeaveEffect(w, id, w');
  }

  lemma ReadIsStaged(w: World, id: nat, at: nat, w': World)
    requires AllStaged(w) && ReadRegistry(w, id, at) == Some(w')
    ensures id in w'.tasks ==> Staged(w'.tasks[id])
  {
  }

  lemma StepKeepsStaged(w: World, a: Action, w': World)
    requires AllStaged(w) && Next(w, a) == Some(w')
    ensures AllStaged(w')
  {
    if !a.Spawn? && !a.Crash? {
      TaskStepsKeepOthers(w, a, w');
      ActingTaskIsStaged(w, a, w');
    }
  }

  lemma StepKeepsInv(w: World, a: Action, w': World)
    requires Inv(w) && Next(w, a) == Some(w')
    ensures Inv(w')
  {
    StepKeepsLockInv(w, a, w');
    StepKeepsStaged(w, a, w');
    if Writes(a) {
      WriteKeepsInv(w, a, w');
      WriteKeepsAllInformed(w, a, w');
    } else {
      OnlyWritersWrite(w, a, w');
      QuietStepKeepsAllInformed(w, a, w');
    }
  }

  lemma {:induction false} RunKeepsInv(w: World, actions: seq<Action>, w': World)
    requires Inv(w) && Run(w, actions) == Some(w')
    ensures Inv(w')
    decreases |actions|
  {
    if actions != [] {
      var before := actions[..|actions| - 1];
      RunKeepsInv(w, before, Run(w, before).value);
      StepKeepsInv(Run(w, before).value, actions[|actions| - 1], w');
    }
  }

  lemma HistoryGrows(w: World, a: Action, w': World)
    requires Inv(w) && Next(w, a) == Some(w')
    ensures w'.history == w.history || exists r :: w'.history == w.history + [r]
  {
    if Writes(a) {
      WriteKeepsInv(w, a, w');
    } else {
      OnlyWritersWrite(w, a, w');
    }
  }

  // ---------------------------------------------------------------- main results

  /** In every run at most one live process is inside a critical section. */
  lemma MutualExclusion(w: World, actions: seq<Action>, w': World, id: nat, id': nat)
    requires Inv(w) && Run(w, actions) == Some(w')
    requires id in w'.tasks && id' in w'.tasks && Holds(w'.tasks[id]) && Holds(w'.tasks[id'])
    ensures id == id' && w'.tasks[id].process in w'.alive
    ensures w'.lock == Some(Full(LockRecord(w'.tasks[id].critical.token, w'.tasks[id].process)))
  {
    RunKeepsInv(w, actions, w');
    AtMostOneHolder(w', id, id');
  }

  /** Every run is linearizable: the installs are the replay of the committed operations in revision order. */
  lemma RunIsLinearizable(w: World, actions: seq<Action>, w': World)
    requires Inv(w) && Run(w, actions) == Some(w')
    ensures w'.history != [] && Current(w').installs == Replay(w'.log, w'.history[0].installs)
    ensures forall i, j | 0 <= i < j < |w'.history| :: w'.history[i].revision < w'.history[j].revision
  {
    RunKeepsInv(w, actions, w');
    ReplayReaches(w', |w'.log|);
    assert w'.log[..|w'.log|] == w'.log;
  }

  lemma {:induction false} ReplayReaches(w: World, n: nat)
    requires HistoryIsSequential(w) && n <= |w.log|
    ensures w.history[n].installs == Replay(w.log[..n], w.history[0].installs)
  {
    if n > 0 {
      ReplayReaches(w, n - 1);
      assert w.log[..n][..n - 1] == w.log[..n - 1];
    }
  }

  /**
   A row edit that commits has been applied to the row state right before it, and, where it names a
   revision, to that revision; every other row stays. No update is lost.
   */
  lemma NoLostUpdate(w: World, actions: seq<Action>, v: World, id: nat, w': World)
    requires Inv(w) && Run(w, actions) == Some(v)
    requires CommitUnderLock(v, id) == Some(w') && v.tasks[id].op.Edit? && w'.history != v.history
    ensures var op := v.tasks[id].op;
      && v.history != [] && w'.history != [] && w'.history == v.history + [Current(w')]
      && op.target in Current(v).installs && op.target in Current(w').installs
      && (op.expectedRevision.Some? ==> Current(v).revision == op.expectedRevision.value)
      && Current(w').revision == Current(v).revision + 1
      && Current(w').installs == Current(v).installs[op.target := Current(w').installs[op.target]]
      && Current(w').liveHosts == Current(v).liveHosts && Current(w').purgeRequested == Current(v).purgeRequested
    ensures var op := v.tasks[id].op;
      var was, row := Current(v).installs[op.target], Current(w').installs[op.target];
      match op.edit
      case SetEnabled(enabled) => row == was.(enabled := enabled)
      case Rollback => was.previous.Some? && row == was.(current := was.previous.value, previous := Some(was.current))
      case SetPolicy(server, update) =>
        var before := if server in was.policy then Some(was.policy[server]) else None;
        row == was.(policy := was.policy[server := update(before)])
  {
    RunKeepsInv(w, actions, v);
    CommitIsSequential(v, id, w');
  }

  /** In every run, an edit that names a revision has been applied to exactly that revision. */
  lemma ExpectedRevisionIsMet(w: World, actions: seq<Action>, w': World, k: nat, target: InstallId, edit: RowEdit,
                              revision: nat)
    requires Inv(w) && Run(w, actions) == Some(w')
    requires k < |w'.log| && w'.log[k] == Change(target, edit, Some(revision))
    ensures k + 1 < |w'.history| && w'.history[k].revision == revision < w'.history[k + 1].revision
  {
    RunKeepsInv(w, actions, w');
    assert MeetsRevision(w'.log[k], w'.history[k]);
  }

  /** Of all edits that name one revision at most one is ever committed. */
  lemma OneEditPerExpectedRevision(w: World, actions: seq<Action>, w': World, i: nat, j: nat, revision: nat)
    requires Inv(w) && Run(w, actions) == Some(w')
    requires i < |w'.log| && w'.log[i].Change? && w'.log[i].expectedRevision == Some(revision)
    requires j < |w'.log| && w'.log[j].Change? && w'.log[j].expectedRevision == Some(revision)
    ensures i == j
  {
    ExpectedRevisionIsMet(w, actions, w', i, w'.log[i].id, w'.log[i].edit, revision);
    ExpectedRevisionIsMet(w, actions, w', j, w'.log[j].id, w'.log[j].edit, revision);
    RunKeepsInv(w, actions, w');
  }

  /** A commit that decides the overlay of one server of one install. */
  predicate SetsOverlay(c: Commit, target: InstallId, server: nat) {
    match c
    case Put(id, _) => id == target
    case Delete(id) => id == target
    case Change(id, edit, _) => id == target && edit.SetPolicy? && edit.server == server
    case Untouched => false
  }

  lemma OtherCommitsKeepOverlay(c: Commit, installs: map<InstallId, Row>, target: InstallId, server: nat)
    requires target in installs && !SetsOverlay(c, target, server)
    ensures target in Apply(c, installs)
        && Overlay(Apply(c, installs)[target], server) == Overlay(installs[target], server)
  {
  }

  lemma {:induction false} OverlayStays(w: World, target: InstallId, server: nat, first: nat, last: nat)
    requires HistoryIsSequential(w) && first <= last <= |w.log| && target in w.history[first].installs
    requires forall k | first <= k < last :: !SetsOverlay(w.log[k], target, server)
    ensures target in w.history[last].installs
    ensures Overlay(w.history[last].installs[target], server) == Overlay(w.history[first].installs[target], server)
    decreases last
  {
    if first < last {
      OverlayStays(w, target, server, first, last - 1);
      OtherCommitsKeepOverlay(w.log[last - 1], w.history[last - 1].installs, target, server);
    }
  }

  /**
   In every run, of two committed policy edits of one server the later one has been computed
   from what the earlier one wrote, whatever else was committed in between.
   */
  lemma PolicyEditsCompose(w: World, actions: seq<Action>, w': World, i: nat, j: nat, target: InstallId, server: nat,
                           first: Option<nat> -> nat, second: Option<nat> -> nat)
    requires Inv(w) && Run(w, actions) == Some(w')
    requires i < j < |w'.log|
    requires w'.log[i].Change? && w'.log[i].id == target && w'.log[i].edit == SetPolicy(server, first)
    requires w'.log[j].Change? && w'.log[j].id == target && w'.log[j].edit == SetPolicy(server, second)
    requires forall k | i < k < j :: !SetsOverlay(w'.log[k], target, server)
    ensures |w'.history| == |w'.log| + 1
    ensures target in w'.history[i].installs && target in w'.history[j + 1].installs
    ensures Overlay(w'.history[j + 1].installs[target], server) ==
            Some(second(Some(first(Overlay(w'.history[i].installs[target], server)))))
  {
    RunKeepsInv(w, actions, w');
    assert Applicable(w'.log[i], w'.history[i].installs) && Applicable(w'.log[j], w'.history[j].installs);
    OverlayStays(w', target, server, i + 1, j);
  }

  /** From a registry with at most one row per (manifest name, scope), every run keeps it that way. */
  lemma NamesStayUnique(w: World, actions: seq<Action>, w': World, i: InstallId, j: InstallId)
    requires Inv(w) && Run(w, actions) == Some(w')
    requires w'.history != [] && i in Current(w').installs && j in Current(w').installs
    requires Current(w').installs[i].name == Current(w').installs[j].name
    requires Current(w').installs[i].scope == Current(w').installs[j].scope
    ensures i == j
  {
    RunKeepsInv(w, actions, w');
  }

  /**
   A registry found on disk before any process runs, perhaps with a lock file and markers that crashed
   processes left.
   */
  ghost predicate Initial(w: World) {
    && |w.history| == 1 && w.log == []
    && w.alive == {} && w.hosts == map[] && w.enabledAt == map[] && w.tasks == map[]
    && (w.lock.Some? && w.lock.value.Full? ==> LockRecordIsGenuine(w, w.lock.value.record))
    && (forall token | token in w.tokens :: w.tokens[token] in w.everAlive)
    && (forall marker | marker in Current(w).liveHosts ::
          marker in w.tokens && w.tokens[marker] == Current(w).liveHosts[marker])
    && KeyedById(Current(w).installs)
    && UniqueNames(Current(w).installs)
  }

  lemma InitialIsInv(w: World)
    requires Initial(w)
    ensures Inv(w)
  {
  }
}
