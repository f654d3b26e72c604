/**
 What the single calls on the plugin registry answer, in terms of the rows and revisions they
 find: which registries make an operation give up, what an install builds, when a commit is
 written and what follows when it is not, and how long a request to purge is remembered.
 */
module PluginAnswers {
  import opened Wrappers
  import opened PluginRegistry
  import opened PluginLock
  import opened PluginHistory
  import opened PluginHosts

  // ---------------------------------------------------------------- beginning

  /**
   A process that has a host sets up no other and may dispose the one it has, which is forgotten at once; the
   manager's operations begin from the moment the process was initialized.
   */
  lemma BeginsIff(w: World, id: nat, p: Process, op: Operation)
    ensures Next(w, Begin(id, p, op)).Some? <==>
            && id !in w.tasks && p in w.alive
            && (op.InitializeHost? ==> p !in w.hosts && op.marker !in w.tokens)
            && (op.DisposeHost? ==> p in w.hosts && w.hosts[p] == op.marker)
            && (op.OfManager() ==> p in w.enabledAt)
    ensures Next(w, Begin(id, p, op)).Some? ==>
              var w' := Next(w, Begin(id, p, op)).value;
              && w'.tasks.Keys == w.tasks.Keys + {id} && w'.history == w.history && w'.lock == w.lock
              && w'.hosts == (if op.DisposeHost? then w.hosts - {p} else w.hosts)
              && w'.tokens == (if op.InitializeHost? then w.tokens[op.marker := p] else w.tokens)
              && w'.packages == w.packages && w'.enabledAt == w.enabledAt && w'.alive == w.alive
  {
  }

  // ---------------------------------------------------------------- reading

  /** Another row has the name and scope of the install. */
  ghost predicate NameIsTaken(op: Operation, installs: map<InstallId, Row>)
    requires op.Install?
  {
    exists k :: k in installs && installs[k].name == op.name && installs[k].scope == op.scope
      && !(op.replacing && installs[k].id == op.id)
  }

  /** Why an operation that reads this registry gives up. */
  ghost predicate GivesUp(op: Operation, stage: Stage, r: Registry)
    requires op.OfManager()
  {
    match op
    case Install(id, _, _, _, _, replacing) =>
      (stage == Fresh && replacing && id !in r.installs) || NameIsTaken(op, r.installs)
    case Edit(target, edit, expected) =>
      || (expected.Some? && expected.value != r.revision)
      || target !in r.installs
      || (edit.Rollback? && r.installs[target].previous.None?)
    case Remove(removed) => removed !in r.installs
    case RequestPurge => false
  }

  lemma InstallGivesUpIff(w: World, id: nat, at: nat, w': World)
    requires ReadRegistry(w, id, at) == Some(w') && w.tasks[id].op.Install?
    ensures at < |w.history| && (id !in w'.tasks <==> GivesUp(w.tasks[id].op, w.tasks[id].stage, w.history[at]))
  {
    var op, installs := w.tasks[id].op, w.history[at].installs;
    if NameIsTaken(op, installs) {
      var k :| k in installs && installs[k].name == op.name && installs[k].scope == op.scope
          && !(op.replacing && installs[k].id == op.id);
      assert Some(installs[k].id) != Replaced(op);
    } else {
      assert NoConflict(installs, op.name, op.scope, Replaced(op));
    }
  }

  /**
   An operation that reads a registry gives up exactly for one of the reasons above; otherwise it
   remembers the registry and goes on, an install that has not published yet to publishing.
   */
  lemma ReadGivesUpIff(w: World, id: nat, at: nat, w': World)
    requires ReadRegistry(w, id, at) == Some(w')
    ensures id in w.tasks && w.tasks[id].op.OfManager() && at < |w.history|
    ensures id !in w'.tasks <==> GivesUp(w.tasks[id].op, w.tasks[id].stage, w.history[at])
    ensures id in w'.tasks ==>
              var t, t' := w.tasks[id], w'.tasks[id];
              && t' == t.(stage := t'.stage, snapshot := at, row := t'.row)
              && t'.stage == if t.op.Install? && t.stage == Fresh then NeedsPublish else NeedsCommit
  {
    if w.tasks[id].op.Install? {
      InstallGivesUpIff(w, id, at, w');
    }
  }

  /**
   The row of an install: its own identity and digest; a replaced plugin keeps its settings, and the
   digest it had becomes the previous one unless it is the same.
   */
  lemma InstallBuilds(w: World, id: nat, at: nat, w': World)
    requires ReadRegistry(w, id, at) == Some(w') && w.tasks[id].op.Install? && w.tasks[id].stage == Fresh
    requires id in w'.tasks
    ensures at < |w.history| && w'.tasks[id].row.Some?
    ensures var op, row, installs := w.tasks[id].op, w'.tasks[id].row.value, w.history[at].installs;
      && row.id == op.id && row.scope == op.scope && row.name == op.name && row.current == op.digest
      && row.enabled == op.enabled
      && (!op.replacing ==> row.previous == None && row.policy == map[])
      && (op.replacing ==>
            && op.id in installs && row.policy == installs[op.id].policy
            && (installs[op.id].current != op.digest ==> row.previous == Some(installs[op.id].current))
            && (installs[op.id].current == op.digest ==> row.previous == installs[op.id].previous))
  {
  }

  // ---------------------------------------------------------------- committing

  /**
   Under the lock a commit is written if and only if nobody has written since the operation read. If
   somebody has, the operation reads again, at most twice, and a request to purge never does.
   */
  lemma CommitWritesIff(w: World, id: nat, w': World)
    requires Inv(w) && CommitUnderLock(w, id) == Some(w')
    ensures id in w.tasks && id in w'.tasks
    ensures var t := w.tasks[id];
      && (w'.history != w.history <==> t.snapshot == |w.history| - 1)
      && (w'.tasks[id].stage == Retry <==> t.snapshot != |w.history| - 1 && t.attempt < 2 && !t.op.RequestPurge?)
      && (w'.tasks[id].stage != Retry ==> w'.tasks[id].stage == Finished)
      && w'.tasks[id].attempt == t.attempt + (if t.snapshot == |w.history| - 1 then 0 else 1)
  {
    assert Informed(w.history, w.tasks[id]);
  }

  /** What the other operations of the manager write; an edit is the subject of `NoLostUpdate`. */
  lemma CommitWrites(w: World, id: nat, w': World)
    requires Inv(w) && CommitUnderLock(w, id) == Some(w') && w'.history != w.history
    ensures id in w.tasks && w.history != [] && w'.history != []
    ensures var t, was, now := w.tasks[id], Current(w), Current(w');
      && now.revision == was.revision + 1 && now.liveHosts == was.liveHosts
      && (now.purgeRequested <==> was.purgeRequested || t.op.RequestPurge?)
      && (t.op.Install? ==> t.row.Some? && now.installs == was.installs[t.op.id := t.row.value])
      && (t.op.Remove? ==> t.op.removed in was.installs && now.installs == was.installs - {t.op.removed})
      && (t.op.RequestPurge? ==> now.installs == was.installs)
  {
    assert Informed(w.history, w.tasks[id]);
  }

  // ---------------------------------------------------------------- a request to purge

  /** A row names the package, as the one it runs or the one it can go back to. */
  ghost predicate IsMentioned(installs: map<InstallId, Row>, package: Package) {
    exists k :: k in installs && installs[k].id == package.0
      && (installs[k].current == package.1 || installs[k].previous == Some(package.1))
  }

  ghost predicate AllMentioned(installs: map<InstallId, Row>, packages: set<Package>) {
    forall package | package in packages :: IsMentioned(installs, package)
  }

  lemma ReferencedIsMentioned(installs: map<InstallId, Row>, packages: set<Package>)
    ensures AllReferenced(installs, packages) <==> AllMentioned(installs, packages)
  {
    forall package
      ensures IsMentioned(installs, package) <==> !Unreferenced(installs, package)
    {
      if !Unreferenced(installs, package) {
        var k :| k in installs && package in RowPackages(installs[k]);
        assert IsMentioned(installs, package);
      }
      if IsMentioned(installs, package) {
        var k :| k in installs && installs[k].id == package.0
          && (installs[k].current == package.1 || installs[k].previous == Some(package.1));
        assert package in RowPackages(installs[k]);
      }
    }
  }

  /**
   A request to purge is remembered until a host registers that has found no marker of another
   host; then every package that is left is mentioned by a row.
   */
  lemma PurgeRequestIsKept(w: World, a: Action, w': World)
    requires Inv(w) && Next(w, a) == Some(w') && w.history != [] && w'.history != []
    requires Current(w).purgeRequested && !Current(w').purgeRequested
    ensures a.Register? && a.task in w.tasks && w.tasks[a.task].op.InitializeHost?
    ensures Current(w').liveHosts == map[w.tasks[a.task].op.marker := w.tasks[a.task].process]
    ensures AllMentioned(Current(w').installs, w'.packages)
  {
    if !Writes(a) {
      OnlyWritersWrite(w, a, w');
    } else {
      assert Informed(w.history, w.tasks[a.task]);
      hide Inv, Informed, CommitUnderLock, RegisterHost, UnregisterHost;
      if a.Register? {
        RegisterClearsRequest(w, a.task, w');
        ReferencedIsMentioned(Current(w').installs, w'.packages);
      } else {
        OtherWriteKeepsRequest(w, a, w');
      }
    }
  }

  lemma RegisterClearsRequest(w: World, id: nat, w': World)
    requires RegisterHost(w, id) == Some(w') && w.history != [] && Informed(w.history, w.tasks[id])
    requires Current(w).purgeRequested && w'.history != [] && !Current(w').purgeRequested
    ensures id in w.tasks && w.tasks[id].op.InitializeHost?
    ensures Current(w').liveHosts == map[w.tasks[id].op.marker := w.tasks[id].process]
    ensures AllReferenced(Current(w').installs, w'.packages)
  {
    assert MustPurge(w.tasks[id].critical.latest.value);
  }

  lemma OtherWriteKeepsRequest(w: World, a: Action, w': World)
    requires Next(w, a) == Some(w') && (a.CommitInside? || a.Unregister?) && w.history != []
    requires Informed(w.history, w.tasks[a.task]) && Current(w).purgeRequested
    ensures w'.history != [] && Current(w').purgeRequested
  {
  }

  /** A host that registers clears the request exactly if it found no marker of another host. */
  lemma RegisterClearsRequestIff(w: World, id: nat, w': World)
    requires Inv(w) && RegisterHost(w, id) == Some(w')
    ensures id in w.tasks && w.tasks[id].critical.Inside? && w.tasks[id].critical.latest.Some?
    ensures w.history != [] && w'.history != []
    ensures var found := w.tasks[id].critical.latest.value.liveHosts;
      && Current(w').liveHosts == found[w.tasks[id].op.marker := w.tasks[id].process]
      && Current(w').installs == Current(w).installs
      && (Current(w').purgeRequested <==> Current(w).purgeRequested && found != map[])
  {
    assert Informed(w.history, w.tasks[id]);
  }
}
