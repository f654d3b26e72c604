/**
 The markers of live hosts: which tokens they are, that every host in use is registered, and
 that an initializing host drops no marker of a living process.
 */
module PluginHosts {
  import opened Wrappers
  import opened PluginRegistry
  import opened PluginLock
  import opened PluginHistory

  predicate OfLifeCycle(op: Operation) {
    op.InitializeHost? || op.DisposeHost?
  }

  /** Host markers in use are different tokens. */
  ghost predicate MarkersAreDistinct(w: World) {
    && (forall p | p in w.hosts :: w.hosts[p] in w.tokens)
    && (forall p, q | p in w.hosts && q in w.hosts && p != q :: w.hosts[p] != w.hosts[q])
    && (forall id | id in w.tasks && OfLifeCycle(w.tasks[id].op) :: w.tasks[id].op.marker in w.tokens)
    && (forall id, p | id in w.tasks && OfLifeCycle(w.tasks[id].op) && p in w.hosts ::
          w.tasks[id].op.marker != w.hosts[p])
    && (forall id, id' | id in w.tasks && id' in w.tasks && id != id'
          && OfLifeCycle(w.tasks[id].op) && OfLifeCycle(w.tasks[id'].op) ::
          w.tasks[id].op.marker != w.tasks[id'].op.marker)
  }

  ghost predicate GenuineMarkers(tokens: map<Token, Process>, r: Registry) {
    forall marker | marker in r.liveHosts :: marker in tokens && tokens[marker] == r.liveHosts[marker]
  }

  /** A marker stands for the process that drew it. */
  ghost predicate MarkersAreGenuine(w: World) {
    && w.history != []
    && GenuineMarkers(w.tokens, Current(w))
    && (forall id | id in w.tasks && w.tasks[id].critical.Inside? && w.tasks[id].critical.latest.Some? ::
          GenuineMarkers(w.tokens, w.tasks[id].critical.latest.value))
    && (forall id | id in w.tasks && OfLifeCycle(w.tasks[id].op) ::
          w.tasks[id].op.marker in w.tokens && w.tokens[w.tasks[id].op.marker] == w.tasks[id].process)
  }

  predicate Registered(r: Registry, p: Process, marker: Token) {
    marker in r.liveHosts && r.liveHosts[marker] == p
  }

  /** What an operation has gathered under the lock still has every marker of a living process. */
  ghost predicate KeepsLive(liveHosts: map<Token, Process>, alive: set<Process>, t: Task) {
    t.critical.Inside? && t.critical.latest.Some? ==>
      forall marker | marker in liveHosts && liveHosts[marker] in alive ::
        Registered(t.critical.latest.value, liveHosts[marker], marker)
  }

  ghost predicate LatestKeepsLive(w: World) {
    && w.history != []
    && forall id | id in w.tasks :: KeepsLive(Current(w).liveHosts, w.alive, w.tasks[id])
  }

  /** Every host has its marker in the registry. */
  ghost predicate HostsAreRegistered(w: World) {
    && w.history != []
    && (forall p | p in w.hosts :: Registered(Current(w), p, w.hosts[p]))
    && (forall id | id in w.tasks && w.tasks[id].op.InitializeHost? && w.tasks[id].stage == Finished ::
          Registered(Current(w), w.tasks[id].process, w.tasks[id].op.marker) && w.tasks[id].critical.Leaving?)
  }

  /** What a process may read lies in the past. */
  ghost predicate EnabledInThePast(w: World) {
    forall p | p in w.enabledAt :: w.enabledAt[p] < |w.history|
  }

  ghost predicate HostInv(w: World) {
    MarkersAreDistinct(w) && MarkersAreGenuine(w) && LatestKeepsLive(w) && HostsAreRegistered(w) && EnabledInThePast(w)
  }

  // ---------------------------------------------------------------- footprints

  /** A step that leaves alone what only other steps may touch. */
  lemma LockFootprint(w: World, a: Action, w': World)
    requires Next(w, a) == Some(w') && OfLock(a)
    ensures w'.alive == w.alive && w'.hosts == w.hosts && w'.enabledAt == w.enabledAt && w'.packages == w.packages
    ensures a.task in w.tasks
    ensures a.task in w'.tasks ==>
              w'.tasks[a.task].op == w.tasks[a.task].op && w'.tasks[a.task].process == w.tasks[a.task].process
  {
  }

  /** Which step may touch which part of the world. */
  lemma Footprint(w: World, a: Action, w': World)
    requires Next(w, a) == Some(w') && !a.Spawn? && !a.Crash?
    ensures w'.alive == w.alive
    ensures !a.Begin? && !a.Leave? ==> w'.hosts == w.hosts
    ensures !a.Leave? ==> w'.enabledAt == w.enabledAt
    ensures !a.Publish? && !a.Purge? ==> w'.packages == w.packages
    ensures a.task in w.tasks && a.task in w'.tasks ==>
              w'.tasks[a.task].op == w.tasks[a.task].op && w'.tasks[a.task].process == w.tasks[a.task].process
    ensures !a.Begin? ==> a.task in w.tasks
  {
    if OfLock(a) {
      LockFootprint(w, a, w');
    } else if OfRegistry(a) {
      RegistryFootprint(w, a, w');
    } else if a.Leave? {
      LeaveEffect(w, a.task, w');
    } else if a.Begin? {
      BeginEnters(w, a.task, a.process, a.op, w');
    }
  }

  lemma RegistryFootprint(w: World, a: Action, w': World)
    requires Next(w, a) == Some(w') && OfRegistry(a)
    ensures w'.alive == w.alive && w'.hosts == w.hosts && w'.enabledAt == w.enabledAt && a.task in w.tasks
    ensures !a.Publish? && !a.Purge? ==> w'.packages == w.packages
    ensures a.task in w'.tasks ==>
              w'.tasks[a.task].op == w.tasks[a.task].op && w'.tasks[a.task].process == w.tasks[a.task].process
  {
    RegistryStepsWorkOnTheirOwn(w, a, w');
    if a.Read? {
      ReadEffect(w, a.task, a.at, w');
    }
  }

  ghost predicate TokensKept(w: World, w': World) {
    forall token | token in w.tokens :: token in w'.tokens && w'.tokens[token] == w.tokens[token]
  }

  lemma TokensGrow(w: World, a: Action, w': World)
    requires Next(w, a) == Some(w') && !a.Spawn? && !a.Crash?
    ensures TokensKept(w, w')
  {
    if a.Read? {
      ReadEffect(w, a.task, a.at, w');
    } else if a.Leave? {
      LeaveEffect(w, a.task, w');
    } else if a.Begin? {
      BeginEnters(w, a.task, a.process, a.op, w');
    }
  }

  lemma WriterLeaves(w: World, a: Action, w': World)
    requires Next(w, a) == Some(w') && Writes(a)
    ensures a.task in w.tasks && a.task in w'.tasks && Holds(w.tasks[a.task]) && w'.tasks[a.task].critical.Leaving?
    ensures w.tasks[a.task].op.InitializeHost? ==> a.Register?
  {
  }

  lemma WriteGrows(w: World, a: Action, w': World)
    requires Next(w, a) == Some(w') && Writes(a) && w.history != []
    ensures w'.history != []
  {
  }

  /** After a write nobody is inside the critical section. */
  lemma WriteEmptiesSection(w: World, a: Action, w': World)
    requires LockInv(w) && Next(w, a) == Some(w') && Writes(a)
    ensures forall q | q in w'.tasks :: !w'.tasks[q].critical.Inside?
  {
    WriterLeaves(w, a, w');
    TaskStepsKeepOthers(w, a, w');
    forall q | q in w'.tasks && q != a.task ensures !w'.tasks[q].critical.Inside? {
      if Holds(w.tasks[q]) {
        AtMostOneHolder(w, q, a.task);
      }
    }
  }

  // ---------------------------------------------------------------- markers are distinct

  /** A step that neither starts nor finishes an operation of a host's life cycle. */
  ghost predicate LifeCycleKept(w: World, id: nat, w': World) {
    && OthersKept(w, id, w')
    && (id in w'.tasks ==>
          && id in w.tasks
          && w'.tasks[id].op == w.tasks[id].op
          && w'.tasks[id].process == w.tasks[id].process)
    && w'.hosts == w.hosts
    && TokensKept(w, w')
  }

  lemma QuietKeepsMarkers(w: World, id: nat, w': World)
    requires MarkersAreDistinct(w) && LifeCycleKept(w, id, w')
    ensures MarkersAreDistinct(w')
  {
  }

  lemma BeginKeepsMarkers(w: World, id: nat, p: Process, op: Operation, w': World)
    requires MarkersAreDistinct(w) && BeginTask(w, id, p, op) == Some(w')
    ensures MarkersAreDistinct(w')
  {
    forall q | q in w'.tasks && q != id ensures q in w.tasks && w'.tasks[q] == w.tasks[q] {}
    if op.InitializeHost? {
      InitializationKeepsMarkers(w, id, p, op, w');
    } else if op.DisposeHost? {
      DisposalKeepsMarkers(w, id, p, op, w');
    }
  }

  lemma InitializationKeepsMarkers(w: World, id: nat, p: Process, op: Operation, w': World)
    requires MarkersAreDistinct(w) && BeginTask(w, id, p, op) == Some(w') && op.InitializeHost?
    ensures MarkersAreDistinct(w')
  {
    forall q | q in w.tasks && OfLifeCycle(w.tasks[q].op) ensures w.tasks[q].op.marker != op.marker {}
  }

  lemma DisposalKeepsMarkers(w: World, id: nat, p: Process, op: Operation, w': World)
    requires MarkersAreDistinct(w) && BeginTask(w, id, p, op) == Some(w') && op.DisposeHost?
    ensures MarkersAreDistinct(w')
  {
    forall q | q in w.tasks && OfLifeCycle(w.tasks[q].op) ensures w.tasks[q].op.marker != op.marker {}
  }

  lemma LeaveKeepsMarkers(w: World, id: nat, w': World)
    requires MarkersAreDistinct(w) && LeaveLock(w, id) == Some(w')
    ensures MarkersAreDistinct(w')
  {
    LeaveEffect(w, id, w');
    forall q | q in w'.tasks && q != id ensures q in w.tasks && w'.tasks[q] == w.tasks[q] {}
    if w'.hosts != w.hosts {
      assert w'.hosts == w.hosts[w.tasks[id].process := w.tasks[id].op.marker] && w'.tasks == w.tasks - {id};
    }
  }

  lemma CrashKeepsMarkers(w: World, p: Process, w': World)
    requires MarkersAreDistinct(w) && CrashProcess(w, p) == Some(w')
    ensures MarkersAreDistinct(w')
  {
  }

  lemma StepKeepsMarkers(w: World, a: Action, w': World)
    requires MarkersAreDistinct(w) && Next(w, a) == Some(w')
    ensures MarkersAreDistinct(w')
  {
    match a
    case Spawn(p) =>
    case Crash(p) => CrashKeepsMarkers(w, p, w');
    case Begin(id, p, op) => BeginKeepsMarkers(w, id, p, op, w');
    case Leave(id) => LeaveKeepsMarkers(w, id, w');
    case _ => OtherStepKeepsMarkers(w, a, w');
  }

  lemma OtherStepKeepsMarkers(w: World, a: Action, w': World)
    requires MarkersAreDistinct(w) && Next(w, a) == Some(w') && !a.Spawn? && !a.Crash? && !a.Begin? && !a.Leave?
    ensures MarkersAreDistinct(w')
  {
    hide MarkersAreDistinct, Next;
    Footprint(w, a, w');
    TokensGrow(w, a, w');
    TaskStepsKeepOthers(w, a, w');
    QuietKeepsMarkers(w, a.task, w');
  }

  // ---------------------------------------------------------------- markers are genuine

  /** What the acting operation has gathered is still about genuine markers. */
  ghost predicate GathersGenuine(w: World, id: nat, w': World) {
    && w'.history != [] && GenuineMarkers(w'.tokens, Current(w'))
    && (id in w'.tasks && w'.tasks[id].critical.Inside? && w'.tasks[id].critical.latest.Some? ==>
          GenuineMarkers(w'.tokens, w'.tasks[id].critical.latest.value))
    && (id in w'.tasks && OfLifeCycle(w'.tasks[id].op) ==>
          w'.tasks[id].op.marker in w'.tokens && w'.tokens[w'.tasks[id].op.marker] == w'.tasks[id].process)
  }

  lemma GatheringKeepsGenuine(w: World, id: nat, w': World)
    requires MarkersAreGenuine(w) && OthersKept(w, id, w') && TokensKept(w, w') && GathersGenuine(w, id, w')
    ensures MarkersAreGenuine(w')
  {
  }

  lemma BeginGathersGenuine(w: World, a: Action, w': World)
    requires MarkersAreGenuine(w) && HostsAreRegistered(w) && a.Begin? && Next(w, a) == Some(w')
    ensures GathersGenuine(w, a.task, w')
  {
    BeginEnters(w, a.task, a.process, a.op, w');
    if a.op.DisposeHost? {
      assert Registered(Current(w), a.process, a.op.marker);
    }
  }

  lemma WorkGathersGenuine(w: World, a: Action, w': World)
    requires MarkersAreGenuine(w) && Next(w, a) == Some(w') && (a.ReadInside? || a.DropMarker?)
    ensures GathersGenuine(w, a.task, w')
  {
  }

  /** The markers a write leaves: those gathered or read, without the one disposed, and with the one registered. */
  lemma WrittenMarkersAreGenuine(w: World, a: Action, w': World)
    requires MarkersAreGenuine(w) && Next(w, a) == Some(w') && Writes(a) && Informed(w.history, w.tasks[a.task])
    ensures w'.history != [] && w'.tokens == w.tokens && GenuineMarkers(w'.tokens, Current(w'))
  {
    if a.Register? {
      RegisteredMarkersAreGenuine(w, a.task, w');
    } else if a.CommitInside? {
      CommittedMarkersAreGenuine(w, a.task, w');
    } else {
      RemainingMarkersAreGenuine(w, a.task, w');
    }
  }

  lemma RegisteredMarkersAreGenuine(w: World, id: nat, w': World)
    requires MarkersAreGenuine(w) && RegisterHost(w, id) == Some(w')
    ensures w'.history != [] && w'.tokens == w.tokens && GenuineMarkers(w'.tokens, Current(w'))
  {
    assert GenuineMarkers(w.tokens, w.tasks[id].critical.latest.value);
  }

  lemma CommittedMarkersAreGenuine(w: World, id: nat, w': World)
    requires MarkersAreGenuine(w) && CommitUnderLock(w, id) == Some(w') && Informed(w.history, w.tasks[id])
    ensures w'.history != [] && w'.tokens == w.tokens && GenuineMarkers(w'.tokens, Current(w'))
  {
  }

  lemma RemainingMarkersAreGenuine(w: World, id: nat, w': World)
    requires MarkersAreGenuine(w) && UnregisterHost(w, id) == Some(w') && Informed(w.history, w.tasks[id])
    ensures w'.history != [] && w'.tokens == w.tokens && GenuineMarkers(w'.tokens, Current(w'))
  {
  }

  lemma WriteGathersGenuine(w: World, a: Action, w': World)
    requires Inv(w) && MarkersAreGenuine(w) && Next(w, a) == Some(w') && Writes(a)
    ensures GathersGenuine(w, a.task, w')
  {
    assert Informed(w.history, w.tasks[a.task]);
    WrittenMarkersAreGenuine(w, a, w');
    WriterLeaves(w, a, w');
    Footprint(w, a, w');
  }

  lemma OtherGathersGenuine(w: World, a: Action, w': World)
    requires MarkersAreGenuine(w) && Next(w, a) == Some(w') && !a.Spawn? && !a.Crash? && !a.Begin?
    requires !Writes(a) && !a.ReadInside? && !a.DropMarker?
    ensures GathersGenuine(w, a.task, w')
  {
    OnlyWritersWrite(w, a, w');
    TokensGrow(w, a, w');
    Footprint(w, a, w');
    GatheredKept(w, a, w');
  }

  lemma GatheredKept(w: World, a: Action, w': World)
    requires Next(w, a) == Some(w') && !a.Spawn? && !a.Crash? && !a.Begin?
    requires !Writes(a) && !a.ReadInside? && !a.DropMarker?
    ensures a.task in w.tasks
    ensures a.task in w'.tasks && w'.tasks[a.task].critical.Inside? && w'.tasks[a.task].critical.latest.Some? ==>
              w'.tasks[a.task].critical == w.tasks[a.task].critical
  {
    if a.Read? {
      ReadEffect(w, a.task, a.at, w');
    } else if a.Leave? {
      LeaveEffect(w, a.task, w');
    }
  }

  lemma StepKeepsGenuine(w: World, a: Action, w': World)
    requires Inv(w) && MarkersAreGenuine(w) && HostsAreRegistered(w) && Next(w, a) == Some(w')
    ensures MarkersAreGenuine(w')
  {
    if !a.Spawn? && !a.Crash? {
      TaskStepsKeepOthers(w, a, w');
      TokensGrow(w, a, w');
      if a.Begin? {
        BeginGathersGenuine(w, a, w');
      } else if a.ReadInside? || a.DropMarker? {
        WorkGathersGenuine(w, a, w');
      } else if Writes(a) {
        WriteGathersGenuine(w, a, w');
      } else {
        OtherGathersGenuine(w, a, w');
      }
      GatheringKeepsGenuine(w, a.task, w');
    }
  }

  // ---------------------------------------------------------------- no living marker is dropped

  lemma DropKeepsLive(w: World, id: nat, marker: Token, w': World)
    requires ProcessesAreDistinct(w) && LatestKeepsLive(w) && DropStaleMarker(w, id, marker) == Some(w')
    ensures LatestKeepsLive(w')
  {
    StaleMeansDead(w, w.tasks[id].critical.latest.value.liveHosts[marker]);
    assert KeepsLive(Current(w).liveHosts, w.alive, w.tasks[id]);
    forall q | q in w'.tasks ensures KeepsLive(Current(w').liveHosts, w'.alive, w'.tasks[q]) {
      assert q != id ==> KeepsLive(Current(w).liveHosts, w.alive, w.tasks[q]);
    }
  }

  /** A process that starts is new: no marker is its own yet. */
  lemma SpawnKeepsLive(w: World, p: Process, w': World)
    requires LockInv(w) && MarkersAreGenuine(w) && LatestKeepsLive(w) && SpawnProcess(w, p) == Some(w')
    ensures LatestKeepsLive(w')
  {
    forall q | q in w'.tasks ensures KeepsLive(Current(w').liveHosts, w'.alive, w'.tasks[q]) {
      assert KeepsLive(Current(w).liveHosts, w.alive, w.tasks[q]);
      forall marker | marker in Current(w).liveHosts ensures Current(w).liveHosts[marker] != p {
        assert w.tokens[marker] in w.everAlive;
      }
    }
  }

  lemma CrashKeepsLive(w: World, p: Process, w': World)
    requires LatestKeepsLive(w) && CrashProcess(w, p) == Some(w')
    ensures LatestKeepsLive(w')
  {
    forall q | q in w'.tasks ensures KeepsLive(Current(w').liveHosts, w'.alive, w'.tasks[q]) {
      assert KeepsLive(Current(w).liveHosts, w.alive, w.tasks[q]);
    }
  }

  lemma QuietKeepsLive(w: World, a: Action, w': World)
    requires LatestKeepsLive(w) && Next(w, a) == Some(w') && !a.Spawn? && !a.Crash? && !Writes(a) && !a.DropMarker?
    ensures LatestKeepsLive(w')
  {
    OnlyWritersWrite(w, a, w');
    Footprint(w, a, w');
    TaskStepsKeepOthers(w, a, w');
    if a.Begin? {
      BeginEnters(w, a.task, a.process, a.op, w');
    } else if !a.ReadInside? {
      GatheredKept(w, a, w');
    }
    forall q | q in w'.tasks ensures KeepsLive(Current(w').liveHosts, w'.alive, w'.tasks[q]) {
      assert q in w.tasks ==> KeepsLive(Current(w).liveHosts, w.alive, w.tasks[q]);
    }
  }

  lemma StepKeepsLive(w: World, a: Action, w': World)
    requires LockInv(w) && MarkersAreGenuine(w) && LatestKeepsLive(w) && Next(w, a) == Some(w')
    ensures LatestKeepsLive(w')
  {
    if Writes(a) {
      WriterLeaves(w, a, w');
      WriteEmptiesSection(w, a, w');
      WriteGrows(w, a, w');
    } else if a.Spawn? {
      SpawnKeepsLive(w, a.process, w');
    } else if a.Crash? {
      CrashKeepsLive(w, a.process, w');
    } else if a.DropMarker? {
      DropKeepsLive(w, a.task, a.marker, w');
    } else {
      QuietKeepsLive(w, a, w');
    }
  }

  // ---------------------------------------------------------------- registration

  /** A write keeps the markers of living processes; only the marker being disposed goes. */
  lemma WriteKeepsRegistered(w: World, a: Action, w': World, p: Process, marker: Token)
    requires Inv(w) && MarkersAreGenuine(w) && LatestKeepsLive(w) && Next(w, a) == Some(w') && Writes(a)
    requires Registered(Current(w), p, marker) && p in w.alive
    requires a.Unregister? ==> w.tasks[a.task].op.marker != marker
    ensures w'.history != [] && Registered(Current(w'), p, marker)
  {
    var t := w.tasks[a.task];
    assert Informed(w.history, t);
    hide Inv;
    if a.Register? {
      RegisterKeepsRegistered(w, a.task, w', p, marker);
    } else if a.CommitInside? {
      CommitKeepsRegistered(w, a.task, w', p, marker);
    } else {
      UnregisterKeepsRegistered(w, a.task, w', p, marker);
    }
  }

  lemma RegisterKeepsRegistered(w: World, id: nat, w': World, p: Process, marker: Token)
    requires MarkersAreGenuine(w) && LatestKeepsLive(w) && RegisterHost(w, id) == Some(w')
    requires Registered(Current(w), p, marker) && p in w.alive
    ensures w'.history != [] && Registered(Current(w'), p, marker)
  {
    var t := w.tasks[id];
    assert KeepsLive(Current(w).liveHosts, w.alive, t);
    assert Registered(t.critical.latest.value, p, marker);
    assert marker == t.op.marker ==> w.tokens[marker] == t.process == p;
  }

  lemma CommitKeepsRegistered(w: World, id: nat, w': World, p: Process, marker: Token)
    requires CommitUnderLock(w, id) == Some(w') && w.history != []
    requires Informed(w.history, w.tasks[id]) && Registered(Current(w), p, marker)
    ensures w'.history != [] && Registered(Current(w'), p, marker)
  {
  }

  lemma UnregisterKeepsRegistered(w: World, id: nat, w': World, p: Process, marker: Token)
    requires UnregisterHost(w, id) == Some(w') && w.history != [] && w.tasks[id].op.marker != marker
    requires Informed(w.history, w.tasks[id]) && Registered(Current(w), p, marker)
    ensures w'.history != [] && Registered(Current(w'), p, marker)
  {
  }

  lemma RegisterRegisters(w: World, id: nat, w': World)
    requires RegisterHost(w, id) == Some(w')
    ensures w'.history != [] && id in w.tasks && Registered(Current(w'), w.tasks[id].process, w.tasks[id].op.marker)
  {
  }

  lemma WriteKeepsHosts(w: World, a: Action, w': World)
    requires Inv(w) && HostInv(w) && Next(w, a) == Some(w') && Writes(a)
    ensures HostsAreRegistered(w')
  {
    WriterLeaves(w, a, w');
    Footprint(w, a, w');
    TaskStepsKeepOthers(w, a, w');
    WriteKeepsInv(w, a, w');
    forall p | p in w'.hosts ensures Registered(Current(w'), p, w'.hosts[p]) {
      UnregisterSparesHosts(w, a, w', p);
      WriteKeepsRegistered(w, a, w', p, w.hosts[p]);
    }
    forall id | id in w'.tasks && w'.tasks[id].op.InitializeHost? && w'.tasks[id].stage == Finished
      ensures Registered(Current(w'), w'.tasks[id].process, w'.tasks[id].op.marker) && w'.tasks[id].critical.Leaving?
    {
      if id == a.task {
        RegisterRegisters(w, id, w');
      } else {
        AtMostOneHolder(w, id, a.task);
        assert false;
      }
    }
  }

  lemma UnregisterSparesHosts(w: World, a: Action, w': World, p: Process)
    requires MarkersAreDistinct(w) && Next(w, a) == Some(w') && p in w.hosts
    ensures a.Unregister? ==> w.tasks[a.task].op.marker != w.hosts[p]
  {
  }

  lemma LeaveKeepsHosts(w: World, id: nat, w': World)
    requires LockInv(w) && HostsAreRegistered(w) && LeaveLock(w, id) == Some(w')
    ensures HostsAreRegistered(w')
  {
    forall q | q in w.tasks && Holds(w.tasks[q]) ensures q == id {
      AtMostOneHolder(w, q, id);
    }
  }

  /** A step that leaves the hosts and the history alone and finishes no host. */
  ghost predicate RegistrationKept(w: World, id: nat, w': World) {
    && OthersKept(w, id, w')
    && w'.history == w.history
    && w'.hosts.Keys <= w.hosts.Keys && (forall p | p in w'.hosts :: w'.hosts[p] == w.hosts[p])
    && (id in w'.tasks && w'.tasks[id].stage == Finished && w'.tasks[id].op.InitializeHost? ==>
          id in w.tasks && w.tasks[id] == w'.tasks[id])
  }

  lemma QuietKeepsHosts(w: World, id: nat, w': World)
    requires HostsAreRegistered(w) && RegistrationKept(w, id, w')
    ensures HostsAreRegistered(w')
  {
  }

  lemma QuietStepsKeepRegistration(w: World, a: Action, w': World)
    requires HostsAreRegistered(w) && Next(w, a) == Some(w')
    requires !a.Spawn? && !a.Crash? && !Writes(a) && !a.Leave?
    ensures RegistrationKept(w, a.task, w')
  {
    hide Registered, Next;
    TaskStepsKeepOthers(w, a, w');
    OnlyWritersWrite(w, a, w');
    if a.Begin? {
      BeginKeepsRegistration(w, a, w');
    } else {
      Footprint(w, a, w');
      FinishedHostWaits(w, a, w');
    }
  }

  lemma BeginKeepsRegistration(w: World, a: Action, w': World)
    requires Next(w, a) == Some(w') && a.Begin?
    ensures w'.hosts.Keys <= w.hosts.Keys && (forall p | p in w'.hosts :: w'.hosts[p] == w.hosts[p])
    ensures a.task in w'.tasks && w'.tasks[a.task].stage == Fresh
  {
  }

  /** A host that has registered only leaves, or fails to. */
  lemma FinishedHostWaits(w: World, a: Action, w': World)
    requires HostsAreRegistered(w) && Next(w, a) == Some(w')
    requires !a.Spawn? && !a.Crash? && !a.Begin? && !Writes(a) && !a.Leave?
    ensures a.task in w.tasks
    ensures a.task in w'.tasks && w'.tasks[a.task].stage == Finished && w'.tasks[a.task].op.InitializeHost? ==>
              w'.tasks[a.task] == w.tasks[a.task]
  {
    hide Registered;
    if OfLock(a) {
      FinishedHostDoesNotLock(w, a, w');
    } else if a.Read? {
      ReadEffect(w, a.task, a.at, w');
    }
  }

  lemma FinishedHostDoesNotLock(w: World, a: Action, w': World)
    requires HostsAreRegistered(w) && Next(w, a) == Some(w') && OfLock(a)
    ensures a.task in w.tasks
    ensures a.task in w'.tasks ==> !(w'.tasks[a.task].stage == Finished && w'.tasks[a.task].op.InitializeHost?)
  {
    hide Registered;
    if a.Abandon? || a.Strand? {
      EndingEffect(w, a, w');
    }
  }

  lemma ProcessStepKeepsHosts(w: World, a: Action, w': World)
    requires HostsAreRegistered(w) && Next(w, a) == Some(w') && (a.Spawn? || a.Crash?)
    ensures HostsAreRegistered(w')
  {
  }

  lemma StepKeepsHosts(w: World, a: Action, w': World)
    requires Inv(w) && HostInv(w) && Next(w, a) == Some(w')
    ensures HostsAreRegistered(w')
  {
    if Writes(a) {
      WriteKeepsHosts(w, a, w');
    } else if a.Spawn? || a.Crash? {
      ProcessStepKeepsHosts(w, a, w');
    } else if a.Leave? {
      LeaveKeepsHosts(w, a.task, w');
    } else {
      QuietStepsKeepRegistration(w, a, w');
      QuietKeepsHosts(w, a.task, w');
    }
  }

  lemma EnabledStays(w: World, a: Action, w': World, p: Process)
    requires Next(w, a) == Some(w') && p in w.enabledAt && p in w'.alive
    ensures p in w'.enabledAt
    ensures w'.enabledAt[p] == w.enabledAt[p] || (w'.history == w.history && w'.enabledAt[p] == |w.history| - 1)
  {
    if !a.Spawn? && !a.Crash? && !a.Leave? {
      Footprint(w, a, w');
    }
  }

  lemma StepKeepsEnabled(w: World, a: Action, w': World)
    requires Inv(w) && EnabledInThePast(w) && Next(w, a) == Some(w')
    ensures EnabledInThePast(w')
  {
    HistoryGrows(w, a, w');
    forall p | p in w'.enabledAt ensures w'.enabledAt[p] < |w'.history| {
      EnabledBefore(w, a, w', p);
    }
  }

  lemma EnabledBefore(w: World, a: Action, w': World, p: Process)
    requires Next(w, a) == Some(w') && p in w'.enabledAt && w.history != []
    ensures (p in w.enabledAt && w'.enabledAt[p] == w.enabledAt[p])
        || (w'.history == w.history && w'.enabledAt[p] == |w.history| - 1)
  {
    if !a.Spawn? && !a.Crash? && !a.Leave? {
      Footprint(w, a, w');
    }
  }

  /** Every step keeps every host registered, whatever crashes and whoever cleans up. */
  lemma StepKeepsHostInv(w: World, a: Action, w': World)
    requires Inv(w) && HostInv(w) && Next(w, a) == Some(w')
    ensures HostInv(w')
  {
    StepKeepsMarkers(w, a, w');
    StepKeepsGenuine(w, a, w');
    StepKeepsLive(w, a, w');
    StepKeepsHosts(w, a, w');
    StepKeepsEnabled(w, a, w');
  }

  lemma InitialIsHostInv(w: World)
    requires Initial(w)
    ensures HostInv(w)
  {
  }

  /**
   In every run each host that has finished initializing, and is not being disposed, has its marker in
   the registry.
   */
  lemma {:induction false} RunKeepsHostInv(w: World, actions: seq<Action>, w': World)
    requires Initial(w) && Run(w, actions) == Some(w')
    ensures Inv(w') && HostInv(w')
    decreases |actions|
  {
    if actions == [] {
      InitialIsInv(w);
      InitialIsHostInv(w);
    } else {
      var before := actions[..|actions| - 1];
      var v := Run(w, before).value;
      RunKeepsHostInv(w, before, v);
      StepKeepsInv(v, actions[|actions| - 1], w');
      StepKeepsHostInv(v, actions[|actions| - 1], w');
    }
  }
}
