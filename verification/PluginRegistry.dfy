/**
 The plugin registry shared by several editor windows: src/agent/AgentPluginStore.ts and
 src/agent/AgentPluginManagerHost.ts.

 Each window is a process. A process runs any number of asynchronous operations at once;
 an operation takes steps between its awaits, and a process may crash between any two of
 them. The shared state is the registry file, the lock file and the package directory.
 `Next` performs one step; `None` means the step is not possible in that state.

 Two assumptions are built in: reading the lock and unlinking it when the token matches is
 one step, which the module PluginRemoval takes apart, and a dead (pid, start fingerprint)
 pair never comes back to life.
 */
module PluginRegistry {
  import opened Wrappers

  type InstallId = nat
  type Digest = nat
  type Token = nat
  type Package = (InstallId, Digest)

  datatype Scope = GlobalScope | ProjectScope(projectId: nat, folder: nat)

  datatype Row = Row(
    id: InstallId, scope: Scope, name: nat,
    current: Digest, previous: Option<Digest>,
    enabled: bool, policy: map<nat, nat>)

  /** One process instance: the pid and the fingerprint of its start. */
  datatype Process = Process(pid: nat, fingerprint: nat)

  datatype Registry = Registry(
    revision: nat, installs: map<InstallId, Row>, liveHosts: map<Token, Process>, purgeRequested: bool)

  datatype LockRecord = LockRecord(token: Token, owner: Process)

  /** The lock file is created empty; its record is written afterwards. An unwritten record cannot be read. */
  datatype LockFile = Blank | Full(record: LockRecord)

  // ---------------------------------------------------------------- operations

  datatype RowEdit = SetEnabled(enabled: bool) | Rollback | SetPolicy(server: nat, update: Option<nat> -> nat)

  datatype Operation =
    | Install(id: InstallId, name: nat, scope: Scope, digest: Digest, enabled: bool, replacing: bool)
    | Edit(target: InstallId, edit: RowEdit, expectedRevision: Option<nat>)
    | Remove(removed: InstallId)
    | RequestPurge
    | InitializeHost(marker: Token)
    | DisposeHost(marker: Token)
  {
    /** Operations of the plugin manager, as opposed to the life cycle of its host. */
    predicate OfManager() {
      !InitializeHost? && !DisposeHost?
    }
  }

  /** `Fresh` has read nothing; `Retry` lost a revision race and must read again. */
  datatype Stage = Fresh | NeedsPublish | NeedsCommit | Retry | Finished

  /** Where an operation stands with respect to the lock file. */
  datatype Critical =
    | Outside
    | Contending(token: Token, seen: Option<LockRecord>, stale: bool)
    | Creating(token: Token, written: bool)
    | Inside(token: Token, base: Option<Registry>, latest: Option<Registry>)
    | Leaving(token: Token)

  /** `snapshot` indexes the history: it is the registry the operation last read. */
  datatype Task = Task(
    process: Process, op: Operation, stage: Stage, attempt: nat, snapshot: nat, row: Option<Row>, critical: Critical)

  /** What a registry write did to the installs; an edit may have named the revision it was meant for. */
  datatype Commit =
    | Put(id: InstallId, row: Row)
    | Change(id: InstallId, edit: RowEdit, expectedRevision: Option<nat>)
    | Delete(id: InstallId)
    | Untouched

  /**
   The world. The registry file is the last entry of `history`; `log` says what each write
   did. `hosts` holds each store's `hostMarker`, `enabledAt` the point in history at which a
   process finished `initializeHost`, and `tokens` who drew each random token.
   */
  datatype World = World(
    history: seq<Registry>, log: seq<Commit>,
    lock: Option<LockFile>, packages: set<Package>,
    alive: set<Process>, everAlive: set<Process>,
    hosts: map<Process, Token>, enabledAt: map<Process, nat>,
    tasks: map<nat, Task>, tokens: map<Token, Process>)

  function Current(w: World): Registry
    requires w.history != []
  {
    w.history[|w.history| - 1]
  }

  // ---------------------------------------------------------------- rows

  function RowPackages(row: Row): set<Package> {
    {(row.id, row.current)} + if row.previous.Some? then {(row.id, row.previous.value)} else {}
  }

  predicate Stored(installs: map<InstallId, Row>, packages: set<Package>) {
    forall k | k in installs :: RowPackages(installs[k]) <= packages
  }

  predicate NoConflict(installs: map<InstallId, Row>, name: nat, scope: Scope, except: Option<InstallId>) {
    forall k | k in installs ::
      !(Some(installs[k].id) != except && installs[k].name == name && installs[k].scope == scope)
  }

  function Replaced(op: Operation): Option<InstallId>
    requires op.Install?
  {
    if op.replacing then Some(op.id) else None
  }

  /** The row an install writes, built from the first registry it read; `None` when the install is refused. */
  function BuildRow(op: Operation, installs: map<InstallId, Row>): Option<Row>
    requires op.Install?
  {
    if op.replacing && op.id !in installs then
      None
    else if !NoConflict(installs, op.name, op.scope, Replaced(op)) then
      None
    else if op.replacing then
      var replaced := installs[op.id];
      Some(Row(op.id, op.scope, op.name, op.digest,
               if replaced.current != op.digest then Some(replaced.current) else replaced.previous,
               op.enabled, replaced.policy))
    else
      Some(Row(op.id, op.scope, op.name, op.digest, None, op.enabled, map[]))
  }

  function Overlay(row: Row, server: nat): Option<nat> {
    if server in row.policy then Some(row.policy[server]) else None
  }

  function ApplyEdit(edit: RowEdit, row: Row): Option<Row> {
    match edit
    case SetEnabled(b) => Some(row.(enabled := b))
    case Rollback =>
      if row.previous.None? then None
      else Some(row.(current := row.previous.value, previous := Some(row.current)))
    case SetPolicy(server, update) => Some(row.(policy := row.policy[server := update(Overlay(row, server))]))
  }

  // ---------------------------------------------------------------- steps

  datatype Action =
    | Spawn(process: Process)
    | Crash(process: Process)
    | Begin(task: nat, process: Process, op: Operation)
    | Read(task: nat, at: nat)
    | Contend(task: nat, token: Token)
    | Create(task: nat)
    | WriteLock(task: nat)
    | Enter(task: nat)
    | ReadOwner(task: nat)
    | InspectOwner(task: nat)
    | BreakLock(task: nat)
    | ReadInside(task: nat)
    | Publish(task: nat)
    | CommitInside(task: nat)
    | DropMarker(task: nat, marker: Token)
    | Purge(task: nat, removed: set<Package>)
    | Register(task: nat)
    | Unregister(task: nat)
    | Leave(task: nat)
    | Abandon(task: nat)
    | Strand(task: nat)

  function WithTask(w: World, id: nat, t: Task): World {
    w.(tasks := w.tasks[id := t])
  }

  function WithoutTask(w: World, id: nat): World {
    w.(tasks := w.tasks - {id})
  }

  /** What probing a pid reports: dead, or alive with the fingerprint of the process now using it. */
  datatype Inspection = Alive(fingerprint: nat) | Dead

  predicate Inspects(alive: set<Process>, pid: nat, answer: Inspection) {
    match answer
    case Alive(fingerprint) => Process(pid, fingerprint) in alive
    case Dead => forall p | p in alive :: p.pid != pid
  }

  /** The owner recorded in a lock or marker is provably gone. */
  predicate ProvablyStale(alive: set<Process>, owner: Process) {
    || Inspects(alive, owner.pid, Dead)
    || exists p | p in alive :: p.pid == owner.pid && p.fingerprint != owner.fingerprint
  }

  function SpawnProcess(w: World, p: Process): Option<World> {
    if p in w.everAlive || exists q | q in w.alive :: q.pid == p.pid then None
    else Some(w.(alive := w.alive + {p}, everAlive := w.everAlive + {p}))
  }

  /** A crash ends every operation of the process and leaves its lock and marker behind. */
  function CrashProcess(w: World, p: Process): Option<World> {
    if p !in w.alive then None
    else Some(w.(alive := w.alive - {p}, hosts := w.hosts - {p}, enabledAt := w.enabledAt - {p},
                 tasks := map id | id in w.tasks && w.tasks[id].process != p :: w.tasks[id]))
  }

  /**
   An operation starts. The manager exists once `initializeHost` has finished; it never looks
   at `hostMarker` again. Disposing clears `hostMarker` at once.
   */
  function BeginTask(w: World, id: nat, p: Process, op: Operation): Option<World> {
    if id in w.tasks || p !in w.alive then None
    else
      var t := Task(p, op, Fresh, 0, 0, None, Outside);
      match op
      case InitializeHost(marker) =>
        if p in w.hosts || marker in w.tokens then None
        else Some(WithTask(w.(tokens := w.tokens[marker := p]), id, t))
      case DisposeHost(marker) =>
        if p in w.hosts && w.hosts[p] == marker then Some(WithTask(w.(hosts := w.hosts - {p}), id, t))
        else None
      case _ => if p in w.enabledAt then Some(WithTask(w, id, t)) else None
  }

  /**
   `checkForUpdates` answers with a registry the process has read since it was enabled: calls
   share one outstanding read, so the answer may be older than the call. The preconditions of
   the operation are checked on that registry; when they fail the operation ends with an error.
   */
  function ReadRegistry(w: World, id: nat, at: nat): Option<World> {
    if id !in w.tasks then None
    else
      var t := w.tasks[id];
      if !t.op.OfManager() || t.critical != Outside || (t.stage != Fresh && t.stage != Retry)
         || t.process !in w.enabledAt || !(w.enabledAt[t.process] <= at < |w.history|) then None
      else
        var r := w.history[at];
        match t.op
        case Install(_, name, scope, _, _, _) =>
          if t.stage == Fresh then
            var row := BuildRow(t.op, r.installs);
            if row.None? then Some(WithoutTask(w, id))
            else Some(WithTask(w, id, t.(stage := NeedsPublish, snapshot := at, row := row)))
          else if NoConflict(r.installs, name, scope, Replaced(t.op)) then
            Some(WithTask(w, id, t.(stage := NeedsCommit, snapshot := at)))
          else
            Some(WithoutTask(w, id))
        case Edit(target, edit, expected) =>
          if expected.Some? && expected.value != r.revision then Some(WithoutTask(w, id))
          else if target !in r.installs then Some(WithoutTask(w, id))
          else if ApplyEdit(edit, r.installs[target]).None? then Some(WithoutTask(w, id))
          else Some(WithTask(w, id, t.(stage := NeedsCommit, snapshot := at,
              row := ApplyEdit(edit, r.installs[target]))))
        case Remove(removed) =>
          if removed !in r.installs then Some(WithoutTask(w, id))
          else Some(WithTask(w, id, t.(stage := NeedsCommit, snapshot := at)))
        case RequestPurge => Some(WithTask(w, id, t.(stage := NeedsCommit, snapshot := at)))
  }

  predicate WantsLock(t: Task) {
    && t.critical == Outside
    && if t.op.OfManager() then t.stage == NeedsPublish || t.stage == NeedsCommit else t.stage == Fresh
  }

  function ContendForLock(w: World, id: nat, token: Token): Option<World> {
    if id in w.tasks && WantsLock(w.tasks[id]) && token !in w.tokens then
      Some(WithTask(w.(tokens := w.tokens[token := w.tasks[id].process]), id,
                    w.tasks[id].(critical := Contending(token, None, false))))
    else None
  }

  /** Creating the lock file with the exclusive flag: it is empty for now. */
  function CreateLock(w: World, id: nat): Option<World> {
    if id in w.tasks && w.tasks[id].critical.Contending? && w.lock.None? then
      var t := w.tasks[id];
      Some(WithTask(w.(lock := Some(Blank)), id, t.(critical := Creating(t.critical.token, false))))
    else None
  }

  function WriteLockRecord(w: World, id: nat): Option<World> {
    if id in w.tasks && w.tasks[id].critical.Creating? && !w.tasks[id].critical.written && w.lock == Some(Blank) then
      var t := w.tasks[id];
      Some(WithTask(w.(lock := Some(Full(LockRecord(t.critical.token, t.process)))), id,
                    t.(critical := Creating(t.critical.token, true))))
    else None
  }

  /** The file is synchronized and closed, and the critical section begins. */
  function EnterLock(w: World, id: nat): Option<World> {
    if id in w.tasks && w.tasks[id].critical.Creating? && w.tasks[id].critical.written then
      var t := w.tasks[id];
      Some(WithTask(w, id, t.(critical := Inside(t.critical.token, None, None))))
    else None
  }

  /** Only a written record can be read; reading a blank one is an error, and the operation is abandoned. */
  function ReadLockOwner(w: World, id: nat): Option<World> {
    if id in w.tasks && w.tasks[id].critical.Contending? && w.lock.Some? && w.lock.value.Full? then
      var t := w.tasks[id];
      Some(WithTask(w, id, t.(critical := Contending(t.critical.token, Some(w.lock.value.record), false))))
    else None
  }

  function InspectLockOwner(w: World, id: nat): Option<World> {
    if id in w.tasks && w.tasks[id].critical.Contending? && w.tasks[id].critical.seen.Some?
       && ProvablyStale(w.alive, w.tasks[id].critical.seen.value.owner) then
      var t := w.tasks[id];
      Some(WithTask(w, id, t.(critical := t.critical.(stale := true))))
    else None
  }

  function RemoveLockIfTokenMatches(lock: Option<LockFile>, token: Token): Option<LockFile> {
    if lock.Some? && lock.value.Full? && lock.value.record.token == token then None else lock
  }

  function BreakStaleLock(w: World, id: nat): Option<World> {
    if id in w.tasks && w.tasks[id].critical.Contending? && w.tasks[id].critical.stale
        && w.tasks[id].critical.seen.Some?
       && w.lock != Some(Blank) then
      var t := w.tasks[id];
      Some(WithTask(w.(lock := RemoveLockIfTokenMatches(w.lock, t.critical.seen.value.token)), id,
                    t.(critical := Contending(t.critical.token, None, false))))
    else None
  }

  function ReadUnderLock(w: World, id: nat): Option<World> {
    if id in w.tasks && w.tasks[id].critical.Inside? && w.tasks[id].critical.base.None? && w.history != [] then
      var t := w.tasks[id];
      Some(WithTask(w, id, t.(critical := Inside(t.critical.token, Some(Current(w)), Some(Current(w))))))
    else None
  }

  /** The package is renamed into place, or found there already. */
  function PublishPackage(w: World, id: nat): Option<World> {
    if id in w.tasks && w.tasks[id].op.Install? && w.tasks[id].stage == NeedsPublish
        && w.tasks[id].critical.Inside? then
      var t := w.tasks[id];
      Some(WithTask(w.(packages := w.packages + {(t.op.id, t.op.digest)}), id,
                    t.(stage := NeedsCommit, critical := Leaving(t.critical.token))))
    else None
  }

  function WriteRegistry(w: World, r: Registry, c: Commit): World {
    w.(history := w.history + [r], log := w.log + [c])
  }

  function CommitOf(t: Task): Commit
    requires t.op.OfManager() && (t.op.Install? ==> t.row.Some?)
  {
    match t.op
    case Install(id, _, _, _, _, _) => Put(id, t.row.value)
    case Edit(target, edit, expected) => Change(target, edit, expected)
    case Remove(removed) => Delete(removed)
    case RequestPurge => Untouched
  }

  /** `mutateRegistry` under the lock: refuse on a changed revision, else write the next one. */
  function CommitUnderLock(w: World, id: nat): Option<World> {
    if id in w.tasks && w.tasks[id].op.OfManager() && w.tasks[id].stage == NeedsCommit
       && w.tasks[id].critical.Inside? && w.tasks[id].critical.base.Some? && w.tasks[id].snapshot < |w.history|
       && (w.tasks[id].op.Install? || w.tasks[id].op.Edit? ==> w.tasks[id].row.Some?) then
      var t := w.tasks[id];
      var base := t.critical.base.value;
      var left := t.(critical := Leaving(t.critical.token));
      if base.revision != w.history[t.snapshot].revision then
        var again := t.attempt < 2 && !t.op.RequestPurge?;
        Some(WithTask(w, id, left.(stage := if again then Retry else Finished, attempt := t.attempt + 1)))
      else
        var installs :=
          match t.op
          case Install(key, _, _, _, _, _) => base.installs[key := t.row.value]
          case Edit(target, _, _) => base.installs[target := t.row.value]
          case Remove(removed) => base.installs - {removed}
          case RequestPurge => base.installs;
        var next := base.(revision := base.revision + 1, installs := installs,
                          purgeRequested := t.op.RequestPurge? || base.purgeRequested);
        Some(WithTask(WriteRegistry(w, next, CommitOf(t)), id, left.(stage := Finished)))
    else None
  }

  predicate Initializing(w: World, id: nat) {
    && id in w.tasks
    && w.tasks[id].op.InitializeHost?
    && w.tasks[id].stage == Fresh
    && w.tasks[id].critical.Inside?
    && w.tasks[id].critical.base.Some?
    && w.tasks[id].critical.latest.Some?
  }

  /** `removeProvablyStaleHostMarkers` drops one marker; the first drop also counts a revision. */
  function DropStaleMarker(w: World, id: nat, marker: Token): Option<World> {
    if Initializing(w, id) && marker in w.tasks[id].critical.latest.value.liveHosts
       && ProvablyStale(w.alive, w.tasks[id].critical.latest.value.liveHosts[marker]) then
      var t := w.tasks[id];
      var base, latest := t.critical.base.value, t.critical.latest.value;
      Some(WithTask(w, id, t.(critical := t.critical.(latest := Some(
        latest.(liveHosts := latest.liveHosts - {marker}, revision := base.revision + 1))))))
    else None
  }

  predicate MustPurge(latest: Registry) {
    latest.purgeRequested && latest.liveHosts == map[]
  }

  predicate Unreferenced(installs: map<InstallId, Row>, package: Package) {
    forall k | k in installs :: package !in RowPackages(installs[k])
  }

  predicate AllReferenced(installs: map<InstallId, Row>, packages: set<Package>) {
    forall package | package in packages :: !Unreferenced(installs, package)
  }

  /** `purgeUnreferencedPackages` deletes some of the packages no row mentions. */
  function PurgePackages(w: World, id: nat, removed: set<Package>): Option<World> {
    if Initializing(w, id) && MustPurge(w.tasks[id].critical.latest.value)
       && forall package | package in removed :: Unreferenced(w.tasks[id].critical.latest.value.installs, package) then
      Some(w.(packages := w.packages - removed))
    else None
  }

  /** `initializeHost` writes its marker, after a complete purge where one is due. */
  function RegisterHost(w: World, id: nat): Option<World> {
    if Initializing(w, id)
       && (MustPurge(w.tasks[id].critical.latest.value) ==>
             AllReferenced(w.tasks[id].critical.latest.value.installs, w.packages)) then
      var t := w.tasks[id];
      var latest := t.critical.latest.value;
      var next := latest.(revision := latest.revision + 1,
                          liveHosts := latest.liveHosts[t.op.marker := t.process],
                          purgeRequested := latest.purgeRequested && !MustPurge(latest));
      Some(WithTask(WriteRegistry(w, next, Untouched), id,
                    t.(stage := Finished, critical := Leaving(t.critical.token))))
    else None
  }

  function UnregisterHost(w: World, id: nat): Option<World> {
    if id in w.tasks && w.tasks[id].op.DisposeHost? && w.tasks[id].stage == Fresh
       && w.tasks[id].critical.Inside? && w.tasks[id].critical.base.Some? then
      var t := w.tasks[id];
      var base := t.critical.base.value;
      var left := t.(stage := Finished, critical := Leaving(t.critical.token));
      if t.op.marker !in base.liveHosts then Some(WithTask(w, id, left))
      else
        var next := base.(revision := base.revision + 1, liveHosts := base.liveHosts - {t.op.marker});
        Some(WithTask(WriteRegistry(w, next, Untouched), id, left))
    else None
  }

  /** Leaving the critical section; a finished `initializeHost` then sets `hostMarker`. */
  function LeaveLock(w: World, id: nat): Option<World> {
    if id in w.tasks && w.tasks[id].critical.Leaving? && w.history != [] && w.lock != Some(Blank) then
      var t := w.tasks[id];
      var unlocked := w.(lock := RemoveLockIfTokenMatches(w.lock, t.critical.token));
      if t.stage != Finished then
        Some(WithTask(unlocked, id, t.(critical := Outside)))
      else if t.op.InitializeHost? then
        Some(WithoutTask(unlocked.(hosts := w.hosts[t.process := t.op.marker],
                                   enabledAt := w.enabledAt[t.process := |w.history| - 1]), id))
      else
        Some(WithoutTask(unlocked, id))
    else None
  }

  /**
   Any await may fail. Inside the critical section `finally` releases the lock; while the lock
   file is being written nothing does, and the file stays.
   */
  function AbandonTask(w: World, id: nat): Option<World> {
    if id !in w.tasks then None
    else
      match w.tasks[id].critical
      case Inside(token, _, _) => Some(WithoutTask(w.(lock := RemoveLockIfTokenMatches(w.lock, token)), id))
      case Leaving(token) => Some(WithoutTask(w.(lock := RemoveLockIfTokenMatches(w.lock, token)), id))
      case _ => Some(WithoutTask(w, id))
  }

  /** The release itself fails: the operation ends in an error and its lock file stays. */
  function StrandLock(w: World, id: nat): Option<World> {
    if id in w.tasks && (w.tasks[id].critical.Inside? || w.tasks[id].critical.Leaving?) then Some(WithoutTask(w, id))
    else None
  }

  function Next(w: World, a: Action): Option<World> {
    match a
    case Spawn(p) => SpawnProcess(w, p)
    case Crash(p) => CrashProcess(w, p)
    case Begin(id, p, op) => BeginTask(w, id, p, op)
    case Read(id, at) => ReadRegistry(w, id, at)
    case Contend(id, token) => ContendForLock(w, id, token)
    case Create(id) => CreateLock(w, id)
    case WriteLock(id) => WriteLockRecord(w, id)
    case Enter(id) => EnterLock(w, id)
    case ReadOwner(id) => ReadLockOwner(w, id)
    case InspectOwner(id) => InspectLockOwner(w, id)
    case BreakLock(id) => BreakStaleLock(w, id)
    case ReadInside(id) => ReadUnderLock(w, id)
    case Publish(id) => PublishPackage(w, id)
    case CommitInside(id) => CommitUnderLock(w, id)
    case DropMarker(id, marker) => DropStaleMarker(w, id, marker)
    case Purge(id, removed) => PurgePackages(w, id, removed)
    case Register(id) => RegisterHost(w, id)
    case Unregister(id) => UnregisterHost(w, id)
    case Leave(id) => LeaveLock(w, id)
    case Abandon(id) => AbandonTask(w, id)
    case Strand(id) => StrandLock(w, id)
  }

  function Run(w: World, actions: seq<Action>): Option<World> {
    if actions == [] then Some(w)
    else
      var before := Run(w, actions[..|actions| - 1]);
      if before.None? then None else Next(before.value, actions[|actions| - 1])
  }
}
