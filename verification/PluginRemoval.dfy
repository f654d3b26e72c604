/**
 Removing the lock file takes two steps: its record is read, and if the token matches, the file
 is unlinked. In between another process may have removed the file and created its own. Every
 run in which no unlink comes that late is a run of the registry as PluginRegistry describes it;
 a late unlink takes the lock away from a living holder, and two operations can be inside.
 */
module PluginRemoval {
  import opened Wrappers
  import opened PluginRegistry
  import opened PluginLock
  import opened PluginHistory
  import opened PluginRuns
  import opened PluginProgress

  /** `pending` holds the removals whose operation has read a matching record and has not unlinked the file yet. */
  datatype Split = Split(w: World, pending: map<nat, Action>)

  datatype Move = Plain(action: Action) | Look(action: Action) | Unlink(id: nat) | Fails(id: nat)

  /** The steps that end with the removal of the lock file, if its token is the expected one. */
  predicate Removes(w: World, a: Action) {
    || (a.BreakLock? && a.task in w.tasks && w.tasks[a.task].critical.Contending?
        && w.tasks[a.task].critical.seen.Some?)
    || ((a.Leave? || a.Abandon?) && a.task in w.tasks && Holds(w.tasks[a.task]))
  }

  function Expected(w: World, a: Action): Token
    requires Removes(w, a)
  {
    if a.BreakLock? then w.tasks[a.task].critical.seen.value.token else w.tasks[a.task].critical.token
  }

  predicate Matches(w: World, a: Action)
    requires Removes(w, a)
  {
    w.lock.Some? && w.lock.value.Full? && w.lock.value.record.token == Expected(w, a)
  }

  predicate OfTask(a: Action) {
    !a.Spawn? && !a.Crash?
  }

  predicate Awaits(s: Split, a: Action) {
    OfTask(a) && a.task in s.pending
  }

  function Keep(pending: map<nat, Action>, w: World): map<nat, Action> {
    map id | id in pending && id in w.tasks :: pending[id]
  }

  function Moved(s: Split, v: Option<World>, pending: map<nat, Action>): Option<Split> {
    if v.None? then None else Some(Split(v.value, Keep(pending, v.value)))
  }

  /** One step of one operation; an operation that is about to unlink does nothing else. */
  function SplitNext(s: Split, m: Move): Option<Split> {
    match m
    case Plain(a) =>
      if Awaits(s, a) || (Removes(s.w, a) && Matches(s.w, a)) then None
      else Moved(s, Next(s.w, a), s.pending)
    case Look(a) =>
      if Removes(s.w, a) && Matches(s.w, a) && !Awaits(s, a) && Next(s.w, a).Some?
      then Some(s.(pending := s.pending[a.task := a])) else None
    // The file that is there now goes, whosever it is; a file that is gone is no error.
    case Unlink(id) =>
      if id in s.pending then Moved(s, Next(s.w.(lock := None), s.pending[id]), s.pending - {id}) else None
    case Fails(id) =>
      if id in s.pending
      then Moved(s, Next(s.w, if s.pending[id].BreakLock? then Abandon(id) else Strand(id)), s.pending - {id})
      else None
  }

  /** The unlink of `id` would remove another lock file than the one it has read. */
  predicate Late(s: Split, id: nat) {
    && id in s.pending && s.w.lock.Some?
    && !(Removes(s.w, s.pending[id]) && Matches(s.w, s.pending[id]))
  }

  function SplitRun(s: Split, moves: seq<Move>): Option<Split> {
    if moves == [] then Some(s)
    else
      var before := SplitRun(s, moves[..|moves| - 1]);
      if before.None? then None else SplitNext(before.value, moves[|moves| - 1])
  }

  /** No unlink of the run comes late. */
  predicate InTime(s: Split, moves: seq<Move>)
    decreases |moves|
  {
    moves == [] ||
    (var before, m := moves[..|moves| - 1], moves[|moves| - 1];
     InTime(s, before) && (m.Unlink? && SplitRun(s, before).Some? ==> !Late(SplitRun(s, before).value, m.id)))
  }

  // ---------------------------------------------------------------- in time, the two steps are one

  lemma UnlinkInTimeIsOneStep(w: World, a: Action, v: World)
    requires Removes(w, a) && Matches(w, a) && Next(w.(lock := None), a) == Some(v)
    ensures Next(w, a) == Some(v)
  {
    if a.Leave? {
      assert LeaveLock(w, a.task) == LeaveLock(w.(lock := None), a.task);
    }
  }

  lemma MoveRefines(s: Split, m: Move, s': Split)
    requires SplitNext(s, m) == Some(s') && !(m.Unlink? && Late(s, m.id))
    ensures s'.w == s.w || exists a :: Next(s.w, a) == Some(s'.w)
  {
    match m
    case Plain(a) => assert Next(s.w, a) == Some(s'.w);
    case Look(a) =>
    case Unlink(id) =>
      if s.w.lock.None? {
        assert s.w.(lock := None) == s.w;
      } else {
        UnlinkInTimeIsOneStep(s.w, s.pending[id], s'.w);
      }
      assert Next(s.w, s.pending[id]) == Some(s'.w);
    case Fails(id) =>
      assert Next(s.w, if s.pending[id].BreakLock? then Abandon(id) else Strand(id)) == Some(s'.w);
  }

  lemma RunOneMoreAction(w: World, actions: seq<Action>, v: World, a: Action, v': World)
    requires Run(w, actions) == Some(v) && Next(v, a) == Some(v')
    ensures Run(w, actions + [a]) == Some(v')
  {
    assert (actions + [a])[..|actions|] == actions;
  }

  /** A run with every unlink in time is a run of the registry: all that holds of those holds of it. */
  lemma {:induction false} InTimeRunRefines(s: Split, moves: seq<Move>, s': Split) returns (actions: seq<Action>)
    requires SplitRun(s, moves) == Some(s') && InTime(s, moves)
    ensures Run(s.w, actions) == Some(s'.w)
    decreases |moves|
  {
    if moves == [] {
      actions := [];
    } else {
      var before, m := moves[..|moves| - 1], moves[|moves| - 1];
      var u := SplitRun(s, before).value;
      actions := InTimeRunRefines(s, before, u);
      MoveRefines(u, m, s');
      if s'.w != u.w {
        var a :| Next(u.w, a) == Some(s'.w);
        RunOneMoreAction(s.w, actions, u.w, a, s'.w);
        actions := actions + [a];
      }
    }
  }

  lemma OneStepIsAnUnlinkInTime(w: World, a: Action, v: World)
    requires Removes(w, a) && Matches(w, a) && Next(w, a) == Some(v)
    ensures Next(w.(lock := None), a) == Some(v)
  {
    if a.Leave? {
      assert LeaveLock(w, a.task) == LeaveLock(w.(lock := None), a.task);
    }
  }

  /** The moves that make up one step of the registry. */
  function MovesOf(w: World, a: Action): seq<Move> {
    if Removes(w, a) && Matches(w, a) then [Look(a), Unlink(a.task)] else [Plain(a)]
  }

  /** No removal is under way. */
  function Quiet(w: World): Split {
    Split(w, map[])
  }

  lemma OneMoreMove(s: Split, moves: seq<Move>, u: Split, m: Move)
    requires SplitRun(s, moves) == Some(u) && InTime(s, moves) && !(m.Unlink? && Late(u, m.id))
    ensures SplitRun(s, moves + [m]) == SplitNext(u, m) && InTime(s, moves + [m])
  {
    assert (moves + [m])[..|moves|] == moves;
  }

  lemma ActionIsMoves(s: Split, moves: seq<Move>, w: World, a: Action, v: World)
    requires SplitRun(s, moves) == Some(Quiet(w)) && InTime(s, moves) && Next(w, a) == Some(v)
    ensures SplitRun(s, moves + MovesOf(w, a)) == Some(Quiet(v)) && InTime(s, moves + MovesOf(w, a))
  {
    hide Next;
    if Removes(w, a) && Matches(w, a) {
      var u := Split(w, map[a.task := a]);
      OneMoreMove(s, moves, Quiet(w), Look(a));
      OneStepIsAnUnlinkInTime(w, a, v);
      OneMoreMove(s, moves + [Look(a)], u, Unlink(a.task));
      assert Keep(u.pending - {a.task}, v) == map[];
      assert moves + [Look(a)] + [Unlink(a.task)] == moves + MovesOf(w, a);
    } else {
      OneMoreMove(s, moves, Quiet(w), Plain(a));
      assert Keep(map[], v) == map[];
    }
  }

  /** Every run of the registry is such a run, with the two steps of each removal next to each other. */
  lemma {:induction false} RunIsInTimeRun(w: World, actions: seq<Action>, v: World) returns (moves: seq<Move>)
    requires Run(w, actions) == Some(v)
    ensures SplitRun(Quiet(w), moves) == Some(Quiet(v)) && InTime(Quiet(w), moves)
  {
    if actions == [] {
      moves := [];
    } else {
      var before, a := actions[..|actions| - 1], actions[|actions| - 1];
      var u := Run(w, before).value;
      moves := RunIsInTimeRun(w, before, u);
      ActionIsMoves(Quiet(w), moves, u, a, v);
      moves := moves + MovesOf(u, a);
    }
  }

  ghost predicate ReachesInTime(w: World, v: World) {
    exists moves, pending :: InTime(Quiet(w), moves) && SplitRun(Quiet(w), moves) == Some(Split(v, pending))
  }

  /** As long as no unlink comes late, removal in two steps reaches exactly the states that removal in one does. */
  lemma InTimeReachesIff(w: World, v: World)
    ensures ReachesInTime(w, v) <==> Reaches(Anything, w, v)
  {
    if ReachesInTime(w, v) {
      var moves, pending :| InTime(Quiet(w), moves) && SplitRun(Quiet(w), moves) == Some(Split(v, pending));
      var actions := InTimeRunRefines(Quiet(w), moves, Split(v, pending));
      AnythingIsAllowed(w, actions);
    }
    if Reaches(Anything, w, v) {
      var actions :| Allowed(Anything, w, actions) && Run(w, actions) == Some(v);
      var moves := RunIsInTimeRun(w, actions, v);
      assert SplitRun(Quiet(w), moves) == Some(Split(v, map[]));
    }
  }

  lemma {:induction false} AnythingIsAllowed(w: World, actions: seq<Action>)
    requires Run(w, actions).Some?
    ensures Allowed(Anything, w, actions)
    decreases |actions|
  {
    if actions != [] {
      AnythingIsAllowed(w, actions[..|actions| - 1]);
    }
  }

  /** The token that an operation compares with the record it reads before the unlink. */
  ghost predicate ComparesWith(w: World, a: Action, token: Token) {
    || (a.BreakLock? && a.task in w.tasks && w.tasks[a.task].critical.Contending?
        && w.tasks[a.task].critical.seen.Some? && w.tasks[a.task].critical.seen.value.token == token)
    || ((a.Leave? || a.Abandon?) && a.task in w.tasks
        && (w.tasks[a.task].critical.Inside? || w.tasks[a.task].critical.Leaving?)
        && w.tasks[a.task].critical.token == token)
  }

  /** Whether the lock file is there with the record of this token. */
  predicate HasRecord(w: World, token: Token) {
    w.lock.Some? && w.lock.value.Full? && w.lock.value.record.token == token
  }

  /**
   An operation begins to remove the file exactly if it reads a record with the token it compares with; until
   it unlinks or fails it does nothing else, and it removes a matching file in no other way.
   */
  lemma LooksIff(s: Split, a: Action)
    ensures SplitNext(s, Look(a)).Some? <==>
            && (exists token :: ComparesWith(s.w, a, token) && HasRecord(s.w, token))
            && a.task !in s.pending && Next(s.w, a).Some?
    ensures SplitNext(s, Look(a)).Some? ==> SplitNext(s, Look(a)).value == Split(s.w, s.pending[a.task := a])
    ensures SplitNext(s, Plain(a)).Some? <==>
            && !(OfTask(a) && a.task in s.pending) && Next(s.w, a).Some?
            && !(exists token :: ComparesWith(s.w, a, token) && HasRecord(s.w, token))
  {
    hide Next;
    if Removes(s.w, a) {
      assert ComparesWith(s.w, a, Expected(s.w, a));
    }
  }

  /** A removal that fails before the unlink ends its operation and leaves the file. */
  lemma FailureLeavesTheFile(s: Split, id: nat)
    requires id in s.pending && id in s.w.tasks
    requires if s.pending[id].BreakLock? then s.w.tasks[id].critical.Contending? else Holds(s.w.tasks[id])
    ensures var left := s.w.(tasks := s.w.tasks - {id});
      SplitNext(s, Fails(id)) == Some(Split(left, Keep(s.pending - {id}, left)))
  {
  }

  /** An unlink is late exactly if there is a lock file by now that is not the one its operation has read. */
  lemma LateIff(s: Split, id: nat, token: Token)
    requires id in s.pending && ComparesWith(s.w, s.pending[id], token)
    ensures Late(s, id) <==> s.w.lock.Some? && !HasRecord(s.w, token)
  {
  }

  /** Two operations inside the critical section: an unlink came late. */
  lemma TwoHoldersNeedALateUnlink(s: Split, moves: seq<Move>, s': Split, id: nat, id': nat)
    requires Inv(s.w) && SplitRun(s, moves) == Some(s')
    requires id in s'.w.tasks && id' in s'.w.tasks && id != id' && Holds(s'.w.tasks[id]) && Holds(s'.w.tasks[id'])
    ensures !InTime(s, moves)
  {
    if InTime(s, moves) {
      var actions := InTimeRunRefines(s, moves, s');
      MutualExclusion(s.w, actions, s'.w, id, id');
    }
  }

  // ---------------------------------------------------------------- a late unlink

  ghost predicate SplitReaches(s: Split, s': Split) {
    exists moves :: SplitRun(s, moves) == Some(s')
  }

  lemma SplitReachesItself(s: Split)
    ensures SplitReaches(s, s)
  {
    assert SplitRun(s, []) == Some(s);
  }

  lemma SplitDoes(s: Split, u: Split, m: Move) returns (u': Split)
    requires SplitReaches(s, u) && SplitNext(u, m).Some?
    ensures SplitReaches(s, u') && SplitNext(u, m) == Some(u')
  {
    u' := SplitNext(u, m).value;
    var moves :| SplitRun(s, moves) == Some(u);
    assert (moves + [m])[..|moves|] == moves;
    assert SplitRun(s, moves + [m]) == Some(u');
  }

  predicate TwoHolders(w: World, id: nat, id': nat) {
    id != id' && id in w.tasks && id' in w.tasks && Holds(w.tasks[id]) && Holds(w.tasks[id'])
  }

  /** An operation that finds no lock file enters the critical section. */
  lemma Enters(s: Split, u: Split, id: nat) returns (u': Split)
    requires SplitReaches(s, u) && id in u.w.tasks && u.w.tasks[id].critical.Contending? && u.w.lock.None?
        && id !in u.pending
    ensures SplitReaches(s, u') && u'.w == Entered(u.w, id) && u'.pending == Keep(u.pending, u'.w)
  {
    var token := u.w.tasks[id].critical.token;
    CreateEffect(u.w, id);
    var u1 := SplitDoes(s, u, Plain(Create(id)));
    WriteEffect(u1.w, id);
    var u2 := SplitDoes(s, u1, Plain(WriteLock(id)));
    EnterEffect(u2.w, id);
    EnteredFrom(u.w, id, Some(Blank), Creating(token, false));
    EnteredFrom(u1.w, id, u2.w.lock, Creating(token, true));
    u' := SplitDoes(s, u2, Plain(Enter(id)));
  }

  lemma UnlinkEffect(u: Split, id: nat)
    requires id in u.pending && u.pending[id] == BreakLock(id)
    requires id in u.w.tasks && u.w.tasks[id].critical.Contending? && u.w.tasks[id].critical.stale
        && u.w.tasks[id].critical.seen.Some?
    ensures var v := At(u.w, id, None, Contending(u.w.tasks[id].critical.token, None, false));
      SplitNext(u, Unlink(id)) == Some(Split(v, Keep(u.pending - {id}, v)))
  {
  }

  /** A late unlink takes the lock from the operation inside, and the waiting one enters as well. */
  lemma LateUnlinkBreaks(s: Split, u: Split, id: nat, c: nat) returns (u': Split)
    requires SplitReaches(s, u)
    requires id in u.pending && u.pending[id] == BreakLock(id)
    requires id in u.w.tasks && u.w.tasks[id].critical.Contending? && u.w.tasks[id].critical.stale
        && u.w.tasks[id].critical.seen.Some?
    requires c in u.w.tasks && Holds(u.w.tasks[c])
    ensures SplitReaches(s, u') && TwoHolders(u'.w, id, c)
  {
    UnlinkEffect(u, id);
    var u1 := SplitDoes(s, u, Unlink(id));
    u' := Enters(s, u1, id);
  }

  lemma LookEffect(u: Split, id: nat, seen: LockRecord)
    requires id !in u.pending && id in u.w.tasks && u.w.lock == Some(Full(seen))
    requires u.w.tasks[id].critical.Contending? && u.w.tasks[id].critical.stale
        && u.w.tasks[id].critical.seen == Some(seen)
    ensures SplitNext(u, Look(BreakLock(id))) == Some(u.(pending := u.pending[id := BreakLock(id)]))
  {
    BreakLockEffect(u.w, id, seen);
  }

  /** A waiting operation reads the record of a dead owner, finds it stale, and reads it again before the unlink. */
  lemma GetsReadyToUnlink(s: Split, u: Split, id: nat, seen: LockRecord) returns (u': Split)
    requires SplitReaches(s, u) && ProcessesAreDistinct(u.w) && id !in u.pending
    requires id in u.w.tasks && u.w.tasks[id].critical.Contending? && u.w.lock == Some(Full(seen))
        && seen.owner !in u.w.alive
    ensures SplitReaches(s, u')
    ensures u'.w == At(u.w, id, u.w.lock, Contending(u.w.tasks[id].critical.token, Some(seen), true))
    ensures u'.pending == Keep(u.pending, u.w)[id := BreakLock(id)]
  {
    hide ProcessesAreDistinct, ProvablyStale, Next;
    var token := u.w.tasks[id].critical.token;
    StaleIffDead(u.w, seen.owner);
    ReadOwnerEffect(u.w, id);
    var u1 := SplitDoes(s, u, Plain(ReadOwner(id)));
    InspectOwnerEffect(u1.w, id, seen);
    var u2 := SplitDoes(s, u1, Plain(InspectOwner(id)));
    AtTwice(u.w, id, u.w.lock, Contending(token, Some(seen), false), u.w.lock, Contending(token, Some(seen), true));
    assert u2.pending == Keep(u.pending, u.w);
    u' := Looks(s, u2, id, seen);
  }

  lemma Looks(s: Split, u: Split, id: nat, seen: LockRecord) returns (u': Split)
    requires SplitReaches(s, u) && id !in u.pending && id in u.w.tasks && u.w.lock == Some(Full(seen))
    requires u.w.tasks[id].critical.Contending? && u.w.tasks[id].critical.stale
        && u.w.tasks[id].critical.seen == Some(seen)
    ensures SplitReaches(s, u') && u' == u.(pending := u.pending[id := BreakLock(id)])
  {
    LookEffect(u, id, seen);
    u' := SplitDoes(s, u, Look(BreakLock(id)));
  }

  /** The first of two operations that are about to unlink does so and enters; the other is late from now on. */
  lemma FirstUnlinks(s: Split, u: Split, i: nat, j: nat, seen: LockRecord) returns (u': Split)
    requires SplitReaches(s, u) && i != j && u.pending == map[i := BreakLock(i), j := BreakLock(j)]
    requires forall id | id in {i, j} :: id in u.w.tasks && u.w.tasks[id].critical.Contending?
               && u.w.tasks[id].critical.stale && u.w.tasks[id].critical.seen == Some(seen)
    ensures SplitReaches(s, u') && u'.pending == map[j := BreakLock(j)]
    ensures i in u'.w.tasks && Holds(u'.w.tasks[i]) && u'.w.lock.Some?
    ensures j in u'.w.tasks && u'.w.tasks[j] == u.w.tasks[j]
  {
    UnlinkEffect(u, i);
    var u1 := SplitDoes(s, u, Unlink(i));
    OnlyTheOther(u, i, j, u1);
    u' := Enters(s, u1, i);
    assert u'.pending == map[j := BreakLock(j)];
  }

  lemma OnlyTheOther(u: Split, i: nat, j: nat, u1: Split)
    requires i != j && u.pending == map[i := BreakLock(i), j := BreakLock(j)] && j in u1.w.tasks
    requires u1.pending == Keep(u.pending - {i}, u1.w)
    ensures u1.pending == map[j := BreakLock(j)]
  {
  }

  lemma AtKeepsProcesses(v: World, id: nat, lock: Option<LockFile>, critical: Critical)
    requires ProcessesAreDistinct(v) && id in v.tasks
    ensures ProcessesAreDistinct(At(v, id, lock, critical))
  {
  }

  /** Whenever two operations wait for the lock file of a dead owner, both can end up inside. */
  lemma TwoWaitersCanBothEnter(v: World, i: nat, j: nat) returns (u: Split)
    requires ProcessesAreDistinct(v) && i != j && i in v.tasks && j in v.tasks
    requires v.tasks[i].critical.Contending? && v.tasks[j].critical.Contending?
    requires v.lock.Some? && v.lock.value.Full? && v.lock.value.record.owner !in v.alive
    ensures SplitReaches(Split(v, map[]), u) && TwoHolders(u.w, j, i)
  {
    var s, seen := Split(v, map[]), v.lock.value.record;
    SplitReachesItself(s);
    var u1 := GetsReadyToUnlink(s, s, i, seen);
    AtKeepsProcesses(v, i, v.lock, Contending(v.tasks[i].critical.token, Some(seen), true));
    var u2 := GetsReadyToUnlink(s, u1, j, seen);
    assert u2.pending == map[i := BreakLock(i), j := BreakLock(j)];
    var u3 := FirstUnlinks(s, u2, i, j, seen);
    u := LateUnlinkBreaks(s, u3, j, i);
  }

  // ---------------------------------------------------------------- such states are reachable

  const THIRD := Process(3, 1)

  ghost predicate Anything(w: World, a: Action) {
    true
  }

  lemma LockIsLeftByTheDead(w: World) returns (v: World)
    requires Empty(w)
    ensures Reaches(Anything, w, v) && v.alive == {} && v.tasks == map[] && v.tokens.Keys == {0, 1}
        && v.everAlive == {FIRST}
    ensures v.hosts == map[] && v.enabledAt == map[] && v.lock == Some(Full(LockRecord(1, FIRST)))
  {
    var u := FirstWaits(w);
    CreateEffect(u, 0);
    var v1 := Does(Anything, w, u, Create(0));
    WriteEffect(v1, 0);
    var v2 := Does(Anything, w, v1, WriteLock(0));
    v := Does(Anything, w, v2, Crash(FIRST));
    assert v.tasks == map[];
  }

  lemma FirstWaits(w: World) returns (v: World)
    requires Empty(w)
    ensures Reaches(Anything, w, v) && v.alive == v.everAlive == {FIRST} && v.tokens.Keys == {0, 1} && v.lock.None?
    ensures v.hosts == map[] && v.enabledAt == map[]
    ensures v.tasks == map[0 := Task(FIRST, InitializeHost(0), Fresh, 0, 0, None, Contending(1, None, false))]
  {
    ReachesItself(Anything, w);
    var v1 := Does(Anything, w, w, Spawn(FIRST));
    InitializationBegins(v1, 0, FIRST, 0);
    var v2 := Does(Anything, w, v1, Begin(0, FIRST, InitializeHost(0)));
    ContendEffectOn(v2, 0, 1);
    v := Does(Anything, w, v2, Contend(0, 1));
  }

  lemma TwoWaitForTheDead(w: World, u: World) returns (v: World)
    requires Reaches(Anything, w, u) && u.alive == {} && u.tasks == map[] && u.tokens.Keys == {0, 1}
        && u.everAlive == {FIRST}
    requires u.hosts == map[] && u.lock == Some(Full(LockRecord(1, FIRST)))
    ensures Reaches(Anything, w, v) && v.lock == u.lock && v.alive == {SECOND, THIRD}
    ensures 1 in v.tasks && 2 in v.tasks && v.tasks[1].critical.Contending? && v.tasks[2].critical.Contending?
  {
    hide Reaches, Next;
    var v1 := TwoBegin(w, u);
    ContendEffectOn(v1, 1, 4);
    var v2 := Does(Anything, w, v1, Contend(1, 4));
    ContendEffectOn(v2, 2, 5);
    v := Does(Anything, w, v2, Contend(2, 5));
  }

  lemma ContendEffectOn(v: World, id: nat, token: Token)
    requires id in v.tasks && WantsLock(v.tasks[id]) && token !in v.tokens
    ensures Next(v, Contend(id, token)) ==
            Some(At(v.(tokens := v.tokens[token := v.tasks[id].process]), id, v.lock, Contending(token, None, false)))
  {
  }

  lemma TwoBegin(w: World, u: World) returns (v: World)
    requires Reaches(Anything, w, u) && u.alive == {} && u.tasks == map[] && u.tokens.Keys == {0, 1}
        && u.everAlive == {FIRST}
    requires u.hosts == map[]
    ensures Reaches(Anything, w, v) && v.lock == u.lock && v.alive == {SECOND, THIRD} && v.tokens.Keys == {0, 1, 2, 3}
    ensures v.tasks == map[1 := Task(SECOND, InitializeHost(2), Fresh, 0, 0, None, Outside),
                           2 := Task(THIRD, InitializeHost(3), Fresh, 0, 0, None, Outside)]
  {
    var v1 := TwoSpawn(w, u);
    InitializationBegins(v1, 1, SECOND, 2);
    var v2 := Does(Anything, w, v1, Begin(1, SECOND, InitializeHost(2)));
    InitializationBegins(v2, 2, THIRD, 3);
    v := Does(Anything, w, v2, Begin(2, THIRD, InitializeHost(3)));
  }

  lemma TwoSpawn(w: World, u: World) returns (v: World)
    requires Reaches(Anything, w, u) && u.alive == {} && u.everAlive == {FIRST}
    ensures Reaches(Anything, w, v) && v == u.(alive := {SECOND, THIRD}, everAlive := {FIRST, SECOND, THIRD})
  {
    var v1 := Does(Anything, w, u, Spawn(SECOND));
    v := Does(Anything, w, v1, Spawn(THIRD));
  }

  lemma InitializationBegins(v: World, id: nat, p: Process, marker: Token)
    requires id !in v.tasks && p in v.alive && p !in v.hosts && marker !in v.tokens
    ensures Next(v, Begin(id, p, InitializeHost(marker))) ==
            Some(v.(tokens := v.tokens[marker := p],
                tasks := v.tasks[id := Task(p, InitializeHost(marker), Fresh, 0, 0, None, Outside)]))
  {
  }

  lemma ReachedIsDistinct(w: World, v: World)
    requires Inv(w) && Reaches(Anything, w, v)
    ensures ProcessesAreDistinct(v)
  {
    ReachedKeepsInv(Anything, w, v);
  }

  /** From an empty registry: a process dies with the lock, two others find it stale, and both end up inside. */
  lemma LateUnlinkIsReachable(w: World) returns (v: World, u: Split)
    requires Empty(w)
    ensures Initial(w) && Reaches(Anything, w, v)
    ensures SplitReaches(Split(v, map[]), u) && TwoHolders(u.w, 2, 1)
  {
    hide Inv, Reaches, SplitReaches, TwoHolders;
    InitialIsInv(w);
    var v1 := LockIsLeftByTheDead(w);
    v := TwoWaitForTheDead(w, v1);
    ReachedIsDistinct(w, v);
    u := TwoWaitersCanBothEnter(v, 1, 2);
  }
}
