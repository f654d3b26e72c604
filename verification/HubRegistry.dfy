/**
 Reference-counted hub generations: src/agent/ProjectMcpHubRegistry.ts.

 Every project has a current hub generation; a reload builds the next one and replaces it, and a
 replaced or retired generation is disconnected when its last lease is released. Each method is
 what a call does between two awaits: `Reload` only queues, `BeginReload` and `EndReload` are the
 two halves of `replaceGeneration`, `RetireProject` and `FinishRetire` those of `retireProject`.
 Entries, generations and lease handles are numbered in the order of their creation.
 */
module HubRegistry {
  import opened Wrappers

  /** `disconnects` counts the calls of the hub's `disconnectAll`; it is positive once `disconnectPromise` is set. */
  datatype Generation = Generation(entry: nat, number: nat, leases: int, retired: bool, disconnects: nat)

  datatype Handle = Handle(generation: nat, released: bool)

  /** `discarded` holds the numbers of generations whose reload failed or came too late. */
  datatype Entry = Entry(nextGeneration: nat, current: Option<nat>, queued: nat, running: Option<nat>,
                         retired: bool, discarded: set<nat>)

  datatype State = State(entries: map<string, nat>, table: seq<Entry>, generations: seq<Generation>,
                         handles: seq<Handle>)

  // ---------------------------------------------------------------- counting leases

  /** The handles of generation `g` that were not released. */
  function Unreleased(handles: seq<Handle>, g: nat): nat {
    if handles == [] then 0
    else
      var last := handles[|handles| - 1];
      Unreleased(handles[..|handles| - 1], g) + (if last.generation == g && !last.released then 1 else 0)
  }

  lemma OneMoreHandle(handles: seq<Handle>, h: Handle, g: nat)
    ensures Unreleased(handles + [h], g) == Unreleased(handles, g) + (if h.generation == g && !h.released then 1 else 0)
  {
    assert (handles + [h])[..|handles|] == handles;
  }

  lemma {:induction false} OneReleased(handles: seq<Handle>, i: nat, g: nat)
    requires i < |handles| && !handles[i].released
    ensures Unreleased(handles[i := handles[i].(released := true)], g)
         == Unreleased(handles, g) - (if handles[i].generation == g then 1 else 0)
  {
    var n := |handles| - 1;
    var after := handles[i := handles[i].(released := true)];
    if i < n {
      OneReleased(handles[..n], i, g);
      assert after[..n] == handles[..n][i := handles[i].(released := true)];
    } else {
      assert after[..n] == handles[..n];
    }
  }

  lemma {:induction false} LiveHandleCounts(handles: seq<Handle>, i: nat)
    requires i < |handles| && !handles[i].released
    ensures Unreleased(handles, handles[i].generation) > 0
  {
    if i < |handles| - 1 {
      LiveHandleCounts(handles[..|handles| - 1], i);
    }
  }

  lemma {:induction false} NoneOfANewGeneration(handles: seq<Handle>, g: nat)
    requires forall i: nat | i < |handles| :: handles[i].generation < g
    ensures Unreleased(handles, g) == 0
  {
    if handles != [] {
      NoneOfANewGeneration(handles[..|handles| - 1], g);
    }
  }

  // ---------------------------------------------------------------- retiring and disconnecting

  function DisconnectWhenDrained(g: Generation): Generation {
    if g.leases > 0 || g.disconnects > 0 then g else g.(disconnects := 1)
  }

  function Retire(g: Generation): Generation {
    DisconnectWhenDrained(g.(retired := true))
  }

  // ---------------------------------------------------------------- what each call does

  const NEW_ENTRY := Entry(1, None, 0, None, false, {})

  function GetOrCreateEntry(s: State, project: string): (State, nat) {
    if project in s.entries then (s, s.entries[project])
    else (s.(entries := s.entries[project := |s.table|], table := s.table + [NEW_ENTRY]), |s.table|)
  }

  function Publish(s: State, e: nat, number: nat): State
    requires e < |s.table|
  {
    s.(table := s.table[e := s.table[e].(current := Some(|s.generations|))],
       generations := s.generations + [Generation(e, number, 0, false, 0)])
  }

  function AfterEnsure(s: State, project: string): State
    requires project in s.entries ==> s.entries[project] < |s.table|
  {
    var (s1, e) := GetOrCreateEntry(s, project);
    if s1.table[e].current.None? then Publish(s1, e, 0) else s1
  }

  function AfterReload(s: State, project: string): State
    requires project in s.entries ==> s.entries[project] < |s.table|
  {
    var (s1, e) := GetOrCreateEntry(s, project);
    s1.(table := s1.table[e := s1.table[e].(queued := s1.table[e].queued + 1)])
  }

  /** Reloads of one entry run one at a time. */
  predicate MayBegin(s: State, e: nat) {
    e < |s.table| && s.table[e].queued > 0 && s.table[e].running.None?
  }

  function AfterBegin(s: State, e: nat): State
    requires MayBegin(s, e)
  {
    var entry := s.table[e];
    s.(table := s.table[e := entry.(queued := entry.queued - 1, running := Some(entry.nextGeneration),
                                    nextGeneration := entry.nextGeneration + 1)])
  }

  predicate MayEnd(s: State, e: nat) {
    && e < |s.table| && s.table[e].running.Some?
    && (s.table[e].current.Some? ==> s.table[e].current.value < |s.generations|)
  }

  function WithGeneration(s: State, g: nat, gen: Generation): State
    requires g < |s.generations|
  {
    s.(generations := s.generations[g := gen])
  }

  function AfterEnd(s: State, e: nat, ok: bool): State
    requires MayEnd(s, e)
  {
    var entry := s.table[e];
    var number := entry.running.value;
    if !ok || entry.retired then
      s.(table := s.table[e := entry.(running := None, discarded := entry.discarded + {number})])
    else
      var s1 := Publish(s.(table := s.table[e := entry.(running := None)]), e, number);
      if entry.current.None? then s1
      else WithGeneration(s1, entry.current.value, Retire(s1.generations[entry.current.value]))
  }

  function CreateLease(s: State, g: nat): State
    requires g < |s.generations|
  {
    WithGeneration(s, g, s.generations[g].(leases := s.generations[g].leases + 1)).(
    handles := s.handles + [Handle(g, false)])
  }

  /** The current generation of a project that has one. */
  function Current(s: State, project: string): Option<nat> {
    if project in s.entries && s.entries[project] < |s.table| then s.table[s.entries[project]].current else None
  }

  function AfterRelease(s: State, h: nat): State
    requires h < |s.handles| && s.handles[h].generation < |s.generations|
  {
    if s.handles[h].released then s
    else
      var g := s.handles[h].generation;
      var gen := s.generations[g].(leases := s.generations[g].leases - 1);
      WithGeneration(s, g, if gen.retired && gen.leases == 0 then DisconnectWhenDrained(gen) else gen).(
      handles := s.handles[h := s.handles[h].(released := true)])
  }

  function AfterRetire(s: State, project: string): State
    requires project in s.entries ==> s.entries[project] < |s.table|
  {
    if project !in s.entries then s
    else
      var e := s.entries[project];
      s.(entries := s.entries - {project}, table := s.table[e := s.table[e].(retired := true)])
  }

  /** The reload queue `retireProject` waited for is empty. */
  predicate MayFinishRetire(s: State, e: nat) {
    && e < |s.table| && s.table[e].retired && s.table[e].queued == 0 && s.table[e].running.None?
    && (s.table[e].current.Some? ==> s.table[e].current.value < |s.generations|)
  }

  function AfterFinishRetire(s: State, e: nat): State
    requires MayFinishRetire(s, e)
  {
    var current := s.table[e].current;
    if current.None? then s else WithGeneration(s, current.value, Retire(s.generations[current.value]))
  }

  // ---------------------------------------------------------------- the invariant

  /** The hub is disconnected, once, exactly when its generation is retired and has no leases. */
  predicate Drained(g: Generation) {
    g.disconnects == if g.retired && g.leases == 0 then 1 else 0
  }

  predicate LeasesCounted(s: State) {
    && (forall g: nat | g < |s.generations| :: s.generations[g].leases == Unreleased(s.handles, g))
    && (forall h: nat | h < |s.handles| :: s.handles[h].generation < |s.generations|)
  }

  predicate AllDrained(s: State) {
    forall g: nat | g < |s.generations| :: Drained(s.generations[g])
  }

  /** Only an entry's current generation is in use; it stops being so when it is replaced or the project retires. */
  predicate CurrentOrRetired(s: State, g: nat)
    requires g < |s.generations|
  {
    var gen := s.generations[g];
    && gen.entry < |s.table|
    && gen.number < s.table[gen.entry].nextGeneration
    && gen.number !in s.table[gen.entry].discarded
    && s.table[gen.entry].current.Some? && g <= s.table[gen.entry].current.value
    && (gen.retired || s.table[gen.entry].current == Some(g))
  }

  predicate EntryOk(s: State, e: nat)
    requires e < |s.table|
  {
    var entry := s.table[e];
    && (entry.current.Some? ==>
          && entry.current.value < |s.generations|
          && s.generations[entry.current.value].entry == e
          && (s.generations[entry.current.value].retired ==> entry.retired))
    && (entry.running.Some? ==> entry.running.value < entry.nextGeneration && entry.running.value !in entry.discarded)
    && (forall d | d in entry.discarded :: 0 < d < entry.nextGeneration)
    && entry.nextGeneration > 0
    && (entry.running.Some? ==> entry.running.value > 0)
  }

  /** Generation numbers of one entry are distinct, and grow in the order of publication. */
  predicate NumbersGrow(s: State) {
    && (forall g: nat, k: nat | g < k < |s.generations| && s.generations[g].entry == s.generations[k].entry ::
          s.generations[g].number < s.generations[k].number)
    && (forall g: nat | g < |s.generations| && s.generations[g].entry < |s.table| ::
          var running := s.table[s.generations[g].entry].running;
          running.Some? ==> s.generations[g].number < running.value)
  }

  predicate Published(s: State) {
    forall g: nat | g < |s.generations| :: CurrentOrRetired(s, g)
  }

  predicate EntriesOk(s: State) {
    && (forall e: nat | e < |s.table| :: EntryOk(s, e))
    && (forall p | p in s.entries :: s.entries[p] < |s.table| && !s.table[s.entries[p]].retired)
    && (forall p, q | p in s.entries && q in s.entries && s.entries[p] == s.entries[q] :: p == q)
  }

  predicate Inv(s: State) {
    LeasesCounted(s) && AllDrained(s) && Published(s) && EntriesOk(s) && NumbersGrow(s)
  }

  // ---------------------------------------------------------------- what one step may do

  /** Generations only move forward; a hub whose disconnection began gets no lease and no second disconnection. */
  predicate Forward(s: State, t: State) {
    && |s.generations| <= |t.generations|
    && forall g: nat | g < |s.generations| ::
      && t.generations[g].entry == s.generations[g].entry
      && t.generations[g].number == s.generations[g].number
      && (s.generations[g].retired ==> t.generations[g].retired)
      && (s.generations[g].disconnects > 0 ==> t.generations[g] == s.generations[g])
  }

  // ---------------------------------------------------------------- runs

  datatype Step =
    | DoEnsure(project: string)
    | DoReload(project: string)
    | DoBegin(entry: nat)
    | DoEnd(entry: nat, ok: bool)
    | DoAcquire(project: string)
    | DoRetain(handle: nat)
    | DoRelease(handle: nat)
    | DoRetire(project: string)
    | DoFinishRetire(entry: nat)

  predicate Enabled(s: State, step: Step) {
    match step
    case DoEnsure(p) => p in s.entries ==> s.entries[p] < |s.table|
    case DoReload(p) => p in s.entries ==> s.entries[p] < |s.table|
    case DoBegin(e) => MayBegin(s, e)
    case DoEnd(e, _) => MayEnd(s, e)
    case DoAcquire(p) => Current(s, p).Some? && Current(s, p).value < |s.generations|
    case DoRetain(h) =>
      h < |s.handles| && !s.handles[h].released && s.handles[h].generation < |s.generations|
    case DoRelease(h) => h < |s.handles| && s.handles[h].generation < |s.generations|
    case DoRetire(p) => p in s.entries ==> s.entries[p] < |s.table|
    case DoFinishRetire(e) => MayFinishRetire(s, e)
  }

  function Next(s: State, step: Step): State
    requires Enabled(s, step)
  {
    match step
    case DoEnsure(p) => AfterEnsure(s, p)
    case DoReload(p) => AfterReload(s, p)
    case DoBegin(e) => AfterBegin(s, e)
    case DoEnd(e, ok) => AfterEnd(s, e, ok)
    case DoAcquire(p) => CreateLease(s, Current(s, p).value)
    case DoRetain(h) => CreateLease(s, s.handles[h].generation)
    case DoRelease(h) => AfterRelease(s, h)
    case DoRetire(p) => AfterRetire(s, p)
    case DoFinishRetire(e) => AfterFinishRetire(s, e)
  }

  predicate Initial(s: State) {
    s.entries == map[] && s.table == [] && s.generations == [] && s.handles == []
  }

  // ---------------------------------------------------------------- the registry

  class ProjectMcpHubRegistry {
    var entries: map<string, nat>
    var table: seq<Entry>
    var generations: seq<Generation>
    var handles: seq<Handle>

    function View(): State
      reads this
    {
      State(entries, table, generations, handles)
    }

    constructor ()
      ensures Initial(View())
    {
      entries, table, generations, handles := map[], [], [], [];
    }

    method FindOrCreateEntry(project: string) returns (e: nat)
      modifies this
      ensures (View(), e) == GetOrCreateEntry(old(View()), project)
    {
      if project in entries {
        return entries[project];
      }
      e := |table|;
      table := table + [NEW_ENTRY];
      entries := entries[project := e];
    }

    method Ensure(project: string) returns (number: nat)
      requires Inv(View())
      modifies this
      ensures View() == AfterEnsure(old(View()), project)
      ensures var current := Current(View(), project);
        current.Some? && current.value < |generations| && number == generations[current.value].number
    {
      EnsureKeeps(View(), project);
      var e := FindOrCreateEntry(project);
      if table[e].current.None? {
        table := table[e := table[e].(current := Some(|generations|))];
        generations := generations + [Generation(e, 0, 0, false, 0)];
      }
      assert EntryOk(View(), e);
      return generations[table[e].current.value].number;
    }

    /** Queue a reload behind the ones already queued. */
    method Reload(project: string)
      requires Enabled(View(), DoReload(project))
      modifies this
      ensures View() == AfterReload(old(View()), project)
    {
      var e := FindOrCreateEntry(project);
      table := table[e := table[e].(queued := table[e].queued + 1)];
    }

    /** `replaceGeneration` up to its first await. */
    method BeginReload(e: nat) returns (number: nat)
      requires MayBegin(View(), e)
      modifies this`table
      ensures View() == AfterBegin(old(View()), e) && table[e].running == Some(number)
    {
      number := table[e].nextGeneration;
      table := table[e := table[e].(queued := table[e].queued - 1, running := Some(number),
                                    nextGeneration := number + 1)];
    }

    /** The rest of `replaceGeneration`; `connected` says whether loading and connecting worked. */
    method EndReload(e: nat, connected: bool) returns (published: bool)
      requires MayEnd(View(), e)
      modifies this`table, this`generations
      ensures View() == AfterEnd(old(View()), e, connected)
      ensures published <==> connected && !old(table[e].retired)
    {
      var number := table[e].running.value;
      published := connected && !table[e].retired;
      if !published {
        table := table[e := table[e].(running := None, discarded := table[e].discarded + {number})];
        return;
      }
      var previous := table[e].current;
      table := table[e := table[e].(running := None, current := Some(|generations|))];
      generations := generations + [Generation(e, number, 0, false, 0)];
      if previous.Some? {
        generations := generations[previous.value := generations[previous.value].(retired := true)];
        Disconnect(previous.value);
      }
    }

    /** `disconnectWhenDrained` */
    method Disconnect(g: nat)
      requires g < |generations|
      modifies this`generations
      ensures generations == old(generations)[g := DisconnectWhenDrained(old(generations[g]))]
    {
      if generations[g].leases > 0 {
        assert generations == generations[g := generations[g]];
        return;
      }
      if generations[g].disconnects == 0 {
        generations := generations[g := generations[g].(disconnects := 1)];
      } else {
        assert generations == generations[g := generations[g]];
      }
    }

    method AddLease(g: nat) returns (handle: nat)
      requires g < |generations|
      modifies this`generations, this`handles
      ensures View() == CreateLease(old(View()), g) && handle == |old(handles)|
    {
      generations := generations[g := generations[g].(leases := generations[g].leases + 1)];
      handle := |handles|;
      handles := handles + [Handle(g, false)];
    }

    /** No current generation is the source's error "MCP is not initialized". */
    method Acquire(project: string) returns (handle: Option<nat>)
      requires Inv(View())
      modifies this`generations, this`handles
      ensures handle.None? ==> Current(View(), project).None? && View() == old(View())
      ensures handle.Some? ==> old(Enabled(View(), DoAcquire(project)))
                               && View() == old(Next(View(), DoAcquire(project)))
    {
      if project !in entries || table[entries[project]].current.None? {
        return None;
      }
      assert EntryOk(View(), entries[project]);
      var h := AddLease(table[entries[project]].current.value);
      return Some(h);
    }

    /** Retaining a released handle is an error. */
    method Retain(handle: nat) returns (copy: Option<nat>)
      requires handle < |handles| && handles[handle].generation < |generations|
      modifies this`generations, this`handles
      ensures copy.None? <==> old(handles[handle].released)
      ensures View() == if copy.None? then old(View()) else CreateLease(old(View()), old(handles[handle].generation))
    {
      if handles[handle].released {
        return None;
      }
      var h := AddLease(handles[handle].generation);
      return Some(h);
    }

    method Release(handle: nat)
      requires handle < |handles| && handles[handle].generation < |generations|
      modifies this`generations, this`handles
      ensures View() == AfterRelease(old(View()), handle)
    {
      if handles[handle].released {
        return;
      }
      var g := handles[handle].generation;
      handles := handles[handle := handles[handle].(released := true)];
      generations := generations[g := generations[g].(leases := generations[g].leases - 1)];
      if generations[g].retired && generations[g].leases == 0 {
        Disconnect(g);
      }
    }

    /** `retireProject` up to its await of the reload queue. */
    method RetireProject(project: string)
      requires Enabled(View(), DoRetire(project))
      modifies this`entries, this`table
      ensures View() == AfterRetire(old(View()), project)
    {
      if project !in entries {
        return;
      }
      var e := entries[project];
      entries := entries - {project};
      table := table[e := table[e].(retired := true)];
    }

    method FinishRetire(e: nat)
      requires MayFinishRetire(View(), e)
      modifies this`generations
      ensures View() == AfterFinishRetire(old(View()), e)
    {
      var current := table[e].current;
      if current.Some? {
        generations := generations[current.value := generations[current.value].(retired := true)];
        Disconnect(current.value);
      }
    }
  }

  // One lemma for each way the state changes.

  /** Only table or entries change, and nothing the other parts rely on. */
  predicate TableStep(s: State, t: State) {
    && t.generations == s.generations && t.handles == s.handles
    && |s.table| <= |t.table|
    && forall e: nat | e < |s.table| ::
      && t.table[e].current == s.table[e].current
      && t.table[e].nextGeneration >= s.table[e].nextGeneration
      && (s.table[e].retired ==> t.table[e].retired)
      && (forall d | d in t.table[e].discarded :: d in s.table[e].discarded || s.table[e].running == Some(d))
  }

  lemma TableStepKeeps(s: State, t: State)
    requires Inv(s) && TableStep(s, t)
    ensures LeasesCounted(t) && AllDrained(t) && Published(t) && Forward(s, t)
  {
    forall g: nat | g < |t.generations|
      ensures CurrentOrRetired(t, g)
    {
      assert CurrentOrRetired(s, g);
    }
  }

  lemma GetOrCreateKeeps(s: State, project: string)
    requires Inv(s)
    ensures var (t, e) := GetOrCreateEntry(s, project);
      && Inv(t) && Forward(s, t) && e < |t.table| && !t.table[e].retired
      && t.generations == s.generations && t.handles == s.handles
  {
    var t := GetOrCreateEntry(s, project).0;
    TableStepKeeps(s, t);
    forall e: nat | e < |t.table|
      ensures EntryOk(t, e)
    {
      assert e < |s.table| ==> EntryOk(s, e);
    }
    forall g: nat | g < |s.generations|
      ensures s.generations[g].entry < |s.table|
    {
      assert CurrentOrRetired(s, g);
    }
  }

  lemma QueueKeeps(s: State, e: nat)
    requires Inv(s) && e < |s.table|
    ensures var t := s.(table := s.table[e := s.table[e].(queued := s.table[e].queued + 1)]); Inv(t) && Forward(s, t)
  {
    var t := s.(table := s.table[e := s.table[e].(queued := s.table[e].queued + 1)]);
    TableStepKeeps(s, t);
    forall k: nat | k < |t.table|
      ensures EntryOk(t, k)
    {
      assert EntryOk(s, k);
    }
  }

  lemma BeginKeeps(s: State, e: nat)
    requires Inv(s) && MayBegin(s, e)
    ensures Inv(AfterBegin(s, e)) && Forward(s, AfterBegin(s, e))
  {
    var t := AfterBegin(s, e);
    TableStepKeeps(s, t);
    forall k: nat | k < |t.table|
      ensures EntryOk(t, k)
    {
      assert EntryOk(s, k);
    }
    forall g: nat | g < |s.generations|
      ensures s.generations[g].entry == e ==> s.generations[g].number < s.table[e].nextGeneration
    {
      assert CurrentOrRetired(s, g);
    }
  }

  lemma RetireKeeps(s: State, project: string)
    requires Inv(s) && project in s.entries
    ensures Inv(AfterRetire(s, project)) && Forward(s, AfterRetire(s, project))
  {
    var t := AfterRetire(s, project);
    TableStepKeeps(s, t);
    forall k: nat | k < |t.table|
      ensures EntryOk(t, k)
    {
      assert EntryOk(s, k);
    }
  }

  lemma DiscardKeeps(s: State, e: nat, ok: bool)
    requires Inv(s) && MayEnd(s, e) && (!ok || s.table[e].retired)
    ensures Inv(AfterEnd(s, e, ok)) && Forward(s, AfterEnd(s, e, ok))
  {
    var t := AfterEnd(s, e, ok);
    assert EntryOk(s, e);
    forall g: nat | g < |t.generations|
      ensures CurrentOrRetired(t, g)
    {
      assert CurrentOrRetired(s, g);
    }
    forall k: nat | k < |t.table|
      ensures EntryOk(t, k)
    {
      assert EntryOk(s, k);
    }
  }

  /** `t` makes a new generation current for entry `e`, and retires the one it replaces. */
  predicate Promotes(s: State, t: State, e: nat, number: nat)
    requires e < |s.table| && (s.table[e].current.Some? ==> s.table[e].current.value < |s.generations|)
  {
    var before := s.table[e];
    && t.entries == s.entries && t.handles == s.handles
    && |t.table| == |s.table|
    && t.table == s.table[e := before.(current := Some(|s.generations|), running := t.table[e].running)]
    && (t.table[e].running == before.running || t.table[e].running.None?)
    && t.generations ==
       (if before.current.None? then s.generations
        else s.generations[before.current.value := Retire(s.generations[before.current.value])])
       + [Generation(e, number, 0, false, 0)]
  }

  /** The number of a new generation of `e` is above those published, and was not given to a discarded one. */
  predicate Fresh(s: State, e: nat, number: nat)
    requires e < |s.table|
  {
    && number < s.table[e].nextGeneration && number !in s.table[e].discarded
    && forall g: nat | g < |s.generations| && s.generations[g].entry == e :: s.generations[g].number < number
  }

  lemma PromotionKeeps(s: State, t: State, e: nat, number: nat)
    requires Inv(s) && e < |s.table| && !s.table[e].retired && EntryOk(s, e) && Promotes(s, t, e, number)
    requires Fresh(s, e, number)
    requires t.table[e].running.Some? ==> number < t.table[e].running.value
    ensures Inv(t) && Forward(s, t)
  {
    PromotionCounts(s, t, e, number);
    forall g: nat | g < |t.generations|
      ensures CurrentOrRetired(t, g) && Drained(t.generations[g])
    {
      if g < |s.generations| {
        assert CurrentOrRetired(s, g) && Drained(s.generations[g]);
      }
    }
    PromotionEntries(s, t, e, number);
  }

  lemma PromotionCounts(s: State, t: State, e: nat, number: nat)
    requires Inv(s) && e < |s.table| && EntryOk(s, e) && Promotes(s, t, e, number)
    ensures LeasesCounted(t)
  {
    var n := |s.generations|;
    NoneOfANewGeneration(s.handles, n);
    forall g: nat | g < n
      ensures t.generations[g].leases == Unreleased(t.handles, g)
    {
      assert s.generations[g].leases == Unreleased(s.handles, g);
    }
  }

  lemma PromotionEntries(s: State, t: State, e: nat, number: nat)
    requires Inv(s) && e < |s.table| && !s.table[e].retired && EntryOk(s, e) && Promotes(s, t, e, number)
    requires Fresh(s, e, number)
    requires t.table[e].running.Some? ==> number < t.table[e].running.value
    ensures EntriesOk(t) && NumbersGrow(t)
  {
    forall k: nat | k < |t.table|
      ensures EntryOk(t, k)
    {
      assert EntryOk(s, k);
      if k != e && s.table[k].current.Some? {
        assert s.table[k].current != s.table[e].current;
      }
    }
  }

  lemma PublishKeeps(s: State, e: nat)
    requires Inv(s) && MayEnd(s, e) && !s.table[e].retired
    ensures Inv(AfterEnd(s, e, true)) && Forward(s, AfterEnd(s, e, true))
  {
    var number := s.table[e].running.value;
    assert EntryOk(s, e);
    forall g: nat | g < |s.generations| && s.generations[g].entry == e
      ensures s.generations[g].number < number
    {
      assert CurrentOrRetired(s, g);
    }
    PromotionKeeps(s, AfterEnd(s, e, true), e, number);
  }

  lemma EnsureKeeps(s: State, project: string)
    requires Inv(s)
    ensures Inv(AfterEnsure(s, project)) && Forward(s, AfterEnsure(s, project))
  {
    GetOrCreateKeeps(s, project);
    var (s1, e) := GetOrCreateEntry(s, project);
    assert EntryOk(s1, e);
    if s1.table[e].current.None? {
      forall g: nat | g < |s1.generations|
        ensures s1.generations[g].entry != e
      {
        assert CurrentOrRetired(s1, g);
      }
      PromotionKeeps(s1, Publish(s1, e, 0), e, 0);
      ForwardComposes(s, s1, Publish(s1, e, 0));
    }
  }

  lemma ForwardComposes(s: State, t: State, u: State)
    requires Forward(s, t) && Forward(t, u)
    ensures Forward(s, u)
  {
    forall g: nat | g < |s.generations|
      ensures u.generations[g].entry == s.generations[g].entry && u.generations[g].number == s.generations[g].number
      ensures s.generations[g].retired ==> u.generations[g].retired
      ensures s.generations[g].disconnects > 0 ==> u.generations[g] == s.generations[g]
    {
      assert t.generations[g].number == s.generations[g].number;
    }
  }

  /** Generation `g` keeps its identity. */
  lemma GenerationStepKeeps(s: State, t: State, g: nat, gen: Generation)
    requires Inv(s) && g < |s.generations|
    requires t.entries == s.entries && t.table == s.table && t.generations == s.generations[g := gen]
    requires gen.entry == s.generations[g].entry && gen.number == s.generations[g].number
    requires s.generations[g].retired ==> gen.retired
    requires gen.retired && !s.generations[g].retired ==> gen.entry < |s.table| && s.table[gen.entry].retired
    requires Drained(gen) && (s.generations[g].disconnects > 0 ==> gen == s.generations[g])
    ensures AllDrained(t) && Published(t) && EntriesOk(t) && NumbersGrow(t) && Forward(s, t)
  {
    forall k: nat | k < |t.generations|
      ensures CurrentOrRetired(t, k) && Drained(t.generations[k])
    {
      assert CurrentOrRetired(s, k) && Drained(s.generations[k]);
    }
    forall e: nat | e < |t.table|
      ensures EntryOk(t, e)
    {
      assert EntryOk(s, e);
    }
  }

  lemma NewLeaseCounts(s: State, g: nat)
    requires LeasesCounted(s) && g < |s.generations|
    ensures LeasesCounted(CreateLease(s, g))
  {
    var t := CreateLease(s, g);
    forall k: nat | k < |t.generations|
      ensures t.generations[k].leases == Unreleased(t.handles, k)
    {
      assert s.generations[k].leases == Unreleased(s.handles, k);
      OneMoreHandle(s.handles, Handle(g, false), k);
    }
  }

  lemma CreateLeaseKeeps(s: State, g: nat)
    requires Inv(s) && g < |s.generations|
    requires s.generations[g].disconnects == 0
    ensures Inv(CreateLease(s, g)) && Forward(s, CreateLease(s, g))
  {
    var t := CreateLease(s, g);
    assert Drained(s.generations[g]);
    assert s.generations[g].leases == Unreleased(s.handles, g);
    NewLeaseCounts(s, g);
    GenerationStepKeeps(s, t, g, t.generations[g]);
  }

  lemma ReleaseKeeps(s: State, h: nat)
    requires Inv(s) && h < |s.handles|
    ensures Inv(AfterRelease(s, h)) && Forward(s, AfterRelease(s, h))
  {
    if !s.handles[h].released {
      var t, g := AfterRelease(s, h), s.handles[h].generation;
      LiveHandleCounts(s.handles, h);
      assert Drained(s.generations[g]);
      assert s.generations[g].leases == Unreleased(s.handles, g);
      GenerationStepKeeps(s, t, g, t.generations[g]);
      forall k: nat | k < |t.generations|
        ensures t.generations[k].leases == Unreleased(t.handles, k)
      {
        assert s.generations[k].leases == Unreleased(s.handles, k);
        OneReleased(s.handles, h, k);
      }
    }
  }

  lemma FinishRetireKeeps(s: State, e: nat)
    requires Inv(s) && MayFinishRetire(s, e)
    ensures Inv(AfterFinishRetire(s, e)) && Forward(s, AfterFinishRetire(s, e))
  {
    var current := s.table[e].current;
    if current.Some? {
      var g := current.value;
      assert EntryOk(s, e);
      assert Drained(s.generations[g]);
      assert s.generations[g].leases == Unreleased(s.handles, g);
      GenerationStepKeeps(s, AfterFinishRetire(s, e), g, Retire(s.generations[g]));
      forall k: nat | k < |s.generations|
        ensures AfterFinishRetire(s, e).generations[k].leases == Unreleased(s.handles, k)
      {
        assert s.generations[k].leases == Unreleased(s.handles, k);
      }
    }
  }

  /** A generation that can still be leased was not disconnected. */
  lemma LeasableIsConnected(s: State, step: Step)
    requires Inv(s) && Enabled(s, step)
    ensures step.DoAcquire? ==> s.generations[Current(s, step.project).value].disconnects == 0
    ensures step.DoRetain? ==> s.generations[s.handles[step.handle].generation].disconnects == 0
  {
    if step.DoAcquire? {
      assert EntryOk(s, s.entries[step.project]);
      assert Drained(s.generations[Current(s, step.project).value]);
    } else if step.DoRetain? {
      var g := s.handles[step.handle].generation;
      LiveHandleCounts(s.handles, step.handle);
      assert s.generations[g].leases == Unreleased(s.handles, g);
      assert Drained(s.generations[g]);
    }
  }

  lemma StepKeepsInv(s: State, step: Step)
    requires Inv(s) && Enabled(s, step)
    ensures Inv(Next(s, step)) && Forward(s, Next(s, step))
  {
    LeasableIsConnected(s, step);
    match step
    case DoEnsure(p) => EnsureKeeps(s, p);
    case DoReload(p) => ReloadKeeps(s, p);
    case DoBegin(e) => BeginKeeps(s, e);
    case DoEnd(e, ok) =>
      if ok && !s.table[e].retired { PublishKeeps(s, e); } else { DiscardKeeps(s, e, ok); }
    case DoAcquire(p) => CreateLeaseKeeps(s, Current(s, p).value);
    case DoRetain(h) => CreateLeaseKeeps(s, s.handles[h].generation);
    case DoRelease(h) => ReleaseKeeps(s, h);
    case DoRetire(p) =>
      if p in s.entries { RetireKeeps(s, p); }
    case DoFinishRetire(e) => FinishRetireKeeps(s, e);
  }

  lemma ReloadKeeps(s: State, project: string)
    requires Inv(s)
    ensures Inv(AfterReload(s, project)) && Forward(s, AfterReload(s, project))
  {
    hide Forward, GetOrCreateEntry;
    GetOrCreateKeeps(s, project);
    var (s1, e) := GetOrCreateEntry(s, project);
    QueueKeeps(s1, e);
    ForwardComposes(s, s1, AfterReload(s, project));
  }


  predicate Runs(s: State, steps: seq<Step>)
    decreases |steps|
  {
    steps != [] ==> Enabled(s, steps[0]) && Runs(Next(s, steps[0]), steps[1..])
  }

  function After(s: State, steps: seq<Step>): State
    requires Runs(s, steps)
    decreases |steps|
  {
    if steps == [] then s else After(Next(s, steps[0]), steps[1..])
  }

  lemma {:induction false} RunKeepsInv(s: State, steps: seq<Step>)
    requires Inv(s) && Runs(s, steps)
    ensures Inv(After(s, steps)) && Forward(s, After(s, steps))
    decreases |steps|
  {
    if steps != [] {
      StepKeepsInv(s, steps[0]);
      RunKeepsInv(Next(s, steps[0]), steps[1..]);
      ForwardComposes(s, Next(s, steps[0]), After(s, steps));
    }
  }

  // ---------------------------------------------------------------- theorems

  lemma ReachableIsInv(start: State, steps: seq<Step>)
    requires Initial(start) && Runs(start, steps)
    ensures Inv(After(start, steps))
  {
    RunKeepsInv(start, steps);
  }

  /**
   In every reachable state a published generation counts exactly its unreleased handles, and its hub has been
   disconnected exactly when it is retired with no lease, and then once.
   */
  lemma LeasesDecideDisconnection(start: State, steps: seq<Step>, g: nat)
    requires Initial(start) && Runs(start, steps) && g < |After(start, steps).generations|
    ensures var s := After(start, steps);
      && s.generations[g].leases == Unreleased(s.handles, g)
      && s.generations[g].disconnects == (if s.generations[g].retired && Unreleased(s.handles, g) == 0 then 1 else 0)
  {
    ReachableIsInv(start, steps);
    var s := After(start, steps);
    assert Drained(s.generations[g]);
    assert s.generations[g].leases == Unreleased(s.handles, g);
  }

  /** Once a hub's disconnection has begun it never has a lease again and is not disconnected again. */
  lemma DisconnectedForGood(start: State, steps: seq<Step>, more: seq<Step>, g: nat)
    requires Initial(start) && Runs(start, steps) && Runs(After(start, steps), more)
    requires g < |After(start, steps).generations| && After(start, steps).generations[g].disconnects > 0
    ensures var s := After(After(start, steps), more);
      && g < |s.generations| && s.generations[g].disconnects == 1 && Unreleased(s.handles, g) == 0
  {
    ReachableIsInv(start, steps);
    DisconnectedFrom(After(start, steps), more, g);
  }

  lemma DisconnectedFrom(s: State, more: seq<Step>, g: nat)
    requires Inv(s) && Runs(s, more) && g < |s.generations| && s.generations[g].disconnects > 0
    ensures var t := After(s, more);
      && g < |t.generations| && t.generations[g].disconnects == 1 && Unreleased(t.handles, g) == 0
  {
    RunKeepsInv(s, more);
    var t := After(s, more);
    assert Drained(s.generations[g]) && Drained(t.generations[g]);
    assert t.generations[g].leases == Unreleased(t.handles, g);
  }

  /** A reload that failed, or ended after its project was retired, is discarded for good: it is never current. */
  lemma DiscardedIsNeverCurrent(start: State, steps: seq<Step>, more: seq<Step>, e: nat, ok: bool)
    requires Initial(start) && Runs(start, steps) && MayEnd(After(start, steps), e)
    requires !ok || After(start, steps).table[e].retired
    requires Runs(AfterEnd(After(start, steps), e, ok), more)
    ensures NeverCurrent(After(AfterEnd(After(start, steps), e, ok), more), e,
                         After(start, steps).table[e].running.value)
  {
    ReachableIsInv(start, steps);
    DiscardedFrom(After(start, steps), more, e, ok);
  }

  predicate NeverCurrent(s: State, e: nat, number: nat) {
    && e < |s.table|
    && (s.table[e].current.Some? ==>
          && s.table[e].current.value < |s.generations|
          && s.generations[s.table[e].current.value].number != number)
  }

  lemma DiscardedFrom(s: State, more: seq<Step>, e: nat, ok: bool)
    requires Inv(s) && MayEnd(s, e) && (!ok || s.table[e].retired) && Runs(AfterEnd(s, e, ok), more)
    ensures NeverCurrent(After(AfterEnd(s, e, ok), more), e, s.table[e].running.value)
  {
    DiscardKeeps(s, e, ok);
    var discarded := AfterEnd(s, e, ok);
    RunKeepsDiscarded(discarded, more, e, s.table[e].running.value);
    RunKeepsInv(discarded, more);
    DiscardedIsNotCurrent(After(discarded, more), e, s.table[e].running.value);
  }

  lemma DiscardedIsNotCurrent(s: State, e: nat, number: nat)
    requires Inv(s) && e < |s.table| && number in s.table[e].discarded
    ensures NeverCurrent(s, e, number)
  {
    assert EntryOk(s, e);
    if s.table[e].current.Some? {
      assert CurrentOrRetired(s, s.table[e].current.value);
    }
  }

  lemma {:induction false} RunKeepsDiscarded(s: State, steps: seq<Step>, e: nat, number: nat)
    requires Runs(s, steps) && e < |s.table| && number in s.table[e].discarded
    ensures e < |After(s, steps).table| && number in After(s, steps).table[e].discarded
    decreases |steps|
  {
    if steps != [] {
      StepKeepsDiscarded(s, steps[0], e, number);
      RunKeepsDiscarded(Next(s, steps[0]), steps[1..], e, number);
    }
  }

  lemma StepKeepsDiscarded(s: State, step: Step, e: nat, number: nat)
    requires Enabled(s, step) && e < |s.table| && number in s.table[e].discarded
    ensures e < |Next(s, step).table| && number in Next(s, step).table[e].discarded
  {
  }

  /** The current generation of a live project is connected; the others of its entry are older and retired. */
  lemma CurrentIsLive(start: State, steps: seq<Step>, project: string)
    requires Initial(start) && Runs(start, steps) && Current(After(start, steps), project).Some?
    ensures LiveAndNewest(After(start, steps), Current(After(start, steps), project).value)
  {
    ReachableIsInv(start, steps);
    CurrentIsNewest(After(start, steps), project);
  }

  predicate LiveAndNewest(s: State, g: nat) {
    && g < |s.generations| && !s.generations[g].retired && s.generations[g].disconnects == 0
    && forall k: nat | k < |s.generations| && k != g && s.generations[k].entry == s.generations[g].entry ::
      s.generations[k].retired && s.generations[k].number < s.generations[g].number
  }

  lemma CurrentIsNewest(s: State, project: string)
    requires Inv(s) && Current(s, project).Some?
    ensures LiveAndNewest(s, Current(s, project).value)
  {
    var e, g := s.entries[project], Current(s, project).value;
    assert EntryOk(s, e);
    assert Drained(s.generations[g]);
    forall k: nat | k < |s.generations| && k != g && s.generations[k].entry == e
      ensures s.generations[k].retired && s.generations[k].number < s.generations[g].number
    {
      assert CurrentOrRetired(s, k);
    }
  }
}
