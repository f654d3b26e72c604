/**
 Restoring the saved tab layout: src/agent/ChatTabController.ts (`restoreLayout`).

 Whatever was saved, by this version, another one or a broken one, the result is a layout
 that satisfies the full tab invariant. `repaired` reports whether anything but a session
 identifier had to be changed.
 */
module LayoutRestore {
  import opened Wrappers
  import opened TabController

  const LAYOUT_VERSION := 1

  /** A field of a saved object. `Unusable` is every value no check accepts, a missing field included. */
  datatype Field = Number(n: int) | Text(s: string) | Null | Unusable(kind: nat)

  datatype RawTab =
    | NotATab
    | RawTab(id: Field, displayNumber: Field, sessionId: Field, placement: Field, terminalGeneration: Field)

  datatype Raw =
    | NotALayout
    | RawLayout(version: Field, tabs: Option<seq<RawTab>>, nextDisplayNumber: Field)

  // ---------------------------------------------------------------- the saved form of a layout

  function EncodePlacement(p: Placement): Field {
    Text(if p == Docked then "docked" else "popped")
  }

  function EncodeSession(sessionId: Option<string>): Field {
    match sessionId
    case None => Null
    case Some(s) => Text(s)
  }

  function EncodeTab(t: Tab): RawTab {
    RawTab(Text(t.id), Number(t.displayNumber), EncodeSession(t.sessionId), EncodePlacement(t.placement),
           Number(t.terminalGeneration))
  }

  function EncodeTabs(tabs: seq<Tab>): (r: seq<RawTab>)
    ensures |r| == |tabs| && forall i: nat | i < |tabs| :: r[i] == EncodeTab(tabs[i])
  {
    seq(|tabs|, i requires 0 <= i < |tabs| => EncodeTab(tabs[i]))
  }

  function Encode(layout: Layout): Raw {
    RawLayout(Number(LAYOUT_VERSION), Some(EncodeTabs(layout.tabs)), Number(layout.nextDisplayNumber))
  }

  // ---------------------------------------------------------------- one saved tab

  function Ids(tabs: seq<Tab>): set<string> {
    set i: nat | i < |tabs| :: tabs[i].id
  }

  function Sessions(tabs: seq<Tab>): set<string> {
    set i: nat | i < |tabs| && tabs[i].sessionId.Some? :: tabs[i].sessionId.value
  }

  datatype Progress = Progress(tabs: seq<Tab>, nextRepair: int, repaired: bool)

  function Positive(f: Field): int {
    if f.Number? && f.n > 0 then f.n else 0
  }

  function UsableText(f: Field): Option<string> {
    if f.Text? && f.s != "" then Some(f.s) else None
  }

  function DecodePlacement(f: Field): Placement {
    if f == EncodePlacement(Popped) then Popped else Docked
  }

  function Take(p: Progress, raw: RawTab): Progress {
    if raw.NotATab? || UsableText(raw.id).None? || UsableText(raw.id).value in Ids(p.tabs) then
      p.(repaired := true)
    else
      var clash := Positive(raw.displayNumber) == 0 || Positive(raw.displayNumber) in Numbers(p.tabs);
      var repair := if clash then LowestFree(Numbers(p.tabs), p.nextRepair) else p.nextRepair;
      var number := if clash then repair else Positive(raw.displayNumber);
      var open := UsableText(raw.sessionId).Some? && UsableText(raw.sessionId).value in Sessions(p.tabs);
      var sessionId := if open then None else UsableText(raw.sessionId);
      var placement := DecodePlacement(raw.placement);
      var generation := if Positive(raw.terminalGeneration) > 0 then Positive(raw.terminalGeneration) else 1;
      Progress(p.tabs + [Tab(UsableText(raw.id).value, number, sessionId, placement, generation)],
               if repair > number + 1 then repair else number + 1,
               p.repaired || clash || open
               || EncodePlacement(placement) != raw.placement || Number(generation) != raw.terminalGeneration)
  }

  function TakeAll(raws: seq<RawTab>): Progress {
    if raws == [] then Progress([], 1, false) else Take(TakeAll(raws[..|raws| - 1]), raws[|raws| - 1])
  }

  // ---------------------------------------------------------------- the whole layout

  function Highest(tabs: seq<Tab>): int
    requires tabs != []
  {
    var last := tabs[|tabs| - 1].displayNumber;
    if |tabs| == 1 then last
    else
      var rest := Highest(tabs[..|tabs| - 1]);
      if rest > last then rest else last
  }

  function DefaultLayout(id: string): Layout {
    Layout([Tab(id, 1, None, Docked, 1)], 2)
  }

  function Finish(p: Progress, savedNext: Field, id: string): (Layout, bool) {
    if p.tabs == [] then
      (DefaultLayout(id), true)
    else
      var undocked := FirstDocked(p.tabs).None?;
      var tabs := if undocked then p.tabs[0 := p.tabs[0].(placement := Docked)] else p.tabs;
      var least := Highest(tabs) + 1;
      var next := if savedNext.Number? && savedNext.n >= least then savedNext.n else least;
      (Layout(tabs, next), p.repaired || undocked || Number(next) != savedNext)
  }

  /** `id` is the identifier drawn for a default tab. */
  function Restore(raw: Raw, id: string): (Layout, bool) {
    if raw.NotALayout? || raw.version != Number(LAYOUT_VERSION) || raw.tabs.None? then (DefaultLayout(id), true)
    else Finish(TakeAll(raw.tabs.value), raw.nextDisplayNumber, id)
  }

  /** The sets `restoreLayout` keeps of what the tabs taken so far use. */
  predicate Uses(tabs: seq<Tab>, ids: set<string>, displayNumbers: set<int>, sessionIds: set<string>) {
    ids == Ids(tabs) && displayNumbers == Numbers(tabs) && sessionIds == Sessions(tabs)
  }

  method RestoreLayout(raw: Raw, id: string) returns (layout: Layout, repaired: bool)
    ensures (layout, repaired) == Restore(raw, id)
  {
    if raw.NotALayout? || raw.version != Number(LAYOUT_VERSION) || raw.tabs.None? {
      return DefaultLayout(id), true;
    }
    var values := raw.tabs.value;
    repaired := false;
    var ids: set<string>, displayNumbers: set<int>, sessionIds: set<string> := {}, {}, {};
    var tabs: seq<Tab> := [];
    var nextRepair := 1;
    for v := 0 to |values|
      invariant Progress(tabs, nextRepair, repaired) == TakeAll(values[..v])
      invariant Uses(tabs, ids, displayNumbers, sessionIds)
    {
      assert values[..v + 1][..v] == values[..v];
      tabs, nextRepair, repaired, ids, displayNumbers, sessionIds :=
        RestoreTab(values[v], tabs, nextRepair, repaired, ids, displayNumbers, sessionIds);
    }
    assert values[..|values|] == values;
    layout, repaired := CompleteLayout(tabs, nextRepair, repaired, raw.nextDisplayNumber, id);
  }

  /** The body of the loop over the saved tabs. */
  method RestoreTab(value: RawTab, tabs: seq<Tab>, nextRepair: int, repaired: bool,
                    ids: set<string>, displayNumbers: set<int>, sessionIds: set<string>)
    returns (tabs': seq<Tab>, nextRepair': int, repaired': bool,
             ids': set<string>, displayNumbers': set<int>, sessionIds': set<string>)
    requires Uses(tabs, ids, displayNumbers, sessionIds)
    ensures Progress(tabs', nextRepair', repaired') == Take(Progress(tabs, nextRepair, repaired), value)
    ensures Uses(tabs', ids', displayNumbers', sessionIds')
  {
    tabs', nextRepair', repaired' := tabs, nextRepair, repaired;
    ids', displayNumbers', sessionIds' := ids, displayNumbers, sessionIds;
    if value.NotATab? || UsableText(value.id).None? || UsableText(value.id).value in ids {
      repaired' := true;
      return;
    }
    var displayNumber := Positive(value.displayNumber);
    if displayNumber == 0 || displayNumber in displayNumbers {
      repaired' := true;
      nextRepair' := SkipUsed(displayNumbers, nextRepair);
      displayNumber := nextRepair';
    }
    nextRepair' := if nextRepair' > displayNumber + 1 then nextRepair' else displayNumber + 1;
    var sessionId := UsableText(value.sessionId);
    if sessionId.Some? && sessionId.value in sessionIds {
      repaired' := true;
      sessionId := None;
    }
    var placement := DecodePlacement(value.placement);
    if EncodePlacement(placement) != value.placement {
      repaired' := true;
    }
    var generation := if Positive(value.terminalGeneration) > 0 then Positive(value.terminalGeneration) else 1;
    if Number(generation) != value.terminalGeneration {
      repaired' := true;
    }
    var tab := Tab(UsableText(value.id).value, displayNumber, sessionId, placement, generation);
    SetsGrow(tabs, tab);
    ids', displayNumbers' := ids + {tab.id}, displayNumbers + {displayNumber};
    sessionIds' := sessionIds + (if sessionId.Some? then {sessionId.value} else {});
    tabs' := tabs + [tab];
  }

  method CompleteLayout(tabs: seq<Tab>, nextRepair: int, repaired: bool, savedNext: Field, id: string)
    returns (layout: Layout, repaired': bool)
    ensures (layout, repaired') == Finish(Progress(tabs, nextRepair, repaired), savedNext, id)
  {
    if tabs == [] {
      return DefaultLayout(id), true;
    }
    repaired' := repaired;
    var docked := tabs;
    if FirstDocked(tabs).None? {
      docked := tabs[0 := tabs[0].(placement := Docked)];
      repaired' := true;
    }
    var least := Highest(docked) + 1;
    var next := if savedNext.Number? && savedNext.n >= least then savedNext.n else least;
    if Number(next) != savedNext {
      repaired' := true;
    }
    return Layout(docked, next), repaired';
  }

  method SkipUsed(used: set<int>, from: int) returns (n: int)
    ensures n == LowestFree(used, from)
  {
    n := from;
    ghost var rest := used;
    while n in used
      invariant rest <= used && forall k | k in used && k >= n :: k in rest
      invariant LowestFree(used, from) == LowestFree(rest, n)
      decreases rest
    {
      rest := rest - {n};
      n := n + 1;
    }
  }

  lemma SetsGrow(tabs: seq<Tab>, tab: Tab)
    ensures Ids(tabs + [tab]) == Ids(tabs) + {tab.id}
    ensures Numbers(tabs + [tab]) == Numbers(tabs) + {tab.displayNumber}
    ensures Sessions(tabs + [tab]) == Sessions(tabs) + (if tab.sessionId.Some? then {tab.sessionId.value} else {})
  {
    var more := tabs + [tab];
    assert more[|tabs|] == tab;
    assert forall i: nat | i < |tabs| :: more[i] == tabs[i];
  }

  // ---------------------------------------------------------------- the result is always valid

  predicate TabOk(t: Tab) {
    t.id != "" && t.displayNumber > 0 && t.sessionId != Some("") && t.terminalGeneration > 0
  }

  predicate Sound(tabs: seq<Tab>) {
    && (forall i: nat | i < |tabs| :: TabOk(tabs[i]))
    && IdsDiffer(tabs) && NumbersDiffer(tabs) && SessionsDiffer(tabs)
  }

  /** The full tab invariant of a layout. */
  predicate Complete(layout: Layout) {
    Sound(layout.tabs) && NumbersBelow(layout) && FirstDocked(layout.tabs).Some?
  }

  lemma TakeKeepsSound(p: Progress, raw: RawTab)
    requires Sound(p.tabs) && p.nextRepair > 0
    ensures Sound(Take(p, raw).tabs) && Take(p, raw).nextRepair > 0
  {
    var q := Take(p, raw);
    if q.tabs != p.tabs {
      var n := |p.tabs|;
      assert q.tabs[..n] == p.tabs;
      forall i: nat | i < n
        ensures p.tabs[i].id != q.tabs[n].id && p.tabs[i].displayNumber != q.tabs[n].displayNumber
        ensures p.tabs[i].sessionId == q.tabs[n].sessionId ==> p.tabs[i].sessionId.None?
      {
        assert p.tabs[i].id in Ids(p.tabs) && p.tabs[i].displayNumber in Numbers(p.tabs);
        assert p.tabs[i].sessionId.Some? ==> p.tabs[i].sessionId.value in Sessions(p.tabs);
      }
    }
  }

  lemma {:induction false} TakeAllIsSound(raws: seq<RawTab>)
    ensures Sound(TakeAll(raws).tabs) && TakeAll(raws).nextRepair > 0
  {
    if raws != [] {
      TakeAllIsSound(raws[..|raws| - 1]);
      TakeKeepsSound(TakeAll(raws[..|raws| - 1]), raws[|raws| - 1]);
    }
  }

  lemma {:induction false} HighestIsHighest(tabs: seq<Tab>)
    requires tabs != []
    ensures forall i: nat | i < |tabs| :: tabs[i].displayNumber <= Highest(tabs)
    ensures exists i: nat :: i < |tabs| && tabs[i].displayNumber == Highest(tabs)
  {
    if |tabs| > 1 {
      HighestIsHighest(tabs[..|tabs| - 1]);
    }
    assert tabs[|tabs| - 1].displayNumber <= Highest(tabs);
  }

  lemma DockingTheFirstKeepsSound(tabs: seq<Tab>)
    requires Sound(tabs) && tabs != []
    ensures var docked := tabs[0 := tabs[0].(placement := Docked)]; Sound(docked) && FirstDocked(docked).Some?
  {
    var docked := tabs[0 := tabs[0].(placement := Docked)];
    assert docked[0].placement == Docked;
  }

  lemma FinishIsComplete(p: Progress, savedNext: Field, id: string)
    requires Sound(p.tabs) && id != ""
    ensures Complete(Finish(p, savedNext, id).0)
  {
    if p.tabs != [] {
      DockingTheFirstKeepsSound(p.tabs);
      HighestIsHighest(Finish(p, savedNext, id).0.tabs);
    }
  }

  /** Any saved value is restored to a layout that satisfies the full tab invariant. */
  lemma RestoreIsComplete(raw: Raw, id: string)
    requires id != ""
    ensures Complete(Restore(raw, id).0)
  {
    if raw.RawLayout? && raw.tabs.Some? {
      TakeAllIsSound(raw.tabs.value);
      FinishIsComplete(TakeAll(raw.tabs.value), raw.nextDisplayNumber, id);
    }
  }

  // ---------------------------------------------------------------- when nothing is reported

  /** The saved tab says what the restored tab says; only its session field may be of another kind. */
  predicate Matches(raw: RawTab, t: Tab) {
    && raw.RawTab?
    && raw.id == Text(t.id) && t.id != ""
    && raw.displayNumber == Number(t.displayNumber) && t.displayNumber > 0
    && UsableText(raw.sessionId) == t.sessionId
    && raw.placement == EncodePlacement(t.placement)
    && raw.terminalGeneration == Number(t.terminalGeneration) && t.terminalGeneration > 0
  }

  predicate AllMatch(raws: seq<RawTab>, tabs: seq<Tab>) {
    |raws| == |tabs| && forall i: nat | i < |tabs| :: Matches(raws[i], tabs[i])
  }

  lemma TakeReportsIff(p: Progress, raw: RawTab)
    requires p.nextRepair > 0
    ensures var q := Take(p, raw);
      !q.repaired <==> !p.repaired && q.tabs != p.tabs && Matches(raw, q.tabs[|p.tabs|])
  {
  }

  lemma {:induction false} TakeAllReportsIff(raws: seq<RawTab>)
    ensures |TakeAll(raws).tabs| <= |raws|
    ensures !TakeAll(raws).repaired <==> AllMatch(raws, TakeAll(raws).tabs)
  {
    if raws != [] {
      var n := |raws| - 1;
      var before := raws[..n];
      var p, q := TakeAll(before), TakeAll(raws);
      TakeAllReportsIff(before);
      TakeAllIsSound(before);
      TakeReportsIff(p, raws[n]);
      if AllMatch(raws, q.tabs) {
        assert q.tabs[..n] == p.tabs;
        assert forall i: nat | i < n :: Matches(before[i], p.tabs[i]);
      }
    }
  }

  /** The saved value is the saved form of `layout`, apart from session fields that name no session. */
  predicate Saved(raw: Raw, layout: Layout) {
    && raw.RawLayout?
    && raw.version == Number(LAYOUT_VERSION)
    && raw.tabs.Some? && AllMatch(raw.tabs.value, layout.tabs)
    && raw.nextDisplayNumber == Number(layout.nextDisplayNumber)
  }

  /** `repaired` is false exactly when the saved value already said what the restored layout says. */
  lemma ReportsIff(raw: Raw, id: string)
    ensures !Restore(raw, id).1 <==> Saved(raw, Restore(raw, id).0)
  {
    if raw.RawLayout? && raw.version == Number(LAYOUT_VERSION) && raw.tabs.Some? {
      var p := TakeAll(raw.tabs.value);
      TakeAllReportsIff(raw.tabs.value);
      if p.tabs != [] && FirstDocked(p.tabs).None? && Saved(raw, Restore(raw, id).0) {
        assert Matches(raw.tabs.value[0], Restore(raw, id).0.tabs[0]);
        FirstTabKeepsPlacement(raw.tabs.value);
      }
    }
  }

  /** If the first saved tab is kept under its own identifier and number, it keeps its saved placement. */
  lemma {:induction false} FirstTabKeepsPlacement(raws: seq<RawTab>)
    requires raws != []
    ensures var tabs := TakeAll(raws).tabs;
      tabs != [] && |tabs| == |raws| && raws[0].RawTab? ==> tabs[0].placement == DecodePlacement(raws[0].placement)
  {
    var n := |raws| - 1;
    TakeAllReportsIff(raws[..n]);
    if n > 0 {
      FirstTabKeepsPlacement(raws[..n]);
    }
  }

  lemma TakeInverts(p: Progress, t: Tab)
    requires Sound(p.tabs + [t]) && !p.repaired
    ensures var q := Take(p, EncodeTab(t)); q.tabs == p.tabs + [t] && !q.repaired
  {
    var tabs, n := p.tabs + [t], |p.tabs|;
    assert tabs[n] == t && TabOk(tabs[n]);
    assert forall i: nat | i < n :: tabs[i] == p.tabs[i];
  }

  lemma SoundPrefix(tabs: seq<Tab>, n: nat)
    requires Sound(tabs) && n <= |tabs|
    ensures Sound(tabs[..n])
  {
  }

  lemma {:induction false} TakeAllInverts(tabs: seq<Tab>, n: nat)
    requires Sound(tabs) && n <= |tabs|
    ensures var p := TakeAll(EncodeTabs(tabs)[..n]); p.tabs == tabs[..n] && !p.repaired
  {
    if n > 0 {
      TakeAllInverts(tabs, n - 1);
      SoundPrefix(tabs, n);
      assert EncodeTabs(tabs)[..n][..n - 1] == EncodeTabs(tabs)[..n - 1];
      assert tabs[..n] == tabs[..n - 1] + [tabs[n - 1]];
      TakeInverts(TakeAll(EncodeTabs(tabs)[..n - 1]), tabs[n - 1]);
    }
  }

  lemma FinishInverts(p: Progress, layout: Layout, id: string)
    requires Complete(layout) && p.tabs == layout.tabs && !p.repaired
    ensures Finish(p, Number(layout.nextDisplayNumber), id) == (layout, false)
  {
    HighestIsHighest(layout.tabs);
  }

  /** A layout saved by this controller is restored as it was, and nothing is reported. */
  lemma RestoreInvertsEncode(layout: Layout, id: string)
    requires Complete(layout)
    ensures Restore(Encode(layout), id) == (layout, false)
  {
    TakeAllInverts(layout.tabs, |layout.tabs|);
    assert EncodeTabs(layout.tabs)[..|layout.tabs|] == EncodeTabs(layout.tabs);
    FinishInverts(TakeAll(EncodeTabs(layout.tabs)), layout, id);
  }

  /** Restoring what was restored and saved changes nothing. */
  lemma RestoreIsIdempotent(raw: Raw, id: string, other: string)
    requires id != ""
    ensures Restore(Encode(Restore(raw, id).0), other) == (Restore(raw, id).0, false)
  {
    RestoreIsComplete(raw, id);
    RestoreInvertsEncode(Restore(raw, id).0, other);
  }

  predicate NamesOrNull(f: Field) {
    f == Null || UsableText(f).Some?
  }

  lemma MatchIsEncodingIff(raw: RawTab, t: Tab)
    requires Matches(raw, t)
    ensures raw == EncodeTab(t) <==> NamesOrNull(raw.sessionId)
  {
  }

  /**
   What goes unreported: a value restored without a report is the saved form of the result if and only if
   each of its session fields is null or names a session.
   */
  lemma UnreportedMeansUnchangedIff(raw: Raw, id: string)
    requires !Restore(raw, id).1
    ensures Saved(raw, Restore(raw, id).0)
    ensures raw == Encode(Restore(raw, id).0) <==>
            forall i: nat | i < |raw.tabs.value| :: NamesOrNull(raw.tabs.value[i].sessionId)
  {
    ReportsIff(raw, id);
    var layout, raws := Restore(raw, id).0, raw.tabs.value;
    forall i: nat | i < |raws|
      ensures raws[i] == EncodeTab(layout.tabs[i]) <==> NamesOrNull(raws[i].sessionId)
    {
      MatchIsEncodingIff(raws[i], layout.tabs[i]);
    }
    assert raw == Encode(layout) <==> raws == EncodeTabs(layout.tabs);
    assert raws == EncodeTabs(layout.tabs) <==> forall i: nat | i < |raws| :: raws[i] == EncodeTab(layout.tabs[i]);
  }
}
