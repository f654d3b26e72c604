/**
 What becomes of each saved tab, and of the layout as a whole, when a layout is restored:
 `restoreLayout` of src/agent/ChatTabController.ts. The saved form is spelled out as well.
 */
module LayoutAnswers {
  import opened Wrappers
  import opened TabController
  import opened LayoutRestore

  /** How a tab is saved. */
  lemma SavedForm(t: Tab)
    ensures EncodeTab(t) ==
            RawTab(Text(t.id), Number(t.displayNumber),
                   if t.sessionId.Some? then Text(t.sessionId.value) else Null,
                   Text(if t.placement == Popped then "popped" else "docked"), Number(t.terminalGeneration))
  {
  }

  lemma SavedLayout(layout: Layout)
    ensures var saved := Encode(layout);
      && saved == RawLayout(Number(1), saved.tabs, Number(layout.nextDisplayNumber))
      && saved.tabs.Some? && |saved.tabs.value| == |layout.tabs|
      && forall i: nat | i < |layout.tabs| :: saved.tabs.value[i] == EncodeTab(layout.tabs[i])
  {
  }

  // ---------------------------------------------------------------- one saved tab

  predicate HasId(tabs: seq<Tab>, id: string) {
    exists i: nat :: i < |tabs| && tabs[i].id == id
  }

  predicate HasNumber(tabs: seq<Tab>, number: int) {
    exists i: nat :: i < |tabs| && tabs[i].displayNumber == number
  }

  predicate HasSession(tabs: seq<Tab>, session: string) {
    exists i: nat :: i < |tabs| && tabs[i].sessionId == Some(session)
  }

  /** The highest number of the tabs, or 0 if there are none. */
  predicate IsTop(tabs: seq<Tab>, top: int) {
    && (forall i: nat | i < |tabs| :: tabs[i].displayNumber <= top)
    && (if tabs == [] then top == 0 else HasNumber(tabs, top))
  }

  lemma SetsSay(tabs: seq<Tab>)
    ensures forall id :: id in Ids(tabs) <==> HasId(tabs, id)
    ensures forall n :: n in Numbers(tabs) <==> HasNumber(tabs, n)
    ensures forall s :: s in Sessions(tabs) <==> HasSession(tabs, s)
  {
  }

  /** The next number a repair would try is always the one above the highest. */
  lemma {:induction false} RepairsAreAboveTheTop(raws: seq<RawTab>)
    ensures IsTop(TakeAll(raws).tabs, TakeAll(raws).nextRepair - 1)
  {
    if raws != [] {
      RepairsAreAboveTheTop(raws[..|raws| - 1]);
      TopGrows(TakeAll(raws[..|raws| - 1]), raws[|raws| - 1]);
    }
  }

  lemma TopGrows(p: Progress, raw: RawTab)
    requires IsTop(p.tabs, p.nextRepair - 1)
    ensures IsTop(Take(p, raw).tabs, Take(p, raw).nextRepair - 1)
  {
    var q := Take(p, raw);
    SetsSay(p.tabs);
    if q.tabs != p.tabs {
      assert forall i: nat | i < |p.tabs| :: q.tabs[i] == p.tabs[i];
      var number := q.tabs[|p.tabs|].displayNumber;
      assert p.nextRepair !in Numbers(p.tabs);
      if number != q.nextRepair - 1 {
        var i: nat :| i < |p.tabs| && p.tabs[i].displayNumber == p.nextRepair - 1;
        assert q.tabs[i].displayNumber == q.nextRepair - 1;
      }
    }
  }

  lemma OneTop(tabs: seq<Tab>, top: int, other: int)
    requires IsTop(tabs, top) && IsTop(tabs, other)
    ensures top == other
  {
  }

  /** A saved tab is skipped if it is none, has no identifier, or has one that was taken. */
  predicate IsSkipped(tabs: seq<Tab>, raw: RawTab) {
    raw.NotATab? || !raw.id.Text? || raw.id.s == "" || HasId(tabs, raw.id.s)
  }

  lemma NextIsFree(tabs: seq<Tab>, top: int)
    requires IsTop(tabs, top)
    ensures LowestFree(Numbers(tabs), top + 1) == top + 1
  {
    assert top + 1 !in Numbers(tabs);
  }

  /**
   Any other saved tab is taken: with its number unless that is unusable or taken, then with the one above the
   highest; with its session unless that is open in a tab before it; docked unless it says "popped".
   */
  function WithSaved(tabs: seq<Tab>, raw: RawTab, top: int): seq<Tab> {
    if IsSkipped(tabs, raw) then tabs
    else tabs + [Tab(
      raw.id.s,
      if raw.displayNumber.Number? && raw.displayNumber.n > 0 && !HasNumber(tabs, raw.displayNumber.n)
      then raw.displayNumber.n else top + 1,
      if raw.sessionId.Text? && raw.sessionId.s != "" && !HasSession(tabs, raw.sessionId.s)
      then Some(raw.sessionId.s) else None,
      if raw.placement == Text("popped") then Popped else Docked,
      if raw.terminalGeneration.Number? && raw.terminalGeneration.n > 0 then raw.terminalGeneration.n else 1)]
  }

  lemma TakeSays(p: Progress, raw: RawTab, top: int)
    requires IsTop(p.tabs, top) && p.nextRepair == top + 1
    ensures Take(p, raw).tabs == WithSaved(p.tabs, raw, top)
  {
    NextIsFree(p.tabs, top);
    SetsSay(p.tabs);
    hide IsTop, HasId, HasNumber, HasSession, Ids, Numbers, Sessions, LowestFree;
  }

  /** The tabs that are taken, one saved tab at a time. */
  lemma TakeAnswers(raws: seq<RawTab>, raw: RawTab, top: int)
    requires IsTop(TakeAll(raws).tabs, top)
    ensures TakeAll([]).tabs == []
    ensures TakeAll(raws + [raw]).tabs == WithSaved(TakeAll(raws).tabs, raw, top)
  {
    var p := TakeAll(raws);
    assert (raws + [raw])[..|raws|] == raws;
    assert TakeAll(raws + [raw]) == Take(p, raw);
    RepairsAreAboveTheTop(raws);
    hide TakeAll;
    OneTop(p.tabs, top, p.nextRepair - 1);
    TakeSays(p, raw, top);
    hide IsTop, Take, WithSaved;
  }

  // ---------------------------------------------------------------- the whole layout

  /** The first tab is docked if none is. */
  predicate DockedFirst(taken: seq<Tab>, tabs: seq<Tab>) {
    && |tabs| == |taken|
    && forall i: nat | i < |taken| ::
         tabs[i] == if i == 0 && (forall k: nat | k < |taken| :: taken[k].placement == Popped)
                    then taken[i].(placement := Docked) else taken[i]
  }

  /**
   A value that is no layout of this version, or has no tab that is taken, gives one docked tab. Otherwise the tabs
   that were taken stand in their order, one of them docked, and the next number is the saved one if that is
   above all of them.
   */
  lemma RestoreAnswers(raw: Raw, id: string, top: int)
    requires raw.RawLayout? && raw.tabs.Some? ==> IsTop(TakeAll(raw.tabs.value).tabs, top)
    ensures var layout := Restore(raw, id).0;
      if raw.NotALayout? || raw.version != Number(1) || raw.tabs.None? || TakeAll(raw.tabs.value).tabs == [] then
        layout == Layout([Tab(id, 1, None, Docked, 1)], 2) && Restore(raw, id).1
      else
        && DockedFirst(TakeAll(raw.tabs.value).tabs, layout.tabs)
        && layout.nextDisplayNumber ==
           if raw.nextDisplayNumber.Number? && raw.nextDisplayNumber.n > top then raw.nextDisplayNumber.n else top + 1
  {
    if raw.RawLayout? && raw.version == Number(1) && raw.tabs.Some? && TakeAll(raw.tabs.value).tabs != [] {
      hide TakeAll, Take;
      var taken := TakeAll(raw.tabs.value).tabs;
      var tabs := Restore(raw, id).0.tabs;
      FirstDockedSays(taken);
      HighestIsHighest(tabs);
      assert |tabs| == |taken| && forall i: nat | i < |taken| :: tabs[i].displayNumber == taken[i].displayNumber;
      var i: nat :| i < |taken| && taken[i].displayNumber == top;
      assert tabs[i].displayNumber == top;
    }
  }

  lemma {:induction false} FirstDockedSays(tabs: seq<Tab>)
    ensures FirstDocked(tabs).None? <==> forall k: nat | k < |tabs| :: tabs[k].placement == Popped
  {
    if tabs != [] {
      FirstDockedSays(tabs[1..]);
      assert forall k: nat | k < |tabs| - 1 :: tabs[1..][k] == tabs[k + 1];
      assert forall k: nat | 0 < k < |tabs| :: tabs[k] == tabs[1..][k - 1];
    }
  }
}
