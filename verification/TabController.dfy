/**
 The tabs of the chat panel: src/agent/ChatTabController.ts.

 A layout is an immutable object that every change replaces; `stamp` stands for its
 identity, which `setPlacement` compares before it undoes a change that could not be
 saved. Each method of the class is the part of a call that runs before its first
 await, where every change of the layout happens; the rest of a call only notifies and saves,
 except that a failed save of `setPlacement` runs `UndoPlacement`.
 */
module TabController {
  import opened Wrappers

  datatype Placement = Docked | Popped

  datatype Tab = Tab(id: string, displayNumber: int, sessionId: Option<string>, placement: Placement,
                     terminalGeneration: int)

  datatype Layout = Layout(tabs: seq<Tab>, nextDisplayNumber: int)

  /** The fields of the controller. `stamps` is the next unused identity. */
  datatype Controller = Controller(layout: Layout, stamp: nat, stamps: nat, focused: string)

  datatype ReplaceResult = Replaced(tab: Tab) | NotReplaced(reason: Reason)

  datatype Reason = NotFound | Conflict | AlreadyOpen | LastDocked

  datatype PlaceResult = Unchanged(tab: Tab) | Placed(undo: Undo, tab: Tab) | NotPlaced(reason: Reason)

  /** What `setPlacement` keeps while its save is under way. */
  datatype Undo = Undo(attempted: nat, previousStamp: nat, previousLayout: Layout, previousFocused: string)

  // ---------------------------------------------------------------- lookups

  function IndexOf(tabs: seq<Tab>, id: string): (i: Option<nat>)
    ensures i.Some? ==> i.value < |tabs| && tabs[i.value].id == id
    ensures i.None? ==> forall k: nat | k < |tabs| :: tabs[k].id != id
  {
    if tabs == [] then None
    else if tabs[0].id == id then Some(0)
    else match IndexOf(tabs[1..], id)
      case Some(i) => Some(i + 1)
      case None => assert forall k: nat | 0 < k < |tabs| :: tabs[k] == tabs[1..][k - 1]; None
  }

  function IndexOfSession(tabs: seq<Tab>, sessionId: string): (i: Option<nat>)
    ensures i.Some? ==> i.value < |tabs| && tabs[i.value].sessionId == Some(sessionId)
    ensures i.None? ==> forall k: nat | k < |tabs| :: tabs[k].sessionId != Some(sessionId)
  {
    if tabs == [] then None
    else if tabs[0].sessionId == Some(sessionId) then Some(0)
    else match IndexOfSession(tabs[1..], sessionId)
      case Some(i) => Some(i + 1)
      case None => assert forall k: nat | 0 < k < |tabs| :: tabs[k] == tabs[1..][k - 1]; None
  }

  function FirstDocked(tabs: seq<Tab>): (i: Option<nat>)
    ensures i.Some? ==> i.value < |tabs| && tabs[i.value].placement == Docked
    ensures i.None? ==> forall k: nat | k < |tabs| :: tabs[k].placement != Docked
  {
    if tabs == [] then None
    else if tabs[0].placement == Docked then Some(0)
    else match FirstDocked(tabs[1..])
      case Some(i) => Some(i + 1)
      case None => assert forall k: nat | 0 < k < |tabs| :: tabs[k] == tabs[1..][k - 1]; None
  }

  function DockedCount(tabs: seq<Tab>): nat {
    if tabs == [] then 0 else (if tabs[0].placement == Docked then 1 else 0) + DockedCount(tabs[1..])
  }

  /** Some docked tab other than tab `i`. */
  lemma {:induction false} AnotherDocked(tabs: seq<Tab>, i: nat)
    requires i < |tabs| && tabs[i].placement == Docked
    ensures DockedCount(tabs) >= 1
    ensures DockedCount(tabs) != 1 ==> exists k: nat :: k < |tabs| && k != i && tabs[k].placement == Docked
  {
    if i == 0 {
      if DockedCount(tabs) != 1 {
        var k := DockedExists(tabs[1..]);
        assert tabs[k + 1].placement == Docked;
      }
    } else {
      AnotherDocked(tabs[1..], i - 1);
      if tabs[0].placement != Docked && DockedCount(tabs) != 1 {
        var k: nat :| k < |tabs[1..]| && k != i - 1 && tabs[1..][k].placement == Docked;
        assert tabs[k + 1].placement == Docked;
      }
    }
  }

  lemma {:induction false} DockedExists(tabs: seq<Tab>) returns (k: nat)
    requires DockedCount(tabs) > 0
    ensures k < |tabs| && tabs[k].placement == Docked
  {
    if tabs[0].placement == Docked {
      k := 0;
    } else {
      k := DockedExists(tabs[1..]);
      k := k + 1;
    }
  }

  function Numbers(tabs: seq<Tab>): set<int> {
    set i: nat | i < |tabs| :: tabs[i].displayNumber
  }

  /** The least number from `n` on that is not in `used`. */
  function LowestFree(used: set<int>, n: int): (r: int)
    ensures n <= r && r !in used
    ensures forall k: int | n <= k < r :: k in used
    decreases used
  {
    if n in used then LowestFree(used - {n}, n + 1) else n
  }

  // ---------------------------------------------------------------- the invariant

  predicate IdsDiffer(tabs: seq<Tab>) {
    forall i: nat, k: nat | i < k < |tabs| :: tabs[i].id != tabs[k].id
  }

  predicate NumbersDiffer(tabs: seq<Tab>) {
    forall i: nat, k: nat | i < k < |tabs| :: tabs[i].displayNumber != tabs[k].displayNumber
  }

  /** No two tabs show the same session. The empty string is not a session id the controller looks for. */
  predicate SessionsDiffer(tabs: seq<Tab>) {
    forall i: nat, k: nat | i < k < |tabs| ::
      tabs[i].sessionId == tabs[k].sessionId ==> tabs[i].sessionId.None? || tabs[i].sessionId.value == ""
  }

  predicate NumbersBelow(layout: Layout) {
    forall i: nat | i < |layout.tabs| :: 0 < layout.tabs[i].displayNumber < layout.nextDisplayNumber
  }

  predicate HasDocked(tabs: seq<Tab>, id: string) {
    exists i: nat :: i < |tabs| && tabs[i].id == id && tabs[i].placement == Docked
  }

  predicate Good(layout: Layout, focused: string) {
    && IdsDiffer(layout.tabs)
    && NumbersDiffer(layout.tabs)
    && SessionsDiffer(layout.tabs)
    && NumbersBelow(layout)
    && HasDocked(layout.tabs, focused)
  }

  predicate Valid(c: Controller) {
    Good(c.layout, c.focused) && c.stamp < c.stamps
  }

  // ---------------------------------------------------------------- what each call does

  function WithTabs(c: Controller, tabs: seq<Tab>, next: int, focused: string): Controller {
    Controller(Layout(tabs, next), c.stamps, c.stamps + 1, focused)
  }

  /** `replaceTab`: the tab with this id is replaced. */
  function ReplaceTab(tabs: seq<Tab>, tab: Tab): (r: seq<Tab>)
    ensures |r| == |tabs|
    ensures forall i: nat | i < |tabs| :: r[i] == if tabs[i].id == tab.id then tab else tabs[i]
  {
    seq(|tabs|, i requires 0 <= i < |tabs| => if tabs[i].id == tab.id then tab else tabs[i])
  }

  function Focus(c: Controller, id: string): (Controller, bool) {
    var i := IndexOf(c.layout.tabs, id);
    if i.None? || c.layout.tabs[i.value].placement != Docked then (c, false)
    else (c.(focused := id), true)
  }

  /** Opening a tab that is already there only moves the focus, and only to a docked tab. */
  function FocusExisting(c: Controller, i: nat): (Controller, Tab)
    requires i < |c.layout.tabs|
  {
    var existing := c.layout.tabs[i];
    (if existing.placement == Docked then c.(focused := existing.id) else c, existing)
  }

  /** `id` is the identifier drawn by `createUniqueId`. */
  function Create(c: Controller, sessionId: Option<string>, id: string): (Controller, Tab) {
    var existing :=
      if sessionId.Some? && sessionId.value != "" then IndexOfSession(c.layout.tabs, sessionId.value) else None;
    if existing.Some? then
      FocusExisting(c, existing.value)
    else
      var number := LowestFree(Numbers(c.layout.tabs), 1);
      var tab := Tab(id, number, sessionId, Docked, 1);
      var next := if c.layout.nextDisplayNumber > number + 1 then c.layout.nextDisplayNumber else number + 1;
      (WithTabs(c, c.layout.tabs + [tab], next, id), tab)
  }

  function Bind(c: Controller, sessionId: string): (Controller, Tab)
    requires IndexOf(c.layout.tabs, c.focused).Some?
  {
    var existing := IndexOfSession(c.layout.tabs, sessionId);
    if existing.Some? then
      FocusExisting(c, existing.value)
    else
      var focused := c.layout.tabs[IndexOf(c.layout.tabs, c.focused).value];
      var generation := focused.terminalGeneration + (if focused.sessionId.Some? then 1 else 0);
      var tab := focused.(sessionId := Some(sessionId), terminalGeneration := generation);
      (WithTabs(c, ReplaceTab(c.layout.tabs, tab), c.layout.nextDisplayNumber, c.focused), tab)
  }

  predicate OpenElsewhere(tabs: seq<Tab>, id: string, sessionId: string) {
    exists i: nat :: i < |tabs| && tabs[i].id != id && tabs[i].sessionId == Some(sessionId)
  }

  function Replace(c: Controller, id: string, expected: Option<string>, sessionId: Option<string>)
    : (Controller, ReplaceResult)
  {
    var i := IndexOf(c.layout.tabs, id);
    if i.None? then
      (c, NotReplaced(NotFound))
    else
      var tab := c.layout.tabs[i.value];
      if tab.sessionId != expected then
        (c, NotReplaced(Conflict))
      else if sessionId.Some? && OpenElsewhere(c.layout.tabs, id, sessionId.value) then
        (c, NotReplaced(AlreadyOpen))
      else if sessionId == tab.sessionId then
        (c, Replaced(tab))
      else
        var next := tab.(sessionId := sessionId, terminalGeneration := tab.terminalGeneration + 1);
        (WithTabs(c, ReplaceTab(c.layout.tabs, next), c.layout.nextDisplayNumber, c.focused), Replaced(next))
  }

  function SetOf(ids: seq<string>): set<string> {
    set i: nat | i < |ids| :: ids[i]
  }

  predicate AllKnown(tabs: seq<Tab>, ids: seq<string>) {
    forall i: nat | i < |ids| :: IndexOf(tabs, ids[i]).Some?
  }

  function Picked(tabs: seq<Tab>, ids: seq<string>): (r: seq<Tab>)
    requires AllKnown(tabs, ids)
    ensures |r| == |ids|
    ensures forall i: nat | i < |ids| :: r[i] == tabs[IndexOf(tabs, ids[i]).value]
  {
    seq(|ids|, i requires 0 <= i < |ids| => tabs[IndexOf(tabs, ids[i]).value])
  }

  function Reorder(c: Controller, ids: seq<string>): (Controller, bool) {
    if |ids| != |c.layout.tabs| || |SetOf(ids)| != |c.layout.tabs| || !AllKnown(c.layout.tabs, ids) then
      (c, false)
    else
      (WithTabs(c, Picked(c.layout.tabs, ids), c.layout.nextDisplayNumber, c.focused), true)
  }

  /** `canSetPlacement` */
  function MayPlace(c: Controller, id: string, expected: Placement, placement: Placement): PlaceResult {
    var i := IndexOf(c.layout.tabs, id);
    if i.None? then NotPlaced(NotFound)
    else
      var tab := c.layout.tabs[i.value];
      if tab.placement != expected then NotPlaced(Conflict)
      else if placement == Popped && tab.placement != placement && DockedCount(c.layout.tabs) == 1
      then NotPlaced(LastDocked)
      else Unchanged(tab)
  }

  function Place(c: Controller, id: string, expected: Placement, placement: Placement): (Controller, PlaceResult) {
    var may := MayPlace(c, id, expected, placement);
    if !may.Unchanged? || may.tab.placement == placement then
      (c, may)
    else
      var next := may.tab.(placement := placement);
      var tabs := ReplaceTab(c.layout.tabs, next);
      var first := FirstDocked(tabs);
      var focused :=
        if c.focused == id && placement == Popped && first.Some? then tabs[first.value].id else c.focused;
      (WithTabs(c, tabs, c.layout.nextDisplayNumber, focused),
       Placed(Undo(c.stamps, c.stamp, c.layout, c.focused), next))
  }

  /** The save of a placement failed; it is undone unless the layout has been replaced since. */
  function UndoPlacement(c: Controller, undo: Undo): Controller {
    if c.stamp == undo.attempted
    then Controller(undo.previousLayout, undo.previousStamp, c.stamps, undo.previousFocused)
    else c
  }

  /** Without the tab at `i`. */
  function Without(tabs: seq<Tab>, i: nat): (r: seq<Tab>)
    requires i < |tabs|
    ensures |r| == |tabs| - 1
    ensures forall k: nat | k < |r| :: r[k] == if k < i then tabs[k] else tabs[k + 1]
  {
    tabs[..i] + tabs[i + 1..]
  }

  function Close(c: Controller, id: string): (Controller, bool) {
    var i := IndexOf(c.layout.tabs, id);
    if i.None? || |c.layout.tabs| == 1 then
      (c, false)
    else if c.layout.tabs[i.value].placement == Docked && DockedCount(c.layout.tabs) == 1 then
      (c, false)
    else
      var tabs := Without(c.layout.tabs, i.value);
      var first := FirstDocked(tabs);
      var focused := if c.focused == id && first.Some? then tabs[first.value].id else c.focused;
      (WithTabs(c, tabs, c.layout.nextDisplayNumber, focused), true)
  }

  // ---------------------------------------------------------------- every call keeps the invariant

  lemma ReplaceTabKeeps(tabs: seq<Tab>, tab: Tab, i: nat)
    requires IdsDiffer(tabs) && i < |tabs| && tabs[i].id == tab.id
    ensures ReplaceTab(tabs, tab) == tabs[i := tab]
    ensures IdsDiffer(ReplaceTab(tabs, tab))
  {
    forall k: nat | k < |tabs|
      ensures ReplaceTab(tabs, tab)[k] == tabs[i := tab][k]
    {
      assert k != i ==> tabs[k].id != tabs[i].id;
    }
  }

  lemma CreateKeepsValid(c: Controller, sessionId: Option<string>, id: string)
    requires Valid(c) && IndexOf(c.layout.tabs, id).None?
    ensures Valid(Create(c, sessionId, id).0)
  {
    var existing :=
      if sessionId.Some? && sessionId.value != "" then IndexOfSession(c.layout.tabs, sessionId.value) else None;
    if existing.None? {
      var number := LowestFree(Numbers(c.layout.tabs), 1);
      forall i: nat | i < |c.layout.tabs|
        ensures c.layout.tabs[i].displayNumber != number
      {
        assert c.layout.tabs[i].displayNumber in Numbers(c.layout.tabs);
      }
      var d := Create(c, sessionId, id).0;
      assert d.layout.tabs[|c.layout.tabs|].id == id;
    } else {
      assert c.layout.tabs[existing.value].id == c.layout.tabs[existing.value].id;
    }
  }

  lemma BindKeepsValid(c: Controller, sessionId: string)
    requires Valid(c)
    ensures Valid(Bind(c, sessionId).0)
  {
    if IndexOfSession(c.layout.tabs, sessionId).None? {
      var i := IndexOf(c.layout.tabs, c.focused).value;
      ReplaceTabKeeps(c.layout.tabs, Bind(c, sessionId).1, i);
      assert Bind(c, sessionId).0.layout.tabs[i].id == c.focused;
    }
  }

  lemma ReplaceKeepsValid(c: Controller, id: string, expected: Option<string>, sessionId: Option<string>)
    requires Valid(c)
    ensures Valid(Replace(c, id, expected, sessionId).0)
  {
    var (d, result) := Replace(c, id, expected, sessionId);
    if d != c {
      var i := IndexOf(c.layout.tabs, id).value;
      ReplaceTabKeeps(c.layout.tabs, result.tab, i);
      forall k: nat | k < |c.layout.tabs| && k != i
        ensures c.layout.tabs[k].sessionId == sessionId ==> sessionId.None?
      {
        assert c.layout.tabs[k].id != id;
      }
      var f: nat :| f < |c.layout.tabs| && c.layout.tabs[f].id == c.focused && c.layout.tabs[f].placement == Docked;
      assert d.layout.tabs[f].id == c.focused && d.layout.tabs[f].placement == Docked;
    }
  }

  // Reordering: as many known identifiers as tabs, all different, are all the tabs.

  lemma {:induction false} FewerWhenMissing(tabs: seq<Tab>, ids: set<string>, missing: string)
    requires forall id | id in ids :: IndexOf(tabs, id).Some? && id != missing
    requires IndexOf(tabs, missing).Some?
    ensures |ids| < |tabs|
    decreases |tabs|
  {
    var rest, first := tabs[1..], tabs[0].id;
    var others := ids - {first};
    assert |ids| <= |others| + 1 by {
      if first in ids {
        assert ids == others + {first};
      } else {
        assert ids == others;
      }
    }
    forall id | id in others
      ensures IndexOf(rest, id).Some?
    {
      assert IndexOf(tabs, id).value > 0;
    }
    if missing == first {
      assert others == ids;
      AtMostOnePerTab(rest, ids);
    } else {
      assert IndexOf(tabs, missing).value > 0;
      FewerWhenMissing(rest, others, missing);
    }
  }

  lemma {:induction false} AtMostOnePerTab(tabs: seq<Tab>, ids: set<string>)
    requires forall id | id in ids :: IndexOf(tabs, id).Some?
    ensures |ids| <= |tabs|
  {
    if tabs == [] {
      assert forall id: string :: IndexOf(tabs, id).None?;
      assert ids == {};
    } else {
      var first := tabs[0].id;
      var others := ids - {first};
      forall id | id in others
        ensures IndexOf(tabs[1..], id).Some?
      {
        assert IndexOf(tabs, id).value > 0;
      }
      AtMostOnePerTab(tabs[1..], others);
      assert ids <= others + {first};
      assert |ids| <= |others + {first}|;
    }
  }

  lemma ReorderKeepsValid(c: Controller, ids: seq<string>)
    requires Valid(c)
    ensures Valid(Reorder(c, ids).0)
  {
    var (d, done) := Reorder(c, ids);
    if done {
      var tabs, picked := c.layout.tabs, d.layout.tabs;
      IdsAreDistinct(ids);
      forall i: nat, k: nat | i < k < |ids|
        ensures IndexOf(tabs, ids[i]).value != IndexOf(tabs, ids[k]).value
      {
      }
      PickedKeeps(tabs, ids);
      var f: nat :| f < |tabs| && tabs[f].id == c.focused && tabs[f].placement == Docked;
      FocusIsPicked(tabs, ids, f);
    }
  }

  lemma PickedKeeps(tabs: seq<Tab>, ids: seq<string>)
    requires AllKnown(tabs, ids)
    requires IdsDiffer(tabs) && NumbersDiffer(tabs) && SessionsDiffer(tabs)
    requires forall i: nat, k: nat | i < k < |ids| :: IndexOf(tabs, ids[i]).value != IndexOf(tabs, ids[k]).value
    ensures var picked := Picked(tabs, ids); IdsDiffer(picked) && NumbersDiffer(picked) && SessionsDiffer(picked)
  {
    var picked := Picked(tabs, ids);
    forall i: nat, k: nat | i < k < |ids|
      ensures picked[i].id != picked[k].id && picked[i].displayNumber != picked[k].displayNumber
      ensures picked[i].sessionId == picked[k].sessionId
              ==> picked[i].sessionId.None? || picked[i].sessionId.value == ""
    {
      var a, b := IndexOf(tabs, ids[i]).value, IndexOf(tabs, ids[k]).value;
      assert a < b || b < a;
    }
  }

  lemma {:induction false} IdsAreDistinct(ids: seq<string>)
    requires |SetOf(ids)| == |ids|
    ensures forall i: nat, k: nat | i < k < |ids| :: ids[i] != ids[k]
  {
    if ids != [] {
      var last := |ids| - 1;
      var before := ids[..last];
      assert SetOf(ids) == SetOf(before) + {ids[last]} by {
        assert forall i: nat | i < last :: before[i] in SetOf(before);
      }
      SetIsNoLarger(before);
      SizeWithOneMore(SetOf(before), ids[last]);
      IdsAreDistinct(before);
      assert forall i: nat | i < last :: before[i] in SetOf(before);
    }
  }

  lemma SizeWithOneMore(ids: set<string>, id: string)
    ensures |ids + {id}| == |ids| + (if id in ids then 0 else 1)
  {
    if id in ids {
      assert ids + {id} == ids;
    }
  }

  lemma {:induction false} SetIsNoLarger(ids: seq<string>)
    ensures |SetOf(ids)| <= |ids|
  {
    if ids == [] {
      assert SetOf(ids) == {};
    } else {
      var last := |ids| - 1;
      SetIsNoLarger(ids[..last]);
      assert SetOf(ids) <= SetOf(ids[..last]) + {ids[last]} by {
        forall i: nat | i < |ids|
          ensures ids[i] in SetOf(ids[..last]) + {ids[last]}
        {
          assert i < last ==> ids[..last][i] in SetOf(ids[..last]);
        }
      }
      SubsetIsNoLarger(SetOf(ids), SetOf(ids[..last]) + {ids[last]});
    }
  }

  lemma {:induction false} SubsetIsNoLarger(a: set<string>, b: set<string>)
    requires a <= b
    ensures |a| <= |b|
  {
    assert b == a + (b - a);
  }

  lemma FocusIsPicked(tabs: seq<Tab>, ids: seq<string>, f: nat)
    requires IdsDiffer(tabs) && f < |tabs| && tabs[f].placement == Docked
    requires AllKnown(tabs, ids) && |SetOf(ids)| == |tabs|
    ensures HasDocked(Picked(tabs, ids), tabs[f].id)
  {
    if tabs[f].id !in SetOf(ids) {
      FewerWhenMissing(tabs, SetOf(ids), tabs[f].id);
      assert false;
    }
    var i: nat :| i < |ids| && ids[i] == tabs[f].id;
    assert IndexOf(tabs, ids[i]).value == f;
    assert Picked(tabs, ids)[i] == tabs[f];
  }

  lemma MovedKeeps(layout: Layout, i: nat, placement: Placement)
    requires i < |layout.tabs| && IdsDiffer(layout.tabs) && NumbersDiffer(layout.tabs)
    requires SessionsDiffer(layout.tabs) && NumbersBelow(layout)
    ensures var moved := layout.tabs[i := layout.tabs[i].(placement := placement)];
      IdsDiffer(moved) && NumbersDiffer(moved) && SessionsDiffer(moved)
      && NumbersBelow(Layout(moved, layout.nextDisplayNumber))
  {
  }

  lemma PlaceKeepsValid(c: Controller, id: string, expected: Placement, placement: Placement)
    requires Valid(c)
    ensures Valid(Place(c, id, expected, placement).0)
  {
    var (d, result) := Place(c, id, expected, placement);
    if result.Placed? {
      var i := IndexOf(c.layout.tabs, id).value;
      ReplaceTabKeeps(c.layout.tabs, result.tab, i);
      MovedKeeps(c.layout, i, placement);
      PlaceKeepsFocus(c, id, expected, placement, i);
    }
  }

  lemma PlaceKeepsFocus(c: Controller, id: string, expected: Placement, placement: Placement, i: nat)
    requires Valid(c) && Place(c, id, expected, placement).1.Placed? && IndexOf(c.layout.tabs, id) == Some(i)
    requires Place(c, id, expected, placement).0.layout.tabs
          == c.layout.tabs[i := c.layout.tabs[i].(placement := placement)]
    ensures var d := Place(c, id, expected, placement).0; HasDocked(d.layout.tabs, d.focused)
  {
    var d := Place(c, id, expected, placement).0;
    if placement == Popped {
      AnotherDocked(c.layout.tabs, i);
      var k: nat :| k < |c.layout.tabs| && k != i && c.layout.tabs[k].placement == Docked;
      assert d.layout.tabs[k].placement == Docked;
    }
    FocusSurvives(c, d, id, i);
  }

  /** After tab `i` changed its placement, the focus is on a docked tab. */
  lemma FocusSurvives(c: Controller, d: Controller, id: string, i: nat)
    requires Valid(c) && i < |c.layout.tabs| && c.layout.tabs[i].id == id
    requires exists tab: Tab :: tab.id == id && d.layout.tabs == c.layout.tabs[i := tab]
                             && (c.focused == id && d.focused == id ==> tab.placement == Docked)
    requires c.focused != id ==> d.focused == c.focused
    requires c.focused == id && d.focused != id ==> HasDocked(d.layout.tabs, d.focused)
    ensures HasDocked(d.layout.tabs, d.focused)
  {
    var f: nat :| f < |c.layout.tabs| && c.layout.tabs[f].id == c.focused && c.layout.tabs[f].placement == Docked;
    assert d.layout.tabs[f].id == c.focused;
  }

  lemma WithoutKeeps(layout: Layout, i: nat)
    requires i < |layout.tabs| && IdsDiffer(layout.tabs) && NumbersDiffer(layout.tabs)
    requires SessionsDiffer(layout.tabs) && NumbersBelow(layout)
    ensures var fewer := Without(layout.tabs, i);
      IdsDiffer(fewer) && NumbersDiffer(fewer) && SessionsDiffer(fewer)
      && NumbersBelow(Layout(fewer, layout.nextDisplayNumber))
  {
  }

  lemma CloseKeepsValid(c: Controller, id: string)
    requires Valid(c)
    ensures Valid(Close(c, id).0)
  {
    if Close(c, id).1 {
      var i := IndexOf(c.layout.tabs, id).value;
      WithoutKeeps(c.layout, i);
      CloseKeepsFocus(c, id, i);
    }
  }

  lemma CloseKeepsFocus(c: Controller, id: string, i: nat)
    requires IdsDiffer(c.layout.tabs) && HasDocked(c.layout.tabs, c.focused)
    requires Close(c, id).1 && IndexOf(c.layout.tabs, id) == Some(i)
    ensures var d := Close(c, id).0; HasDocked(d.layout.tabs, d.focused)
  {
    var tabs, d := c.layout.tabs, Close(c, id).0;
    var f: nat :| f < |tabs| && tabs[f].id == c.focused && tabs[f].placement == Docked;
    if f == i {
      var k := OtherDocked(tabs, i);
      assert d.layout.tabs[if k < i then k else k - 1].placement == Docked;
      var first := FirstDocked(d.layout.tabs).value;
      assert d.layout.tabs[first].id == d.focused;
    } else {
      assert c.focused != id by {
        assert tabs[f].id != tabs[i].id;
      }
      assert d.layout.tabs[if f < i then f else f - 1] == tabs[f];
    }
  }

  lemma OtherDocked(tabs: seq<Tab>, i: nat) returns (k: nat)
    requires i < |tabs| && tabs[i].placement == Docked && DockedCount(tabs) != 1
    ensures k < |tabs| && k != i && tabs[k].placement == Docked
  {
    AnotherDocked(tabs, i);
    k :| k < |tabs| && k != i && tabs[k].placement == Docked;
  }

  // ---------------------------------------------------------------- the controller

  class ChatTabController {
    var layout: Layout
    var stamp: nat
    var stamps: nat
    var focusedTabId: string

    function View(): Controller
      reads this
    {
      Controller(layout, stamp, stamps, focusedTabId)
    }

    /** `restored` is what `restoreLayout` made of the saved layout. */
    constructor (restored: Layout, first: nat)
      requires FirstDocked(restored.tabs) == Some(first)
      ensures View() == Controller(restored, 0, 1, restored.tabs[first].id)
    {
      layout := restored;
      stamp := 0;
      stamps := 1;
      focusedTabId := restored.tabs[first].id;
    }

    method SetLayout(next: Layout)
      modifies this
      ensures View() == Controller(next, old(stamps), old(stamps) + 1, old(focusedTabId))
    {
      layout := next;
      stamp := stamps;
      stamps := stamps + 1;
    }

    method FocusTab(tabId: string) returns (done: bool)
      modifies this`focusedTabId
      ensures (View(), done) == Focus(old(View()), tabId)
    {
      var i := IndexOf(layout.tabs, tabId);
      if i.None? || layout.tabs[i.value].placement != Docked {
        return false;
      }
      if focusedTabId != tabId {
        focusedTabId := tabId;
      }
      return true;
    }

    method LowestAvailableDisplayNumber() returns (displayNumber: int)
      ensures displayNumber == LowestFree(Numbers(layout.tabs), 1)
    {
      var used := Numbers(layout.tabs);
      ghost var rest := used;
      displayNumber := 1;
      while displayNumber in used
        invariant rest <= used && forall k | k in used && k >= displayNumber :: k in rest
        invariant LowestFree(used, 1) == LowestFree(rest, displayNumber)
        decreases rest
      {
        rest := rest - {displayNumber};
        displayNumber := displayNumber + 1;
      }
    }

    /** `id` was drawn until no tab had it. */
    method CreateTab(sessionId: Option<string>, id: string) returns (tab: Tab)
      requires IndexOf(layout.tabs, id).None?
      modifies this
      ensures (View(), tab) == Create(old(View()), sessionId, id)
    {
      if sessionId.Some? && sessionId.value != "" {
        var existing := IndexOfSession(layout.tabs, sessionId.value);
        if existing.Some? {
          tab := layout.tabs[existing.value];
          if tab.placement == Docked && focusedTabId != tab.id {
            focusedTabId := tab.id;
          }
          return;
        }
      }
      var displayNumber := LowestAvailableDisplayNumber();
      tab := Tab(id, displayNumber, sessionId, Docked, 1);
      SetLayout(Layout(layout.tabs + [tab],
                       if layout.nextDisplayNumber > displayNumber + 1 then layout.nextDisplayNumber
                       else displayNumber + 1));
      focusedTabId := tab.id;
    }

    method BindFocusedSession(sessionId: string) returns (tab: Tab)
      requires IndexOf(layout.tabs, focusedTabId).Some?
      modifies this
      ensures (View(), tab) == Bind(old(View()), sessionId)
    {
      var existing := IndexOfSession(layout.tabs, sessionId);
      if existing.Some? {
        tab := layout.tabs[existing.value];
        if tab.placement == Docked && focusedTabId != tab.id {
          focusedTabId := tab.id;
        }
        return;
      }
      var focused := layout.tabs[IndexOf(layout.tabs, focusedTabId).value];
      var replacingSession := focused.sessionId.Some?;
      var generation := if replacingSession then focused.terminalGeneration + 1 else focused.terminalGeneration;
      tab := focused.(sessionId := Some(sessionId), terminalGeneration := generation);
      SetLayout(Layout(ReplaceTab(layout.tabs, tab), layout.nextDisplayNumber));
    }

    method ReplaceSession(tabId: string, expectedSessionId: Option<string>, sessionId: Option<string>)
      returns (result: ReplaceResult)
      modifies this
      ensures (View(), result) == Replace(old(View()), tabId, expectedSessionId, sessionId)
    {
      var i := IndexOf(layout.tabs, tabId);
      if i.None? {
        return NotReplaced(NotFound);
      }
      var tab := layout.tabs[i.value];
      if tab.sessionId != expectedSessionId {
        return NotReplaced(Conflict);
      }
      if sessionId.Some? && OpenElsewhere(layout.tabs, tabId, sessionId.value) {
        return NotReplaced(AlreadyOpen);
      }
      if sessionId == tab.sessionId {
        return Replaced(tab);
      }
      var next := tab.(sessionId := sessionId, terminalGeneration := tab.terminalGeneration + 1);
      SetLayout(Layout(ReplaceTab(layout.tabs, next), layout.nextDisplayNumber));
      return Replaced(next);
    }

    method ReorderTabs(tabIds: seq<string>) returns (done: bool)
      modifies this
      ensures (View(), done) == Reorder(old(View()), tabIds)
    {
      if |tabIds| != |layout.tabs| || |SetOf(tabIds)| != |layout.tabs| {
        return false;
      }
      if !AllKnown(layout.tabs, tabIds) {
        return false;
      }
      SetLayout(Layout(Picked(layout.tabs, tabIds), layout.nextDisplayNumber));
      return true;
    }

    method SetPlacement(tabId: string, expectedPlacement: Placement, placement: Placement)
      returns (result: PlaceResult)
      modifies this
      ensures (View(), result) == Place(old(View()), tabId, expectedPlacement, placement)
    {
      var validation := MayPlace(View(), tabId, expectedPlacement, placement);
      if !validation.Unchanged? || validation.tab.placement == placement {
        return validation;
      }
      var previous := View();
      var next := validation.tab.(placement := placement);
      SetLayout(Layout(ReplaceTab(layout.tabs, next), layout.nextDisplayNumber));
      if focusedTabId == tabId && placement == Popped {
        var first := FirstDocked(layout.tabs);
        if first.Some? {
          focusedTabId := layout.tabs[first.value].id;
        }
      }
      return Placed(Undo(stamp, previous.stamp, previous.layout, previous.focused), next);
    }

    method PlacementSaveFailed(undo: Undo)
      modifies this
      ensures View() == UndoPlacement(old(View()), undo)
    {
      if stamp == undo.attempted {
        layout, stamp := undo.previousLayout, undo.previousStamp;
        focusedTabId := undo.previousFocused;
      }
    }

    method CloseTab(tabId: string) returns (done: bool)
      modifies this
      ensures (View(), done) == Close(old(View()), tabId)
    {
      var i := IndexOf(layout.tabs, tabId);
      if i.None? || |layout.tabs| == 1 {
        return false;
      }
      if layout.tabs[i.value].placement == Docked && DockedCount(layout.tabs) == 1 {
        return false;
      }
      SetLayout(Layout(Without(layout.tabs, i.value), layout.nextDisplayNumber));
      if focusedTabId == tabId {
        var first := FirstDocked(layout.tabs);
        if first.Some? {
          focusedTabId := layout.tabs[first.value].id;
        }
      }
      return true;
    }
  }
}
