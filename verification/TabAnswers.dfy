/**
 What each call on the tab controller (src/agent/ChatTabController.ts) answers and leaves behind,
 in terms of the tabs themselves: which tab is opened, changed, moved or closed, which tabs stay
 exactly as they are, where the focus goes, and for which reason a call is refused.
 */
module TabAnswers {
  import opened Wrappers
  import opened TabController

  /** Tab `i` has the identifier `id`. */
  predicate IsTab(tabs: seq<Tab>, i: nat, id: string) {
    i < |tabs| && tabs[i].id == id
  }

  ghost predicate IsKnown(tabs: seq<Tab>, id: string) {
    exists i: nat :: IsTab(tabs, i, id)
  }

  ghost predicate HasNumber(tabs: seq<Tab>, n: int) {
    exists i: nat :: i < |tabs| && tabs[i].displayNumber == n
  }

  predicate Shows(tabs: seq<Tab>, i: nat, sessionId: string) {
    i < |tabs| && tabs[i].sessionId == Some(sessionId)
  }

  predicate IsFirstDocked(tabs: seq<Tab>, i: nat) {
    && i < |tabs| && tabs[i].placement == Docked
    && forall k: nat | k < i :: tabs[k].placement != Docked
  }

  /** Tab `i` is the only docked one. */
  predicate IsOnlyDocked(tabs: seq<Tab>, i: nat) {
    i < |tabs| && forall k: nat | k < |tabs| :: tabs[k].placement == Docked <==> k == i
  }

  /** The call has put a new layout in the place of the old one. */
  predicate NewLayout(c: Controller, d: Controller, tabs: seq<Tab>) {
    d.layout == Layout(tabs, c.layout.nextDisplayNumber) && d.stamp == c.stamps && d.stamps == c.stamps + 1
  }

  lemma IndexIs(tabs: seq<Tab>, i: nat, id: string)
    requires IdsDiffer(tabs) && IsTab(tabs, i, id)
    ensures IndexOf(tabs, id) == Some(i)
  {
  }

  lemma {:induction false} FirstDockedIsFirst(tabs: seq<Tab>)
    ensures FirstDocked(tabs).Some? ==> IsFirstDocked(tabs, FirstDocked(tabs).value)
  {
    if tabs != [] && tabs[0].placement != Docked {
      FirstDockedIsFirst(tabs[1..]);
      if FirstDocked(tabs[1..]).Some? {
        var i := FirstDocked(tabs[1..]).value;
        forall k: nat | k < i + 1 ensures tabs[k].placement != Docked {
          assert k > 0 ==> tabs[k] == tabs[1..][k - 1];
        }
      }
    }
  }

  lemma {:induction false} NoneDocked(tabs: seq<Tab>)
    ensures DockedCount(tabs) == 0 <==> forall k: nat | k < |tabs| :: tabs[k].placement != Docked
  {
    if tabs != [] {
      NoneDocked(tabs[1..]);
      assert forall k: nat | 0 < k < |tabs| :: tabs[k] == tabs[1..][k - 1];
      assert forall k: nat | k < |tabs[1..]| :: tabs[1..][k] == tabs[k + 1];
    }
  }

  lemma {:induction false} OnlyDockedIff(tabs: seq<Tab>, i: nat)
    requires i < |tabs| && tabs[i].placement == Docked
    ensures DockedCount(tabs) == 1 <==> IsOnlyDocked(tabs, i)
  {
    assert forall k: nat | 0 < k < |tabs| :: tabs[k] == tabs[1..][k - 1];
    assert forall k: nat | k < |tabs[1..]| :: tabs[1..][k] == tabs[k + 1];
    if i == 0 {
      NoneDocked(tabs[1..]);
    } else {
      OnlyDockedIff(tabs[1..], i - 1);
      if tabs[0].placement == Docked {
        NoneDocked(tabs[1..]);
      }
    }
  }

  lemma ShownIff(tabs: seq<Tab>, sessionId: string)
    ensures IndexOfSession(tabs, sessionId).Some? <==> exists i: nat :: Shows(tabs, i, sessionId)
  {
    if IndexOfSession(tabs, sessionId).Some? {
      assert Shows(tabs, IndexOfSession(tabs, sessionId).value, sessionId);
    }
  }

  // ---------------------------------------------------------------- focus and creation

  /** Exactly a docked tab can be focused, and nothing else changes. */
  lemma FocusAnswers(c: Controller, id: string)
    requires IdsDiffer(c.layout.tabs)
    ensures var (d, done) := Focus(c, id);
      && (done <==> HasDocked(c.layout.tabs, id))
      && d == if done then c.(focused := id) else c
  {
    if HasDocked(c.layout.tabs, id) {
      var i: nat :| i < |c.layout.tabs| && c.layout.tabs[i].id == id && c.layout.tabs[i].placement == Docked;
      IndexIs(c.layout.tabs, i, id);
    }
  }

  /** A session that some tab shows is not opened again: its tab is the answer, and gets the focus if it is docked. */
  lemma CreateFindsOpenSession(c: Controller, sessionId: string, id: string)
    requires sessionId != "" && exists i: nat :: Shows(c.layout.tabs, i, sessionId)
    ensures var (d, tab) := Create(c, Some(sessionId), id);
      && tab in c.layout.tabs && tab.sessionId == Some(sessionId)
      && d == if tab.placement == Docked then c.(focused := tab.id) else c
  {
    var i: nat :| Shows(c.layout.tabs, i, sessionId);
  }

  /**
   Otherwise one tab is added behind the others: docked, focused, in its first generation, with the
   least positive number that no tab has.
   */
  lemma CreateAddsATab(c: Controller, sessionId: Option<string>, id: string)
    requires sessionId.None? || sessionId.value == "" || forall i: nat :: !Shows(c.layout.tabs, i, sessionId.value)
    ensures var (d, tab) := Create(c, sessionId, id);
      && d.layout.tabs == c.layout.tabs + [tab] && d.focused == id
      && d.stamp == c.stamps && d.stamps == c.stamps + 1
      && tab.id == id && tab.sessionId == sessionId && tab.placement == Docked && tab.terminalGeneration == 1
    ensures var (d, tab) := Create(c, sessionId, id);
      && tab.displayNumber >= 1
      && !HasNumber(c.layout.tabs, tab.displayNumber)
      && (forall n: int | 1 <= n < tab.displayNumber :: HasNumber(c.layout.tabs, n))
      && d.layout.nextDisplayNumber >= c.layout.nextDisplayNumber
      && d.layout.nextDisplayNumber >= tab.displayNumber + 1
      && d.layout.nextDisplayNumber in {c.layout.nextDisplayNumber, tab.displayNumber + 1}
  {
    var tabs := c.layout.tabs;
    if sessionId.Some? {
      ShownIff(tabs, sessionId.value);
    }
    var number := LowestFree(Numbers(tabs), 1);
    forall n: int ensures n in Numbers(tabs) <==> HasNumber(tabs, n) {}
    assert forall n: int | 1 <= n < number :: n in Numbers(tabs);
  }

  // ---------------------------------------------------------------- sessions

  /** Binding a session that some tab shows only moves the focus, as opening it does. */
  lemma BindFindsOpenSession(c: Controller, sessionId: string)
    requires IndexOf(c.layout.tabs, c.focused).Some? && exists i: nat :: Shows(c.layout.tabs, i, sessionId)
    ensures var (d, tab) := Bind(c, sessionId);
      && tab in c.layout.tabs && tab.sessionId == Some(sessionId)
      && d == if tab.placement == Docked then c.(focused := tab.id) else c
  {
    var i: nat :| Shows(c.layout.tabs, i, sessionId);
  }

  /** Otherwise the focused tab shows it, in a new generation if it showed a session before; no other tab changes. */
  lemma BindChangesTheFocusedTab(c: Controller, sessionId: string, i: nat)
    requires IdsDiffer(c.layout.tabs) && IsTab(c.layout.tabs, i, c.focused)
    requires forall k: nat :: !Shows(c.layout.tabs, k, sessionId)
    ensures IndexOf(c.layout.tabs, c.focused).Some?
    ensures var (d, tab) := Bind(c, sessionId);
      var was := c.layout.tabs[i];
      && NewLayout(c, d, c.layout.tabs[i := tab]) && d.focused == c.focused
      && tab == was.(sessionId := Some(sessionId), terminalGeneration := tab.terminalGeneration)
      && tab.terminalGeneration == was.terminalGeneration + (if was.sessionId == None then 0 else 1)
  {
    IndexIs(c.layout.tabs, i, c.focused);
    ShownIff(c.layout.tabs, sessionId);
    ReplaceTabKeeps(c.layout.tabs, Bind(c, sessionId).1, i);
  }

  /** Why a session is not replaced; the first reason counts. */
  ghost predicate ReplaceRefused(c: Controller, id: string, expected: Option<string>, sessionId: Option<string>,
                                 reason: Reason)
  {
    var tabs := c.layout.tabs;
    match reason
    case NotFound => !IsKnown(tabs, id)
    case Conflict => exists i: nat :: IsTab(tabs, i, id) && tabs[i].sessionId != expected
    case AlreadyOpen =>
      && (exists i: nat :: IsTab(tabs, i, id) && tabs[i].sessionId == expected)
      && sessionId.Some? && exists k: nat :: Shows(tabs, k, sessionId.value) && tabs[k].id != id
    case LastDocked => false
  }

  lemma ReplaceIsRefusedIff(c: Controller, id: string, expected: Option<string>, sessionId: Option<string>,
                            reason: Reason)
    requires IdsDiffer(c.layout.tabs)
    ensures Replace(c, id, expected, sessionId).1 == NotReplaced(reason) <==>
            ReplaceRefused(c, id, expected, sessionId, reason)
    ensures Replace(c, id, expected, sessionId).1.NotReplaced? ==> Replace(c, id, expected, sessionId).0 == c
  {
    var tabs := c.layout.tabs;
    if IndexOf(tabs, id).Some? {
      assert IsTab(tabs, IndexOf(tabs, id).value, id);
      forall i: nat | IsTab(tabs, i, id) ensures IndexOf(tabs, id) == Some(i) {
        IndexIs(tabs, i, id);
      }
    }
    if sessionId.Some? && OpenElsewhere(tabs, id, sessionId.value) {
      var k: nat :| k < |tabs| && tabs[k].id != id && tabs[k].sessionId == sessionId;
      assert Shows(tabs, k, sessionId.value);
    }
  }

  /** A session that is replaced starts a new generation of its tab; the same session changes nothing. */
  lemma ReplaceChangesOneTab(c: Controller, id: string, expected: Option<string>, sessionId: Option<string>, i: nat)
    requires IdsDiffer(c.layout.tabs) && IsTab(c.layout.tabs, i, id)
    requires Replace(c, id, expected, sessionId).1.Replaced?
    ensures var (d, result) := Replace(c, id, expected, sessionId);
      var was := c.layout.tabs[i];
      if sessionId == was.sessionId then d == c && result.tab == was
      else
        && NewLayout(c, d, c.layout.tabs[i := result.tab]) && d.focused == c.focused
        && result.tab == was.(sessionId := sessionId, terminalGeneration := was.terminalGeneration + 1)
  {
    IndexIs(c.layout.tabs, i, id);
    ReplaceTabKeeps(c.layout.tabs, Replace(c, id, expected, sessionId).1.tab, i);
  }

  // ---------------------------------------------------------------- order

  /** The identifiers of the tabs, each once, in some order. */
  ghost predicate NamesEveryTab(tabs: seq<Tab>, ids: seq<string>) {
    && |ids| == |tabs|
    && (forall i: nat, k: nat | i < k < |ids| :: ids[i] != ids[k])
    && (forall i: nat | i < |ids| :: IsKnown(tabs, ids[i]))
  }

  lemma {:induction false} DistinctIdsAreCounted(ids: seq<string>)
    requires forall i: nat, k: nat | i < k < |ids| :: ids[i] != ids[k]
    ensures |SetOf(ids)| == |ids|
  {
    if ids == [] {
      assert SetOf(ids) == {};
    } else {
      var last := |ids| - 1;
      DistinctIdsAreCounted(ids[..last]);
      assert SetOf(ids) == SetOf(ids[..last]) + {ids[last]} by {
        assert forall i: nat | i < last :: ids[..last][i] in SetOf(ids[..last]);
      }
      SizeWithOneMore(SetOf(ids[..last]), ids[last]);
    }
  }

  /**
   A list of identifiers is accepted exactly if it names every tab once. Then the tabs stand in that
   order, each as it was; otherwise nothing changes.
   */
  lemma ReorderAnswers(c: Controller, ids: seq<string>)
    requires IdsDiffer(c.layout.tabs)
    ensures var (d, done) := Reorder(c, ids);
      && (done <==> NamesEveryTab(c.layout.tabs, ids))
      && (!done ==> d == c)
      && (done ==>
            && NewLayout(c, d, d.layout.tabs) && d.focused == c.focused
            && |d.layout.tabs| == |ids|
            && (forall i: nat | i < |ids| :: d.layout.tabs[i].id == ids[i] && d.layout.tabs[i] in c.layout.tabs)
            && multiset(d.layout.tabs) == multiset(c.layout.tabs))
  {
    var tabs := c.layout.tabs;
    KnownIff(tabs, ids);
    if NamesEveryTab(tabs, ids) {
      DistinctIdsAreCounted(ids);
    }
    if Reorder(c, ids).1 {
      IdsAreDistinct(ids);
      PickedIsAPermutation(tabs, ids);
    }
  }

  lemma KnownIff(tabs: seq<Tab>, ids: seq<string>)
    ensures AllKnown(tabs, ids) <==> forall i: nat | i < |ids| :: IsKnown(tabs, ids[i])
  {
    forall i: nat | i < |ids| ensures IndexOf(tabs, ids[i]).Some? <==> IsKnown(tabs, ids[i]) {
      if IndexOf(tabs, ids[i]).Some? {
        assert IsTab(tabs, IndexOf(tabs, ids[i]).value, ids[i]);
      }
    }
  }

  lemma PickedIsAPermutation(tabs: seq<Tab>, ids: seq<string>)
    requires IdsDiffer(tabs) && AllKnown(tabs, ids) && |ids| == |tabs|
    requires forall i: nat, k: nat | i < k < |ids| :: ids[i] != ids[k]
    ensures multiset(Picked(tabs, ids)) == multiset(tabs)
  {
    var picked := Picked(tabs, ids);
    forall i: nat, k: nat | i < k < |picked| ensures picked[i] != picked[k] {
      assert picked[i].id == ids[i] && picked[k].id == ids[k];
    }
    forall i: nat, k: nat | i < k < |tabs| ensures tabs[i] != tabs[k] {
      assert tabs[i].id != tabs[k].id;
    }
    assert Distinct(picked) && Distinct(tabs);
    SameElements(picked, tabs);
  }

  predicate Distinct<T(==)>(list: seq<T>) {
    forall i: nat, k: nat | i < k < |list| :: list[i] != list[k]
  }

  lemma OneTakenOut<T>(list: seq<T>, j: nat)
    requires j < |list| && Distinct(list)
    ensures var rest := list[..j] + list[j + 1..];
      && Distinct(rest) && multiset(list) == multiset(rest) + multiset{list[j]}
      && forall x | x in list && x != list[j] :: x in rest
  {
    var rest := list[..j] + list[j + 1..];
    assert list == list[..j] + [list[j]] + list[j + 1..];
    forall i: nat, k: nat | i < k < |rest| ensures rest[i] != rest[k] {
      assert rest[i] == list[if i < j then i else i + 1] && rest[k] == list[if k < j then k else k + 1];
    }
    forall x | x in list && x != list[j] ensures x in rest {
      var k :| 0 <= k < |list| && list[k] == x;
      assert rest[if k < j then k else k - 1] == x;
    }
  }

  /** Two lists without repetition, of one length, one within the other, are permutations. */
  lemma {:induction false} SameElements<T>(a: seq<T>, b: seq<T>)
    requires Distinct(a) && Distinct(b) && |a| == |b| && forall x | x in a :: x in b
    ensures multiset(a) == multiset(b)
    decreases |a|
  {
    if a == [] {
      assert b == [];
    } else {
      var n := |a| - 1;
      assert a[n] in a;
      var j :| 0 <= j < |b| && b[j] == a[n];
      OneTakenOut(b, j);
      OneTakenOut(a, n);
      var rest := b[..j] + b[j + 1..];
      assert a[..n] + a[n + 1..] == a[..n];
      forall x | x in a[..n] ensures x in rest {
        var i :| 0 <= i < n && a[i] == x;
        assert a[i] in a && a[i] != a[n];
      }
      SameElements(a[..n], rest);
    }
  }

  // ---------------------------------------------------------------- placement

  /** Why a placement is refused; the first reason counts. */
  ghost predicate PlaceRefused(c: Controller, id: string, expected: Placement, placement: Placement, reason: Reason) {
    var tabs := c.layout.tabs;
    match reason
    case NotFound => !IsKnown(tabs, id)
    case Conflict => exists i: nat :: IsTab(tabs, i, id) && tabs[i].placement != expected
    case LastDocked =>
      && placement == Popped && expected == Docked
      && exists i: nat :: IsTab(tabs, i, id) && IsOnlyDocked(tabs, i)
    case AlreadyOpen => false
  }

  lemma PlaceIsRefusedIff(c: Controller, id: string, expected: Placement, placement: Placement, reason: Reason)
    requires IdsDiffer(c.layout.tabs)
    ensures Place(c, id, expected, placement).1 == NotPlaced(reason) <==>
            PlaceRefused(c, id, expected, placement, reason)
    ensures !Place(c, id, expected, placement).1.Placed? ==> Place(c, id, expected, placement).0 == c
  {
    var tabs := c.layout.tabs;
    if IndexOf(tabs, id).Some? {
      var i := IndexOf(tabs, id).value;
      assert IsTab(tabs, i, id);
      forall k: nat | IsTab(tabs, k, id) ensures k == i {
        IndexIs(tabs, k, id);
      }
      if tabs[i].placement == Docked {
        OnlyDockedIff(tabs, i);
      }
    }
  }

  /**
   A tab that is placed elsewhere changes in nothing else, and no other tab changes. If it had the focus and
   is popped out, the first docked tab gets it. What is kept for a failed save is the state before.
   */
  lemma PlaceMovesOneTab(c: Controller, id: string, expected: Placement, placement: Placement, i: nat)
    requires Valid(c) && IsTab(c.layout.tabs, i, id)
    requires !Place(c, id, expected, placement).1.NotPlaced?
    ensures c.layout.tabs[i].placement == expected
    ensures var (d, result) := Place(c, id, expected, placement);
      var moved := c.layout.tabs[i].(placement := placement);
      if placement == expected then d == c && result == Unchanged(c.layout.tabs[i])
      else
        && NewLayout(c, d, c.layout.tabs[i := moved])
        && result == Placed(Undo(d.stamp, c.stamp, c.layout, c.focused), moved)
        && (c.focused == id && placement == Popped ==>
              exists k: nat :: IsFirstDocked(d.layout.tabs, k) && d.focused == d.layout.tabs[k].id)
        && (!(c.focused == id && placement == Popped) ==> d.focused == c.focused)
  {
    var tabs := c.layout.tabs;
    IndexIs(tabs, i, id);
    if placement != expected {
      var d := Place(c, id, expected, placement).0;
      ReplaceTabKeeps(tabs, Place(c, id, expected, placement).1.tab, i);
      FirstDockedIsFirst(d.layout.tabs);
      if c.focused == id && placement == Popped {
        AnotherDocked(tabs, i);
        var k: nat :| k < |tabs| && k != i && tabs[k].placement == Docked;
        assert d.layout.tabs[k].placement == Docked;
        assert IsFirstDocked(d.layout.tabs, FirstDocked(d.layout.tabs).value);
      }
    }
  }

  /** A save that fails at once takes the placement back; one that fails after another change does nothing. */
  lemma FailedSaveUndoes(c: Controller, id: string, expected: Placement, placement: Placement, e: Controller)
    requires Valid(c) && Place(c, id, expected, placement).1.Placed?
    ensures var (d, result) := Place(c, id, expected, placement);
      && UndoPlacement(d, result.undo) == c.(stamps := d.stamps)
      && (e.stamp != d.stamp ==> UndoPlacement(e, result.undo) == e)
      && (e.stamp == d.stamp ==> UndoPlacement(e, result.undo) == c.(stamps := e.stamps))
  {
  }

  // ---------------------------------------------------------------- closing

  /**
   A tab is closed unless it is unknown, the last one, or the last docked one. The other tabs stay as they
   are and in their order, and the first docked one gets the focus if the closed tab had it.
   */
  lemma CloseAnswers(c: Controller, id: string)
    requires Valid(c)
    ensures var (d, done) := Close(c, id);
      && (done <==> |c.layout.tabs| > 1
                    && exists i: nat :: IsTab(c.layout.tabs, i, id) && !IsOnlyDocked(c.layout.tabs, i))
      && (!done ==> d == c)
  {
    var tabs := c.layout.tabs;
    if IndexOf(tabs, id).Some? {
      var i := IndexOf(tabs, id).value;
      assert IsTab(tabs, i, id);
      forall k: nat | IsTab(tabs, k, id) ensures k == i {
        IndexIs(tabs, k, id);
      }
      if tabs[i].placement == Docked {
        OnlyDockedIff(tabs, i);
      }
    }
  }

  lemma CloseRemovesOneTab(c: Controller, id: string, i: nat)
    requires Valid(c) && IsTab(c.layout.tabs, i, id) && Close(c, id).1
    ensures var d := Close(c, id).0;
      && NewLayout(c, d, c.layout.tabs[..i] + c.layout.tabs[i + 1..])
      && (c.focused != id ==> d.focused == c.focused)
      && (c.focused == id ==>
            exists k: nat :: IsFirstDocked(d.layout.tabs, k) && d.focused == d.layout.tabs[k].id)
  {
    IndexIs(c.layout.tabs, i, id);
    var d := Close(c, id).0;
    FirstDockedIsFirst(d.layout.tabs);
    if c.focused == id {
      CloseKeepsFocus(c, id, i);
      assert FirstDocked(d.layout.tabs).Some?;
      assert IsFirstDocked(d.layout.tabs, FirstDocked(d.layout.tabs).value);
    }
  }
}
