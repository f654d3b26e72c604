/**
 What the provider is sent: src/agent/AgentSession.ts (mode-instruction anchors) and
 src/agent/AgentEngine.ts (`buildProviderMessages`, `insertAutomaticMemoryContext`).

 The history the model sees is never edited. Mode instructions, retrieved memory and a
 nudge are spliced into a copy of it just before a request. The theorem, `AssembleRequest`,
 says where every message of the copy comes from and where every message of the history went.
 */
module RequestAssembly {
  import opened Wrappers

  datatype Role = User | Assistant

  datatype Content = Text | Blocks(hasToolResult: bool)

  /** `id` stands for object identity. */
  datatype Message = Message(id: nat, role: Role, content: Content)

  datatype Anchor = Anchor(userTurnOrdinal: nat, mode: string, blockText: string)

  datatype Insertion = Insertion(beforeIndex: nat, blockText: string)

  /** A message of a request: message `index` of the history, or one of the inserted kinds. */
  datatype Item = FromHistory(index: nat) | ModeBlock(text: string) | Nudge | Memory(text: string)

  predicate IsStringUser(m: Message) {
    m.role == User && m.content == Text
  }

  predicate IsToolResultCarrier(m: Message) {
    m.role == User && m.content.Blocks? && m.content.hasToolResult
  }

  predicate IsGenuineUser(m: Message) {
    m.role == User && !IsToolResultCarrier(m)
  }

  /** A string turn, a carrier of tool results and any other turn of the user are told apart by their content. */
  lemma MessageKinds(id: nat, role: Role, content: Content)
    ensures IsStringUser(Message(id, role, content)) <==> role == User && content == Text
    ensures IsToolResultCarrier(Message(id, role, content)) <==> role == User && content == Blocks(true)
    ensures IsGenuineUser(Message(id, role, content)) <==> role == User && content != Blocks(true)
  {
  }

  // ---------------------------------------------------------------- where an anchor points

  function StringUsers(messages: seq<Message>): nat {
    if messages == [] then 0
    else StringUsers(messages[..|messages| - 1]) + (if IsStringUser(messages[|messages| - 1]) then 1 else 0)
  }

  /** Index `i` is where user turn `ordinal` begins, or the end of the history if there is no such turn yet. */
  predicate PointsTo(messages: seq<Message>, ordinal: nat, i: nat) {
    && i <= |messages|
    && (i < |messages| ==> IsStringUser(messages[i]) && StringUsers(messages[..i]) == ordinal)
    && (i == |messages| ==> StringUsers(messages) <= ordinal)
  }

  lemma {:induction false} StringUsersGrow(messages: seq<Message>, i: nat, k: nat)
    requires i <= k <= |messages|
    ensures StringUsers(messages[..i]) <= StringUsers(messages[..k])
    ensures i < k && IsStringUser(messages[i]) ==> StringUsers(messages[..i]) < StringUsers(messages[..k])
    decreases k
  {
    if i < k {
      StringUsersGrow(messages, i, k - 1);
      assert messages[..k][..k - 1] == messages[..k - 1];
    }
  }

  /** An anchor points to one place only. */
  lemma PointsToOnePlace(messages: seq<Message>, ordinal: nat, i: nat, k: nat)
    requires PointsTo(messages, ordinal, i) && PointsTo(messages, ordinal, k)
    ensures i == k
  {
    assert messages[..|messages|] == messages;
    if i < k {
      StringUsersGrow(messages, i, k);
    } else if k < i {
      StringUsersGrow(messages, k, i);
    }
  }

  predicate AnchorsAt(messages: seq<Message>, anchor: Anchor, i: nat) {
    PointsTo(messages, anchor.userTurnOrdinal, i)
  }

  /** The block shown before index `i`: that of the last anchor pointing there. */
  function BlockAt(messages: seq<Message>, anchors: seq<Anchor>, i: nat): Option<string> {
    if anchors == [] then None
    else if AnchorsAt(messages, anchors[|anchors| - 1], i) then Some(anchors[|anchors| - 1].blockText)
    else BlockAt(messages, anchors[..|anchors| - 1], i)
  }

  /** The insertions are exactly the blocks the anchors call for. */
  ghost predicate Shows(insertions: seq<Insertion>, messages: seq<Message>, anchors: seq<Anchor>) {
    forall i: nat, text: string :: Insertion(i, text) in insertions <==> BlockAt(messages, anchors, i) == Some(text)
  }

  predicate Ascending(insertions: seq<Insertion>) {
    forall j: nat, k: nat | j < k < |insertions| :: insertions[j].beforeIndex < insertions[k].beforeIndex
  }

  /** Insertion points are turn boundaries: a string user message, or the end of the history. */
  predicate AtTurnBoundaries(messages: seq<Message>, insertions: seq<Insertion>) {
    forall j: nat | j < |insertions| ::
      insertions[j].beforeIndex <= |messages|
      && (insertions[j].beforeIndex < |messages| ==> IsStringUser(messages[insertions[j].beforeIndex]))
  }

  /** The first user turn begins at `i`, or `i` is the end of a history without one. */
  predicate IsFirstTurn(messages: seq<Message>, i: nat) {
    && i <= |messages|
    && (forall j: nat | j < i :: !IsStringUser(messages[j]))
    && (i < |messages| ==> IsStringUser(messages[i]))
  }

  lemma FirstTurnIsOrdinalZero(messages: seq<Message>, i: nat)
    ensures PointsTo(messages, 0, i) <==> IsFirstTurn(messages, i)
  {
    assert messages[..|messages|] == messages;
    if IsFirstTurn(messages, i) {
      NoMoreStringUsers(messages, 0, i);
    } else if PointsTo(messages, 0, i) {
      var j: nat :| j < i && IsStringUser(messages[j]);
      StringUsersGrow(messages, j, i);
    }
  }

  lemma TopAnchorShows(messages: seq<Message>, anchor: Anchor, i: nat)
    requires anchor.userTurnOrdinal == 0
    ensures BlockAt(messages, [anchor], i) == if IsFirstTurn(messages, i) then Some(anchor.blockText) else None
  {
    FirstTurnIsOrdinalZero(messages, i);
    assert BlockAt(messages, [], i) == None;
    assert [anchor][..0] == [];
  }

  // ---------------------------------------------------------------- the session's anchors

  class AgentSession {
    var inConversation: bool
    var mode: string
    var currentModeBlockText: string
    var anchors: seq<Anchor>

    constructor (inConversation: bool, mode: string)
      ensures this.inConversation == inConversation && this.mode == mode
      ensures currentModeBlockText == "" && anchors == []
    {
      this.inConversation := inConversation;
      this.mode := mode;
      currentModeBlockText := "";
      anchors := [];
    }

    /** `effective` is the history the model will see. */
    method ApplyModeInstructionAnchor(blockText: string, effective: seq<Message>)
      modifies this`currentModeBlockText, this`anchors
      ensures currentModeBlockText == blockText
      // The new block goes to the end of the history, and replaces one that no user turn followed.
      ensures anchors != [] && anchors[|anchors| - 1] == Anchor(StringUsers(effective), mode, blockText)
      ensures var last := |old(anchors)| - 1;
        anchors[..|anchors| - 1] ==
          if last >= 0 && old(anchors)[last].userTurnOrdinal >= StringUsers(effective)
          then old(anchors)[..last] else old(anchors)
      ensures BlockAt(effective, anchors, |effective|) == Some(blockText)
    {
      currentModeBlockText := blockText;
      var ordinal := 0;
      for i := 0 to |effective|
        invariant ordinal == StringUsers(effective[..i])
      {
        assert effective[..i + 1][..i] == effective[..i];
        if IsStringUser(effective[i]) {
          ordinal := ordinal + 1;
        }
      }
      assert effective[..|effective|] == effective;
      var last := |anchors| - 1;
      if last >= 0 && anchors[last].userTurnOrdinal >= ordinal {
        anchors := anchors[last := Anchor(ordinal, mode, blockText)];
      } else {
        anchors := anchors + [Anchor(ordinal, mode, blockText)];
      }
    }

    /** The part of `replaceMessages` that concerns anchors: positions are void, the block starts at the top again. */
    method ReplaceMessages()
      modifies this`anchors
      ensures anchors == if inConversation && currentModeBlockText != ""
                         then [Anchor(0, mode, currentModeBlockText)] else []
      // Whatever the rewritten history is, the current block stands before its first user turn, and nothing else does.
      ensures forall messages: seq<Message>, i: nat :: BlockAt(messages, anchors, i) ==
                if inConversation && currentModeBlockText != "" && IsFirstTurn(messages, i)
                then Some(currentModeBlockText) else None
    {
      anchors := if inConversation && currentModeBlockText != ""
                 then [Anchor(0, mode, currentModeBlockText)] else [];
      forall messages: seq<Message>, i: nat
        ensures BlockAt(messages, [Anchor(0, mode, currentModeBlockText)], i) ==
                if IsFirstTurn(messages, i) then Some(currentModeBlockText) else None
      {
        TopAnchorShows(messages, Anchor(0, mode, currentModeBlockText), i);
      }
    }

    method BuildModeInstructionInsertions(effective: seq<Message>) returns (insertions: seq<Insertion>)
      ensures Ascending(insertions) && AtTurnBoundaries(effective, insertions)
      ensures Shows(insertions, effective, if inConversation then anchors else [])
    {
      insertions := [];
      if !inConversation || anchors == [] {
        return;
      }
      var ordinalIndex := OrdinalIndex(effective);
      var blocks: map<nat, string> := map[];
      for a := 0 to |anchors|
        invariant forall i | i in blocks :: i <= |effective|
        invariant forall i: nat :: BlockAt(effective, anchors[..a], i) == if i in blocks then Some(blocks[i]) else None
      {
        var anchor := anchors[a];
        assert anchors[..a + 1][..a] == anchors[..a];
        var beforeIndex :=
          if anchor.userTurnOrdinal < |ordinalIndex| then ordinalIndex[anchor.userTurnOrdinal] else |effective|;
        assert AnchorsAt(effective, anchor, beforeIndex);
        forall i: nat
          ensures AnchorsAt(effective, anchor, i) <==> i == beforeIndex
        {
          if AnchorsAt(effective, anchor, i) {
            PointsToOnePlace(effective, anchor.userTurnOrdinal, i, beforeIndex);
          }
        }
        blocks := blocks[beforeIndex := anchor.blockText];
      }
      assert anchors[..|anchors|] == anchors;
      insertions := SortedEntries(blocks, |effective|);
      forall j: nat | j < |insertions|
        ensures insertions[j].beforeIndex < |effective| ==> IsStringUser(effective[insertions[j].beforeIndex])
      {
        BlockIsAtABoundary(effective, anchors, insertions[j].beforeIndex);
      }
    }
  }

  lemma {:induction false} BlockIsAtABoundary(messages: seq<Message>, anchors: seq<Anchor>, i: nat)
    requires BlockAt(messages, anchors, i).Some?
    ensures i < |messages| ==> IsStringUser(messages[i])
  {
    if anchors != [] && !AnchorsAt(messages, anchors[|anchors| - 1], i) {
      BlockIsAtABoundary(messages, anchors[..|anchors| - 1], i);
    }
  }

  /** The effective index of every string user message, in order. */
  method OrdinalIndex(messages: seq<Message>) returns (indexes: seq<nat>)
    ensures |indexes| == StringUsers(messages)
    ensures forall n: nat | n < |indexes| :: indexes[n] < |messages| && PointsTo(messages, n, indexes[n])
  {
    indexes := [];
    for i := 0 to |messages|
      invariant |indexes| == StringUsers(messages[..i])
      invariant forall n: nat | n < |indexes| :: indexes[n] < i && PointsTo(messages, n, indexes[n])
    {
      assert messages[..i + 1][..i] == messages[..i];
      if IsStringUser(messages[i]) {
        indexes := indexes + [i];
      }
    }
    assert messages[..|messages|] == messages;
  }

  /** The entries of a map in ascending order of their keys. */
  method SortedEntries(blocks: map<nat, string>, last: nat) returns (entries: seq<Insertion>)
    requires forall i | i in blocks :: i <= last
    ensures Ascending(entries)
    ensures forall j: nat | j < |entries| :: entries[j].beforeIndex <= last
    ensures forall i: nat, text: string :: Insertion(i, text) in entries <==> i in blocks && blocks[i] == text
  {
    entries := [];
    for i := 0 to last + 1
      invariant forall j: nat | j < |entries| :: entries[j].beforeIndex < i
      invariant Ascending(entries)
      invariant forall k: nat, text: string ::
        Insertion(k, text) in entries <==> k < i && k in blocks && blocks[k] == text
    {
      if i in blocks {
        entries := entries + [Insertion(i, blocks[i])];
      }
    }
  }

  lemma {:induction false} NoMoreStringUsers(messages: seq<Message>, i: nat, k: nat)
    requires i <= k <= |messages| && forall j: nat | i <= j < k :: !IsStringUser(messages[j])
    ensures StringUsers(messages[..k]) == StringUsers(messages[..i])
    decreases k
  {
    if i < k {
      NoMoreStringUsers(messages, i, k - 1);
      assert messages[..k][..k - 1] == messages[..k - 1];
    }
  }

  /** However the history grows after a mode switch, the switch's block stays right before the next user turn. */
  lemma SwitchPrecedesTheNextTurn(effective: seq<Message>, more: seq<Message>, anchors: seq<Anchor>, k: nat)
    requires anchors != [] && anchors[|anchors| - 1].userTurnOrdinal == StringUsers(effective)
    requires k < |more| && IsStringUser(more[k]) && forall j: nat | j < k :: !IsStringUser(more[j])
    ensures BlockAt(effective + more, anchors, |effective| + k) == Some(anchors[|anchors| - 1].blockText)
  {
    var all := effective + more;
    assert all[..|effective|] == effective;
    NoMoreStringUsers(all, |effective|, |effective| + k);
  }

  // ---------------------------------------------------------------- the request

  /** JavaScript's `splice(i, 0, item)`. */
  function Splice(items: seq<Item>, i: nat, item: Item): seq<Item>
    requires i <= |items|
  {
    items[..i] + [item] + items[i..]
  }

  /** The messages of the history among `items`, in order. */
  function Erase(items: seq<Item>): seq<nat> {
    if items == [] then []
    else
      var last := items[|items| - 1];
      Erase(items[..|items| - 1]) + (if last.FromHistory? then [last.index] else [])
  }

  function Upto(n: nat): (indexes: seq<nat>)
    ensures |indexes| == n && forall k: nat | k < n :: indexes[k] == k
  {
    seq(n, k => k)
  }

  /** How many insertions stand at or before message `k`. */
  function AtOrBefore(insertions: seq<Insertion>, k: nat): nat {
    if insertions == [] then 0
    else AtOrBefore(insertions[1..], k) + (if insertions[0].beforeIndex <= k then 1 else 0)
  }

  lemma {:induction false} EraseConcat(a: seq<Item>, b: seq<Item>)
    ensures Erase(a + b) == Erase(a) + Erase(b)
  {
    if b == [] {
      assert a + b == a;
    } else {
      EraseConcat(a, b[..|b| - 1]);
      assert (a + b)[..|a + b| - 1] == a + b[..|b| - 1];
    }
  }

  lemma InsertedIsErased(before: seq<Item>, item: Item)
    requires !item.FromHistory?
    ensures Erase(before + [item]) == Erase(before)
  {
    assert (before + [item])[..|before|] == before;
  }

  lemma SpliceErases(items: seq<Item>, i: nat, item: Item)
    requires i <= |items| && !item.FromHistory?
    ensures Erase(Splice(items, i, item)) == Erase(items)
  {
    hide Erase;
    var before, after := items[..i], items[i..];
    InsertedIsErased(before, item);
    EraseConcat(before + [item], after);
    EraseConcat(before, after);
    assert before + after == items;
  }

  /** Message `k` of the history and every insertion stand where they should. */
  predicate Woven(n: nat, insertions: seq<Insertion>, items: seq<Item>) {
    && |items| == n + |insertions|
    && (forall k: nat | k < n ::
          k + AtOrBefore(insertions, k) < |items| && items[k + AtOrBefore(insertions, k)] == FromHistory(k))
    && (forall j: nat | j < |insertions| ::
          insertions[j].beforeIndex + j < |items|
          && items[insertions[j].beforeIndex + j] == ModeBlock(insertions[j].blockText))
  }

  lemma {:induction false} NoneAtOrBefore(insertions: seq<Insertion>, k: nat)
    requires forall j: nat | j < |insertions| :: k < insertions[j].beforeIndex
    ensures AtOrBefore(insertions, k) == 0
  {
    if insertions != [] {
      NoneAtOrBefore(insertions[1..], k);
    }
  }

  lemma {:induction false} AtMostAll(insertions: seq<Insertion>, k: nat)
    ensures AtOrBefore(insertions, k) <= |insertions|
  {
    if insertions != [] {
      AtMostAll(insertions[1..], k);
    }
  }

  /** Splicing in the insertion that precedes all others. */
  lemma WeaveOneMore(n: nat, insertions: seq<Insertion>, items: seq<Item>)
    requires insertions != [] && Ascending(insertions) && insertions[0].beforeIndex <= n
    requires Woven(n, insertions[1..], items)
    ensures var more := Splice(items, insertions[0].beforeIndex, ModeBlock(insertions[0].blockText));
      Woven(n, insertions, more) && Erase(more) == Erase(items)
  {
    var first, rest := insertions[0], insertions[1..];
    var more := Splice(items, first.beforeIndex, ModeBlock(first.blockText));
    SpliceErases(items, first.beforeIndex, ModeBlock(first.blockText));
    forall k: nat | k < n
      ensures k + AtOrBefore(insertions, k) < |more| && more[k + AtOrBefore(insertions, k)] == FromHistory(k)
    {
      assert items[k + AtOrBefore(rest, k)] == FromHistory(k);
      if k < first.beforeIndex {
        NoneAtOrBefore(rest, k);
      }
    }
    forall j: nat | j < |insertions|
      ensures insertions[j].beforeIndex + j < |more|
      ensures more[insertions[j].beforeIndex + j] == ModeBlock(insertions[j].blockText)
    {
      if j > 0 {
        assert rest[j - 1] == insertions[j];
        assert items[rest[j - 1].beforeIndex + (j - 1)] == ModeBlock(rest[j - 1].blockText);
      }
    }
  }

  /** Inserting from the last to the first keeps the indexes of the remaining insertions valid. */
  method BuildProviderMessages(n: nat, insertions: seq<Insertion>) returns (items: seq<Item>)
    requires Ascending(insertions) && forall j: nat | j < |insertions| :: insertions[j].beforeIndex <= n
    ensures |items| == n + |insertions| && Erase(items) == Upto(n)
    ensures Placed(n, insertions, None, items) && BlocksPlaced(insertions, None, items)
  {
    items := CopyHistory(n);
    var i: nat := |insertions|;
    while i > 0
      invariant i <= |insertions|
      invariant Woven(n, insertions[i..], items) && Erase(items) == Upto(n)
    {
      i := i - 1;
      assert insertions[i..][0] == insertions[i] && insertions[i..][1..] == insertions[i + 1..];
      WeaveOneMore(n, insertions[i..], items);
      items := Splice(items, insertions[i].beforeIndex, ModeBlock(insertions[i].blockText));
    }
    assert insertions[0..] == insertions;
    WovenIsPlaced(n, insertions, items);
  }

  lemma WovenIsPlaced(n: nat, insertions: seq<Insertion>, items: seq<Item>)
    requires Woven(n, insertions, items)
    ensures Placed(n, insertions, None, items) && BlocksPlaced(insertions, None, items)
  {
  }

  method CopyHistory(n: nat) returns (items: seq<Item>)
    ensures |items| == n && forall k: nat | k < n :: items[k] == FromHistory(k)
    ensures Erase(items) == Upto(n)
  {
    items := [];
    for k := 0 to n
      invariant |items| == k && forall i: nat | i < k :: items[i] == FromHistory(i)
      invariant Erase(items) == Upto(k)
    {
      assert (items + [FromHistory(k)])[..k] == items;
      items := items + [FromHistory(k)];
    }
  }

  // ---------------------------------------------------------------- where memory goes

  /** The last message a user actually wrote, or the first message. */
  function LastGenuineUser(messages: seq<Message>): nat {
    if messages == [] then 0
    else if IsGenuineUser(messages[|messages| - 1]) then |messages| - 1
    else LastGenuineUser(messages[..|messages| - 1])
  }

  function IndexOf(messages: seq<Message>, m: Message): Option<nat> {
    if messages == [] then None
    else if messages[0] == m then Some(0)
    else match IndexOf(messages[1..], m)
      case None => None
      case Some(i) => Some(i + 1)
  }

  function SourceIndex(messages: seq<Message>, logicalTurn: Option<Message>): nat {
    if logicalTurn.Some? && IndexOf(messages, logicalTurn.value).Some? then
      IndexOf(messages, logicalTurn.value).value
    else
      LastGenuineUser(messages)
  }

  lemma {:induction false} IndexOfFinds(messages: seq<Message>, m: Message)
    ensures match IndexOf(messages, m)
            case Some(i) => i < |messages| && messages[i] == m
            case None => m !in messages
  {
    if messages != [] {
      IndexOfFinds(messages[1..], m);
    }
  }

  lemma {:induction false} LastGenuineUserIsOne(messages: seq<Message>)
    ensures var i := LastGenuineUser(messages);
      && (messages != [] ==> i < |messages|)
      && (i > 0 ==> IsGenuineUser(messages[i]))
  {
    if messages != [] {
      LastGenuineUserIsOne(messages[..|messages| - 1]);
    }
  }

  lemma SourceInRange(messages: seq<Message>, logicalTurn: Option<Message>)
    ensures SourceIndex(messages, logicalTurn) < |messages| || SourceIndex(messages, logicalTurn) == 0
  {
    LastGenuineUserIsOne(messages);
    if logicalTurn.Some? {
      IndexOfFinds(messages, logicalTurn.value);
    }
  }

  lemma {:induction false} FirstIsFirst(messages: seq<Message>, m: Message)
    ensures IndexOf(messages, m).Some? ==>
              IndexOf(messages, m).value <= |messages| && m !in messages[..IndexOf(messages, m).value]
  {
    if messages != [] && messages[0] != m {
      FirstIsFirst(messages[1..], m);
      var rest := IndexOf(messages[1..], m);
      if rest.Some? {
        assert messages[..rest.value + 1] == [messages[0]] + messages[1..][..rest.value];
      }
    }
  }

  lemma {:induction false} NoGenuineUserAfter(messages: seq<Message>)
    ensures forall k: nat | LastGenuineUser(messages) < k < |messages| :: !IsGenuineUser(messages[k])
  {
    if messages != [] && !IsGenuineUser(messages[|messages| - 1]) {
      NoGenuineUserAfter(messages[..|messages| - 1]);
      assert forall k: nat | k < |messages| - 1 :: messages[..|messages| - 1][k] == messages[k];
    }
  }

  predicate LastGenuine(messages: seq<Message>, i: nat) {
    i < |messages| && IsGenuineUser(messages[i])
    && forall k: nat | i < k < |messages| :: !IsGenuineUser(messages[k])
  }

  /** Memory is anchored to the turn it was retrieved for, else to the last genuine user turn, else to the start. */
  lemma SourceIndexAnswers(messages: seq<Message>, logicalTurn: Option<Message>)
    ensures var source := SourceIndex(messages, logicalTurn);
      if logicalTurn.Some? && logicalTurn.value in messages then
        source < |messages| && messages[source] == logicalTurn.value && logicalTurn.value !in messages[..source]
      else if exists i: nat :: i < |messages| && IsGenuineUser(messages[i]) then LastGenuine(messages, source)
      else source == 0
  {
    LastGenuineUserIsOne(messages);
    NoGenuineUserAfter(messages);
    if logicalTurn.Some? {
      IndexOfFinds(messages, logicalTurn.value);
      FirstIsFirst(messages, logicalTurn.value);
    }
  }

  /** Memory never goes before a tool-result carrier that follows another message. */
  lemma SourceIsNotACarrier(messages: seq<Message>, logicalTurn: Option<Message>)
    requires logicalTurn.Some? ==> IsGenuineUser(logicalTurn.value)
    ensures var source := SourceIndex(messages, logicalTurn);
      && (messages != [] ==> source < |messages|)
      && (messages == [] ==> source == 0)
      && (source > 0 ==> !IsToolResultCarrier(messages[source]))
  {
    LastGenuineUserIsOne(messages);
    if logicalTurn.Some? {
      IndexOfFinds(messages, logicalTurn.value);
    }
  }

  method FindSourceIndex(messages: seq<Message>, logicalTurn: Option<Message>) returns (source: nat)
    ensures source == SourceIndex(messages, logicalTurn)
  {
    if logicalTurn.Some? {
      var i: nat := 0;
      while i < |messages|
        invariant i <= |messages|
        invariant IndexOf(messages, logicalTurn.value)
               == match IndexOf(messages[i..], logicalTurn.value)
                  case None => None
                  case Some(j) => Some(i + j)
      {
        if messages[i] == logicalTurn.value {
          return i;
        }
        assert messages[i..][1..] == messages[i + 1..];
        i := i + 1;
      }
    }
    var index: nat := |messages|;
    assert messages[..index] == messages;
    while index > 0
      invariant index <= |messages|
      invariant LastGenuineUser(messages) == LastGenuineUser(messages[..index])
    {
      assert messages[..index][..index - 1] == messages[..index - 1];
      index := index - 1;
      if IsGenuineUser(messages[index]) {
        return index;
      }
    }
    return 0;
  }

  method CountAtOrBefore(insertions: seq<Insertion>, k: nat) returns (count: nat)
    ensures count == AtOrBefore(insertions, k)
  {
    count := 0;
    var i: nat := |insertions|;
    while i > 0
      invariant i <= |insertions|
      invariant count == AtOrBefore(insertions[i..], k)
    {
      i := i - 1;
      assert insertions[i..][1..] == insertions[i + 1..];
      if insertions[i].beforeIndex <= k {
        count := count + 1;
      }
    }
    assert insertions[0..] == insertions;
  }

  // ---------------------------------------------------------------- the theorem

  /** Where message `k` of the history stands in the request. */
  function Place(insertions: seq<Insertion>, memoryAt: Option<nat>, k: nat): nat {
    k + AtOrBefore(insertions, k) + (if memoryAt.Some? && memoryAt.value <= k then 1 else 0)
  }

  lemma {:induction false} CountsAgree(insertions: seq<Insertion>, k: nat)
    requires forall j: nat | j < |insertions| :: insertions[j].beforeIndex != k + 1
    ensures AtOrBefore(insertions, k + 1) == AtOrBefore(insertions, k)
  {
    if insertions != [] {
      CountsAgree(insertions[1..], k);
    }
  }

  lemma {:induction false} CountsGrow(insertions: seq<Insertion>, i: nat, k: nat)
    requires i <= k
    ensures AtOrBefore(insertions, i) <= AtOrBefore(insertions, k)
  {
    if insertions != [] {
      CountsGrow(insertions[1..], i, k);
    }
  }

  /** Every tool-result carrier directly follows the message it follows in the history. */
  predicate CarriersFollow(messages: seq<Message>, insertions: seq<Insertion>, memoryAt: Option<nat>) {
    forall k: nat | k + 1 < |messages| && IsToolResultCarrier(messages[k + 1]) ::
      Place(insertions, memoryAt, k + 1) == Place(insertions, memoryAt, k) + 1
  }

  lemma CarriersStayAdjacent(messages: seq<Message>, insertions: seq<Insertion>,
                             memoryAt: Option<nat>, logicalTurn: Option<Message>)
    requires logicalTurn.Some? ==> IsGenuineUser(logicalTurn.value)
    requires AtTurnBoundaries(messages, insertions)
    requires memoryAt.None? || memoryAt.value == SourceIndex(messages, logicalTurn)
    ensures CarriersFollow(messages, insertions, memoryAt)
  {
    SourceIsNotACarrier(messages, logicalTurn);
    forall k: nat | k + 1 < |messages| && IsToolResultCarrier(messages[k + 1])
      ensures Place(insertions, memoryAt, k + 1) == Place(insertions, memoryAt, k) + 1
    {
      CountsAgree(insertions, k);
    }
  }

  predicate Placed(n: nat, insertions: seq<Insertion>, memoryAt: Option<nat>, items: seq<Item>) {
    forall k: nat | k < n ::
      Place(insertions, memoryAt, k) < |items| && items[Place(insertions, memoryAt, k)] == FromHistory(k)
  }

  /** Insertion `j` stands before the message it was made for, after the earlier insertions and what they precede. */
  predicate BlocksPlaced(insertions: seq<Insertion>, memoryAt: Option<nat>, items: seq<Item>) {
    forall j: nat | j < |insertions| ::
      BlockPlace(insertions, memoryAt, j) < |items|
      && items[BlockPlace(insertions, memoryAt, j)] == ModeBlock(insertions[j].blockText)
  }

  function BlockPlace(insertions: seq<Insertion>, memoryAt: Option<nat>, j: nat): nat
    requires j < |insertions|
  {
    var before := insertions[j].beforeIndex;
    before + j + (if memoryAt.Some? && memoryAt.value < before then 1 else 0)
  }

  lemma {:induction false} CountIsRank(insertions: seq<Insertion>, k: nat, j: nat)
    requires Ascending(insertions) && j < |insertions|
    ensures j < AtOrBefore(insertions, k) <==> insertions[j].beforeIndex <= k
  {
    var rest := insertions[1..];
    if insertions[0].beforeIndex > k {
      NoneAtOrBefore(insertions, k);
    } else if j > 0 {
      CountIsRank(rest, k, j - 1);
    }
  }

  lemma MemoryShiftsBlocks(insertions: seq<Insertion>, items: seq<Item>, source: nat, text: string)
    requires Ascending(insertions) && BlocksPlaced(insertions, None, items)
    requires source + AtOrBefore(insertions, source) <= |items|
    ensures BlocksPlaced(insertions, Some(source),
                         Splice(items, source + AtOrBefore(insertions, source), Memory(text)))
  {
    hide AtOrBefore;
    var at := source + AtOrBefore(insertions, source);
    var more := Splice(items, at, Memory(text));
    forall j: nat | j < |insertions|
      ensures BlockPlace(insertions, Some(source), j) < |more|
      ensures more[BlockPlace(insertions, Some(source), j)] == ModeBlock(insertions[j].blockText)
    {
      CountIsRank(insertions, source, j);
      assert items[BlockPlace(insertions, None, j)] == ModeBlock(insertions[j].blockText);
    }
  }

  lemma MemoryShiftsWhatFollows(n: nat, insertions: seq<Insertion>, items: seq<Item>, source: nat, text: string)
    requires Placed(n, insertions, None, items)
    requires source + AtOrBefore(insertions, source) <= |items|
    ensures Placed(n, insertions, Some(source),
                   Splice(items, source + AtOrBefore(insertions, source), Memory(text)))
  {
    hide AtOrBefore;
    var at := source + AtOrBefore(insertions, source);
    var more := Splice(items, at, Memory(text));
    forall k: nat | k < n
      ensures Place(insertions, Some(source), k) < |more|
      ensures more[Place(insertions, Some(source), k)] == FromHistory(k)
    {
      assert items[Place(insertions, None, k)] == FromHistory(k);
      if source <= k {
        CountsGrow(insertions, source, k);
      } else {
        CountsGrow(insertions, k, source);
      }
    }
  }

  /** Memory stands directly before the message it is anchored to. */
  predicate MemoryPlaced(messages: seq<Message>, insertions: seq<Insertion>, source: nat,
                         items: seq<Item>, text: string)
  {
    var at := Place(insertions, Some(source), source) - 1;
    (messages != [] ==> source < |messages|) && at < |items| && items[at] == Memory(text)
  }

  /** The copy of the history, with everything but memory in it. */
  method AssembleWithoutMemory(session: AgentSession, effective: seq<Message>, nudge: bool)
    returns (items: seq<Item>, insertions: seq<Insertion>)
    ensures Ascending(insertions) && AtTurnBoundaries(effective, insertions)
    ensures Shows(insertions, effective, if session.inConversation then session.anchors else [])
    ensures Erase(items) == Upto(|effective|)
    ensures Placed(|effective|, insertions, None, items) && BlocksPlaced(insertions, None, items)
    ensures |items| == |effective| + |insertions| + (if nudge then 1 else 0)
    ensures nudge ==> items[|items| - 1] == Nudge
  {
    insertions := session.BuildModeInstructionInsertions(effective);
    items := BuildProviderMessages(|effective|, insertions);
    if nudge {
      assert (items + [Nudge])[..|items|] == items;
      items := items + [Nudge];
    }
  }

  lemma MemoryIsSpliced(effective: seq<Message>, insertions: seq<Insertion>, items: seq<Item>,
                        source: nat, text: string)
    requires source + AtOrBefore(insertions, source) <= |items| && (effective != [] ==> source < |effective|)
    ensures var more := Splice(items, source + AtOrBefore(insertions, source), Memory(text));
      && |more| == |items| + 1 && MemoryPlaced(effective, insertions, source, more, text)
      && (source + AtOrBefore(insertions, source) < |items| ==> more[|items|] == items[|items| - 1])
  {
    hide AtOrBefore;
  }

  /** `insertAutomaticMemoryContext` */
  method InsertMemory(effective: seq<Message>, insertions: seq<Insertion>, items: seq<Item>,
                      text: string, logicalTurn: Option<Message>)
    returns (more: seq<Item>, memoryAt: Option<nat>)
    requires |items| >= |effective| + |insertions| && Ascending(insertions)
    requires Placed(|effective|, insertions, None, items) && BlocksPlaced(insertions, None, items)
    ensures memoryAt == Some(SourceIndex(effective, logicalTurn))
    ensures Placed(|effective|, insertions, memoryAt, more) && BlocksPlaced(insertions, memoryAt, more)
    ensures |more| == |items| + 1 && Erase(more) == Erase(items)
    ensures |items| > |effective| + |insertions| ==> more[|items|] == items[|items| - 1]
    ensures MemoryPlaced(effective, insertions, memoryAt.value, more, text)
  {
    var source := FindSourceIndex(effective, logicalTurn);
    var before := CountAtOrBefore(insertions, source);
    SourceInRange(effective, logicalTurn);
    AtMostAll(insertions, source);
    hide AtOrBefore, Erase, Placed, BlocksPlaced, Splice, MemoryPlaced;
    MemoryShiftsWhatFollows(|effective|, insertions, items, source, text);
    MemoryShiftsBlocks(insertions, items, source, text);
    SpliceErases(items, source + before, Memory(text));
    MemoryIsSpliced(effective, insertions, items, source, text);
    more := Splice(items, source + before, Memory(text));
    memoryAt := Some(source);
  }

  /**
   The request holds every message of the history once and in order. Mode blocks and memory
   stand directly before the messages they belong to, and no carrier is separated from its call.
   */
  method AssembleRequest(session: AgentSession, effective: seq<Message>, nudge: bool,
                         memory: Option<string>, logicalTurn: Option<Message>)
    returns (items: seq<Item>, insertions: seq<Insertion>, memoryAt: Option<nat>)
    requires logicalTurn.Some? ==> IsGenuineUser(logicalTurn.value)
    ensures Erase(items) == Upto(|effective|)
    ensures |items| == |effective| + |insertions| + (if nudge then 1 else 0) + (if memory.Some? then 1 else 0)
    ensures Placed(|effective|, insertions, memoryAt, items) && BlocksPlaced(insertions, memoryAt, items)
    ensures nudge ==> items[|items| - 1] == Nudge
    ensures Ascending(insertions) && AtTurnBoundaries(effective, insertions)
    ensures Shows(insertions, effective, if session.inConversation then session.anchors else [])
    ensures memoryAt == if memory.Some? then Some(SourceIndex(effective, logicalTurn)) else None
    ensures memory.Some? ==> MemoryPlaced(effective, insertions, memoryAt.value, items, memory.value)
    ensures CarriersFollow(effective, insertions, memoryAt)
  {
    items, insertions := AssembleWithoutMemory(session, effective, nudge);
    memoryAt := None;
    if memory.Some? {
      items, memoryAt := InsertMemory(effective, insertions, items, memory.value, logicalTurn);
    }
    CarriersStayAdjacent(effective, insertions, memoryAt, logicalTurn);
  }
}
