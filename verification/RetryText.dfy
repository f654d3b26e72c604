/**
 Text of a retried stream: src/agent/AgentEngine.ts, the `text_delta` case of `run`.

 When a stream breaks and is retried, the provider starts its answer again. The loop
 compares the new text with what the user has already seen and shows only what is new,
 while the text arrives in chunks of any size. Text is a sequence of UTF-16 code units.
 */
module RetryText {
  type Text = seq<char>

  function Concat(chunks: seq<Text>): Text {
    if chunks == [] then [] else Concat(chunks[..|chunks| - 1]) + chunks[|chunks| - 1]
  }

  predicate Agree(a: Text, b: Text, n: nat) {
    n <= |a| && n <= |b| && forall i: nat | i < n :: a[i] == b[i]
  }

  /** Length of the longest common prefix. */
  function CommonPrefix(a: Text, b: Text): (n: nat)
    ensures Agree(a, b, n)
    ensures n < |a| && n < |b| ==> a[n] != b[n]
  {
    if a == [] || b == [] || a[0] != b[0] then 0
    else
      var n := CommonPrefix(a[1..], b[1..]);
      assert forall i: nat | 0 < i <= n :: a[i] == a[1..][i - 1] && b[i] == b[1..][i - 1];
      n + 1
  }

  lemma CommonPrefixIsUnique(a: Text, b: Text, n: nat)
    requires Agree(a, b, n)
    requires n == |a| || n == |b| || a[n] != b[n]
    ensures CommonPrefix(a, b) == n
  {
  }

  /** What the user has seen once an attempt with text `text` follows the text `seen`. */
  function Shown(seen: Text, text: Text): Text {
    seen + text[CommonPrefix(seen, text)..]
  }

  /** The progress of one attempt: how much of `seen` its text has repeated, and whether it left it. */
  predicate Tracks(seen: Text, text: Text, offset: nat, diverged: bool, shown: Text) {
    && offset == CommonPrefix(seen, text)
    && shown == seen + text[offset..]
    && (diverged ==> offset < |text|)
    && (!diverged && offset < |seen| ==> offset == |text|)
  }

  /** The inner loop: how many units of `chunk` repeat the start of `rest`. */
  method MatchLength(chunk: Text, rest: Text) returns (matching: nat)
    ensures matching == CommonPrefix(chunk, rest)
  {
    var limit := if |chunk| < |rest| then |chunk| else |rest|;
    matching := 0;
    while matching < limit && chunk[matching] == rest[matching]
      invariant matching <= limit
      invariant Agree(chunk, rest, matching)
    {
      matching := matching + 1;
    }
    CommonPrefixIsUnique(chunk, rest, matching);
  }

  /** Beyond what it repeats, everything an attempt brings is new. */
  lemma NewTextIsShown(seen: Text, text: Text, chunk: Text, offset: nat)
    requires offset == CommonPrefix(seen, text) && (offset < |text| || offset == |seen|)
    ensures CommonPrefix(seen, text + chunk) == offset
    ensures (text + chunk)[offset..] == text[offset..] + chunk
  {
    CommonPrefixIsUnique(seen, text + chunk, offset);
  }

  /** While an attempt only repeats, a chunk repeats as much more as it agrees with what comes next. */
  lemma RepeatedTextIsSkipped(seen: Text, text: Text, chunk: Text, matching: nat)
    requires Agree(seen, text, |text|)
    requires matching == CommonPrefix(chunk, seen[|text|..])
    ensures CommonPrefix(seen, text + chunk) == |text| + matching
    ensures (text + chunk)[|text| + matching..] == chunk[matching..]
  {
    var more, rest := text + chunk, seen[|text|..];
    forall i: nat | i < |text| + matching
      ensures seen[i] == more[i]
    {
      if |text| <= i {
        assert chunk[i - |text|] == rest[i - |text|];
      }
    }
    assert matching < |chunk| && matching < |rest| ==> chunk[matching] != rest[matching];
    CommonPrefixIsUnique(seen, more, |text| + matching);
  }

  /** One chunk of an attempt; `delta` is the part of it that is shown. */
  method ReceiveChunk(seen: Text, ghost text: Text, chunk: Text, offset: nat, diverged: bool, shown: Text)
    returns (offset': nat, diverged': bool, shown': Text, delta: Text)
    requires Tracks(seen, text, offset, diverged, shown)
    ensures Tracks(seen, text + chunk, offset', diverged', shown')
    ensures shown' == shown + delta
  {
    offset', diverged', delta := offset, diverged, chunk;
    if !diverged && offset < |seen| {
      var matching := MatchLength(chunk, seen[offset..]);
      RepeatedTextIsSkipped(seen, text, chunk, matching);
      offset' := offset + matching;
      delta := chunk[matching..];
      if delta != [] {
        diverged' := true;
      }
    } else {
      NewTextIsShown(seen, text, chunk, offset);
    }
    shown' := shown + delta;
  }

  lemma OneMoreChunk(chunks: seq<Text>, i: nat)
    requires i < |chunks|
    ensures Concat(chunks[..i + 1]) == Concat(chunks[..i]) + chunks[i]
  {
    assert chunks[..i + 1][..i] == chunks[..i];
  }

  lemma OneMoreDelta(seen: Text, deltas: seq<Text>, delta: Text)
    ensures seen + Concat(deltas + [delta]) == seen + Concat(deltas) + delta
  {
    assert (deltas + [delta])[..|deltas|] == deltas;
  }

  lemma TrackedIsShown(seen: Text, text: Text, offset: nat, diverged: bool, shown: Text)
    requires Tracks(seen, text, offset, diverged, shown)
    ensures shown == Shown(seen, text)
  {
  }

  /**
   One attempt. `deltas` is what the loop yields; together they are exactly what the attempt adds to
   `seen`, however its text was cut into chunks.
   */
  method Receive(seen: Text, chunks: seq<Text>) returns (shown: Text, deltas: seq<Text>)
    ensures shown == Shown(seen, Concat(chunks))
    ensures shown == seen + Concat(deltas)
    ensures forall d | d in deltas :: d != []
  {
    shown, deltas := seen, [];
    var offset: nat, diverged := 0, false;
    ghost var text: Text := [];
    CommonPrefixIsUnique(seen, [], 0);
    assert Tracks(seen, text, offset, diverged, shown);
    hide Concat, Tracks, Shown;
    for i := 0 to |chunks|
      invariant text == Concat(chunks[..i]) && Tracks(seen, text, offset, diverged, shown)
      invariant shown == seen + Concat(deltas)
      invariant forall d | d in deltas :: d != []
    {
      OneMoreChunk(chunks, i);
      var delta: Text;
      offset, diverged, shown, delta := ReceiveChunk(seen, text, chunks[i], offset, diverged, shown);
      text := text + chunks[i];
      if delta != [] {
        OneMoreDelta(seen, deltas, delta);
        deltas := deltas + [delta];
      }
    }
    assert chunks[..|chunks|] == chunks;
    TrackedIsShown(seen, text, offset, diverged, shown);
  }

  // ---------------------------------------------------------------- several attempts

  /** What the user has seen after a series of attempts under one model selection, from nothing. */
  function ShownAfter(attempts: seq<Text>): Text {
    if attempts == [] then [] else Shown(ShownAfter(attempts[..|attempts| - 1]), attempts[|attempts| - 1])
  }

  /**
   The user sees exactly the text of the last attempt if and only if it begins with everything shown before;
   it adds nothing if and only if it repeats a beginning of that.
   */
  lemma RetryIsSeamlessIff(seen: Text, text: Text)
    ensures Shown(seen, text) == text <==> seen <= text
    ensures Shown(seen, text) == seen <==> text <= seen
  {
    var n := CommonPrefix(seen, text);
    if seen <= text {
      CommonPrefixIsUnique(seen, text, |seen|);
    }
    if text <= seen {
      CommonPrefixIsUnique(seen, text, |text|);
    }
    if Shown(seen, text) == text {
      assert text[..|seen|] == seen;
    }
  }

  lemma PrefixesAreOrdered(a: Text, b: Text, whole: Text)
    requires a <= whole && b <= whole && |a| <= |b|
    ensures a <= b
  {
  }

  /** One more attempt at the same answer shows the longer of it and what was shown before. */
  lemma LongerIsShown(seen: Text, last: Text, whole: Text)
    requires seen <= whole && last <= whole
    ensures Shown(seen, last) == if |seen| <= |last| then last else seen
    ensures seen <= Shown(seen, last) && last <= Shown(seen, last) <= whole
  {
    hide Shown;
    RetryIsSeamlessIff(seen, last);
    if |seen| <= |last| {
      PrefixesAreOrdered(seen, last, whole);
    } else {
      PrefixesAreOrdered(last, seen, whole);
    }
  }

  /** If every attempt is a prefix of one answer, the user sees exactly the longest of them. */
  lemma {:induction false} LongestAttemptIsShown(attempts: seq<Text>, whole: Text)
    requires forall a | a in attempts :: a <= whole
    ensures ShownAfter(attempts) <= whole
    ensures forall a | a in attempts :: a <= ShownAfter(attempts)
    ensures ShownAfter(attempts) == [] || ShownAfter(attempts) in attempts
  {
    if attempts != [] {
      var before, last := attempts[..|attempts| - 1], attempts[|attempts| - 1];
      assert attempts == before + [last];
      var seen := ShownAfter(before);
      assert ShownAfter(attempts) == Shown(seen, last);
      hide ShownAfter, Shown;
      assert last in attempts && forall a | a in before :: a in attempts;
      LongestAttemptIsShown(before, whole);
      LongerIsShown(seen, last, whole);
      forall a | a in attempts ensures a <= ShownAfter(attempts) {
        assert a in before || a == last;
      }
    }
  }
}
