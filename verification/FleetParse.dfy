/**
 Which candidate of a message becomes the envelope: src/agent/FleetWorkflows.ts
 (`parseFleetResultEnvelopeDetailed`, `extractBalancedJsonObject`).
 */
module FleetParse {
  import opened Wrappers
  import opened FleetEnvelope
  import opened FleetFences

  const MAX_BRACE_SCAN_CANDIDATES: nat := 8

  /** `parseExpectedFleetResult`, where only success matters. */
  function Candidate(lib: Library, e: Expected, text: string, roots: seq<string>): Option<Value> {
    match lib.parse(text)
    case None => None
    case Some(v) => Interpret(lib, e, v, roots)
  }

  // ---------------------------------------------------------------- balanced objects

  datatype Cursor = Cursor(depth: int, inString: bool, escaped: bool)

  function Advance(c: Cursor, ch: char): Cursor {
    if c.inString then
      if c.escaped then c.(escaped := false)
      else if ch == '\\' then c.(escaped := true)
      else if ch == '"' then c.(inString := false)
      else c
    else if ch == '"' then c.(inString := true)
    else if ch == '{' then c.(depth := c.depth + 1)
    else if ch == '}' then c.(depth := c.depth - 1)
    else c
  }

  /** Where the scan from `start` stands before index `i`. */
  function CursorAt(text: string, start: nat, i: nat): Cursor
    requires start <= i <= |text|
  {
    if i == start then Cursor(0, false, false) else Advance(CursorAt(text, start, i - 1), text[i - 1])
  }

  /** The brace at `i` lies outside strings and closes what was opened since `start`. */
  predicate BalancedAt(text: string, start: nat, i: nat)
    requires start <= i < |text|
  {
    text[i] == '}' && !CursorAt(text, start, i).inString && CursorAt(text, start, i + 1).depth == 0
  }

  function ScanLimit(text: string, start: nat): nat {
    if |text| < start + MAX_BODY_CHARS then |text| else start + MAX_BODY_CHARS
  }

  /** The text from `start` to the first brace that balances it. */
  function BalancedFrom(text: string, start: nat, i: nat): Option<string>
    requires start <= i <= |text|
    decreases |text| - i
  {
    if i >= ScanLimit(text, start) then None
    else if BalancedAt(text, start, i) then Some(text[start..i + 1])
    else BalancedFrom(text, start, i + 1)
  }

  method ExtractBalancedJsonObject(text: string, start: nat) returns (found: Option<string>)
    requires start <= |text|
    ensures found == BalancedFrom(text, start, start)
    ensures found.Some? ==> exists i: nat :: (
                && start <= i < ScanLimit(text, start) && BalancedAt(text, start, i)
                && found.value == text[start..i + 1]
                && forall k: nat | start <= k < i :: !BalancedAt(text, start, k))
    ensures found.None? ==> forall k: nat | start <= k < ScanLimit(text, start) :: !BalancedAt(text, start, k)
  {
    var depth, inString, escaped := 0, false, false;
    var limit := ScanLimit(text, start);
    var index: nat := start;
    while index < limit
      invariant start <= index <= limit || limit <= index == start
      invariant Cursor(depth, inString, escaped) == CursorAt(text, start, index)
      invariant BalancedFrom(text, start, start) == BalancedFrom(text, start, index)
      invariant forall k: nat | start <= k < index :: !BalancedAt(text, start, k)
    {
      var c := text[index];
      if inString {
        if escaped {
          escaped := false;
        } else if c == '\\' {
          escaped := true;
        } else if c == '"' {
          inString := false;
        }
      } else if c == '"' {
        inString := true;
      } else if c == '{' {
        depth := depth + 1;
      } else if c == '}' {
        depth := depth - 1;
        if depth == 0 {
          return Some(text[start..index + 1]);
        }
      }
      index := index + 1;
    }
    return None;
  }

  // ---------------------------------------------------------------- choosing

  /** The envelope of the last text that is a valid candidate. */
  function LastValid(lib: Library, e: Expected, texts: seq<string>, roots: seq<string>): Option<Value> {
    if texts == [] then None
    else
      var last := Candidate(lib, e, texts[|texts| - 1], roots);
      if last.Some? then last else LastValid(lib, e, texts[..|texts| - 1], roots)
  }

  function Trimmed(lib: Library, bodies: seq<string>): (r: seq<string>)
    ensures |r| == |bodies| && forall i: nat | i < |bodies| :: r[i] == lib.trim(bodies[i])
  {
    seq(|bodies|, i requires 0 <= i < |bodies| => lib.trim(bodies[i]))
  }

  /** The balanced objects at the given starts, in order. */
  function Balanced(text: string, starts: seq<nat>): seq<string>
    requires forall i: nat | i < |starts| :: starts[i] <= |text|
  {
    if starts == [] then []
    else
      var last := BalancedFrom(text, starts[|starts| - 1], starts[|starts| - 1]);
      Balanced(text, starts[..|starts| - 1]) + (if last.Some? && last.value != "" then [last.value] else [])
  }

  function Newest(starts: seq<nat>): seq<nat> {
    if |starts| <= MAX_BRACE_SCAN_CANDIDATES then starts else starts[|starts| - MAX_BRACE_SCAN_CANDIDATES..]
  }

  /** `None` is the plain text envelope. `starts` are the places where an object announces a type. */
  function Parsed(lib: Library, g: Grammar, e: Expected, text: string, starts: seq<nat>, roots: seq<string>)
    : Option<Value>
    requires forall i: nat | i < |starts| :: starts[i] <= |text|
  {
    var exact := Candidate(lib, e, text, roots);
    var (bodies, overflowed) := Extract(g, SplitLines(text));
    if exact.Some? then exact
    else if overflowed || bodies == [] then LastValid(lib, e, Balanced(text, Newest(starts)), roots)
    else LastValid(lib, e, Trimmed(lib, bodies), roots)
  }

  method ParseFleetResultEnvelope(lib: Library, g: Grammar, expected: Option<Expected>, text: string,
                                  starts: seq<nat>, roots: seq<string>)
    returns (envelope: Option<Value>)
    requires forall i: nat | i < |starts| :: starts[i] <= |text|
    ensures expected.None? ==> envelope.None?
    ensures expected.Some? ==> envelope == Parsed(lib, g, expected.value, text, starts, roots)
  {
    if expected.None? {
      return None;
    }
    var e := expected.value;
    var exact := Candidate(lib, e, text, roots);
    if exact.Some? {
      return exact;
    }
    var bodies, overflowed := ExtractFleetResultFenceBodies(g, text);
    if !overflowed {
      var texts := Trimmed(lib, bodies);
      var lastValid: Option<Value> := None;
      for i := 0 to |bodies|
        invariant lastValid == LastValid(lib, e, texts[..i], roots)
      {
        assert texts[..i + 1][..i] == texts[..i];
        var outcome := Candidate(lib, e, lib.trim(bodies[i]), roots);
        if outcome.Some? {
          lastValid := outcome;
        }
      }
      assert texts[..|bodies|] == texts;
      if lastValid.Some? {
        return lastValid;
      }
    }
    if overflowed || bodies == [] {
      envelope := ScanBraces(lib, e, text, Newest(starts), roots);
      return;
    }
    return None;
  }

  /** Newest first. */
  method ScanBraces(lib: Library, e: Expected, text: string, starts: seq<nat>, roots: seq<string>)
    returns (envelope: Option<Value>)
    requires forall i: nat | i < |starts| :: starts[i] <= |text|
    ensures envelope == LastValid(lib, e, Balanced(text, starts), roots)
  {
    var i: nat := |starts|;
    assert starts[..i] == starts;
    while i > 0
      invariant i <= |starts|
      invariant LastValid(lib, e, Balanced(text, starts), roots)
             == LastValid(lib, e, Balanced(text, starts[..i]), roots)
    {
      LastStart(lib, e, text, starts[..i], roots);
      assert starts[..i][..i - 1] == starts[..i - 1];
      var candidate := ExtractBalancedJsonObject(text, starts[i - 1]);
      i := i - 1;
      if candidate.Some? && candidate.value != "" {
        var outcome := Candidate(lib, e, candidate.value, roots);
        if outcome.Some? {
          return outcome;
        }
      }
    }
    return None;
  }

  lemma LastStart(lib: Library, e: Expected, text: string, starts: seq<nat>, roots: seq<string>)
    requires starts != [] && forall i: nat | i < |starts| :: starts[i] <= |text|
    ensures var start := starts[|starts| - 1];
      var found := BalancedFrom(text, start, start);
      LastValid(lib, e, Balanced(text, starts), roots)
      == if found.Some? && found.value != "" && Candidate(lib, e, found.value, roots).Some?
         then Candidate(lib, e, found.value, roots)
         else LastValid(lib, e, Balanced(text, starts[..|starts| - 1]), roots)
  {
    var start := starts[|starts| - 1];
    var found := BalancedFrom(text, start, start);
    var earlier := Balanced(text, starts[..|starts| - 1]);
    if found.Some? && found.value != "" {
      assert (earlier + [found.value])[..|earlier|] == earlier;
    } else {
      assert Balanced(text, starts) == earlier;
    }
  }

  // ---------------------------------------------------------------- theorems

  lemma {:induction false} LastValidIsLast(lib: Library, e: Expected, texts: seq<string>, roots: seq<string>, i: nat)
    requires i < |texts| && Candidate(lib, e, texts[i], roots).Some?
    requires forall k: nat | i < k < |texts| :: Candidate(lib, e, texts[k], roots).None?
    ensures LastValid(lib, e, texts, roots) == Candidate(lib, e, texts[i], roots)
  {
    if i < |texts| - 1 {
      LastValidIsLast(lib, e, texts[..|texts| - 1], roots, i);
    }
  }

  /** Unless the whole message is an envelope, the last valid fenced candidate is the answer. */
  lemma LastFencedCandidateWins(lib: Library, g: Grammar, e: Expected, text: string, starts: seq<nat>,
                                roots: seq<string>, i: nat)
    requires forall k: nat | k < |starts| :: starts[k] <= |text|
    requires Candidate(lib, e, text, roots).None? && !Extract(g, SplitLines(text)).1
    requires var bodies := Extract(g, SplitLines(text)).0;
      && i < |bodies| && Candidate(lib, e, lib.trim(bodies[i]), roots).Some?
      && forall k: nat | i < k < |bodies| :: Candidate(lib, e, lib.trim(bodies[k]), roots).None?
    ensures Parsed(lib, g, e, text, starts, roots)
         == Candidate(lib, e, lib.trim(Extract(g, SplitLines(text)).0[i]), roots)
  {
    LastValidIsLast(lib, e, Trimmed(lib, Extract(g, SplitLines(text)).0), roots, i);
  }

  /** The whole message comes first. */
  lemma WholeMessageWins(lib: Library, g: Grammar, e: Expected, text: string, starts: seq<nat>, roots: seq<string>)
    requires forall k: nat | k < |starts| :: starts[k] <= |text|
    requires Candidate(lib, e, text, roots).Some?
    ensures Parsed(lib, g, e, text, starts, roots) == Candidate(lib, e, text, roots)
  {
  }

  /** An object that begins here is a valid candidate. */
  predicate Fits(lib: Library, e: Expected, text: string, start: nat, roots: seq<string>)
    requires start <= |text|
  {
    var found := BalancedFrom(text, start, start);
    found.Some? && Candidate(lib, e, found.value, roots).Some?
  }

  lemma {:induction false} ObjectsAreNotEmpty(text: string, start: nat, i: nat)
    requires start <= i <= |text|
    ensures BalancedFrom(text, start, i).Some? ==> BalancedFrom(text, start, i).value != ""
    decreases |text| - i
  {
    if i < ScanLimit(text, start) && !BalancedAt(text, start, i) {
      ObjectsAreNotEmpty(text, start, i + 1);
    }
  }

  lemma {:induction false} NewestFitting(lib: Library, e: Expected, text: string, starts: seq<nat>, roots: seq<string>)
    requires forall k: nat | k < |starts| :: starts[k] <= |text|
    ensures LastValid(lib, e, Balanced(text, starts), roots).None? <==>
            forall k: nat | k < |starts| :: !Fits(lib, e, text, starts[k], roots)
    ensures forall i: nat | i < |starts| && Fits(lib, e, text, starts[i], roots)
                            && (forall k: nat | i < k < |starts| :: !Fits(lib, e, text, starts[k], roots)) ::
              LastValid(lib, e, Balanced(text, starts), roots)
              == Candidate(lib, e, BalancedFrom(text, starts[i], starts[i]).value, roots)
  {
    hide Candidate, BalancedFrom;
    if starts != [] {
      var n := |starts| - 1;
      ObjectsAreNotEmpty(text, starts[n], starts[n]);
      LastStart(lib, e, text, starts, roots);
      NewestFitting(lib, e, text, starts[..n], roots);
      assert forall k: nat | k < n :: starts[..n][k] == starts[k];
    }
  }

  /** The newest of all that fits is among the last eight, and is the newest of those. */
  lemma NewestOfTheLastEight(lib: Library, e: Expected, text: string, starts: seq<nat>, roots: seq<string>, i: nat)
    requires forall k: nat | k < |starts| :: starts[k] <= |text|
    requires i < |starts| <= i + 8 && Fits(lib, e, text, starts[i], roots)
    requires forall k: nat | i < k < |starts| :: !Fits(lib, e, text, starts[k], roots)
    ensures LastValid(lib, e, Balanced(text, Newest(starts)), roots)
         == Candidate(lib, e, BalancedFrom(text, starts[i], starts[i]).value, roots)
  {
    var newest, first := Newest(starts), if |starts| <= 8 then 0 else |starts| - 8;
    assert newest == starts[first..];
    NewestFitting(lib, e, text, newest, roots);
    hide Candidate, BalancedFrom, LastValid, Balanced, Newest, Fits;
    assert forall k: nat | k < |newest| :: newest[k] == starts[first + k];
    assert newest[i - first] == starts[i];
  }

  /**
   When no fenced block was read, the newest of the last eight objects that fits is the answer, even when
   an older one fits as well.
   */
  lemma NewestObjectWins(lib: Library, g: Grammar, e: Expected, text: string, starts: seq<nat>, roots: seq<string>,
                         i: nat)
    requires forall k: nat | k < |starts| :: starts[k] <= |text|
    requires Candidate(lib, e, text, roots).None?
    requires var (bodies, overflowed) := Extract(g, SplitLines(text)); overflowed || bodies == []
    requires i < |starts| <= i + 8 && Fits(lib, e, text, starts[i], roots)
    requires forall k: nat | i < k < |starts| :: !Fits(lib, e, text, starts[k], roots)
    ensures Parsed(lib, g, e, text, starts, roots)
         == Candidate(lib, e, BalancedFrom(text, starts[i], starts[i]).value, roots)
  {
    hide Candidate, BalancedFrom, LastValid, Balanced, Newest, Fits, Extract, SplitLines;
    NewestOfTheLastEight(lib, e, text, starts, roots, i);
  }

  lemma {:induction false} NoneValid(lib: Library, e: Expected, texts: seq<string>, roots: seq<string>)
    ensures LastValid(lib, e, texts, roots).None? <==>
            forall k: nat | k < |texts| :: Candidate(lib, e, texts[k], roots).None?
  {
    if texts != [] {
      NoneValid(lib, e, texts[..|texts| - 1], roots);
    }
  }

  predicate NoneOfLastEightFits(lib: Library, e: Expected, text: string, starts: seq<nat>, roots: seq<string>)
    requires forall k: nat | k < |starts| :: starts[k] <= |text|
  {
    forall k: nat | k < |starts| <= k + 8 :: !Fits(lib, e, text, starts[k], roots)
  }

  predicate NoBodyIsValid(lib: Library, e: Expected, bodies: seq<string>, roots: seq<string>) {
    forall k: nat | k < |bodies| :: Candidate(lib, e, lib.trim(bodies[k]), roots).None?
  }

  lemma NoneOfTheNewestFits(lib: Library, e: Expected, text: string, starts: seq<nat>, roots: seq<string>)
    requires forall k: nat | k < |starts| :: starts[k] <= |text|
    ensures LastValid(lib, e, Balanced(text, Newest(starts)), roots).None? <==>
            NoneOfLastEightFits(lib, e, text, starts, roots)
  {
    hide Fits, LastValid, Balanced;
    NewestFitting(lib, e, text, Newest(starts), roots);
    var first := if |starts| <= 8 then 0 else |starts| - 8;
    assert Newest(starts) == starts[first..];
    assert forall k: nat | k < |starts| - first :: Newest(starts)[k] == starts[first + k];
    assert forall k: nat | first <= k < |starts| :: starts[k] == Newest(starts)[k - first];
  }

  lemma NoTrimmedIsValid(lib: Library, e: Expected, bodies: seq<string>, roots: seq<string>)
    ensures LastValid(lib, e, Trimmed(lib, bodies), roots).None? <==> NoBodyIsValid(lib, e, bodies, roots)
  {
    hide Candidate, LastValid;
    NoneValid(lib, e, Trimmed(lib, bodies), roots);
    assert forall k: nat | k < |bodies| :: Trimmed(lib, bodies)[k] == lib.trim(bodies[k]);
  }

  /**
   The answer is plain text exactly when neither the message nor any fenced body is valid, or, if there are no
   bodies to try, none of the last eight objects. Objects are not tried beside fenced bodies.
   */
  lemma PlainTextIff(lib: Library, g: Grammar, e: Expected, text: string, starts: seq<nat>, roots: seq<string>)
    requires forall k: nat | k < |starts| :: starts[k] <= |text|
    ensures Parsed(lib, g, e, text, starts, roots).None? <==>
            && Candidate(lib, e, text, roots).None?
            && var (bodies, overflowed) := Extract(g, SplitLines(text));
               if overflowed || bodies == [] then NoneOfLastEightFits(lib, e, text, starts, roots)
               else NoBodyIsValid(lib, e, bodies, roots)
  {
    NoneOfTheNewestFits(lib, e, text, starts, roots);
    NoTrimmedIsValid(lib, e, Extract(g, SplitLines(text)).0, roots);
    hide Candidate, NoneOfLastEightFits, NoBodyIsValid, LastValid, Balanced, Trimmed;
  }

  /** The envelope is what some parsed candidate was interpreted as. */
  ghost predicate ComesFrom(lib: Library, e: Expected, roots: seq<string>, envelope: Value, v: Value) {
    Interpret(lib, e, v, roots) == Some(envelope)
  }

  lemma {:induction false} LastValidComesFrom(lib: Library, e: Expected, texts: seq<string>, roots: seq<string>)
    returns (source: string, v: Value)
    requires LastValid(lib, e, texts, roots).Some?
    ensures source in texts && lib.parse(source) == Some(v)
    ensures ComesFrom(lib, e, roots, LastValid(lib, e, texts, roots).value, v)
  {
    var last := texts[|texts| - 1];
    if Candidate(lib, e, last, roots).Some? {
      source := last;
      v := lib.parse(last).value;
    } else {
      source, v := LastValidComesFrom(lib, e, texts[..|texts| - 1], roots);
    }
  }

  /** The pieces of the text that may hold the envelope: the whole, the trimmed fenced bodies, or balanced objects. */
  predicate IsPiece(lib: Library, g: Grammar, text: string, starts: seq<nat>, source: string)
    requires forall i: nat | i < |starts| :: starts[i] <= |text|
  {
    var (bodies, overflowed) := Extract(g, SplitLines(text));
    || source == text
    || (if overflowed || bodies == [] then source in Balanced(text, Newest(starts)) else source in Trimmed(lib, bodies))
  }

  /** No finding of a parsed review names a property that the synonym table inherits. */
  predicate SeveritiesAreOwn(lib: Library, v: Value) {
    v.Object? && "findings" in v.fields && v.fields["findings"].Array?
    ==> forall i: nat | i < |v.fields["findings"].items| :: !NamesInherited(lib, v.fields["findings"].items[i])
  }

  /**
   A result that is not plain text was read from a piece of the text and has the expected type. It is strictly
   valid if and only if it is not a review made from findings whose severity names an inherited property.
   */
  lemma ResultIsStrictIff(lib: Library, g: Grammar, e: Expected, text: string, starts: seq<nat>, roots: seq<string>)
    returns (source: string, v: Value)
    requires forall i: nat | i < |starts| :: starts[i] <= |text|
    requires Parsed(lib, g, e, text, starts, roots).Some?
    ensures IsPiece(lib, g, text, starts, source) && lib.parse(source) == Some(v)
    ensures var envelope := Parsed(lib, g, e, text, starts, roots).value;
      && ComesFrom(lib, e, roots, envelope, v)
      && envelope.Object? && "type" in envelope.fields && envelope.fields["type"] == String(TypeName(e))
      && (IsEnvelope(lib, envelope) <==> (e == ReviewFindings ==> SeveritiesAreOwn(lib, v)))
  {
    if Candidate(lib, e, text, roots).Some? {
      source := text;
      v := lib.parse(text).value;
    } else if Extract(g, SplitLines(text)).1 || Extract(g, SplitLines(text)).0 == [] {
      source, v := LastValidComesFrom(lib, e, Balanced(text, Newest(starts)), roots);
    } else {
      source, v := LastValidComesFrom(lib, e, Trimmed(lib, Extract(g, SplitLines(text)).0), roots);
    }
    AcceptedHasType(lib, e, v, roots);
    if e == ReviewFindings {
      FindingsAreStrictIff(lib, v, roots);
    }
  }
}
