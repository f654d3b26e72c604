/**
 Every message, read as blocks: `extractFleetResultFenceBodies` of src/agent/FleetWorkflows.ts.

 The lines of a message are prose lines, blocks on a single line, and fenced blocks of which only the
 last may lack its closing line. Every message can be read this way, and what is extracted from it is
 what its blocks contribute, in order, unless there are more than 32.
 */
module FleetBlocks {
  import opened Wrappers
  import opened FleetFences

  datatype Segment =
    | Prose(line: Line)
    | Inline(line: Line)
    | Fenced(open: Line, body: seq<Line>, close: Option<Line>)

  /** The line closes a fence with this mark: it is a mark of the same character and at least as long. */
  predicate EndsFence(g: Grammar, mark: Mark, line: Line) {
    && g.closer(line).Some?
    && g.closer(line).value.tilde == mark.tilde
    && g.closer(line).value.length >= mark.length
  }

  predicate SegmentOk(g: Grammar, segment: Segment) {
    match segment
    case Prose(line) => g.opener(line).None?
    case Inline(line) => g.opener(line).Some? && g.opener(line).value.accepted && g.opener(line).value.inlineClose.Some?
    case Fenced(open, body, close) =>
      && g.opener(open).Some?
      && !(g.opener(open).value.accepted && g.opener(open).value.inlineClose.Some?)
      && (forall i: nat | i < |body| :: !EndsFence(g, g.opener(open).value.mark, body[i]))
      && (close.Some? ==> EndsFence(g, g.opener(open).value.mark, close.value))
  }

  /** Only the last block may be unclosed. */
  predicate SegmentsOk(g: Grammar, segments: seq<Segment>) {
    && (forall i: nat | i < |segments| :: SegmentOk(g, segments[i]))
    && (forall i: nat | i + 1 < |segments| && segments[i].Fenced? :: segments[i].close.Some?)
  }

  function Lines(segment: Segment): seq<Line> {
    match segment
    case Prose(line) => [line]
    case Inline(line) => [line]
    case Fenced(open, body, close) => [open] + body + (if close.Some? then [close.value] else [])
  }

  function AllLines(segments: seq<Segment>): seq<Line> {
    if segments == [] then [] else Lines(segments[0]) + AllLines(segments[1..])
  }

  /** What is between the opening and the closing mark, beginning with the payload of the opening line. */
  function Content(o: Opener, body: seq<Line>): seq<Line> {
    (if o.payload != "" then [o.payload] else []) + body
  }

  /** Prose and rejected blocks give nothing, and neither do empty blocks nor blocks over the limit. */
  function Contribution(g: Grammar, segment: Segment): seq<string>
    requires SegmentOk(g, segment)
  {
    match segment
    case Prose(_) => []
    case Inline(line) =>
      var payload := g.opener(line).value.inlineClose.value;
      if payload != "" then [payload] else []
    case Fenced(open, body, _) =>
      var o := g.opener(open).value;
      var content := Content(o, body);
      if o.accepted && content != [] && Size(content) <= MAX_BODY_CHARS then [JoinLines(content)] else []
  }

  function Contributions(g: Grammar, segments: seq<Segment>): seq<string>
    requires forall i: nat | i < |segments| :: SegmentOk(g, segments[i])
  {
    if segments == [] then [] else Contribution(g, segments[0]) + Contributions(g, segments[1..])
  }

  // ---------------------------------------------------------------- one block

  lemma {:induction false} SizeConcat(a: seq<Line>, b: seq<Line>)
    ensures Size(a + b) == Size(a) + Size(b)
  {
    if b == [] {
      assert a + b == a;
    } else {
      var n := |b| - 1;
      SizeConcat(a, b[..n]);
      assert (a + b)[..|a| + n] == a + b[..n];
    }
  }

  lemma {:induction false} RejectedIsIgnored(g: Grammar, s: Scan, body: seq<Line>)
    requires !s.overflowed && s.fence.Some? && !s.fence.value.accepted
    requires forall i: nat | i < |body| :: !EndsFence(g, s.fence.value.mark, body[i])
    ensures ReadAll(g, s, body) == s
  {
    if body != [] {
      assert !EndsFence(g, s.fence.value.mark, body[0]);
      RejectedIsIgnored(g, s, body[1..]);
    }
  }

  lemma LineIsCollected(g: Grammar, s: Scan, line: Line)
    requires !s.overflowed && s.fence.Some? && s.fence.value.accepted
    requires !EndsFence(g, s.fence.value.mark, line)
    ensures var f := s.fence.value;
      var r := Read(g, s, line);
      && r == s.(fence := r.fence) && r.fence.Some? && r.fence.value.mark == f.mark && r.fence.value.accepted
      && r.fence.value.bodyChars == f.bodyChars + |line| + 1
      && (f.bodyChars + |line| + 1 <= MAX_BODY_CHARS ==> r.fence.value.body == f.body + [line])
  {
  }

  lemma SizeOfFirst(body: seq<Line>)
    requires body != []
    ensures Size(body) == |body[0]| + 1 + Size(body[1..])
  {
    SizeConcat([body[0]], body[1..]);
    assert [body[0]] + body[1..] == body;
    assert Size([body[0]]) == |body[0]| + 1;
  }

  /** Of a body over the limit only its size matters. */
  lemma {:induction false} AcceptedIsCollected(g: Grammar, s: Scan, body: seq<Line>)
    requires !s.overflowed && s.fence.Some? && s.fence.value.accepted
    requires forall i: nat | i < |body| :: !EndsFence(g, s.fence.value.mark, body[i])
    ensures var f := s.fence.value;
      var r := ReadAll(g, s, body);
      && r == s.(fence := r.fence) && r.fence.Some?
      && r.fence.value.mark == f.mark && r.fence.value.accepted
      && r.fence.value.bodyChars == f.bodyChars + Size(body)
      && (f.bodyChars + Size(body) <= MAX_BODY_CHARS ==> r.fence.value.body == f.body + body)
    decreases |body|
  {
    hide Read, EndsFence;
    if body == [] {
      assert s.fence.value.body + body == s.fence.value.body;
    } else {
      assert !EndsFence(g, s.fence.value.mark, body[0]);
      LineIsCollected(g, s, body[0]);
      AcceptedIsCollected(g, Read(g, s, body[0]), body[1..]);
      SizeOfFirst(body);
      assert s.fence.value.body + [body[0]] + body[1..] == s.fence.value.body + body;
    }
  }

  /** What `Extract` does with a fence at its end is what it would do at its closing line. */
  function Closed(s: Scan): Scan {
    if !s.overflowed && s.fence.Some? then Flush(s, s.fence.value) else s
  }

  /** The scan with these bodies found so far. */
  function Found(bodies: seq<string>): Scan {
    Scan(bodies, None, |bodies| > MAX_FENCES)
  }

  lemma FenceIsRead(g: Grammar, bodies: seq<string>, open: Line, body: seq<Line>)
    requires |bodies| <= MAX_FENCES && SegmentOk(g, Fenced(open, body, None))
    ensures var r := ReadAll(g, Found(bodies), [open] + body);
      && r.fence.Some? && !r.overflowed && r.fence.value.mark == g.opener(open).value.mark
      && Closed(r) == Found(bodies + Contribution(g, Fenced(open, body, None)))
  {
    var s := Found(bodies);
    var o := g.opener(open).value;
    var s1 := Read(g, s, open);
    assert ([open] + body)[1..] == body;
    assert ReadAll(g, s, [open] + body) == ReadAll(g, s1, body);
    if o.accepted {
      AcceptedIsCollected(g, s1, body);
      var first := if o.payload != "" then [o.payload] else [];
      SizeConcat(first, body);
      assert Size(first) == s1.fence.value.bodyChars;
      assert Content(o, body) == s1.fence.value.body + body;
    } else {
      RejectedIsIgnored(g, s1, body);
    }
    assert bodies + [] == bodies;
  }

  lemma SegmentIsRead(g: Grammar, bodies: seq<string>, segment: Segment)
    requires |bodies| <= MAX_FENCES && SegmentOk(g, segment)
    ensures Closed(ReadAll(g, Found(bodies), Lines(segment))) == Found(bodies + Contribution(g, segment))
    ensures !(segment.Fenced? && segment.close.None?) ==>
              ReadAll(g, Found(bodies), Lines(segment)) == Found(bodies + Contribution(g, segment))
  {
    var s := Found(bodies);
    assert bodies + [] == bodies;
    match segment
    case Prose(line) => assert ReadAll(g, s, [line]) == Read(g, s, line);
    case Inline(line) => assert ReadAll(g, s, [line]) == Read(g, s, line);
    case Fenced(open, body, close) =>
      FenceIsRead(g, bodies, open, body);
      if close.Some? {
        ReadAllConcat(g, s, [open] + body, [close.value]);
        var r := ReadAll(g, s, [open] + body);
        assert EndsFence(g, r.fence.value.mark, close.value);
        assert ReadAll(g, r, [close.value]) == Read(g, r, close.value) == Closed(r);
      } else {
        assert [open] + body + [] == [open] + body;
      }
  }

  // ---------------------------------------------------------------- whole messages

  lemma TailIsOk(g: Grammar, segments: seq<Segment>)
    requires SegmentsOk(g, segments) && segments != []
    ensures forall i: nat | i < |segments| :: SegmentOk(g, segments[i])
    ensures SegmentOk(g, segments[0]) && SegmentsOk(g, segments[1..])
    ensures |segments| > 1 && segments[0].Fenced? ==> segments[0].close.Some?
  {
    var rest := segments[1..];
    assert forall i: nat | i < |rest| :: rest[i] == segments[i + 1];
  }

  /** The scan of a message whose blocks give these bodies, at its end. */
  predicate EndsWith(s: Scan, all: seq<string>) {
    if |all| > MAX_FENCES then Closed(s).overflowed else Closed(s) == Found(all)
  }

  lemma FirstIsRead(g: Grammar, bodies: seq<string>, first: Segment, lines: seq<Line>)
    requires |bodies| <= MAX_FENCES && SegmentOk(g, first) && !(first.Fenced? && first.close.None?)
    ensures ReadAll(g, Found(bodies), Lines(first) + lines)
         == ReadAll(g, Found(bodies + Contribution(g, first)), lines)
  {
    SegmentIsRead(g, bodies, first);
    ReadAllConcat(g, Found(bodies), Lines(first), lines);
  }

  lemma LastIsRead(g: Grammar, bodies: seq<string>, segments: seq<Segment>)
    requires |bodies| <= MAX_FENCES && |segments| <= 1 && SegmentsOk(g, segments)
    ensures EndsWith(ReadAll(g, Found(bodies), AllLines(segments)), bodies + Contributions(g, segments))
  {
    if segments == [] {
      assert bodies + [] == bodies;
    } else {
      SegmentIsRead(g, bodies, segments[0]);
      assert segments[1..] == [];
      assert AllLines(segments) == Lines(segments[0]) + [] == Lines(segments[0]);
      assert Contributions(g, segments) == Contribution(g, segments[0]) + [] == Contribution(g, segments[0]);
    }
  }

  lemma Unfolded(g: Grammar, bodies: seq<string>, segments: seq<Segment>)
    requires segments != [] && forall i: nat | i < |segments| :: SegmentOk(g, segments[i])
    ensures AllLines(segments) == Lines(segments[0]) + AllLines(segments[1..])
    ensures bodies + Contributions(g, segments)
         == bodies + Contribution(g, segments[0]) + Contributions(g, segments[1..])
  {
  }

  lemma {:induction false} SegmentsAreRead(g: Grammar, bodies: seq<string>, segments: seq<Segment>)
    requires |bodies| <= MAX_FENCES && SegmentsOk(g, segments)
    ensures EndsWith(ReadAll(g, Found(bodies), AllLines(segments)), bodies + Contributions(g, segments))
    decreases |segments|
  {
    if |segments| <= 1 {
      LastIsRead(g, bodies, segments);
    } else {
      hide Read, ReadAll, SegmentOk, SegmentsOk, Contribution, Contributions, Lines, AllLines, EndsWith, Found;
      var first, rest := segments[0], segments[1..];
      TailIsOk(g, segments);
      var next := bodies + Contribution(g, first);
      FirstIsRead(g, bodies, first, AllLines(rest));
      Unfolded(g, bodies, segments);
      if |next| <= MAX_FENCES {
        SegmentsAreRead(g, next, rest);
      } else {
        OverflowEnds(g, next, AllLines(rest), Contributions(g, rest));
      }
    }
  }

  lemma OverflowEnds(g: Grammar, bodies: seq<string>, lines: seq<Line>, more: seq<string>)
    requires |bodies| > MAX_FENCES
    ensures EndsWith(ReadAll(g, Found(bodies), lines), bodies + more)
  {
    OverflowStays(g, Found(bodies), lines);
  }

  /** The bodies are what the blocks contribute, in order, unless that is more than 32; then there are none. */
  lemma BlocksAreExtracted(g: Grammar, segments: seq<Segment>)
    requires SegmentsOk(g, segments)
    ensures var all := Contributions(g, segments);
      Extract(g, AllLines(segments)) == if |all| > 32 then ([], true) else (all, false)
  {
    SegmentsAreRead(g, [], segments);
    assert [] + Contributions(g, segments) == Contributions(g, segments);
  }

  /** The number of lines from the front on that do not end the fence. */
  function BodyLength(g: Grammar, mark: Mark, lines: seq<Line>): (n: nat)
    ensures n <= |lines| && forall i: nat | i < n :: !EndsFence(g, mark, lines[i])
    ensures n < |lines| ==> EndsFence(g, mark, lines[n])
  {
    if lines == [] || EndsFence(g, mark, lines[0]) then 0 else 1 + BodyLength(g, mark, lines[1..])
  }

  /** The block a message begins with. */
  lemma FirstBlock(g: Grammar, lines: seq<Line>) returns (first: Segment)
    requires lines != []
    ensures SegmentOk(g, first) && Lines(first) != [] && Lines(first) <= lines
    ensures first.Fenced? && first.close.None? ==> Lines(first) == lines
  {
    var opener := g.opener(lines[0]);
    if opener.None? {
      return Prose(lines[0]);
    }
    if opener.value.accepted && opener.value.inlineClose.Some? {
      return Inline(lines[0]);
    }
    first := FirstFenced(g, lines);
  }

  lemma FirstFenced(g: Grammar, lines: seq<Line>) returns (first: Segment)
    requires lines != [] && g.opener(lines[0]).Some?
    requires !(g.opener(lines[0]).value.accepted && g.opener(lines[0]).value.inlineClose.Some?)
    ensures first.Fenced? && SegmentOk(g, first) && Lines(first) <= lines
    ensures first.close.None? ==> Lines(first) == lines
  {
    var rest := lines[1..];
    var n := BodyLength(g, g.opener(lines[0]).value.mark, rest);
    hide EndsFence;
    assert lines == [lines[0]] + rest;
    if n < |rest| {
      first := Fenced(lines[0], rest[..n], Some(rest[n]));
      assert rest[..n] + [rest[n]] == rest[..n + 1];
    } else {
      first := Fenced(lines[0], rest, None);
      assert [lines[0]] + rest + [] == lines;
    }
  }

  lemma OneMoreBlock(g: Grammar, first: Segment, rest: seq<Segment>)
    requires SegmentOk(g, first) && SegmentsOk(g, rest)
    requires first.Fenced? && first.close.None? ==> rest == []
    ensures SegmentsOk(g, [first] + rest) && AllLines([first] + rest) == Lines(first) + AllLines(rest)
  {
    var segments := [first] + rest;
    assert forall i: nat | 0 < i < |segments| :: segments[i] == rest[i - 1];
    assert segments[1..] == rest;
  }

  /** Every message can be read as blocks. */
  lemma {:induction false} EveryMessageIsBlocks(g: Grammar, lines: seq<Line>) returns (segments: seq<Segment>)
    ensures SegmentsOk(g, segments) && AllLines(segments) == lines
    decreases |lines|
  {
    if lines == [] {
      return [];
    }
    hide SegmentOk, SegmentsOk, Lines;
    var first := FirstBlock(g, lines);
    var used := |Lines(first)|;
    var rest: seq<Segment>;
    if used == |lines| {
      rest := [];
      NothingIsOk(g);
    } else {
      rest := EveryMessageIsBlocks(g, lines[used..]);
    }
    OneMoreBlock(g, first, rest);
    assert lines == Lines(first) + lines[used..];
    return [first] + rest;
  }

  lemma NothingIsOk(g: Grammar)
    ensures SegmentsOk(g, []) && AllLines([]) == []
  {
  }
}
