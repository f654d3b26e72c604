/**
 Fenced result blocks in an agent's final message: src/agent/FleetWorkflows.ts
 (`extractFleetResultFenceBodies`).

 Which lines open and close a fence is decided by regular expressions; here a `Grammar` answers
 that, and everything proved holds for every grammar. The main theorem is a round trip: blocks
 that were rendered are extracted, exactly and in order, up to the limit of 32.
 */
module FleetFences {
  import opened Wrappers

  const MAX_FENCES := 32
  const MAX_BODY_CHARS := 1_000_000

  type Line = string

  datatype Mark = Mark(tilde: bool, length: nat)

  /**
   A line that opens a fence: whether its info string is accepted, the payload that follows it on the same
   line, and, if the line also closes the fence, the payload in between.
   */
  datatype Opener = Opener(mark: Mark, accepted: bool, payload: string, inlineClose: Option<string>)

  datatype Grammar = Grammar(closer: Line -> Option<Mark>, opener: Line -> Option<Opener>)

  // ---------------------------------------------------------------- lines of a text

  const LF := '\n'
  const CR := '\r'

  function StripCr(line: Line): Line {
    if line != [] && line[|line| - 1] == CR then line[..|line| - 1] else line
  }

  function FirstLf(text: string): (i: Option<nat>)
    ensures i.Some? ==> i.value < |text| && text[i.value] == LF && LF !in text[..i.value]
    ensures i.None? ==> LF !in text
  {
    if text == [] then None
    else if text[0] == LF then Some(0)
    else match FirstLf(text[1..])
      case None => None
      case Some(i) => assert text[..i + 1] == [text[0]] + text[1..][..i]; Some(i + 1)
  }

  /** `text.split(/\r?\n/)` */
  function SplitLines(text: string): (lines: seq<Line>)
    ensures lines != []
    decreases |text|
  {
    match FirstLf(text)
    case None => [text]
    case Some(i) => [StripCr(text[..i])] + SplitLines(text[i + 1..])
  }

  /** `lines.join("\n")` */
  function JoinLines(lines: seq<Line>): string {
    if lines == [] then ""
    else if |lines| == 1 then lines[0]
    else lines[0] + [LF] + JoinLines(lines[1..])
  }

  /** No line holds a line feed, and none that is followed by another ends in a carriage return. */
  predicate Clean(lines: seq<Line>) {
    && (forall i: nat | i < |lines| :: LF !in lines[i])
    && EndsKept(lines)
  }

  lemma {:induction false} FirstLfOf(line: Line, rest: string)
    requires LF !in line
    ensures FirstLf(line + [LF] + rest) == Some(|line|)
  {
    var text := line + [LF] + rest;
    if line != [] {
      assert line[0] in line;
      FirstLfOf(line[1..], rest);
      assert text[1..] == line[1..] + [LF] + rest;
    }
  }

  lemma SplitFirst(line: Line, rest: string)
    requires LF !in line
    ensures SplitLines(line + [LF] + rest) == [StripCr(line)] + SplitLines(rest)
  {
    var text := line + [LF] + rest;
    FirstLfOf(line, rest);
    assert text[..|line|] == line && text[|line| + 1..] == rest;
  }

  lemma CrIsStripped(line: Line)
    ensures StripCr(line + [CR]) == line
  {
    assert (line + [CR])[..|line|] == line;
  }

  /** A line feed ends a line, and so does a carriage return with a line feed. */
  lemma LineEndings(line: Line, rest: string)
    requires LF !in line
    ensures SplitLines(line) == [line]
    ensures !EndsInCr(line) ==> SplitLines(line + [LF] + rest) == [line] + SplitLines(rest)
    ensures SplitLines(line + [CR] + [LF] + rest) == [line] + SplitLines(rest)
  {
    SplitFirst(line, rest);
    SplitFirst(line + [CR], rest);
    CrIsStripped(line);
    assert FirstLf(line) == None;
    hide FirstLf;
  }

  function LfCount(text: string): nat {
    if text == [] then 0 else (if text[0] == LF then 1 else 0) + LfCount(text[1..])
  }

  lemma {:induction false} LfCountConcat(a: string, b: string)
    ensures LfCount(a + b) == LfCount(a) + LfCount(b)
  {
    if a == [] {
      assert a + b == b;
    } else {
      LfCountConcat(a[1..], b);
      assert (a + b)[1..] == a[1..] + b;
    }
  }

  lemma {:induction false} NoLf(text: string)
    ensures LfCount(text) == 0 <==> LF !in text
  {
    if text != [] {
      NoLf(text[1..]);
    }
  }

  lemma {:induction false} SplitCount(text: string)
    ensures |SplitLines(text)| == LfCount(text) + 1
    decreases |text|
  {
    match FirstLf(text)
    case None => NoLf(text);
    case Some(i) =>
      SplitCount(text[i + 1..]);
      assert text == text[..i] + ([LF] + text[i + 1..]);
      LfCountConcat(text[..i], [LF] + text[i + 1..]);
      LfCountConcat([LF], text[i + 1..]);
      NoLf(text[..i]);
  }

  lemma {:induction false} JoinCount(lines: seq<Line>)
    requires lines != []
    ensures LfCount(JoinLines(lines)) >= |lines| - 1
    ensures (exists i: nat :: i < |lines| && LF in lines[i]) ==> LfCount(JoinLines(lines)) >= |lines|
  {
    if |lines| == 1 {
      NoLf(lines[0]);
    } else {
      JoinCount(lines[1..]);
      LfCountConcat(lines[0] + [LF], JoinLines(lines[1..]));
      LfCountConcat(lines[0], [LF]);
      NoLf(lines[0]);
      if i: nat :| i < |lines| && LF in lines[i] {
        assert i > 0 ==> lines[1..][i - 1] == lines[i];
      }
    }
  }

  predicate EndsInCr(line: Line) {
    line != [] && line[|line| - 1] == CR
  }

  predicate EndsKept(lines: seq<Line>) {
    forall i: nat | i + 1 < |lines| :: !EndsInCr(lines[i])
  }

  lemma EndsKeptInTail(first: Line, rest: seq<Line>)
    requires rest != []
    ensures EndsKept([first] + rest) <==> !EndsInCr(first) && EndsKept(rest)
  {
    var lines := [first] + rest;
    assert forall i: nat | i < |rest| :: lines[i + 1] == rest[i];
    if EndsKept(lines) {
      assert !EndsInCr(lines[0]);
      forall i: nat | i + 1 < |rest|
        ensures !EndsInCr(rest[i])
      {
        assert !EndsInCr(lines[i + 1]);
      }
    }
  }

  lemma HeadAndTail(a: Line, x: seq<Line>, b: Line, y: seq<Line>)
    ensures [a] + x == [b] + y <==> a == b && x == y
  {
    assert ([a] + x)[0] == a && ([a] + x)[1..] == x;
    assert ([b] + y)[0] == b && ([b] + y)[1..] == y;
  }

  lemma {:induction false} SplitInvertsCleanJoin(lines: seq<Line>)
    requires lines != [] && (forall i: nat | i < |lines| :: LF !in lines[i])
    ensures SplitLines(JoinLines(lines)) == lines <==> EndsKept(lines)
  {
    if |lines| > 1 {
      var first, rest := lines[0], lines[1..];
      assert lines == [first] + rest;
      SplitInvertsCleanJoin(rest);
      SplitFirst(first, JoinLines(rest));
      EndsKeptInTail(first, rest);
      HeadAndTail(StripCr(first), SplitLines(JoinLines(rest)), first, rest);
    }
  }

  /** Joining lines and splitting the text gives the lines back if and only if they are clean. */
  lemma SplitInvertsJoinIff(lines: seq<Line>)
    requires lines != []
    ensures SplitLines(JoinLines(lines)) == lines <==> Clean(lines)
  {
    if i: nat :| i < |lines| && LF in lines[i] {
      SplitCount(JoinLines(lines));
      JoinCount(lines);
    } else {
      SplitInvertsCleanJoin(lines);
    }
  }

  // ---------------------------------------------------------------- the scanner

  datatype Fence = Fence(mark: Mark, accepted: bool, body: seq<Line>, bodyChars: nat)

  datatype Scan = Scan(bodies: seq<string>, fence: Option<Fence>, overflowed: bool)

  function Push(s: Scan, body: string): Scan {
    var bodies := s.bodies + [body];
    s.(bodies := bodies, fence := None, overflowed := |bodies| > MAX_FENCES)
  }

  function Flush(s: Scan, f: Fence): Scan {
    if f.accepted && f.body != [] && f.bodyChars <= MAX_BODY_CHARS then Push(s, JoinLines(f.body))
    else s.(fence := None)
  }

  predicate Closes(g: Grammar, mark: Mark, line: Line) {
    var closer := g.closer(line);
    closer.Some? && closer.value.tilde == mark.tilde && closer.value.length >= mark.length
  }

  function AddLine(f: Fence, line: Line): Fence {
    if !f.accepted then f
    else
      var chars := f.bodyChars + |line| + 1;
      Fence(f.mark, f.accepted, if chars <= MAX_BODY_CHARS then f.body + [line] else f.body, chars)
  }

  function Read(g: Grammar, s: Scan, line: Line): Scan {
    if s.overflowed then
      s
    else if s.fence.Some? then
      if Closes(g, s.fence.value.mark, line) then Flush(s, s.fence.value)
      else s.(fence := Some(AddLine(s.fence.value, line)))
    else
      match g.opener(line)
      case None => s
      case Some(o) =>
        if o.accepted && o.inlineClose.Some? then
          if o.inlineClose.value == "" then s else Push(s, o.inlineClose.value)
        else
          s.(fence := Some(Fence(o.mark, o.accepted, if o.accepted && o.payload != "" then [o.payload] else [],
                                 if o.payload != "" then |o.payload| + 1 else 0)))
  }

  function ReadAll(g: Grammar, s: Scan, lines: seq<Line>): Scan
    decreases |lines|
  {
    if lines == [] then s else ReadAll(g, Read(g, s, lines[0]), lines[1..])
  }

  const START := Scan([], None, false)

  function Finish(s: Scan): (seq<string>, bool) {
    var end := if !s.overflowed && s.fence.Some? then Flush(s, s.fence.value) else s;
    if end.overflowed then ([], true) else (end.bodies, false)
  }

  /** The bodies found, and whether there were too many. */
  function Extract(g: Grammar, lines: seq<Line>): (seq<string>, bool) {
    Finish(ReadAll(g, START, lines))
  }

  lemma {:induction false} ReadAllConcat(g: Grammar, s: Scan, a: seq<Line>, b: seq<Line>)
    ensures ReadAll(g, s, a + b) == ReadAll(g, ReadAll(g, s, a), b)
    decreases |a|
  {
    if a == [] {
      assert a + b == b;
    } else {
      ReadAllConcat(g, Read(g, s, a[0]), a[1..], b);
      assert (a + b)[1..] == a[1..] + b;
    }
  }

  lemma {:induction false} OverflowStays(g: Grammar, s: Scan, lines: seq<Line>)
    requires s.overflowed
    ensures ReadAll(g, s, lines) == s
  {
    if lines != [] {
      OverflowStays(g, s, lines[1..]);
    }
  }

  method ExtractFleetResultFenceBodies(g: Grammar, text: string) returns (bodies: seq<string>, overflowed: bool)
    ensures (bodies, overflowed) == Extract(g, SplitLines(text))
    ensures |bodies| <= MAX_FENCES
  {
    var lines := SplitLines(text);
    bodies := [];
    var fence: Option<Fence> := None;
    for i := 0 to |lines|
      invariant |bodies| <= MAX_FENCES
      invariant ReadAll(g, START, lines) == ReadAll(g, Scan(bodies, fence, false), lines[i..])
    {
      var line := lines[i];
      var before := Scan(bodies, fence, false);
      assert lines[i..][0] == line && lines[i..][1..] == lines[i + 1..];
      if fence.Some? {
        if Closes(g, fence.value.mark, line) {
          var done := Flush(before, fence.value);
          if done.overflowed {
            OverflowStays(g, done, lines[i + 1..]);
            return [], true;
          }
          bodies, fence := done.bodies, None;
        } else {
          fence := Some(AddLine(fence.value, line));
        }
        continue;
      }
      var opener := g.opener(line);
      if opener.None? {
        continue;
      }
      var o := opener.value;
      if o.accepted && o.inlineClose.Some? {
        if o.inlineClose.value != "" {
          bodies := bodies + [o.inlineClose.value];
          if |bodies| > MAX_FENCES {
            OverflowStays(g, Push(before, o.inlineClose.value), lines[i + 1..]);
            return [], true;
          }
        }
        continue;
      }
      fence := Some(Fence(o.mark, o.accepted, if o.accepted && o.payload != "" then [o.payload] else [],
                          if o.payload != "" then |o.payload| + 1 else 0));
    }
    assert lines[|lines|..] == [];
    if fence.Some? {
      var done := Flush(Scan(bodies, fence, false), fence.value);
      if done.overflowed {
        return [], true;
      }
      bodies := done.bodies;
    }
    return bodies, false;
  }

  // ---------------------------------------------------------------- rendering

  /** A block of a message: lines of prose, then a fenced body. */
  datatype Block = Block(prose: seq<Line>, body: seq<Line>)

  /** The lines that open and close a block. */
  datatype Style = Style(open: Line, close: Line, mark: Mark)

  predicate StyleOk(g: Grammar, style: Style) {
    && g.opener(style.open) == Some(Opener(style.mark, true, "", None))
    && Closes(g, style.mark, style.close)
  }

  function Size(body: seq<Line>): nat {
    if body == [] then 0 else Size(body[..|body| - 1]) + |body[|body| - 1]| + 1
  }

  /** Prose opens no fence; a body has a line, none of its lines closes the fence, and it fits the limit. */
  predicate BlockOk(g: Grammar, style: Style, b: Block) {
    && (forall i: nat | i < |b.prose| :: g.opener(b.prose[i]).None?)
    && (forall i: nat | i < |b.body| :: !Closes(g, style.mark, b.body[i]))
    && b.body != [] && Size(b.body) <= MAX_BODY_CHARS
  }

  predicate BlocksOk(g: Grammar, style: Style, blocks: seq<Block>) {
    StyleOk(g, style) && forall i: nat | i < |blocks| :: BlockOk(g, style, blocks[i])
  }

  function RenderBlock(style: Style, b: Block): seq<Line> {
    b.prose + [style.open] + b.body + [style.close]
  }

  function Render(style: Style, blocks: seq<Block>): seq<Line> {
    if blocks == [] then []
    else Render(style, blocks[..|blocks| - 1]) + RenderBlock(style, blocks[|blocks| - 1])
  }

  function Bodies(blocks: seq<Block>): (r: seq<string>)
    ensures |r| == |blocks| && forall i: nat | i < |blocks| :: r[i] == JoinLines(blocks[i].body)
  {
    seq(|blocks|, i requires 0 <= i < |blocks| => JoinLines(blocks[i].body))
  }

  lemma {:induction false} ProseIsSkipped(g: Grammar, s: Scan, prose: seq<Line>)
    requires s.fence.None? && forall i: nat | i < |prose| :: g.opener(prose[i]).None?
    ensures ReadAll(g, s, prose) == s
  {
    if prose != [] {
      ProseIsSkipped(g, s, prose[1..]);
    }
  }

  lemma {:induction false} BodyIsCollected(g: Grammar, s: Scan, mark: Mark, body: seq<Line>)
    requires !s.overflowed && s.fence == Some(Fence(mark, true, [], 0))
    requires forall i: nat | i < |body| :: !Closes(g, mark, body[i])
    requires Size(body) <= MAX_BODY_CHARS
    ensures ReadAll(g, s, body) == s.(fence := Some(Fence(mark, true, body, Size(body))))
  {
    if body != [] {
      var n := |body| - 1;
      BodyIsCollected(g, s, mark, body[..n]);
      ReadAllConcat(g, s, body[..n], [body[n]]);
      assert body == body[..n] + [body[n]];
      OneLine(g, ReadAll(g, s, body[..n]), body[n]);
    }
  }

  lemma OneLine(g: Grammar, s: Scan, line: Line)
    ensures ReadAll(g, s, [line]) == Read(g, s, line)
  {
    assert [line][1..] == [];
  }

  /** Reading a block up to, but not including, its closing line. */
  lemma BlockOpens(g: Grammar, style: Style, s: Scan, b: Block)
    requires StyleOk(g, style) && BlockOk(g, style, b) && s.fence.None? && !s.overflowed
    ensures ReadAll(g, s, b.prose + [style.open] + b.body)
         == s.(fence := Some(Fence(style.mark, true, b.body, Size(b.body))))
  {
    ProseIsSkipped(g, s, b.prose);
    ReadAllConcat(g, s, b.prose, [style.open]);
    OneLine(g, s, style.open);
    ReadAllConcat(g, s, b.prose + [style.open], b.body);
    BodyIsCollected(g, Read(g, s, style.open), style.mark, b.body);
  }

  lemma BlockIsRead(g: Grammar, style: Style, s: Scan, b: Block)
    requires StyleOk(g, style) && BlockOk(g, style, b) && s.fence.None? && !s.overflowed
    ensures ReadAll(g, s, RenderBlock(style, b)) == Push(s, JoinLines(b.body))
  {
    var open := b.prose + [style.open] + b.body;
    BlockOpens(g, style, s, b);
    ReadAllConcat(g, s, open, [style.close]);
    OneLine(g, ReadAll(g, s, open), style.close);
  }

  /** What the scanner holds between two blocks. */
  predicate Holds(s: Scan, blocks: seq<Block>) {
    if |blocks| <= MAX_FENCES then s == Scan(Bodies(blocks), None, false) else s.overflowed
  }

  lemma OneMoreBlock(g: Grammar, style: Style, s: Scan, before: seq<Block>, last: Block)
    requires StyleOk(g, style) && BlockOk(g, style, last) && Holds(s, before)
    ensures Holds(ReadAll(g, s, RenderBlock(style, last)), before + [last])
  {
    if s.overflowed {
      OverflowStays(g, s, RenderBlock(style, last));
    } else {
      BlockIsRead(g, style, s, last);
      assert Bodies(before + [last]) == Bodies(before) + [JoinLines(last.body)];
    }
  }

  lemma {:induction false} BlocksAreRead(g: Grammar, style: Style, blocks: seq<Block>)
    requires BlocksOk(g, style, blocks)
    ensures Holds(ReadAll(g, START, Render(style, blocks)), blocks)
  {
    if blocks == [] {
      assert Bodies(blocks) == [];
    } else {
      var before, last := blocks[..|blocks| - 1], blocks[|blocks| - 1];
      BlocksAreRead(g, style, before);
      OneMoreBlock(g, style, ReadAll(g, START, Render(style, before)), before, last);
      ReadAllConcat(g, START, Render(style, before), RenderBlock(style, last));
      assert before + [last] == blocks;
    }
  }

  /** Up to 32 rendered blocks are extracted as exactly their bodies, in order; more than 32 are refused together. */
  lemma RenderedBlocksAreExtracted(g: Grammar, style: Style, blocks: seq<Block>)
    requires BlocksOk(g, style, blocks)
    ensures Extract(g, Render(style, blocks))
         == if |blocks| <= MAX_FENCES then (Bodies(blocks), false) else ([], true)
  {
    BlocksAreRead(g, style, blocks);
  }

  /** The blocks without the closing line of the last one. */
  function RenderCut(style: Style, blocks: seq<Block>): seq<Line>
    requires blocks != []
  {
    var last := blocks[|blocks| - 1];
    Render(style, blocks[..|blocks| - 1]) + (last.prose + [style.open] + last.body)
  }

  /** The same holds when the closing line of the last block was cut off. */
  lemma LastBlockMayBeUnclosed(g: Grammar, style: Style, blocks: seq<Block>)
    requires BlocksOk(g, style, blocks) && blocks != []
    ensures Extract(g, RenderCut(style, blocks))
      == if |blocks| <= MAX_FENCES then (Bodies(blocks), false) else ([], true)
  {
    var before, last := blocks[..|blocks| - 1], blocks[|blocks| - 1];
    BlocksAreRead(g, style, before);
    ReadAllConcat(g, START, Render(style, before), last.prose + [style.open] + last.body);
    CutBlockCounts(g, style, ReadAll(g, START, Render(style, before)), before, last);
    assert before + [last] == blocks;
  }

  lemma CutBlockCounts(g: Grammar, style: Style, s: Scan, before: seq<Block>, last: Block)
    requires StyleOk(g, style) && BlockOk(g, style, last) && Holds(s, before)
    ensures Finish(ReadAll(g, s, last.prose + [style.open] + last.body))
         == if |before| < MAX_FENCES then (Bodies(before + [last]), false) else ([], true)
  {
    if s.overflowed {
      OverflowStays(g, s, last.prose + [style.open] + last.body);
    } else {
      BlockOpens(g, style, s, last);
      assert Bodies(before + [last]) == Bodies(before) + [JoinLines(last.body)];
    }
  }

  /** The round trip on text: a message is the join of its lines, which must survive splitting. */
  lemma RenderedTextIsExtracted(g: Grammar, style: Style, blocks: seq<Block>)
    requires BlocksOk(g, style, blocks) && blocks != [] && Clean(Render(style, blocks))
    ensures Extract(g, SplitLines(JoinLines(Render(style, blocks))))
         == if |blocks| <= MAX_FENCES then (Bodies(blocks), false) else ([], true)
  {
    SplitInvertsJoinIff(Render(style, blocks));
    RenderedBlocksAreExtracted(g, style, blocks);
  }

  /** A message that was cut off before its last closing line gives the same bodies. */
  lemma CutTextIsExtracted(g: Grammar, style: Style, blocks: seq<Block>)
    requires BlocksOk(g, style, blocks) && blocks != [] && Clean(RenderCut(style, blocks))
    ensures Extract(g, SplitLines(JoinLines(RenderCut(style, blocks))))
         == if |blocks| <= MAX_FENCES then (Bodies(blocks), false) else ([], true)
  {
    SplitInvertsJoinIff(RenderCut(style, blocks));
    LastBlockMayBeUnclosed(g, style, blocks);
  }
}
