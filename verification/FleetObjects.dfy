/**
 Objects in plain text: `extractBalancedJsonObject` of src/agent/FleetWorkflows.ts.

 An object is written down as a tree of braces, strings and other characters. Scanning from the
 first brace of a written object finds exactly that object, whatever follows it, unless it
 is longer than the limit.
 */
module FleetObjects {
  import opened Wrappers
  import opened FleetEnvelope
  import opened FleetFences
  import opened FleetParse

  /** A character between quotes, after a backslash or on its own. */
  datatype Quoted = Raw(c: char) | Escaped(c: char)

  datatype Quotes = NoMore | More(first: Quoted, rest: Quotes)

  datatype Piece = Plain(c: char) | Text(chars: Quotes) | Braces(inner: Pieces)

  datatype Pieces = End | Then(head: Piece, tail: Pieces)

  predicate QuotedOk(q: Quoted) {
    q.Escaped? || (q.c != '"' && q.c != '\\')
  }

  predicate AllQuotedOk(chars: Quotes) {
    chars.More? ==> QuotedOk(chars.first) && AllQuotedOk(chars.rest)
  }

  predicate PieceOk(p: Piece) {
    match p
    case Plain(c) => c != '"' && c != '{' && c != '}'
    case Text(chars) => AllQuotedOk(chars)
    case Braces(inner) => PiecesOk(inner)
  }

  predicate PiecesOk(ps: Pieces) {
    ps.Then? ==> PieceOk(ps.head) && PiecesOk(ps.tail)
  }

  function WriteOne(q: Quoted): string {
    if q.Raw? then [q.c] else ['\\'] + [q.c]
  }

  function WriteQuoted(chars: Quotes): string {
    if chars.NoMore? then "" else WriteOne(chars.first) + WriteQuoted(chars.rest)
  }

  function Write(p: Piece): string {
    match p
    case Plain(c) => [c]
    case Text(chars) => ['"'] + WriteQuoted(chars) + ['"']
    case Braces(inner) => ['{'] + WriteAll(inner) + ['}']
  }

  function WriteAll(ps: Pieces): string {
    if ps.End? then "" else Write(ps.head) + WriteAll(ps.tail)
  }

  /** `part` stands in the text from `i` on. */
  predicate StandsAt(text: string, i: nat, part: string) {
    i + |part| <= |text| && text[i..i + |part|] == part
  }

  lemma StandsSplit(text: string, i: nat, first: string, second: string)
    requires StandsAt(text, i, first + second)
    ensures StandsAt(text, i, first) && StandsAt(text, i + |first|, second)
    ensures i + |first| + |second| <= |text|
  {
    var whole := text[i..i + |first + second|];
    assert whole[..|first|] == first && whole[|first|..] == second;
  }

  /** No brace from `i` up to `j` balances the one at `start`. */
  predicate NoneBalances(text: string, start: nat, i: nat, j: nat)
    requires start <= i <= j <= |text|
  {
    forall k: nat | i <= k < j :: !BalancedAt(text, start, k)
  }

  lemma OneCharacter(text: string, start: nat, i: nat, c: char)
    requires start <= i && StandsAt(text, i, [c])
    ensures i < |text| && text[i] == c
    ensures CursorAt(text, start, i + 1) == Advance(CursorAt(text, start, i), c)
    ensures c != '}' || CursorAt(text, start, i).inString || CursorAt(text, start, i + 1).depth != 0 ==>
              NoneBalances(text, start, i, i + 1)
  {
    assert text[i..i + 1][0] == c;
  }

  /** Scanning `part` from `i` on leaves the cursor as it is, and no brace of it balances the one at `start`. */
  predicate Passes(text: string, start: nat, i: nat, part: string, c: Cursor)
    requires start <= i
  {
    && StandsAt(text, i, part)
    && (CursorAt(text, start, i) == c ==>
          CursorAt(text, start, i + |part|) == c && NoneBalances(text, start, i, i + |part|))
  }

  lemma PassesOn(text: string, start: nat, i: nat, first: string, second: string, c: Cursor)
    requires start <= i && StandsAt(text, i, first + second)
    requires Passes(text, start, i, first, c) && Passes(text, start, i + |first|, second, c)
    ensures Passes(text, start, i, first + second, c)
  {
    hide CursorAt;
  }

  lemma PassingSays(text: string, start: nat, i: nat, part: string, c: Cursor)
    requires start <= i && Passes(text, start, i, part, c) && i <= |text| && CursorAt(text, start, i) == c
    ensures i + |part| <= |text| && CursorAt(text, start, i + |part|) == c
    ensures NoneBalances(text, start, i, i + |part|)
  {
  }

  lemma NoneOnTheWay(text: string, start: nat, i: nat, j: nat, k: nat)
    requires start <= i <= j <= k <= |text|
    requires NoneBalances(text, start, i, j) && NoneBalances(text, start, j, k)
    ensures NoneBalances(text, start, i, k)
  {
  }

  lemma PassesNothing(text: string, start: nat, i: nat, c: Cursor)
    requires start <= i <= |text|
    ensures Passes(text, start, i, "", c)
  {
  }

  lemma PassesQuoted(text: string, start: nat, i: nat, depth: int, q: Quoted)
    requires start <= i && QuotedOk(q) && StandsAt(text, i, WriteOne(q))
    ensures Passes(text, start, i, WriteOne(q), Cursor(depth, true, false))
  {
    if q.Raw? {
      OneCharacter(text, start, i, q.c);
    } else {
      StandsSplit(text, i, ['\\'], [q.c]);
      OneCharacter(text, start, i, '\\');
      OneCharacter(text, start, i + 1, q.c);
    }
  }

  /** A string is left as it was entered, and no brace in it counts. */
  lemma {:induction false} PassesQuotes(text: string, start: nat, i: nat, depth: int, chars: Quotes)
    requires start <= i && StandsAt(text, i, WriteQuoted(chars)) && AllQuotedOk(chars)
    ensures Passes(text, start, i, WriteQuoted(chars), Cursor(depth, true, false))
    decreases chars
  {
    if chars.NoMore? {
      PassesNothing(text, start, i, Cursor(depth, true, false));
    } else {
      hide Passes, StandsAt, WriteOne, QuotedOk;
      var one := WriteOne(chars.first);
      StandsSplit(text, i, one, WriteQuoted(chars.rest));
      PassesQuoted(text, start, i, depth, chars.first);
      PassesQuotes(text, start, i + |one|, depth, chars.rest);
      PassesOn(text, start, i, one, WriteQuoted(chars.rest), Cursor(depth, true, false));
    }
  }

  /** `inner` between these characters; the first leads from `outside` to `inside`, and the last back. */
  lemma PassesEnclosed(text: string, start: nat, i: nat, open: char, inner: string, close: char,
                       outside: Cursor, inside: Cursor)
    requires start <= i && StandsAt(text, i, [open] + inner + [close])
    requires Advance(outside, open) == inside && Advance(inside, close) == outside
    requires open != '}' && (close == '}' ==> inside.inString || outside.depth != 0)
    requires StandsAt(text, i, [open] + inner) && StandsAt(text, i + 1, inner) ==>
               Passes(text, start, i + 1, inner, inside)
    ensures Passes(text, start, i, [open] + inner + [close], outside)
  {
    StandsSplit(text, i, [open] + inner, [close]);
    StandsSplit(text, i, [open], inner);
    hide CursorAt, StandsAt, Advance;
    OneCharacter(text, start, i, open);
    OneCharacter(text, start, i + 1 + |inner|, close);
  }

  /** Scanning a piece inside an object leaves the depth, and never balances the object. */
  lemma {:induction false} PassesPiece(text: string, start: nat, i: nat, depth: int, p: Piece)
    requires start <= i && StandsAt(text, i, Write(p)) && PieceOk(p) && depth > 0
    ensures Passes(text, start, i, Write(p), Cursor(depth, false, false))
    decreases p, 0
  {
    hide Passes, StandsAt, CursorAt, WriteAll, WriteQuoted, PiecesOk, AllQuotedOk;
    match p
    case Plain(c) => PassesPlain(text, start, i, depth, c);
    case Text(chars) =>
      if StandsAt(text, i + 1, WriteQuoted(chars)) {
        PassesQuotes(text, start, i + 1, depth, chars);
      }
      PassesEnclosed(text, start, i, '"', WriteQuoted(chars), '"', Cursor(depth, false, false),
                     Cursor(depth, true, false));
    case Braces(inner) =>
      if StandsAt(text, i + 1, WriteAll(inner)) {
        PassesPieces(text, start, i + 1, depth + 1, inner);
      }
      PassesEnclosed(text, start, i, '{', WriteAll(inner), '}', Cursor(depth, false, false),
                     Cursor(depth + 1, false, false));
  }

  lemma PassesPlain(text: string, start: nat, i: nat, depth: int, c: char)
    requires start <= i && StandsAt(text, i, [c]) && c != '"' && c != '{' && c != '}'
    ensures Passes(text, start, i, [c], Cursor(depth, false, false))
  {
    OneCharacter(text, start, i, c);
  }

  lemma {:induction false} PassesPieces(text: string, start: nat, i: nat, depth: int, ps: Pieces)
    requires start <= i && StandsAt(text, i, WriteAll(ps)) && PiecesOk(ps) && depth > 0
    ensures Passes(text, start, i, WriteAll(ps), Cursor(depth, false, false))
    decreases ps, 1
  {
    if ps.End? {
      PassesNothing(text, start, i, Cursor(depth, false, false));
    } else {
      hide Passes, StandsAt, Write, PieceOk;
      StandsSplit(text, i, Write(ps.head), WriteAll(ps.tail));
      PassesPiece(text, start, i, depth, ps.head);
      PassesPieces(text, start, i + |Write(ps.head)|, depth, ps.tail);
      PassesOn(text, start, i, Write(ps.head), WriteAll(ps.tail), Cursor(depth, false, false));
    }
  }

  /** The scan returns at the first brace that balances, if that lies within the limit. */
  lemma {:induction false} FirstBalanceIsFound(text: string, start: nat, i: nat, last: nat)
    requires start <= i <= last < |text|
    requires NoneBalances(text, start, i, last) && BalancedAt(text, start, last)
    ensures BalancedFrom(text, start, i)
         == if last < start + MAX_BODY_CHARS then Some(text[start..last + 1]) else None
    decreases last - i
  {
    if i < last {
      assert !BalancedAt(text, start, i);
      FirstBalanceIsFound(text, start, i + 1, last);
    }
  }

  /** The closing brace of a written object balances it, and none before does. */
  lemma ObjectBalances(text: string, start: nat, inner: Pieces)
    requires PiecesOk(inner) && StandsAt(text, start, Write(Braces(inner)))
    ensures var last := start + 1 + |WriteAll(inner)|;
      last < |text| && NoneBalances(text, start, start, last) && BalancedAt(text, start, last)
  {
    var last := start + 1 + |WriteAll(inner)|;
    StandsSplit(text, start, ['{'] + WriteAll(inner), ['}']);
    StandsSplit(text, start, ['{'], WriteAll(inner));
    assert CursorAt(text, start, start) == Cursor(0, false, false);
    hide WriteAll, PiecesOk, StandsAt, CursorAt, NoneBalances, Passes;
    OneCharacter(text, start, start, '{');
    PassesPieces(text, start, start + 1, 1, inner);
    PassingSays(text, start, start + 1, WriteAll(inner), Cursor(1, false, false));
    OneCharacter(text, start, last, '}');
    NoneOnTheWay(text, start, start, start + 1, last);
  }

  /**
   A written object that stands in a text is what the scan from its first brace extracts, whatever surrounds it,
   exactly when it is not longer than the limit.
   */
  lemma WrittenObjectsAreExtracted(text: string, start: nat, inner: Pieces)
    requires PiecesOk(inner) && StandsAt(text, start, Write(Braces(inner)))
    ensures BalancedFrom(text, start, start)
         == if |Write(Braces(inner))| <= MAX_BODY_CHARS then Some(Write(Braces(inner))) else None
  {
    ObjectBalances(text, start, inner);
    hide WriteAll, PiecesOk, NoneBalances, BalancedAt;
    FirstBalanceIsFound(text, start, start, start + 1 + |WriteAll(inner)|);
  }
}
