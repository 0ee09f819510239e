/** Positions in the source text, tokens and the diagnostic record that both pipelines
    (Lexer.ts/Parser.ts and the older Basic.ts) define in the same way. */
module Source {
  import opened Common

  /** A copy of a cursor (`Position.copy()`): offset, line and column. Tokens, nodes and
      errors keep such values, so a later move of the lexer's cursor cannot change them. */
  datatype Pos = Pos(idx: int, ln: int, col: int)

  /** The `(posStart, posEnd)` pair of a runtime value or a runtime error. */
  datatype Span = Span(start: Pos, end: Pos)

  predicate IsLineBreak(c: Option<char>) { c == Some('\n') || c == Some('\r') }

  /** `Position.advance(currentChar)`: one step right; leaving a line break moves to the
      next line, with the column at -1 so the next step lands on column 0. */
  function AdvancePos(p: Pos, c: Option<char>): (q: Pos)
    ensures q.idx == p.idx + 1
    ensures IsLineBreak(c) ==> q.ln == p.ln + 1 && q.col == -1
    ensures !IsLineBreak(c) ==> q.ln == p.ln && q.col == p.col + 1
  {
    var stepped := p.(idx := p.idx + 1, col := p.col + 1);
    if IsLineBreak(c) then stepped.(ln := p.ln + 1, col := -1) else stepped
  }

  /** Where both lexers put their cursor before their constructor's first advance. */
  const Origin := Pos(-1, 0, -1)

  /** The cursor after advancing from `Origin` over `text` until offset `i`, each step
      leaving the character at the offset it starts from (`undefined` past the end). */
  function PosAt(text: string, i: int): (p: Pos)
    requires i >= -1
    ensures p.idx == i
    decreases i + 1
  {
    if i == -1 then Origin else AdvancePos(PosAt(text, i - 1), CharAt(text, i - 1))
  }

  function CountBreaks(s: string): nat
  {
    if s == [] then 0 else CountBreaks(s[..|s| - 1]) + (if IsLineBreak(Some(s[|s| - 1])) then 1 else 0)
  }

  /** The line of the cursor at offset `i` is the number of line breaks before `i`. */
  lemma {:induction false} PosAtLine(text: string, i: int)
    requires 0 <= i <= |text|
    ensures PosAt(text, i).ln == CountBreaks(text[..i])
    decreases i
  {
    if i > 0 {
      PosAtLine(text, i - 1);
      assert text[..i][..i - 1] == text[..i - 1];
    }
  }

  /** The offset of the last line break before offset `i`, or -1 when there is none. */
  function LastBreak(text: string, i: int): (k: int)
    requires 0 <= i <= |text|
    ensures -1 <= k < i
    ensures k >= 0 ==> IsLineBreak(Some(text[k]))
    ensures forall j :: k < j < i ==> !IsLineBreak(Some(text[j]))
    decreases i
  {
    if i == 0 then -1 else if IsLineBreak(Some(text[i - 1])) then i - 1 else LastBreak(text, i - 1)
  }

  /** The column of the cursor at offset `i`: the offset itself on the first line, and
      otherwise the distance from the last line break minus two, so the cursor sits on
      column -1 right after a break and on column 0 one step later. */
  lemma {:induction false} PosAtColumn(text: string, i: int)
    requires 0 <= i <= |text|
    ensures var k := LastBreak(text, i);
      PosAt(text, i).col == if k == -1 then i else i - k - 2
    ensures i > 0 && IsLineBreak(Some(text[i - 1])) ==> PosAt(text, i).col == -1
    decreases i
  {
    if i > 0 {
      PosAtColumn(text, i - 1);
    }
  }

  /** The mutable cursor of the lexers (Lexer.ts and Basic.ts `Position`). */
  class Position {
    var idx: int
    var ln: int
    var col: int

    constructor (idx: int, ln: int, col: int)
      ensures Value() == Pos(idx, ln, col)
    {
      this.idx := idx;
      this.ln := ln;
      this.col := col;
    }

    function Value(): Pos
      reads this
    {
      Pos(idx, ln, col)
    }

    method Advance(c: Option<char>)
      modifies this
      ensures Value() == AdvancePos(old(Value()), c)
    {
      idx := idx + 1;
      col := col + 1;
      if c == Some('\n') || c == Some('\r') {
        ln := ln + 1;
        col := -1;
      }
    }

    /** `copy()`: a new object with the same fields, never this one. */
    method Copy() returns (p: Position)
      ensures fresh(p) && p.Value() == Value()
    {
      p := new Position(idx, ln, col);
    }
  }

  /** The literal payload a token may carry (its `value: any`). */
  datatype TokenValue = NoValue | NumValue(num: real) | StrValue(str: string) | BoolValue(b: bool)

  /** A token of kind `K` (Lexer.ts `TokenType`, Basic.ts `TT_*`) with its span. */
  datatype Token<K> = Token(kind: K, value: TokenValue, posStart: Pos, posEnd: Pos)

  /** The `Token` constructor: both ends are copies; without an explicit end the end is
      the start advanced by one character (with no character, so never a line break). */
  function NewToken<K>(kind: K, value: TokenValue, start: Pos, end: Option<Pos>): (t: Token<K>)
    ensures t.kind == kind && t.value == value && t.posStart == start
    ensures end.Some? ==> t.posEnd == end.value
    ensures end.None? ==> t.posEnd == start.(idx := start.idx + 1, col := start.col + 1)
  {
    Token(kind, value, start, if end.Some? then end.value else AdvancePos(start, None))
  }

  /** `Token.matches(type, value)`: same kind and strictly equal value. */
  predicate Matches<K(==)>(t: Token<K>, kind: K, value: TokenValue)
  {
    t.kind == kind && t.value == value
  }

  /** `LexError` and its subclasses: a named error with details and a span. */
  datatype LexError = LexError(errorName: string, details: string, posStart: Pos, posEnd: Pos)

  function IllegalCharError(posStart: Pos, posEnd: Pos, details: string): LexError
  {
    LexError("IllegalCharError", details, posStart, posEnd)
  }

  function ExpectedCharError(posStart: Pos, posEnd: Pos, details: string): LexError
  {
    LexError("ExpectedCharError", details, posStart, posEnd)
  }

  function InvalidSyntaxError(posStart: Pos, posEnd: Pos, details: string): LexError
  {
    LexError("InvalidSyntaxError", details, posStart, posEnd)
  }

  /** The InvalidSyntaxError the parsers report at a token: it spans that token. */
  function SyntaxAt<K>(t: Token<K>, details: string): LexError
  {
    InvalidSyntaxError(t.posStart, t.posEnd, details)
  }
}
