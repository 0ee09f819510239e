/** The scanner of Basic.ts: a cursor over the text, with no pushback, that turns the
    text into INT, FLOAT, IDENTIFIER, KEYWORD and one-character tokens, or into the first
    illegal character.

    As for Lexer.ts, the pure functions (`NumberToken`, `WordToken`, `StepAt`, `LexLoop`)
    follow the cursor offset by offset and define what `Lexer.MakeTokens` computes; the
    class `Lexer` keeps the mutable cursor and is proved to compute exactly that. */
module BasicLexer {
  import opened Common
  import opened Source
  import opened Scans

  /** The `TT_*` token types. */
  datatype TokenType =
    | Int | Float | Identifier | Keyword | Eq
    | Plus | Minus | Mul | Div | Pow | LParen | RParen | EndOfFile

  type Tok = Token<TokenType>

  const Keywords: seq<string> := ["var"]

  /** Characters `makeTokens` skips. */
  const Ignore: seq<char> := [' ', '\t', '\n', '\r']

  /** The one-character tokens: exactly eight characters, each with its own kind. */
  function SingleChar(c: char): (r: Option<TokenType>)
    ensures r.Some? ==> r.value in {Plus, Minus, Mul, Pow, Div, LParen, RParen, Eq}
    ensures r.Some? <==> c in "+-*^/()="
    ensures r == Some(Plus) <==> c == '+'
    ensures r == Some(Minus) <==> c == '-'
    ensures r == Some(Mul) <==> c == '*'
    ensures r == Some(Pow) <==> c == '^'
    ensures r == Some(Div) <==> c == '/'
    ensures r == Some(LParen) <==> c == '('
    ensures r == Some(RParen) <==> c == ')'
    ensures r == Some(Eq) <==> c == '='
  {
    if c == '+' then Some(Plus)
    else if c == '-' then Some(Minus)
    else if c == '*' then Some(Mul)
    else if c == '^' then Some(Pow)
    else if c == '/' then Some(Div)
    else if c == '(' then Some(LParen)
    else if c == ')' then Some(RParen)
    else if c == '=' then Some(Eq)
    else None
  }

  /** A character no branch of `makeTokens` accepts. */
  predicate Illegal(c: char)
  {
    c !in Ignore && !IsDigit(c) && !IsLetter(c) && SingleChar(c).None?
  }

  /** What `makeTokens` returns: the tokens, or an empty list and the error. */
  datatype Lexed = Lexed(tokens: seq<Tok>, error: Option<LexError>)

  // ---------------------------------------------------------------- tokens

  /** `makeNumber`: an INT token when the numeral has no '.', a FLOAT token otherwise,
      spanning the numeral up to the offset where the scan stopped, which is also where
      the cursor is left. */
  function NumberToken(text: string, i: nat): (r: (Tok, nat))
    requires i < |text| && IsDigit(text[i])
    ensures i < r.1 <= |text|
    ensures r.0.kind in {Int, Float}
  {
    var (numStr, stop) := ScanNumber(text, i, "", 0);
    NumberScanned(text, i);
    var kind := if CountChar(numStr, '.') == 0 then Int else Float;
    (NewToken(kind, NumValue(NumeralValue(numStr)), PosAt(text, i), Some(PosAt(text, stop))), stop)
  }

  /** `makeIdentifier`: a KEYWORD token for `var`, an IDENTIFIER token otherwise, spanning
      the word up to the first character after it, where the cursor is left. */
  function WordToken(text: string, i: nat): (r: (Tok, nat))
    requires i < |text| && IsLetter(text[i])
    ensures i < r.1 <= |text|
    ensures r.0.kind in {Keyword, Identifier}
  {
    var (id, stop) := ScanWord(text, i, "");
    WordScanned(text, i);
    (NewToken(if id in Keywords then Keyword else Identifier, StrValue(id), PosAt(text, i), Some(PosAt(text, stop))), stop)
  }

  /** The details of the IllegalCharError: the character under the cursor after it has
      advanced past the offending one, quoted, which is `"null"` at the end of the text. */
  function IllegalCharDetails(text: string, i: nat): string
  {
    "\"" + (if i + 1 < |text| then [text[i + 1]] else "null") + "\""
  }

  // ---------------------------------------------------------------- the main loop

  /** One turn of the `makeTokens` loop at offset `i`: skip a blank, push a token, or stop
      with an error; `next` is the cursor offset at the end of the turn. A number turn ends
      where `makeNumber` left the cursor (the loop `continue`s); every other turn ends
      with one more advance, which after an identifier steps over the character that
      ended the word. */
  datatype Step = Skip(next: nat) | Emit(token: Tok, next: nat) | Fail(error: LexError)

  function StepAt(text: string, i: nat): (s: Step)
    requires i < |text|
    ensures !s.Fail? ==> s.next > i
  {
    var c := text[i];
    if c in Ignore then Skip(i + 1)
    else if IsDigit(c) then
      var (t, stop) := NumberToken(text, i);
      Emit(t, stop)
    else if IsLetter(c) then
      var (t, stop) := WordToken(text, i);
      Emit(t, stop + 1)
    else if SingleChar(c).Some? then
      Emit(NewToken(SingleChar(c).value, NoValue, PosAt(text, i), None), i + 1)
    else
      Fail(IllegalCharError(PosAt(text, i), PosAt(text, i + 1), IllegalCharDetails(text, i)))
  }

  /** The `makeTokens` loop with the cursor at offset `i` and `tokens` pushed so far. */
  function LexLoop(text: string, i: nat, tokens: seq<Tok>): Lexed
    decreases |text| - i, 1
  {
    if i >= |text| then Lexed(tokens + [NewToken(EndOfFile, NoValue, PosAt(text, i), None)], None)
    else LexTurn(text, i, tokens)
  }

  /** The loop from a turn that starts on a character. */
  function LexTurn(text: string, i: nat, tokens: seq<Tok>): Lexed
    requires i < |text|
    decreases |text| - i, 0
  {
    match StepAt(text, i)
    case Skip(next) => LexLoop(text, next, tokens)
    case Emit(t, next) => LexLoop(text, next, tokens + [t])
    case Fail(e) => Lexed([], Some(e))
  }

  /** What a fresh `Lexer(fileName, text).makeTokens()` returns. */
  function Tokenize(text: string): Lexed
  {
    LexLoop(text, 0, [])
  }

  predicate NoEndOfFile(ts: seq<Tok>)
  {
    forall k :: 0 <= k < |ts| ==> ts[k].kind != EndOfFile
  }

  // ---------------------------------------------------------------- properties

  /** On an error the token list is empty; on success it extends the tokens pushed so far
      and ends with exactly one TT_EOF token, which is the only one. */
  lemma {:induction false} LexLoopShape(text: string, i: nat, tokens: seq<Tok>)
    requires NoEndOfFile(tokens)
    ensures var r := LexLoop(text, i, tokens);
      (r.error.Some? ==> r.tokens == []) &&
      (r.error.None? ==>
        |r.tokens| > |tokens| && r.tokens[..|tokens|] == tokens &&
        r.tokens[|r.tokens| - 1].kind == EndOfFile && NoEndOfFile(r.tokens[..|r.tokens| - 1]))
    decreases |text| - i
  {
    if i >= |text| {
      var r := tokens + [NewToken(EndOfFile, NoValue, PosAt(text, i), None)];
      assert r[..|r| - 1] == tokens;
      assert r[..|tokens|] == tokens;
    } else {
      match StepAt(text, i)
      case Skip(next) => LexLoopShape(text, next, tokens);
      case Emit(t, next) =>
        var more := tokens + [t];
        assert NoEndOfFile(more) by {
          assert forall k :: 0 <= k < |tokens| ==> more[k] == tokens[k];
        }
        LexLoopShape(text, next, more);
        var r := LexLoop(text, next, more);
        if r.error.None? {
          assert r.tokens[..|tokens|] == r.tokens[..|more|][..|tokens|];
          assert more[..|tokens|] == tokens;
        }
      case Fail(e) =>
    }
  }

  /** A whole run: `[[], error]`, or tokens that end with the only TT_EOF. */
  lemma TokenizeShape(text: string)
    ensures var r := Tokenize(text);
      (r.error.Some? ==> r.tokens == []) &&
      (r.error.None? ==> |r.tokens| > 0 && r.tokens[|r.tokens| - 1].kind == EndOfFile &&
                         NoEndOfFile(r.tokens[..|r.tokens| - 1]))
  {
    LexLoopShape(text, 0, []);
  }

  /** The only error is an IllegalCharError one character wide, at an illegal character
      the loop reached, with the details `IllegalCharDetails` gives. */
  lemma {:induction false} LexErrorIsIllegalChar(text: string, i: nat, tokens: seq<Tok>)
    ensures var r := LexLoop(text, i, tokens);
      r.error.Some? ==>
        exists k :: i <= k < |text| && Illegal(text[k]) &&
          r.error.value == IllegalCharError(PosAt(text, k), PosAt(text, k + 1), IllegalCharDetails(text, k))
    decreases |text| - i
  {
    if i < |text| {
      match StepAt(text, i)
      case Skip(next) => LexErrorIsIllegalChar(text, next, tokens);
      case Emit(t, next) => LexErrorIsIllegalChar(text, next, tokens + [t]);
      case Fail(e) =>
        assert Illegal(text[i]);
    }
  }

  /** parseInt of a numeral without a '.' is the value of its digits. */
  lemma IntNumeral(s: string)
    requires IsNumeral(s) && CountChar(s, '.') == 0
    ensures AllDigits(s) && NumeralValue(s) == DigitsValue(s) as real
  {
    CountCharZero(s, '.');
    assert IndexOfDot(s) == |s|;
  }

  /** `makeNumber` yields TT_INT exactly when the scanned numeral has no '.', and then its
      value is the value of its digits; TT_FLOAT when it has one. The token spans the
      numeral, which stops at the end of the text, at a character that is neither a digit
      nor '.', or at a second '.', and the next turn starts right there. */
  lemma NumberKinds(text: string, i: nat)
    requires i < |text| && IsDigit(text[i])
    ensures var (numStr, stop) := ScanNumber(text, i, "", 0);
      var s := StepAt(text, i);
      && numStr == text[i..stop] && s.Emit? && s.next == stop
      && s.token.posStart == PosAt(text, i) && s.token.posEnd == PosAt(text, stop)
      && (s.token.kind == Int <==> CountChar(numStr, '.') == 0)
      && (s.token.kind == Float <==> CountChar(numStr, '.') == 1)
      && (s.token.kind == Int ==> AllDigits(numStr) && s.token.value == NumValue(DigitsValue(numStr) as real))
      && (stop == |text| || !(IsDigit(text[stop]) || text[stop] == '.') ||
          (text[stop] == '.' && CountChar(numStr, '.') == 1))
  {
    var (numStr, stop) := ScanNumber(text, i, "", 0);
    NumberScanned(text, i);
    if CountChar(numStr, '.') == 0 {
      IntNumeral(numStr);
    }
  }

  /** `makeIdentifier` yields TT_KEYWORD exactly for `var`. Because the identifier branch
      does not `continue`, the turn's final advance steps over the character that ended
      the word: that character starts no token. */
  lemma WordSwallowsNext(text: string, i: nat)
    requires i < |text| && IsLetter(text[i])
    ensures var (id, stop) := ScanWord(text, i, "");
      var s := StepAt(text, i);
      && id == text[i..stop] && s.Emit? && s.next == stop + 1
      && (s.token.kind == Keyword <==> id == "var")
      && s.token.value == StrValue(id)
      && s.token.posStart == PosAt(text, i) && s.token.posEnd == PosAt(text, stop)
  {
    WordScanned(text, i);
  }

  /** So an operator written right after a name is lost: `a+b` lexes as two identifiers. */
  lemma OperatorAfterNameLost()
    ensures var r := Tokenize("a+b");
      r.error.None? && |r.tokens| == 3 &&
      r.tokens[0].kind == Identifier && r.tokens[0].value == StrValue("a") &&
      r.tokens[1].kind == Identifier && r.tokens[1].value == StrValue("b") &&
      r.tokens[2].kind == EndOfFile
  {
    var text := "a+b";
    assert ScanWord(text, 0, "") == ("a", 1) by {
      assert "" + [text[0]] == "a";
      assert ScanWord(text, 1, "a") == ("a", 1);
    }
    assert ScanWord(text, 2, "") == ("b", 3) by {
      assert "" + [text[2]] == "b";
      assert ScanWord(text, 3, "b") == ("b", 3);
    }
    assert StepAt(text, 0).next == 2;
    assert StepAt(text, 2).next == 4;
  }

  /** And an illegal character right after a name is never looked at: `a$` lexes. */
  lemma IllegalCharAfterName()
    ensures Tokenize("a$").error.None?
  {
    assert ScanWord("a$", 0, "") == ("a", 1) by {
      assert "" + ["a$"[0]] == "a";
      assert ScanWord("a$", 1, "a") == ("a", 1);
    }
    assert StepAt("a$", 0).next == 2;
  }

  /** An illegal character that starts a turn is reported with the character after it,
      which is `"null"` at the end of the text. */
  lemma IllegalCharShowsNext()
    ensures Tokenize("$").error == Some(IllegalCharError(Pos(0, 0, 0), Pos(1, 0, 1), "\"null\""))
  {
    assert PosAt("$", 1) == Pos(1, 0, 1);
    assert IllegalCharDetails("$", 0) == "\"null\"";
    assert SingleChar("$"[0]) == None;
  }

  // ---------------------------------------------------------------- the class

  /** The scanner object: `pos` is the cursor and `currentChar` the character under it. */
  class Lexer {
    const fileName: string
    const text: string
    var pos: Position
    var currentChar: Option<char>

    /** The cursor sits where advancing from the origin over the text would put it, and
        `currentChar` is the character under it. */
    ghost predicate Valid()
      reads this, pos
    {
      pos.idx >= -1 && pos.Value() == PosAt(text, pos.idx) && currentChar == CharAt(text, pos.idx)
    }

    constructor (fileName: string, text: string)
      ensures this.fileName == fileName && this.text == text
      ensures Valid() && pos.idx == 0 && fresh(pos)
    {
      this.fileName := fileName;
      this.text := text;
      pos := new Position(-1, 0, -1);
      currentChar := None;
      new;
      Advance();
    }

    /** Moves the cursor one character right, leaving the character it was on. */
    method Advance()
      requires Valid()
      modifies this, pos
      ensures Valid() && pos == old(pos) && pos.idx == old(pos.idx) + 1
    {
      pos.Advance(CharAt(text, pos.idx));
      if pos.idx < |text| {
        currentChar := Some(text[pos.idx]);
      } else {
        currentChar := None;
      }
    }

    method MakeNumber() returns (t: Tok)
      requires Valid() && 0 <= pos.idx < |text| && IsDigit(text[pos.idx])
      modifies this, pos
      ensures Valid() && pos == old(pos)
      ensures (t, pos.idx) == NumberToken(text, old(pos.idx))
    {
      var numStr := "";
      var dotCount := 0;
      var posStart := pos.Value();
      ghost var i: nat := pos.idx;
      while currentChar.Some? && (IsDigit(currentChar.value) || currentChar.value == '.')
        invariant Valid() && pos == old(pos)
        invariant i <= pos.idx <= |text|
        invariant dotCount == CountChar(numStr, '.')
        invariant ScanNumber(text, pos.idx, numStr, dotCount) == ScanNumber(text, i, "", 0)
        decreases |text| - pos.idx
      {
        assert text[pos.idx] == currentChar.value;
        CountCharSplit(numStr, [currentChar.value], '.');
        assert CountChar([currentChar.value], '.') == (if currentChar.value == '.' then 1 else 0) by {
          assert [currentChar.value][..0] == [];
        }
        if currentChar.value == '.' {
          if dotCount == 1 {
            break;
          }
          dotCount := dotCount + 1;
          numStr := numStr + ".";
        } else {
          numStr := numStr + [currentChar.value];
        }
        Advance();
      }
      assert ScanNumber(text, pos.idx, numStr, dotCount) == (numStr, pos.idx);
      NumberScanned(text, i);
      assert ScanNumber(text, i, "", 0) == (numStr, pos.idx);
      if dotCount == 0 {
        t := NewToken(Int, NumValue(NumeralValue(numStr)), posStart, Some(pos.Value()));
      } else {
        t := NewToken(Float, NumValue(NumeralValue(numStr)), posStart, Some(pos.Value()));
      }
    }

    method MakeIdentifier() returns (t: Tok)
      requires Valid() && 0 <= pos.idx < |text| && IsLetter(text[pos.idx])
      modifies this, pos
      ensures Valid() && pos == old(pos)
      ensures (t, pos.idx) == WordToken(text, old(pos.idx))
    {
      var id := "";
      var posStart := pos.Value();
      ghost var i: nat := pos.idx;
      while currentChar.Some? && IsIdentChar(currentChar.value)
        invariant Valid() && pos == old(pos)
        invariant i <= pos.idx <= |text|
        invariant ScanWord(text, pos.idx, id) == ScanWord(text, i, "")
        decreases |text| - pos.idx
      {
        assert text[pos.idx] == currentChar.value;
        id := id + [currentChar.value];
        Advance();
      }
      assert ScanWord(text, pos.idx, id) == (id, pos.idx);
      var tokenType := if id in Keywords then Keyword else Identifier;
      t := NewToken(tokenType, StrValue(id), posStart, Some(pos.Value()));
    }

    method MakeTokens() returns (r: Lexed)
      requires Valid() && pos.idx >= 0
      modifies this, pos
      ensures r == LexLoop(text, old(pos.idx), [])
    {
      var tokens: seq<Tok> := [];
      ghost var start: nat := pos.idx;
      while currentChar.Some?
        invariant Valid() && pos == old(pos) && 0 <= pos.idx
        invariant LexLoop(text, pos.idx, tokens) == LexLoop(text, start, [])
        decreases |text| + 1 - pos.idx
      {
        var c := currentChar.value;
        if c in Ignore {
          Advance();
          continue;
        } else if IsDigit(c) {
          var t := MakeNumber();
          tokens := tokens + [t];
          continue;
        } else if IsLetter(c) {
          var t := MakeIdentifier();
          tokens := tokens + [t];
        } else if SingleChar(c).Some? {
          tokens := tokens + [NewToken(SingleChar(c).value, NoValue, pos.Value(), None)];
        } else {
          var posStart := pos.Value();
          Advance();
          var shown := if currentChar.Some? then [currentChar.value] else "null";
          return Lexed([], Some(IllegalCharError(posStart, pos.Value(), "\"" + shown + "\"")));
        }
        Advance();
      }
      tokens := tokens + [NewToken(EndOfFile, NoValue, pos.Value(), None)];
      r := Lexed(tokens, None);
    }
  }

  /** The lexer as `run` uses it: construct, then scan the whole text. */
  method Lex(fileName: string, text: string) returns (r: Lexed)
    ensures r == Tokenize(text)
  {
    var lexer := new Lexer(fileName, text);
    r := lexer.MakeTokens();
  }
}
