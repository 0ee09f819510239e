/** The scanner of Lexer.ts: a cursor over the text with one step of pushback that turns
    the text into tokens, or into the first lexical error.

    The pure functions (`ScanNumber`, `NumberToken`, ..., `LexLoop`) follow the cursor
    offset by offset and define what `Lexer.MakeTokens` computes; the class `Lexer`
    keeps the mutable cursor of the source and is proved to compute exactly that. */
module Lexer {
  import opened Common
  import opened Source
  import opened Scans

  datatype TokenType =
    | Type | Number | String | Boolean | Identifier | Keyword | Equals | EndOfFile
    | SemiColon | LBrace | RBrace | LParen | RParen | LSqr | RSqr | Comma
    | Plus | Minus | Multiply | Divide
    | EE | NE | LT | LTE | GT | GTE
    | Not | Or | And

  type Tok = Token<TokenType>

  const Keywords: seq<string> := ["if", "else", "function"]
  const Types: seq<string> := ["number", "string", "boolean", "array"]

  /** Characters `makeTokens` skips. */
  const Ignore: seq<char> := ['\r', '\n', ' ', '\t']

  /** Characters that start a one- or two-character operator. */
  const OperatorStarts: seq<char> := ['=', '>', '<', '|', '&', '!']

  /** The single-character tokens. */
  function Punctuation(c: char): Option<TokenType>
  {
    match c
    case '(' => Some(LParen)
    case ')' => Some(RParen)
    case '{' => Some(LBrace)
    case '}' => Some(RBrace)
    case '[' => Some(LSqr)
    case ']' => Some(RSqr)
    case '+' => Some(Plus)
    case '-' => Some(Minus)
    case '*' => Some(Multiply)
    case '/' => Some(Divide)
    case ';' => Some(SemiColon)
    case ',' => Some(Comma)
    case _ => None
  }

  /** Exactly twelve characters are single-character tokens, each with its own kind. */
  lemma PunctuationChars(c: char)
    ensures Punctuation(c).Some? <==> c in "(){}[]+-*/;,"
    ensures Punctuation(c).Some? ==> Punctuation(c).value in PunctuationKinds
    ensures Punctuation(c) == Some(LParen) <==> c == '('
    ensures Punctuation(c) == Some(RParen) <==> c == ')'
    ensures Punctuation(c) == Some(LBrace) <==> c == '{'
    ensures Punctuation(c) == Some(RBrace) <==> c == '}'
    ensures Punctuation(c) == Some(LSqr) <==> c == '['
    ensures Punctuation(c) == Some(RSqr) <==> c == ']'
    ensures Punctuation(c) == Some(Plus) <==> c == '+'
    ensures Punctuation(c) == Some(Minus) <==> c == '-'
    ensures Punctuation(c) == Some(Multiply) <==> c == '*'
    ensures Punctuation(c) == Some(Divide) <==> c == '/'
    ensures Punctuation(c) == Some(SemiColon) <==> c == ';'
    ensures Punctuation(c) == Some(Comma) <==> c == ','
  {
  }

  const PunctuationKinds: set<TokenType> :=
    {LParen, RParen, LBrace, RBrace, LSqr, RSqr, Plus, Minus, Multiply, Divide, SemiColon, Comma}

  /** What `makeTokens` returns: the tokens, or an empty list and the error. */
  datatype Lexed = Lexed(tokens: seq<Tok>, error: Option<LexError>)

  // ---------------------------------------------------------------- numbers

  /** `makeNumber`: a Number token from the first digit to the last character of the
      numeral (the cursor is pushed back onto it), and the cursor offset on return. */
  function NumberToken(text: string, i: nat): (r: (Tok, nat))
    requires i < |text| && IsDigit(text[i])
    ensures i <= r.1 < |text|
    ensures r.0.kind == Number
  {
    var (numStr, stop) := ScanNumber(text, i, "", 0);
    NumberScanned(text, i);
    (NewToken(Number, NumValue(NumeralValue(numStr)), PosAt(text, i), Some(PosAt(text, stop - 1))), stop - 1)
  }

  /** The Number token spans the numeral, from its first digit to its last character, and
      the cursor is left on that last character, one before where the scan stopped; the
      value is the numeral's. */
  lemma NumberSpan(text: string, i: nat)
    requires i < |text| && IsDigit(text[i])
    ensures var r, scan := NumberToken(text, i), ScanNumber(text, i, "", 0);
      && r.1 == scan.1 - 1
      && r.0.posStart == PosAt(text, i) && r.0.posEnd == PosAt(text, scan.1 - 1)
      && text[i..scan.1] == scan.0 && IsNumeral(scan.0)
      && r.0.value == NumValue(NumeralValue(scan.0))
  {
    NumberScanned(text, i);
  }

  // ---------------------------------------------------------------- words

  /** The fixed classification order of `makeIdentifier`: a type name, then `true` and
      `false`, then a keyword, and anything else is an identifier. */
  function ClassifyWord(id: string): (r: (TokenType, TokenValue))
    ensures id in Types <==> r.0 == Type
    ensures r.0 == Boolean <==> id == "true" || id == "false"
    ensures r.0 == Boolean ==> r.1 == BoolValue(id == "true")
    ensures r.0 == Keyword <==> id in Keywords
    ensures r.0 == Identifier <==> id !in Types && id !in Keywords && id != "true" && id != "false"
    ensures r.0 != Boolean ==> r.1 == StrValue(id)
    ensures r.0 in {Type, Boolean, Keyword, Identifier}
  {
    if id in Types then (Type, StrValue(id))
    else if id == "true" then (Boolean, BoolValue(true))
    else if id == "false" then (Boolean, BoolValue(false))
    else if id in Keywords then (Keyword, StrValue(id))
    else (Identifier, StrValue(id))
  }

  /** `makeIdentifier`: only the Identifier path pushes the cursor back onto the last
      character of the word; after a Type, Boolean or Keyword the cursor stays on the
      character after the word. */
  function WordToken(text: string, i: nat): (r: (Tok, nat))
    requires i < |text| && IsIdentChar(text[i])
    ensures i <= r.1 <= |text|
  {
    var (id, stop) := ScanWord(text, i, "");
    var (kind, value) := ClassifyWord(id);
    if kind == Identifier then
      (NewToken(kind, value, PosAt(text, i), Some(PosAt(text, stop - 1))), stop - 1)
    else
      (NewToken(kind, value, PosAt(text, i), Some(PosAt(text, stop))), stop)
  }

  // ---------------------------------------------------------------- strings

  function EscapedChar(c: char): char
  {
    if c == 'n' then '\n' else if c == 't' then '\t' else c
  }

  /** The `makeString` loop from offset `j`: the decoded value and the offset at which it
      stops (an unescaped '"' or the end of the text). */
  function ScanString(text: string, j: nat, value: string, escape: bool): (r: (string, nat))
    requires j <= |text|
    ensures j <= r.1 <= |text|
    ensures r.1 < |text| ==> text[r.1] == '"'
    decreases |text| - j
  {
    if j < |text| && (text[j] != '"' || escape) then
      if escape then ScanString(text, j + 1, value + [EscapedChar(text[j])], false)
      else if text[j] == '\\' then ScanString(text, j + 1, value, true)
      else ScanString(text, j + 1, value + [text[j]], false)
    else (value, j)
  }

  /** `makeString`: a String token from the opening quote to the closing one (or to the
      end of the text), and the cursor offset on return. */
  function StringToken(text: string, i: nat): (r: (Tok, nat))
    requires i < |text| && text[i] == '"'
    ensures i < r.1 <= |text|
    ensures r.0.kind == String
  {
    var (value, stop) := ScanString(text, i + 1, "", false);
    (NewToken(String, StrValue(value), PosAt(text, i), Some(PosAt(text, stop))), stop)
  }

  /** The way a string literal writes `s`: backslash before '\\' and '"', and the
      two-character escapes for newline and tab. */
  function EscapeHead(c: char): string
  {
    if c == '\n' then "\\n"
    else if c == '\t' then "\\t"
    else if c == '\\' || c == '"' then ['\\', c]
    else [c]
  }

  function Escape(s: string): string
  {
    if s == [] then ""
    else EscapeHead(s[0]) + Escape(s[1..])
  }

  /** Reading an escaped string body up to its closing quote gives the string back. */
  lemma {:induction false} ScanEscaped(s: string, rest: string, prefix: string, value: string)
    ensures var text := prefix + Escape(s) + "\"" + rest;
      ScanString(text, |prefix|, value, false) == (value + s, |prefix| + |Escape(s)|)
    decreases |s|
  {
    var text := prefix + Escape(s) + "\"" + rest;
    var j := |prefix|;
    if s == [] {
      assert text[j] == '"';
      assert value + s == value;
    } else {
      var c := s[0];
      var head := EscapeHead(c);
      assert prefix + Escape(s) == (prefix + head) + Escape(s[1..]);
      assert text == (prefix + head) + Escape(s[1..]) + "\"" + rest;
      ScanEscaped(s[1..], rest, prefix + head, value + [c]);
      assert value + [c] + s[1..] == value + s;
      if |head| == 2 {
        assert text[j] == '\\' && text[j + 1] == head[1];
        ScanPair(text, j, value, c);
      } else {
        assert text[j] == c;
        ScanPlain(text, j, value);
      }
    }
  }

  /** A backslash and the character after it add the character they stand for. */
  lemma ScanPair(text: string, j: nat, value: string, c: char)
    requires j + 1 < |text| && text[j] == '\\' && EscapedChar(text[j + 1]) == c
    ensures ScanString(text, j, value, false) == ScanString(text, j + 2, value + [c], false)
  {
    assert ScanString(text, j, value, false) == ScanString(text, j + 1, value, true);
  }

  /** Any other character except the closing quote adds itself. */
  lemma ScanPlain(text: string, j: nat, value: string)
    requires j < |text| && text[j] != '"' && text[j] != '\\'
    ensures ScanString(text, j, value, false) == ScanString(text, j + 1, value + [text[j]], false)
  {
  }

  /** Round trip: the literal `"` + Escape(s) + `"` lexes to a String token whose value is
      `s`, and scanning resumes right after the closing quote. */
  lemma StringRoundTrip(s: string, prefix: string, rest: string)
    ensures var text := prefix + "\"" + Escape(s) + "\"" + rest;
      var (t, at) := StringToken(text, |prefix|);
      t.kind == String && t.value == StrValue(s) && at == |prefix| + 1 + |Escape(s)| && text[at] == '"'
  {
    var text := prefix + "\"" + Escape(s) + "\"" + rest;
    assert text == (prefix + "\"") + Escape(s) + "\"" + rest;
    ScanEscaped(s, rest, prefix + "\"", "");
    assert "" + s == s;
  }

  // ---------------------------------------------------------------- operators

  /** What `makeOperator` returns: a token and the cursor offset, or an error. */
  datatype OperatorScan = OperatorOk(token: Tok, at: nat) | OperatorError(error: LexError)

  /** The one- and two-character kinds of `=`, `>`, `<`, `!`. */
  function PairedKinds(c: char): (TokenType, TokenType)
  {
    if c == '=' then (Equals, EE)
    else if c == '>' then (GT, GTE)
    else if c == '<' then (LT, LTE)
    else (Not, NE)
  }

  /** `makeOperator`: `= > < !` followed by '=' are two-character tokens; otherwise the
      cursor is pushed back and they are one character long. `|` and `&` must be doubled. */
  function OperatorToken(text: string, i: nat): (r: OperatorScan)
    requires i < |text| && text[i] in OperatorStarts
    ensures r.OperatorOk? ==> i <= r.at <= i + 1
    ensures r.OperatorOk? ==> r.token.kind in {Or, And, Equals, EE, GT, GTE, LT, LTE, Not, NE}
  {
    var c := text[i];
    var start := PosAt(text, i);
    var next := CharAt(text, i + 1);
    if c == '|' || c == '&' then
      if next == Some(c) then
        OperatorOk(NewToken(if c == '|' then Or else And, NoValue, start, Some(PosAt(text, i + 1))), i + 1)
      else
        OperatorError(ExpectedCharError(start, PosAt(text, i + 1), if c == '|' then "\"'|'\"" else "\"'&'\""))
    else
      var (single, double) := PairedKinds(c);
      if next == Some('=') then OperatorOk(NewToken(double, NoValue, start, Some(PosAt(text, i + 1))), i + 1)
      else OperatorOk(NewToken(single, NoValue, start, Some(start)), i)
  }

  // ---------------------------------------------------------------- the main loop

  /** One turn of the `makeTokens` loop at offset `i`: skip whitespace, push a token, or
      stop with an error; `next` is where the cursor is after the turn's final advance. */
  datatype Step = Skip(next: nat) | Emit(token: Tok, next: nat) | Fail(error: LexError)

  function StepAt(text: string, i: nat): (s: Step)
    requires i < |text|
    ensures !s.Fail? ==> s.next > i
  {
    var c := text[i];
    if c in Ignore then Skip(i + 1)
    else if IsDigit(c) then
      var (t, at) := NumberToken(text, i);
      Emit(t, at + 1)
    else if IsIdentChar(c) then
      var (t, at) := WordToken(text, i);
      Emit(t, at + 1)
    else if c == '"' then
      var (t, at) := StringToken(text, i);
      Emit(t, at + 1)
    else if c in OperatorStarts then
      match OperatorToken(text, i)
      case OperatorError(e) => Fail(e)
      case OperatorOk(t, at) => Emit(t, at + 1)
    else if Punctuation(c).Some? then
      Emit(NewToken(Punctuation(c).value, NoValue, PosAt(text, i), None), i + 1)
    else
      Fail(IllegalCharError(PosAt(text, i), PosAt(text, i), "Unexpected Char '" + [c] + "'"))
  }

  /** The `makeTokens` loop with the cursor at offset `i` and `tokens` pushed so far. */
  function LexLoop(text: string, i: nat, tokens: seq<Tok>): Lexed
    decreases |text| - i, 1
  {
    if i >= |text| then Lexed(tokens + [NewToken(EndOfFile, NoValue, PosAt(text, i), None)], None)
    else LexTurn(text, i, tokens)
  }

  /** The loop from a turn that starts on a character. */
  function LexTurn(text: string, i: nat, tokens: seq<Tok>): Lexed
    requires i < |text|
    decreases |text| - i, 0
  {
    match StepAt(text, i)
    case Skip(next) => LexLoop(text, next, tokens)
    case Emit(t, next) => LexLoop(text, next, tokens + [t])
    case Fail(e) => Lexed([], Some(e))
  }

  /** A blank character is skipped. */
  lemma SkipTurn(text: string, i: nat, tokens: seq<Tok>)
    requires i < |text| && text[i] in Ignore
    ensures LexLoop(text, i, tokens) == LexLoop(text, i + 1, tokens)
  {
  }

  /** What a fresh `Lexer(fileName, text).makeTokens()` returns. */
  function Tokenize(text: string): Lexed
  {
    LexLoop(text, 0, [])
  }

  predicate NoEndOfFile(ts: seq<Tok>)
  {
    forall k :: 0 <= k < |ts| ==> ts[k].kind != EndOfFile
  }

  /** No turn of the loop pushes an EndOfFile token. */
  lemma StepKind(text: string, i: nat)
    requires i < |text|
    ensures StepAt(text, i).Emit? ==> StepAt(text, i).token.kind != EndOfFile
  {
    if !(text[i] in Ignore) && !IsDigit(text[i]) && IsIdentChar(text[i]) {
      var (id, stop) := ScanWord(text, i, "");
      assert ClassifyWord(id).0 != EndOfFile;
    }
  }

  /** On an error the token list is empty; on success it extends the tokens pushed so far
      and ends with exactly one EndOfFile token, which is the only one. */
  lemma {:induction false} LexLoopShape(text: string, i: nat, tokens: seq<Tok>)
    requires NoEndOfFile(tokens)
    ensures var r := LexLoop(text, i, tokens);
      (r.error.Some? ==> r.tokens == []) &&
      (r.error.None? ==>
        |r.tokens| > |tokens| && r.tokens[..|tokens|] == tokens &&
        r.tokens[|r.tokens| - 1].kind == EndOfFile && NoEndOfFile(r.tokens[..|r.tokens| - 1]))
    decreases |text| - i
  {
    if i >= |text| {
      var r := tokens + [NewToken(EndOfFile, NoValue, PosAt(text, i), None)];
      assert r[..|r| - 1] == tokens;
      assert r[..|tokens|] == tokens;
    } else {
      StepKind(text, i);
      match StepAt(text, i)
      case Skip(next) => LexLoopShape(text, next, tokens);
      case Emit(t, next) =>
        var more := tokens + [t];
        assert NoEndOfFile(more) by {
          assert forall k :: 0 <= k < |tokens| ==> more[k] == tokens[k];
        }
        LexLoopShape(text, next, more);
        var r := LexLoop(text, next, more);
        if r.error.None? {
          assert r.tokens[..|tokens|] == r.tokens[..|more|][..|tokens|];
          assert more[..|tokens|] == tokens;
        }
      case Fail(e) =>
    }
  }

  /** After a type name, `true`, `false` or a keyword the loop resumes one past the
      character that follows the word, so that character starts no token and belongs to
      none (in `if (true) 1` nothing stands for the ')'); after an identifier it resumes
      on that character. */
  lemma WordResumes(text: string, i: nat)
    requires i < |text| && (IsLetter(text[i]) || text[i] == '_')
    ensures var (id, stop) := ScanWord(text, i, "");
      var kind := ClassifyWord(id).0;
      StepAt(text, i).Emit? && StepAt(text, i).token.kind == kind &&
      StepAt(text, i).token.posStart == PosAt(text, i) &&
      StepAt(text, i).next == (if kind == Identifier then stop else stop + 1)
  {
  }

  /** `=`, `<`, `>` and `!` always give a token, two characters long exactly when '='
      follows; `|` and `&` give a token only when doubled and are an ExpectedCharError
      spanning both offsets otherwise. */
  lemma OperatorForms(text: string, i: nat)
    requires i < |text| && text[i] in OperatorStarts
    ensures var r := OperatorToken(text, i);
      var doubled := CharAt(text, i + 1) == Some(if text[i] in "|&" then text[i] else '=');
      (r.OperatorOk? <==> text[i] in "=<>!" || doubled) &&
      (r.OperatorOk? ==> r.token.posStart == PosAt(text, i) &&
                         r.token.posEnd == PosAt(text, if doubled then i + 1 else i) &&
                         (r.at == i + 1 <==> doubled)) &&
      (r.OperatorError? ==> r.error.errorName == "ExpectedCharError" &&
                            r.error.posStart == PosAt(text, i) && r.error.posEnd == PosAt(text, i + 1) &&
                            r.error.details == "\"'" + [text[i]] + "'\"") &&
      (text[i] == '=' ==> r.OperatorOk? && r.token.kind == if doubled then EE else Equals) &&
      (text[i] == '>' ==> r.OperatorOk? && r.token.kind == if doubled then GTE else GT) &&
      (text[i] == '<' ==> r.OperatorOk? && r.token.kind == if doubled then LTE else LT) &&
      (text[i] == '!' ==> r.OperatorOk? && r.token.kind == if doubled then NE else Not) &&
      (text[i] == '|' && doubled ==> r.OperatorOk? && r.token.kind == Or) &&
      (text[i] == '&' && doubled ==> r.OperatorOk? && r.token.kind == And)
  {
  }

  /** The characters some branch of the loop takes. */
  predicate Lexable(c: char)
  {
    c in Ignore || IsDigit(c) || IsIdentChar(c) || c == '"' || c in OperatorStarts || Punctuation(c).Some?
  }

  /** A turn fails exactly on a character no branch takes, with an IllegalCharError on
      that character, and on an undoubled `|` or `&`, with an ExpectedCharError spanning
      it and the next offset. */
  lemma StepFails(text: string, i: nat)
    requires i < |text|
    ensures var s, c := StepAt(text, i), text[i];
      && (s.Fail? <==> !Lexable(c) || (c in "|&" && CharAt(text, i + 1) != Some(c)))
      && (!Lexable(c) ==>
            s == Fail(IllegalCharError(PosAt(text, i), PosAt(text, i), "Unexpected Char '" + [c] + "'")))
      && (c in "|&" && CharAt(text, i + 1) != Some(c) ==>
            s == Fail(ExpectedCharError(PosAt(text, i), PosAt(text, i + 1), "\"'" + [c] + "'\"")))
  {
    var c := text[i];
    if c in Ignore || IsDigit(c) || IsIdentChar(c) || c == '"' {
      assert Lexable(c) && !(c in "|&") && !StepAt(text, i).Fail?;
    } else if c in OperatorStarts {
      OperatorForms(text, i);
    } else {
      assert !(c in "|&");
    }
  }

  /** A failing run stops at its first failing turn: its error is that turn's error and
      its token list is empty. */
  lemma {:induction false} LexLoopFails(text: string, i: nat, tokens: seq<Tok>)
    ensures var r := LexLoop(text, i, tokens);
      r.error.Some? ==>
        r.tokens == [] && exists k :: i <= k < |text| && StepAt(text, k).Fail? && r.error.value == StepAt(text, k).error
    decreases |text| - i
  {
    if i < |text| {
      match StepAt(text, i)
      case Skip(next) => LexLoopFails(text, next, tokens);
      case Emit(t, next) => LexLoopFails(text, next, tokens + [t]);
      case Fail(e) => assert StepAt(text, i).Fail?;
    }
  }

  /** The lexer fails only where a turn starts on a character outside its alphabet or
      on an undoubled `|` or `&`, with the error that character produces. */
  lemma TokenizeFails(text: string)
    ensures var r := Tokenize(text);
      r.error.Some? ==>
        exists k :: 0 <= k < |text| &&
          ((!Lexable(text[k]) &&
             r.error.value == IllegalCharError(PosAt(text, k), PosAt(text, k), "Unexpected Char '" + [text[k]] + "'")) ||
           (text[k] in "|&" && CharAt(text, k + 1) != Some(text[k]) &&
             r.error.value == ExpectedCharError(PosAt(text, k), PosAt(text, k + 1), "\"'" + [text[k]] + "'\"")))
  {
    LexLoopFails(text, 0, []);
    var r := Tokenize(text);
    if r.error.Some? {
      var k :| 0 <= k < |text| && StepAt(text, k).Fail? && r.error.value == StepAt(text, k).error;
      StepFails(text, k);
    }
  }

  /** A whole successful run of the lexer: tokens end with exactly one EndOfFile. */
  lemma TokenizeShape(text: string)
    ensures var r := Tokenize(text);
      (r.error.Some? ==> r.tokens == []) &&
      (r.error.None? ==> |r.tokens| > 0 && r.tokens[|r.tokens| - 1].kind == EndOfFile &&
                         NoEndOfFile(r.tokens[..|r.tokens| - 1]))
  {
    LexLoopShape(text, 0, []);
  }

  /** A single-character token of `text`: it stands on a character whose kind it has, and
      spans from the cursor on that character to the cursor one step later. */
  predicate OneCharToken(text: string, t: Tok)
  {
    var i := t.posStart.idx;
    0 <= i < |text| && Punctuation(text[i]) == Some(t.kind) &&
    t.posStart == PosAt(text, i) && t.posEnd == PosAt(text, i + 1)
  }

  /** Only the punctuation branch of a turn emits a token of a punctuation kind, and that
      token spans exactly the character the turn stands on. */
  lemma StepPunctuation(text: string, i: nat)
    requires i < |text|
    ensures var s := StepAt(text, i);
      s.Emit? && s.token.kind in PunctuationKinds ==> OneCharToken(text, s.token) && s.token.posStart.idx == i
  {
    var c := text[i];
    if c in Ignore || IsDigit(c) || c == '"' || c in OperatorStarts {
    } else if IsIdentChar(c) {
      WordKind(text, i);
    } else if Punctuation(c).Some? {
      PunctuationStep(text, i);
    }
  }

  /** A word is never a single-character token. */
  lemma WordKind(text: string, i: nat)
    requires i < |text| && IsIdentChar(text[i])
    ensures WordToken(text, i).0.kind !in PunctuationKinds
  {
    var (id, stop) := ScanWord(text, i, "");
    assert WordToken(text, i).0.kind == ClassifyWord(id).0;
  }

  /** The token the punctuation branch pushes ends where the cursor is one step later: the
      character it leaves is not a line break. */
  lemma PunctuationStep(text: string, i: nat)
    requires i < |text| && Punctuation(text[i]).Some?
    ensures OneCharToken(text, NewToken(Punctuation(text[i]).value, NoValue, PosAt(text, i), None))
  {
    assert CharAt(text, i) == Some(text[i]) && !IsLineBreak(Some(text[i]));
  }

  predicate PunctuationSpans(text: string, ts: seq<Tok>)
  {
    forall k :: 0 <= k < |ts| && ts[k].kind in PunctuationKinds ==> OneCharToken(text, ts[k])
  }

  lemma {:induction false} LexLoopPunctuation(text: string, i: nat, tokens: seq<Tok>)
    requires PunctuationSpans(text, tokens)
    ensures PunctuationSpans(text, LexLoop(text, i, tokens).tokens)
    decreases |text| - i
  {
    if i < |text| {
      StepPunctuation(text, i);
      match StepAt(text, i)
      case Skip(next) => LexLoopPunctuation(text, next, tokens);
      case Emit(t, next) =>
        var more := tokens + [t];
        assert PunctuationSpans(text, more) by {
          forall k | 0 <= k < |more| && more[k].kind in PunctuationKinds
            ensures OneCharToken(text, more[k])
          {
            if k < |tokens| { assert more[k] == tokens[k]; }
          }
        }
        LexLoopPunctuation(text, next, more);
      case Fail(e) =>
    }
  }

  /** Every `(`, `)`, `{`, `}`, `[`, `]`, `+`, `-`, `*`, `/`, `;` and `,` token the lexer
      returns spans exactly one character of the text, the one it was made from. */
  lemma PunctuationTokens(text: string)
    ensures PunctuationSpans(text, Tokenize(text).tokens)
  {
    LexLoopPunctuation(text, 0, []);
  }

  // ---------------------------------------------------------------- the class

  /** The scanner object: `pos` is the cursor, `lastPos` a copy of it before the last
      advance (the one step of pushback), `currentChar` the character under the cursor
      as of the last advance. */
  class Lexer {
    const fileName: string
    const fileText: string
    var pos: Position
    var lastPos: Position
    var currentChar: Option<char>

    /** Both cursors are distinct objects, each sitting where advancing from the origin
        over the text would put it. */
    ghost predicate Valid()
      reads this, pos, lastPos
    {
      pos != lastPos && pos.idx >= -1 && lastPos.idx >= -1 &&
      pos.Value() == PosAt(fileText, pos.idx) && lastPos.Value() == PosAt(fileText, lastPos.idx)
    }

    /** `currentChar` is the character under the cursor (false right after `reverse`). */
    ghost predicate Synced()
      reads this, pos
    {
      currentChar == CharAt(fileText, pos.idx)
    }

    constructor (fileName: string, fileText: string)
      ensures this.fileName == fileName && this.fileText == fileText
      ensures Valid() && Synced() && pos.idx == 0
      ensures fresh(pos) && fresh(lastPos)
    {
      this.fileName := fileName;
      this.fileText := fileText;
      pos := new Position(-1, 0, -1);
      lastPos := new Position(-1, 0, -1);
      currentChar := None;
      new;
      Advance();
    }

    /** Saves a copy of the cursor, then moves it one character right. */
    method Advance()
      requires Valid()
      modifies this, pos
      ensures Valid() && Synced()
      ensures pos == old(pos) && fresh(lastPos)
      ensures pos.idx == old(pos.idx) + 1 && lastPos.Value() == old(pos.Value())
    {
      lastPos := pos.Copy();
      pos.Advance(CharAt(fileText, pos.idx));
      if pos.idx < |fileText| {
        currentChar := Some(fileText[pos.idx]);
      } else {
        currentChar := None;
      }
    }

    /** Restores the cursor to (a copy of) the saved one; `currentChar` is left as is. */
    method Reverse()
      requires Valid()
      modifies this
      ensures Valid() && fresh(pos)
      ensures lastPos == old(lastPos) && pos.Value() == lastPos.Value()
      ensures currentChar == old(currentChar)
    {
      pos := lastPos.Copy();
    }

    method MakeNumber() returns (t: Tok)
      requires Valid() && Synced() && 0 <= pos.idx < |fileText| && IsDigit(fileText[pos.idx])
      modifies this, pos
      ensures Valid() && fresh(pos)
      ensures (t, pos.idx) == NumberToken(fileText, old(pos.idx))
    {
      var numStr := "";
      var dotCount := 0;
      var posStart := pos.Value();
      ghost var i: nat := pos.idx;
      while currentChar.Some? && (IsDigit(currentChar.value) || currentChar.value == '.')
        invariant Valid() && Synced() && pos == old(pos)
        invariant i <= pos.idx <= |fileText|
        invariant pos.idx > i ==> lastPos.idx == pos.idx - 1
        invariant ScanNumber(fileText, pos.idx, numStr, dotCount) == ScanNumber(fileText, i, "", 0)
        decreases |fileText| - pos.idx
      {
        assert fileText[pos.idx] == currentChar.value;
        if currentChar.value == '.' {
          if dotCount == 1 {
            break;
          }
          dotCount := dotCount + 1;
          numStr := numStr + ".";
        } else {
          numStr := numStr + [currentChar.value];
        }
        Advance();
      }
      assert ScanNumber(fileText, pos.idx, numStr, dotCount) == (numStr, pos.idx);
      NumberScanned(fileText, i);
      assert ScanNumber(fileText, i, "", 0) == (numStr, pos.idx);
      Reverse();
      t := NewToken(Number, NumValue(NumeralValue(numStr)), posStart, Some(pos.Value()));
    }

    method MakeIdentifier() returns (t: Tok)
      requires Valid() && Synced() && 0 <= pos.idx < |fileText| && IsIdentChar(fileText[pos.idx])
      modifies this, pos
      ensures Valid() && (pos == old(pos) || fresh(pos))
      ensures (t, pos.idx) == WordToken(fileText, old(pos.idx))
    {
      var id := "";
      var posStart := pos.Value();
      ghost var i: nat := pos.idx;
      while currentChar.Some? && IsIdentChar(currentChar.value)
        invariant Valid() && Synced() && pos == old(pos)
        invariant i <= pos.idx <= |fileText|
        invariant pos.idx > i ==> lastPos.idx == pos.idx - 1
        invariant ScanWord(fileText, pos.idx, id) == ScanWord(fileText, i, "")
        decreases |fileText| - pos.idx
      {
        assert fileText[pos.idx] == currentChar.value;
        id := id + [currentChar.value];
        Advance();
      }
      assert ScanWord(fileText, i, "") == (id, pos.idx);
      ghost var stop := pos.idx;
      assert stop > i && posStart == PosAt(fileText, i);
      var kind: TokenType, value: TokenValue;
      if id in Types {
        kind, value := Type, StrValue(id);
      } else if id == "true" {
        kind, value := Boolean, BoolValue(true);
      } else if id == "false" {
        kind, value := Boolean, BoolValue(false);
      } else if id in Keywords {
        kind, value := Keyword, StrValue(id);
      } else {
        Reverse();
        kind, value := Identifier, StrValue(id);
      }
      assert (kind, value) == ClassifyWord(id);
      t := NewToken(kind, value, posStart, Some(pos.Value()));
    }

    method MakeString() returns (t: Tok)
      requires Valid() && Synced() && 0 <= pos.idx < |fileText| && fileText[pos.idx] == '"'
      modifies this, pos
      ensures Valid() && Synced() && pos == old(pos)
      ensures (t, pos.idx) == StringToken(fileText, old(pos.idx))
    {
      var value := "";
      var posStart := pos.Value();
      var escape := false;
      ghost var i: nat := pos.idx;
      Advance();
      while currentChar.Some? && (currentChar.value != '"' || escape)
        invariant Valid() && Synced() && pos == old(pos)
        invariant i < pos.idx <= |fileText|
        invariant ScanString(fileText, pos.idx, value, escape) == ScanString(fileText, i + 1, "", false)
        decreases |fileText| - pos.idx
      {
        if escape {
          value := value + [EscapedChar(currentChar.value)];
          escape := false;
        } else {
          if currentChar.value == '\\' {
            escape := true;
          } else {
            value := value + [currentChar.value];
          }
        }
        Advance();
      }
      t := NewToken(String, StrValue(value), posStart, Some(pos.Value()));
    }

    method MakeOperator() returns (token: Option<Tok>, error: Option<LexError>)
      requires Valid() && Synced() && 0 <= pos.idx < |fileText| && fileText[pos.idx] in OperatorStarts
      modifies this, pos
      ensures Valid() && (pos == old(pos) || fresh(pos))
      ensures match OperatorToken(fileText, old(pos.idx))
        case OperatorOk(t, at) => token == Some(t) && error.None? && pos.idx == at
        case OperatorError(e) => token.None? && error == Some(e)
    {
      var posStart := pos.Value();
      var c := currentChar.value;
      Advance();
      if c == '|' || c == '&' {
        if currentChar == Some(c) {
          token, error := Some(NewToken(if c == '|' then Or else And, NoValue, posStart, Some(pos.Value()))), None;
        } else {
          token := None;
          error := Some(ExpectedCharError(posStart, pos.Value(), if c == '|' then "\"'|'\"" else "\"'&'\""));
        }
        return;
      }
      var (single, double) := PairedKinds(c);
      if currentChar == Some('=') {
        token, error := Some(NewToken(double, NoValue, posStart, Some(pos.Value()))), None;
      } else {
        Reverse();
        token, error := Some(NewToken(single, NoValue, posStart, Some(pos.Value()))), None;
      }
    }

    /** One turn of the `makeTokens` loop on a non-blank character, up to (not including)
        its final advance: the token it pushes, or the error it returns. */
    method ScanToken(ghost tokens: seq<Tok>) returns (token: Option<Tok>, error: Option<LexError>)
      requires Valid() && Synced() && 0 <= pos.idx < |fileText| && fileText[pos.idx] !in Ignore
      modifies this, pos
      ensures Valid() && (pos == old(pos) || fresh(pos))
      ensures token.Some? <==> error.None?
      ensures error.None? ==> old(pos.idx) <= pos.idx
      ensures LexTurn(fileText, old(pos.idx), tokens) ==
        if error.Some? then Lexed([], error) else LexLoop(fileText, pos.idx + 1, tokens + [token.value])
    {
      var c := currentChar.value;
      if IsDigit(c) {
        var t := MakeNumber();
        token := Some(t);
      } else if IsIdentChar(c) {
        var t := MakeIdentifier();
        token := Some(t);
      } else if c == '"' {
        var t := MakeString();
        token := Some(t);
      } else if c in OperatorStarts {
        token, error := MakeOperator();
        if error.Some? {
          token := None;
        }
        return;
      } else if Punctuation(c).Some? {
        token := Some(NewToken(Punctuation(c).value, NoValue, pos.Value(), None));
      } else {
        token := None;
        error := Some(IllegalCharError(pos.Value(), pos.Value(), "Unexpected Char '" + [c] + "'"));
        return;
      }
      error := None;
    }

    method MakeTokens() returns (r: Lexed)
      requires Valid() && Synced() && pos.idx >= 0
      modifies this, pos
      ensures r == LexLoop(fileText, old(pos.idx), [])
    {
      var tokens: seq<Tok> := [];
      ghost var start: nat := pos.idx;
      while currentChar.Some?
        invariant Valid() && Synced() && pos.idx >= 0
        invariant pos == old(pos) || fresh(pos)
        invariant LexLoop(fileText, pos.idx, tokens) == LexLoop(fileText, start, [])
        decreases |fileText| - pos.idx
      {
        if currentChar.value in Ignore {
          SkipTurn(fileText, pos.idx, tokens);
          Advance();
          continue;
        }
        var token, error := ScanToken(tokens);
        if error.Some? {
          return Lexed([], error);
        }
        tokens := tokens + [token.value];
        Advance();
      }
      tokens := tokens + [NewToken(EndOfFile, NoValue, pos.Value(), None)];
      r := Lexed(tokens, None);
    }
  }

  /** The lexer as the pipeline uses it: construct, then scan the whole text. */
  method Lex(fileName: string, fileText: string) returns (r: Lexed)
    ensures r == Tokenize(fileText)
  {
    var lexer := new Lexer(fileName, fileText);
    r := lexer.MakeTokens();
  }
}
