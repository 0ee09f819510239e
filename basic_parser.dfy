/** The recursive-descent parser of Basic.ts.

    The grammar, loosest first: `expr` is `var NAME = expr` or a `literal`; `literal`
    folds `term`s over `+ -`, `term` folds `factor`s over `* /`; `factor` is a signed
    `factor` or a `power`; `power` is an `atom` followed by `^` and a `factor`; `atom` is a
    number, a name, or a parenthesised `expr`.

    The rules `ExprRule` ... `ParenRule` read a token sequence from an index and return the
    final `Outcome` with the index of the current token afterwards; they define what the
    methods of the class `Parser`, which move a token cursor and fill `ParseResult`
    objects as the source does, compute. */
module BasicParser {
  import opened Common
  import opened Source
  import opened BasicLexer
  import opened ParseResults

  /** The AST. */
  datatype Node =
    | NumberNode(token: Tok)
    | VarAccessNode(varNameToken: Tok)
    | VarAssignNode(varNameToken: Tok, valueNode: Node)
    | BinOpNode(leftNode: Node, opToken: Tok, rightNode: Node)
    | UnaryOpNode(opToken: Tok, node: Node)

  /** The `posStart` each node constructor computes. */
  function PosStart(n: Node): Pos
  {
    match n
    case NumberNode(t) => t.posStart
    case VarAccessNode(t) => t.posStart
    case VarAssignNode(name, _) => name.posStart
    case BinOpNode(left, _, _) => PosStart(left)
    case UnaryOpNode(op, _) => op.posStart
  }

  /** The `posEnd` each node constructor computes. */
  function PosEnd(n: Node): Pos
  {
    match n
    case NumberNode(t) => t.posEnd
    case VarAccessNode(t) => t.posEnd
    case VarAssignNode(_, value) => PosEnd(value)
    case BinOpNode(_, _, right) => PosEnd(right)
    case UnaryOpNode(_, operand) => PosEnd(operand)
  }

  // ---------------------------------------------------------------- levels

  /** The three loops that fold binary operators: `literal`, `term` and `power`. */
  datatype Level = SumLevel | ProductLevel | PowerLevel

  /** The token types each loop takes. */
  function LevelOps(level: Level): set<TokenType>
  {
    match level
    case SumLevel => {Plus, Minus}
    case ProductLevel => {Mul, Div}
    case PowerLevel => {Pow}
  }

  /** Ranks that order the mutually recursive rules at one token index. */
  function LevelRank(level: Level): nat
  {
    match level
    case PowerLevel => 3
    case ProductLevel => 8
    case SumLevel => 13
  }

  // ---------------------------------------------------------------- the rules

  /** What the parser demands of its tokens: a non-empty list ending with TT_EOF (the
      lexer's output on success). */
  predicate WellFormed(toks: seq<Tok>)
  {
    |toks| > 0 && toks[|toks| - 1].kind == EndOfFile
  }

  /** A rule's result and the index of the current token after it. */
  datatype Parsed = Parsed(res: Outcome<Node>, next: nat)

  /** Every rule moves forward and stays on a token; its count is exactly the number of
      tokens it consumed; without an error it has a node. */
  predicate Accounted(toks: seq<Tok>, i: nat, r: Parsed)
  {
    i <= r.next < |toks| && r.res.advanceCount == r.next - i &&
    (r.res.error.None? ==> r.res.node.Some?)
  }

  const VarWord: TokenValue := StrValue("var")

  const NoExpr := "Expected 'var', int, float, identifier, '+', '-' or '('"
  const NoAtom := "Expected int, float, identifier, '+', '-' or '('"
  const NoOperator := "Expected Operator ('+', '-', '*' or '/')"

  /** `parse()` from the token at `i`: an expression, which must end at TT_EOF. */
  function ParseRule(toks: seq<Tok>, i: nat): (r: Parsed)
    requires WellFormed(toks) && i < |toks|
    ensures Accounted(toks, i, r)
  {
    var e := ExprRule(toks, i);
    if e.res.error.None? && toks[e.next].kind != EndOfFile then
      Parsed(Failed(e.res, SyntaxAt(toks[e.next], NoOperator)), e.next)
    else e
  }

  /** `expr()`: a declaration, or a `literal` whose failure is relabelled (which only
      shows when nothing was consumed). */
  function ExprRule(toks: seq<Tok>, i: nat): (r: Parsed)
    requires WellFormed(toks) && i < |toks|
    ensures Accounted(toks, i, r)
    decreases |toks| - i, LevelRank(SumLevel) + 4
  {
    if Matches(toks[i], Keyword, VarWord) then VarRule(toks, i)
    else
      var lit := LevelRule(SumLevel, toks, i);
      var res := Registered(Empty(), lit.res);
      if res.error.Some? then Parsed(Failed(res, SyntaxAt(toks[lit.next], NoExpr)), lit.next)
      else Parsed(Succeeded(res, lit.res.node.value), lit.next)
  }

  /** The `var NAME = expr` branch of `expr()`. */
  function VarRule(toks: seq<Tok>, i: nat): (r: Parsed)
    requires WellFormed(toks) && i < |toks| && Matches(toks[i], Keyword, VarWord)
    ensures Accounted(toks, i, r)
    decreases |toks| - i, 0
  {
    var res := Advanced(Empty());
    if toks[i + 1].kind != Identifier then Parsed(Failed(res, SyntaxAt(toks[i + 1], "Expected Identifier")), i + 1)
    else
      var res := Advanced(res);
      if toks[i + 2].kind != Eq then Parsed(Failed(res, SyntaxAt(toks[i + 2], "Expected '='")), i + 2)
      else
        var res := Advanced(res);
        var value := ExprRule(toks, i + 3);
        var res := Registered(res, value.res);
        if res.error.Some? then Parsed(res, value.next)
        else Parsed(Succeeded(res, VarAssignNode(toks[i + 1], value.res.node.value)), value.next)
  }

  /** `literal()`, `term()` and `power()`: the first operand (a `term`, a `factor`, an
      `atom`), then the loop. */
  function LevelRule(level: Level, toks: seq<Tok>, i: nat): (r: Parsed)
    requires WellFormed(toks) && i < |toks|
    ensures Accounted(toks, i, r)
    decreases |toks| - i, LevelRank(level) + 2
  {
    var first := match level
      case SumLevel => LevelRule(ProductLevel, toks, i)
      case ProductLevel => FactorRule(toks, i)
      case PowerLevel => AtomRule(toks, i);
    var res := Registered(Empty(), first.res);
    if res.error.Some? then Parsed(res, first.next)
    else FoldRule(level, toks, first.next, res, first.res.node.value)
  }

  /** The loop of a level with the current token at `j`, the result `res` so far and the
      tree `left` folded so far. The right operand is a `term` for `literal`, and a
      `factor` for `term` and for `power`. */
  function FoldRule(level: Level, toks: seq<Tok>, j: nat, res: Outcome<Node>, left: Node): (r: Parsed)
    requires WellFormed(toks) && j < |toks|
    ensures j <= r.next < |toks| && r.res.advanceCount == res.advanceCount + (r.next - j)
    ensures res.error.None? && r.res.error.None? ==> r.res.node.Some?
    decreases |toks| - j, LevelRank(level) + 1
  {
    if toks[j].kind in LevelOps(level) then
      var opTok := toks[j];
      var res := Advanced(res);
      var right := if level == SumLevel then LevelRule(ProductLevel, toks, j + 1) else FactorRule(toks, j + 1);
      var res := Registered(res, right.res);
      if res.error.Some? then Parsed(res, right.next)
      else FoldRule(level, toks, right.next, res, BinOpNode(left, opTok, right.res.node.value))
    else Parsed(Succeeded(res, left), j)
  }

  /** `factor()`: a sign applied to a `factor`, or a `power`. */
  function FactorRule(toks: seq<Tok>, i: nat): (r: Parsed)
    requires WellFormed(toks) && i < |toks|
    ensures Accounted(toks, i, r)
    decreases |toks| - i, LevelRank(PowerLevel) + 3
  {
    var t := toks[i];
    if t.kind == Plus || t.kind == Minus then
      var res := Advanced(Empty());
      var inner := FactorRule(toks, i + 1);
      var res := Registered(res, inner.res);
      if res.error.Some? then Parsed(res, inner.next)
      else Parsed(Succeeded(res, UnaryOpNode(t, inner.res.node.value)), inner.next)
    else LevelRule(PowerLevel, toks, i)
  }

  /** `atom()`: a number, a name, or a parenthesised expression. */
  function AtomRule(toks: seq<Tok>, i: nat): (r: Parsed)
    requires WellFormed(toks) && i < |toks|
    ensures Accounted(toks, i, r)
    decreases |toks| - i, 1
  {
    var t := toks[i];
    if t.kind == Int || t.kind == Float then Parsed(Succeeded(Advanced(Empty()), NumberNode(t)), i + 1)
    else if t.kind == Identifier then Parsed(Succeeded(Advanced(Empty()), VarAccessNode(t)), i + 1)
    else if t.kind == LParen then ParenRule(toks, i)
    else Parsed(Failed(Empty(), SyntaxAt(t, NoAtom)), i)
  }

  /** The `(` branch of `atom()`: the inner expression, then a `)` that must be there. */
  function ParenRule(toks: seq<Tok>, i: nat): (r: Parsed)
    requires WellFormed(toks) && i < |toks| && toks[i].kind == LParen
    ensures Accounted(toks, i, r)
    decreases |toks| - i, 0
  {
    var res := Advanced(Empty());
    var inner := ExprRule(toks, i + 1);
    var res := Registered(res, inner.res);
    if res.error.Some? then Parsed(res, inner.next)
    else if toks[inner.next].kind == RParen then Parsed(Succeeded(Advanced(res), inner.res.node.value), inner.next + 1)
    else Parsed(Failed(res, SyntaxAt(toks[inner.next], "Expected ')'")), inner.next)
  }

  /** What `new Parser(tokens).parse()` returns. */
  function Parse(toks: seq<Tok>): Outcome<Node>
    requires WellFormed(toks)
  {
    ParseRule(toks, 0).res
  }

  // ---------------------------------------------------------------- the class

  /** The parser object: the tokens, the cursor `tokenIdx` and the token under it. */
  class Parser {
    const tokens: seq<Tok>
    var tokenIdx: int
    var currentToken: Tok

    ghost predicate Valid()
      reads this
    {
      WellFormed(tokens) && 0 <= tokenIdx < |tokens| && currentToken == tokens[tokenIdx]
    }

    constructor (tokens: seq<Tok>)
      requires WellFormed(tokens)
      ensures this.tokens == tokens
      ensures Valid() && tokenIdx == 0
    {
      this.tokens := tokens;
      tokenIdx := -1;
      currentToken := tokens[0];
      new;
      Advance();
    }

    /** Moves the cursor one token right; past the end the current token stays the last. */
    method Advance()
      modifies this
      ensures tokenIdx == old(tokenIdx) + 1
      ensures currentToken == if 0 <= tokenIdx < |tokens| then tokens[tokenIdx] else old(currentToken)
    {
      tokenIdx := tokenIdx + 1;
      if 0 <= tokenIdx < |tokens| {
        currentToken := tokens[tokenIdx];
      }
    }

    method Parse() returns (res: ParseResult<Node>)
      requires Valid()
      modifies this
      ensures Valid() && fresh(res)
      ensures Parsed(res.Value(), tokenIdx) == ParseRule(tokens, old(tokenIdx))
    {
      res := Expr();
      if res.error.None? && currentToken.kind != EndOfFile {
        res.Failure(SyntaxAt(currentToken, NoOperator));
      }
    }

    method Expr() returns (res: ParseResult<Node>)
      requires Valid()
      modifies this
      ensures Valid() && fresh(res)
      ensures Parsed(res.Value(), tokenIdx) == ExprRule(tokens, old(tokenIdx))
      decreases |tokens| - tokenIdx, LevelRank(SumLevel) + 4
    {
      if Matches(currentToken, Keyword, VarWord) {
        res := VarAssign();
        return;
      }
      res := new ParseResult();
      var sub := Literal();
      var node := res.Register(sub);
      if res.error.Some? {
        res.Failure(SyntaxAt(currentToken, NoExpr));
        return;
      }
      res.Success(node.value);
    }

    /** The `var` branch of `expr()`. */
    method VarAssign() returns (res: ParseResult<Node>)
      requires Valid() && Matches(currentToken, Keyword, VarWord)
      modifies this
      ensures Valid() && fresh(res)
      ensures Parsed(res.Value(), tokenIdx) == VarRule(tokens, old(tokenIdx))
      decreases |tokens| - tokenIdx, 0
    {
      res := new ParseResult();
      res.RegisterAdvancement();
      Advance();
      if currentToken.kind != Identifier {
        res.Failure(SyntaxAt(currentToken, "Expected Identifier"));
        return;
      }
      var name := currentToken;
      res.RegisterAdvancement();
      Advance();
      if currentToken.kind != Eq {
        res.Failure(SyntaxAt(currentToken, "Expected '='"));
        return;
      }
      res.RegisterAdvancement();
      Advance();
      var sub := Expr();
      var expr := res.Register(sub);
      if res.error.Some? {
        return;
      }
      res.Success(VarAssignNode(name, expr.value));
    }

    /** One turn of a level's loop: the operator, the right operand and the new tree. */
    method FoldStep(level: Level, res: ParseResult<Node>, left: Node) returns (folded: Option<Node>)
      requires Valid() && res.error.None? && currentToken.kind in LevelOps(level)
      modifies this, res
      ensures Valid() && old(tokenIdx) < tokenIdx
      ensures res.error.None? ==> folded.Some?
      ensures FoldRule(level, tokens, old(tokenIdx), old(res.Value()), left) ==
        if res.error.Some? then Parsed(res.Value(), tokenIdx) else FoldRule(level, tokens, tokenIdx, res.Value(), folded.value)
      decreases |tokens| - tokenIdx, LevelRank(level) + 1
    {
      var opTok := currentToken;
      res.RegisterAdvancement();
      Advance();
      var sub;
      if level == SumLevel {
        sub := Term();
      } else {
        sub := Factor();
      }
      var right := res.Register(sub);
      if res.error.Some? {
        return None;
      }
      folded := Some(BinOpNode(left, opTok, right.value));
    }

    method Literal() returns (res: ParseResult<Node>)
      requires Valid()
      modifies this
      ensures Valid() && fresh(res)
      ensures Parsed(res.Value(), tokenIdx) == LevelRule(SumLevel, tokens, old(tokenIdx))
      decreases |tokens| - tokenIdx, LevelRank(SumLevel) + 2
    {
      ghost var i := tokenIdx;
      res := new ParseResult();
      var sub := Term();
      var left := res.Register(sub);
      if res.error.Some? {
        return;
      }
      while currentToken.kind == Plus || currentToken.kind == Minus
        invariant Valid() && fresh(res) && i <= tokenIdx
        invariant res.error.None? && left.Some?
        invariant FoldRule(SumLevel, tokens, tokenIdx, res.Value(), left.value) == LevelRule(SumLevel, tokens, i)
        decreases |tokens| - tokenIdx
      {
        left := FoldStep(SumLevel, res, left.value);
        if res.error.Some? {
          return;
        }
      }
      res.Success(left.value);
    }

    method Term() returns (res: ParseResult<Node>)
      requires Valid()
      modifies this
      ensures Valid() && fresh(res)
      ensures Parsed(res.Value(), tokenIdx) == LevelRule(ProductLevel, tokens, old(tokenIdx))
      decreases |tokens| - tokenIdx, LevelRank(ProductLevel) + 2
    {
      ghost var i := tokenIdx;
      res := new ParseResult();
      var sub := Factor();
      var left := res.Register(sub);
      if res.error.Some? {
        return;
      }
      while currentToken.kind == Mul || currentToken.kind == Div
        invariant Valid() && fresh(res) && i <= tokenIdx
        invariant res.error.None? && left.Some?
        invariant FoldRule(ProductLevel, tokens, tokenIdx, res.Value(), left.value) == LevelRule(ProductLevel, tokens, i)
        decreases |tokens| - tokenIdx
      {
        left := FoldStep(ProductLevel, res, left.value);
        if res.error.Some? {
          return;
        }
      }
      res.Success(left.value);
    }

    method Power() returns (res: ParseResult<Node>)
      requires Valid()
      modifies this
      ensures Valid() && fresh(res)
      ensures Parsed(res.Value(), tokenIdx) == LevelRule(PowerLevel, tokens, old(tokenIdx))
      decreases |tokens| - tokenIdx, LevelRank(PowerLevel) + 2
    {
      ghost var i := tokenIdx;
      res := new ParseResult();
      var sub := Atom();
      var left := res.Register(sub);
      if res.error.Some? {
        return;
      }
      while currentToken.kind == Pow
        invariant Valid() && fresh(res) && i <= tokenIdx
        invariant res.error.None? && left.Some?
        invariant FoldRule(PowerLevel, tokens, tokenIdx, res.Value(), left.value) == LevelRule(PowerLevel, tokens, i)
        decreases |tokens| - tokenIdx
      {
        left := FoldStep(PowerLevel, res, left.value);
        if res.error.Some? {
          return;
        }
      }
      res.Success(left.value);
    }

    method Factor() returns (res: ParseResult<Node>)
      requires Valid()
      modifies this
      ensures Valid() && fresh(res)
      ensures Parsed(res.Value(), tokenIdx) == FactorRule(tokens, old(tokenIdx))
      decreases |tokens| - tokenIdx, LevelRank(PowerLevel) + 3
    {
      var token := currentToken;
      if token.kind == Plus || token.kind == Minus {
        res := new ParseResult();
        res.RegisterAdvancement();
        Advance();
        var sub := Factor();
        var factor := res.Register(sub);
        if res.error.Some? {
          return;
        }
        res.Success(UnaryOpNode(token, factor.value));
        return;
      }
      res := Power();
    }

    method Atom() returns (res: ParseResult<Node>)
      requires Valid()
      modifies this
      ensures Valid() && fresh(res)
      ensures Parsed(res.Value(), tokenIdx) == AtomRule(tokens, old(tokenIdx))
      decreases |tokens| - tokenIdx, 1
    {
      var token := currentToken;
      if token.kind == Int || token.kind == Float {
        res := new ParseResult();
        res.RegisterAdvancement();
        Advance();
        res.Success(NumberNode(token));
      } else if token.kind == Identifier {
        res := new ParseResult();
        res.RegisterAdvancement();
        Advance();
        res.Success(VarAccessNode(token));
      } else if token.kind == LParen {
        res := Parenthesised();
      } else {
        res := new ParseResult();
        res.Failure(SyntaxAt(currentToken, NoAtom));
      }
    }

    /** The `(` branch of `atom()`. */
    method Parenthesised() returns (res: ParseResult<Node>)
      requires Valid() && currentToken.kind == LParen
      modifies this
      ensures Valid() && fresh(res)
      ensures Parsed(res.Value(), tokenIdx) == ParenRule(tokens, old(tokenIdx))
      decreases |tokens| - tokenIdx, 0
    {
      res := new ParseResult();
      res.RegisterAdvancement();
      Advance();
      var sub := Expr();
      var expr := res.Register(sub);
      if res.error.Some? {
        return;
      }
      if currentToken.kind == RParen {
        res.RegisterAdvancement();
        Advance();
        res.Success(expr.value);
      } else {
        res.Failure(SyntaxAt(currentToken, "Expected ')'"));
      }
    }
  }

  /** The parser as `run` uses it. */
  method ParseTokens(tokens: seq<Tok>) returns (r: Outcome<Node>)
    requires WellFormed(tokens)
    ensures r == Parse(tokens)
  {
    var parser := new Parser(tokens);
    var res := parser.Parse();
    r := res.Value();
  }
}
