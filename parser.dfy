/** The recursive-descent parser of Parser.ts.

    The rules `ExprRule` ... `AtomRule` read a token sequence from an index and return
    the final `Outcome` with the index of the current token afterwards; together they
    define what the methods of the class `Parser`, which move a token cursor and fill
    `ParseResult` objects as the source does, compute. */
module Parser {
  import opened Common
  import opened Source
  import opened Lexer
  import opened ParseResults

  /** The AST. `ArrayNode` and `AccessIndexNode` are evaluated by the interpreter but no
      parser rule builds them; they carry their span explicitly. */
  datatype Node =
    | NumberNode(token: Tok)
    | StringNode(token: Tok)
    | BooleanNode(token: Tok)
    | VarAccessNode(varNameToken: Tok)
    | VarAssignNode(nameToken: Tok, typeToken: Tok, valueNode: Node)
    | BinOpNode(leftNode: Node, opToken: Tok, rightNode: Node)
    | UnaryOpNode(opToken: Tok, node: Node)
    | IfNode(condition: Node, expr: Node, elseExpr: Option<Node>)
    | ArrayNode(elementNodes: seq<Node>, arrayStart: Pos, arrayEnd: Pos)
    | AccessIndexNode(target: Node, index: Node, accessStart: Pos, accessEnd: Pos)

  /** The `posStart` each node constructor computes. */
  function PosStart(n: Node): Pos
  {
    match n
    case NumberNode(t) => t.posStart
    case StringNode(t) => t.posStart
    case BooleanNode(t) => t.posStart
    case VarAccessNode(t) => t.posStart
    case VarAssignNode(_, typeToken, _) => typeToken.posStart
    case BinOpNode(left, _, _) => PosStart(left)
    case UnaryOpNode(op, _) => op.posStart
    case IfNode(condition, _, _) => PosStart(condition)
    case ArrayNode(_, s, _) => s
    case AccessIndexNode(_, _, s, _) => s
  }

  /** The `posEnd` each node constructor computes. */
  function PosEnd(n: Node): Pos
  {
    match n
    case NumberNode(t) => t.posEnd
    case StringNode(t) => t.posEnd
    case BooleanNode(t) => t.posEnd
    case VarAccessNode(t) => t.posEnd
    case VarAssignNode(_, _, value) => PosEnd(value)
    case BinOpNode(_, _, right) => PosEnd(right)
    case UnaryOpNode(_, operand) => PosEnd(operand)
    case IfNode(_, expr, elseExpr) => if elseExpr.Some? then PosEnd(elseExpr.value) else PosEnd(expr)
    case ArrayNode(_, _, e) => e
    case AccessIndexNode(_, _, _, e) => e
  }

  // ---------------------------------------------------------------- operator lists

  /** An entry of a `binOp` operator list: a token type, or a `[type, value]` pair. */
  datatype OpSpec = OfKind(kind: TokenType) | OfKindValue(kind: TokenType, value: TokenValue)

  /** The four left-folded levels, loosest first, each with its operand rule. */
  datatype Chain = LogicChain | ComparisonChain | SumChain | ProductChain

  function ChainOps(chain: Chain): seq<OpSpec>
  {
    match chain
    case LogicChain => [OfKind(And), OfKind(Or)]
    case ComparisonChain => [OfKind(EE), OfKind(NE), OfKind(GT), OfKind(GTE), OfKind(LT), OfKind(LTE)]
    case SumChain => [OfKind(Plus), OfKind(Minus)]
    case ProductChain => [OfKind(Multiply), OfKind(Divide)]
  }

  /** `CheckArray`: some pair entry has this type and value. */
  predicate PairListed(ops: seq<OpSpec>, kind: TokenType, value: TokenValue)
  {
    exists t :: 0 <= t < |ops| && ops[t] == OfKindValue(kind, value)
  }

  /** The `binOp` loop test: the type is listed, or the `[type, value]` pair is. */
  predicate IsOperator(ops: seq<OpSpec>, tok: Tok)
  {
    OfKind(tok.kind) in ops || PairListed(ops, tok.kind, tok.value)
  }

  /** The lists the grammar passes hold plain types only, so a token is an operator of a
      level exactly when its type is one of that level's. */
  lemma ChainOperators(chain: Chain, tok: Tok)
    ensures IsOperator(ChainOps(chain), tok) <==>
      match chain
      case LogicChain => tok.kind in {And, Or}
      case ComparisonChain => tok.kind in {EE, NE, GT, GTE, LT, LTE}
      case SumChain => tok.kind in {Plus, Minus}
      case ProductChain => tok.kind in {Multiply, Divide}
  {
  }

  /** The `CheckArray` loop. */
  method CheckArray(arr: seq<OpSpec>, kind: TokenType, value: TokenValue) returns (found: bool)
    ensures found <==> PairListed(arr, kind, value)
  {
    for t := 0 to |arr|
      invariant forall u :: 0 <= u < t ==> arr[u] != OfKindValue(kind, value)
    {
      if arr[t].OfKindValue? && arr[t].kind == kind && arr[t].value == value {
        return true;
      }
    }
    return false;
  }

  // ---------------------------------------------------------------- the rules

  /** What the parser demands of its tokens: a non-empty list ending with EndOfFile (the
      lexer's output on success). */
  predicate WellFormed(toks: seq<Tok>)
  {
    |toks| > 0 && toks[|toks| - 1].kind == EndOfFile
  }

  /** A rule's result and the index of the current token after it. */
  datatype Parsed = Parsed(res: Outcome<Node>, next: nat)

  /** Every rule moves forward and stays on a token; its count is exactly the number of
      tokens it consumed; without an error it has a node. */
  predicate Accounted(toks: seq<Tok>, i: nat, r: Parsed)
  {
    i <= r.next < |toks| && r.res.advanceCount == r.next - i &&
    (r.res.error.None? ==> r.res.node.Some?)
  }

  /** Ranks that order the mutually recursive rules at one token index. */
  function ChainRank(chain: Chain): nat
  {
    match chain
    case ProductChain => 3
    case SumChain => 7
    case ComparisonChain => 11
    case LogicChain => 15
  }

  /** `parse()` from the token at `i`. */
  function ParseRule(toks: seq<Tok>, i: nat): (r: Parsed)
    requires WellFormed(toks) && i < |toks|
    ensures Accounted(toks, i, r)
  {
    var e := ExprRule(toks, i);
    if e.res.error.None? && toks[e.next].kind != EndOfFile then
      Parsed(Failed(e.res, SyntaxAt(toks[e.next], "Unexpected EOF")), e.next)
    else e
  }

  /** `expr()`: a braced expression, a typed declaration, or a logic chain. */
  function ExprRule(toks: seq<Tok>, i: nat): (r: Parsed)
    requires WellFormed(toks) && i < |toks|
    ensures Accounted(toks, i, r)
    decreases |toks| - i, ChainRank(LogicChain) + 3
  {
    if toks[i].kind == LBrace then BraceRule(toks, i)
    else if toks[i].kind == Type then DeclarationRule(toks, i)
    else
      var chain := BinOpRule(LogicChain, toks, i);
      var res := Registered(Empty(), chain.res);
      if res.error.Some? then Parsed(res, chain.next)
      else Parsed(Succeeded(res, chain.res.node.value), chain.next)
  }

  /** The `{ expr }` branch of `expr()`. */
  function BraceRule(toks: seq<Tok>, i: nat): (r: Parsed)
    requires WellFormed(toks) && i < |toks| && toks[i].kind == LBrace
    ensures Accounted(toks, i, r)
    decreases |toks| - i, 0
  {
    var res := Advanced(Empty());
    var inner := ExprRule(toks, i + 1);
    var res := Registered(res, inner.res);
    if res.error.Some? then Parsed(res, inner.next)
    else if toks[inner.next].kind != RBrace then
      Parsed(Failed(res, SyntaxAt(toks[inner.next], "Expected '}'")), inner.next)
    else Parsed(Succeeded(Advanced(res), inner.res.node.value), inner.next + 1)
  }

  /** The `type name = expr` branch of `expr()`. */
  function DeclarationRule(toks: seq<Tok>, i: nat): (r: Parsed)
    requires WellFormed(toks) && i < |toks| && toks[i].kind == Type
    ensures Accounted(toks, i, r)
    decreases |toks| - i, 0
  {
    var res := Advanced(Empty());
    if toks[i + 1].kind != Identifier then Parsed(Failed(res, SyntaxAt(toks[i + 1], "Expected Identifier")), i + 1)
    else
      var res := Advanced(res);
      if toks[i + 2].kind != Equals then Parsed(Failed(res, SyntaxAt(toks[i + 2], "Expected '='")), i + 2)
      else
        var res := Advanced(res);
        var value := ExprRule(toks, i + 3);
        var res := Registered(res, value.res);
        if res.error.Some? then Parsed(res, value.next)
        else Parsed(Succeeded(res, VarAssignNode(toks[i + 1], toks[i], value.res.node.value)), value.next)
  }

  /** `compExpr()`: a negation, a parenthesised expression, or a comparison chain; a
      failed chain is relabelled "compExpr()" (which only shows when nothing was consumed). */
  function CompExprRule(toks: seq<Tok>, i: nat): (r: Parsed)
    requires WellFormed(toks) && i < |toks|
    ensures Accounted(toks, i, r)
    decreases |toks| - i, ChainRank(ComparisonChain) + 3
  {
    if toks[i].kind == Not then NotRule(toks, i)
    else if toks[i].kind == LParen then ParenRule(toks, i)
    else
      var chain := BinOpRule(ComparisonChain, toks, i);
      var res := Registered(Empty(), chain.res);
      if res.error.Some? then Parsed(Failed(res, SyntaxAt(toks[chain.next], "compExpr()")), chain.next)
      else Parsed(Succeeded(res, chain.res.node.value), chain.next)
  }

  /** The `not` branch of `compExpr()`. */
  function NotRule(toks: seq<Tok>, i: nat): (r: Parsed)
    requires WellFormed(toks) && i < |toks| && toks[i].kind == Not
    ensures Accounted(toks, i, r)
    decreases |toks| - i, 0
  {
    var res := Advanced(Empty());
    var inner := CompExprRule(toks, i + 1);
    var res := Registered(res, inner.res);
    if res.error.Some? then Parsed(res, inner.next)
    else Parsed(Succeeded(res, UnaryOpNode(toks[i], inner.res.node.value)), inner.next)
  }

  /** The `(` branch of `compExpr()`: the inner expression, with no `)` consumed. */
  function ParenRule(toks: seq<Tok>, i: nat): (r: Parsed)
    requires WellFormed(toks) && i < |toks| && toks[i].kind == LParen
    ensures Accounted(toks, i, r)
    decreases |toks| - i, 0
  {
    var res := Advanced(Empty());
    var inner := ExprRule(toks, i + 1);
    var res := Registered(res, inner.res);
    if res.error.Some? then Parsed(res, inner.next)
    else Parsed(Succeeded(res, inner.res.node.value), inner.next)
  }

  function ArithExprRule(toks: seq<Tok>, i: nat): (r: Parsed)
    requires WellFormed(toks) && i < |toks|
    ensures Accounted(toks, i, r)
    decreases |toks| - i, ChainRank(SumChain) + 3
  {
    BinOpRule(SumChain, toks, i)
  }

  function TermRule(toks: seq<Tok>, i: nat): (r: Parsed)
    requires WellFormed(toks) && i < |toks|
    ensures Accounted(toks, i, r)
    decreases |toks| - i, ChainRank(ProductChain) + 3
  {
    BinOpRule(ProductChain, toks, i)
  }

  function FactorRule(toks: seq<Tok>, i: nat): (r: Parsed)
    requires WellFormed(toks) && i < |toks|
    ensures Accounted(toks, i, r)
    decreases |toks| - i, 2
  {
    var t := toks[i];
    if t.kind == Plus || t.kind == Minus then
      var res := Advanced(Empty());
      var inner := FactorRule(toks, i + 1);
      var res := Registered(res, inner.res);
      if res.error.Some? then Parsed(res, inner.next)
      else Parsed(Succeeded(res, UnaryOpNode(t, inner.res.node.value)), inner.next)
    else AtomRule(toks, i)
  }

  function AtomRule(toks: seq<Tok>, i: nat): (r: Parsed)
    requires WellFormed(toks) && i < |toks|
    ensures Accounted(toks, i, r)
    decreases |toks| - i, 1
  {
    var t := toks[i];
    if t.kind == Number then Parsed(Succeeded(Advanced(Empty()), NumberNode(t)), i + 1)
    else if t.kind == String then Parsed(Succeeded(Advanced(Empty()), StringNode(t)), i + 1)
    else if t.kind == Boolean then Parsed(Succeeded(Advanced(Empty()), BooleanNode(t)), i + 1)
    else if t.kind == Identifier then Parsed(Succeeded(Advanced(Empty()), VarAccessNode(t)), i + 1)
    else if Matches(t, Keyword, IfWord) then
      var inner := IfExprRule(toks, i);
      var res := Registered(Empty(), inner.res);
      if res.error.Some? then Parsed(res, inner.next)
      else Parsed(Succeeded(res, inner.res.node.value), inner.next)
    else Parsed(Failed(Empty(), SyntaxAt(t, "Expected number, string, or boolean")), i)
  }

  const IfWord: TokenValue := StrValue("if")
  const ElseWord: TokenValue := StrValue("else")

  /** `ifExpr()`, entered on the `if` keyword. */
  function IfExprRule(toks: seq<Tok>, i: nat): (r: Parsed)
    requires WellFormed(toks) && i < |toks| && Matches(toks[i], Keyword, IfWord)
    ensures Accounted(toks, i, r)
    decreases |toks| - i, 0
  {
    var res := Advanced(Empty());
    if toks[i + 1].kind != LParen then Parsed(Failed(res, SyntaxAt(toks[i + 1], "Expected '('")), i + 1)
    else
      var res := Advanced(res);
      var cond := ExprRule(toks, i + 2);
      var res := Registered(res, cond.res);
      if res.error.Some? then Parsed(res, cond.next)
      else IfBranchesRule(toks, cond.next, res, cond.res.node.value)
  }

  /** The rest of `ifExpr()` once the condition is parsed: `)` and the branch. */
  function IfBranchesRule(toks: seq<Tok>, j: nat, res: Outcome<Node>, condition: Node): (r: Parsed)
    requires WellFormed(toks) && j < |toks| && res.error.None?
    ensures j <= r.next < |toks| && r.res.advanceCount == res.advanceCount + (r.next - j)
    ensures r.res.error.None? ==> r.res.node.Some?
    decreases |toks| - j, 0
  {
    if toks[j].kind != RParen then Parsed(Failed(res, SyntaxAt(toks[j], "Expected ')'")), j)
    else
      var res := Advanced(res);
      var body := ExprRule(toks, j + 1);
      var res := Registered(res, body.res);
      if res.error.Some? then Parsed(res, body.next)
      else ElseRule(toks, body.next, res, condition, body.res.node.value)
  }

  /** The end of `ifExpr()`: an optional `else` branch, then the IfNode. */
  function ElseRule(toks: seq<Tok>, k: nat, res: Outcome<Node>, condition: Node, expr: Node): (r: Parsed)
    requires WellFormed(toks) && k < |toks| && res.error.None?
    ensures k <= r.next < |toks| && r.res.advanceCount == res.advanceCount + (r.next - k)
    ensures r.res.error.None? ==> r.res.node.Some?
    decreases |toks| - k, 0
  {
    if Matches(toks[k], Keyword, ElseWord) then
      var res := Advanced(res);
      var alt := ExprRule(toks, k + 1);
      var res := Registered(res, alt.res);
      if res.error.Some? then Parsed(res, alt.next)
      else Parsed(Succeeded(res, IfNode(condition, expr, Some(alt.res.node.value))), alt.next)
    else Parsed(Succeeded(res, IfNode(condition, expr, None)), k)
  }

  /** The operand rule `binOp` is given for each level. */
  function OperandRule(chain: Chain, toks: seq<Tok>, i: nat): (r: Parsed)
    requires WellFormed(toks) && i < |toks|
    ensures Accounted(toks, i, r)
    decreases |toks| - i, ChainRank(chain)
  {
    match chain
    case LogicChain => CompExprRule(toks, i)
    case ComparisonChain => ArithExprRule(toks, i)
    case SumChain => TermRule(toks, i)
    case ProductChain => FactorRule(toks, i)
  }

  /** `binOp(operand, ops)`: an operand, then the loop. */
  function BinOpRule(chain: Chain, toks: seq<Tok>, i: nat): (r: Parsed)
    requires WellFormed(toks) && i < |toks|
    ensures Accounted(toks, i, r)
    decreases |toks| - i, ChainRank(chain) + 2
  {
    var first := OperandRule(chain, toks, i);
    var res := Registered(Empty(), first.res);
    if res.error.Some? then Parsed(res, first.next)
    else FoldRule(chain, toks, first.next, res, first.res.node.value)
  }

  /** The `binOp` loop with the current token at `j`, the result `res` so far and the
      tree `left` folded so far. */
  function FoldRule(chain: Chain, toks: seq<Tok>, j: nat, res: Outcome<Node>, left: Node): (r: Parsed)
    requires WellFormed(toks) && j < |toks|
    ensures j <= r.next < |toks| && r.res.advanceCount == res.advanceCount + (r.next - j)
    ensures res.error.None? && r.res.error.None? ==> r.res.node.Some?
    decreases |toks| - j, ChainRank(chain) + 1
  {
    if IsOperator(ChainOps(chain), toks[j]) then
      var opTok := toks[j];
      var res := Advanced(res);
      var right := OperandRule(chain, toks, j + 1);
      var res := Registered(res, right.res);
      if res.error.Some? then Parsed(res, right.next)
      else FoldRule(chain, toks, right.next, res, BinOpNode(left, opTok, right.res.node.value))
    else Parsed(Succeeded(res, left), j)
  }

  /** What `new Parser(fileText, tokens).parse()` returns. */
  function Parse(toks: seq<Tok>): Outcome<Node>
    requires WellFormed(toks)
  {
    ParseRule(toks, 0).res
  }

  // ---------------------------------------------------------------- the class

  /** The parser object: the tokens, the cursor `tokenIdx` and the token under it. */
  class Parser {
    const fileText: string
    const tokens: seq<Tok>
    var tokenIdx: int
    var currentToken: Tok

    ghost predicate Valid()
      reads this
    {
      WellFormed(tokens) && 0 <= tokenIdx < |tokens| && currentToken == tokens[tokenIdx]
    }

    constructor (fileText: string, tokens: seq<Tok>)
      requires WellFormed(tokens)
      ensures this.fileText == fileText && this.tokens == tokens
      ensures Valid() && tokenIdx == 0
    {
      this.fileText := fileText;
      this.tokens := tokens;
      tokenIdx := -1;
      currentToken := tokens[0];
      new;
      Advance();
    }

    /** Moves the cursor one token right; past the end the current token stays the last. */
    method Advance()
      modifies this
      ensures tokenIdx == old(tokenIdx) + 1
      ensures currentToken == if 0 <= tokenIdx < |tokens| then tokens[tokenIdx] else old(currentToken)
    {
      tokenIdx := tokenIdx + 1;
      if 0 <= tokenIdx < |tokens| {
        currentToken := tokens[tokenIdx];
      }
    }

    method Parse() returns (res: ParseResult<Node>)
      requires Valid()
      modifies this
      ensures Valid() && fresh(res)
      ensures Parsed(res.Value(), tokenIdx) == ParseRule(tokens, old(tokenIdx))
    {
      res := Expr();
      if res.error.None? && currentToken.kind != EndOfFile {
        res.Failure(SyntaxAt(currentToken, "Unexpected EOF"));
      }
    }

    method Expr() returns (res: ParseResult<Node>)
      requires Valid()
      modifies this
      ensures Valid() && fresh(res)
      ensures Parsed(res.Value(), tokenIdx) == ExprRule(tokens, old(tokenIdx))
      decreases |tokens| - tokenIdx, ChainRank(LogicChain) + 3
    {
      if currentToken.kind == LBrace {
        res := Brace();
        return;
      }
      if currentToken.kind == Type {
        res := Declaration();
        return;
      }
      res := new ParseResult();
      var sub := BinOp(LogicChain);
      var node := res.Register(sub);
      if res.error.Some? {
        return;
      }
      res.Success(node.value);
    }

    method Brace() returns (res: ParseResult<Node>)
      requires Valid() && currentToken.kind == LBrace
      modifies this
      ensures Valid() && fresh(res)
      ensures Parsed(res.Value(), tokenIdx) == BraceRule(tokens, old(tokenIdx))
      decreases |tokens| - tokenIdx, 0
    {
      ghost var i := tokenIdx;
      res := new ParseResult();
      res.RegisterAdvancement();
      Advance();
      assert tokenIdx == i + 1 && res.Value() == Advanced(Empty());
      var sub := Expr();
      ghost var inner := ExprRule(tokens, i + 1);
      assert sub.Value() == inner.res && tokenIdx == inner.next;
      var expr := res.Register(sub);
      assert res.Value() == Registered(Advanced(Empty()), inner.res);
      if res.error.Some? {
        return;
      }
      assert currentToken == tokens[inner.next];
      if currentToken.kind != RBrace {
        res.Failure(SyntaxAt(currentToken, "Expected '}'"));
        return;
      }
      res.RegisterAdvancement();
      Advance();
      res.Success(expr.value);
    }

    method Declaration() returns (res: ParseResult<Node>)
      requires Valid() && currentToken.kind == Type
      modifies this
      ensures Valid() && fresh(res)
      ensures Parsed(res.Value(), tokenIdx) == DeclarationRule(tokens, old(tokenIdx))
      decreases |tokens| - tokenIdx, 0
    {
      ghost var i := tokenIdx;
      res := new ParseResult();
      var typeToken := currentToken;
      res.RegisterAdvancement();
      Advance();
      assert tokenIdx == i + 1 && currentToken == tokens[i + 1];
      if currentToken.kind != Identifier {
        res.Failure(SyntaxAt(currentToken, "Expected Identifier"));
        return;
      }
      var varNameToken := currentToken;
      res.RegisterAdvancement();
      Advance();
      assert tokenIdx == i + 2 && currentToken == tokens[i + 2];
      if currentToken.kind != Equals {
        res.Failure(SyntaxAt(currentToken, "Expected '='"));
        return;
      }
      res.RegisterAdvancement();
      Advance();
      assert res.Value() == Advanced(Advanced(Advanced(Empty())));
      var sub := Expr();
      var expr := res.Register(sub);
      if res.error.Some? {
        return;
      }
      res.Success(VarAssignNode(varNameToken, typeToken, expr.value));
    }

    method CompExpr() returns (res: ParseResult<Node>)
      requires Valid()
      modifies this
      ensures Valid() && fresh(res)
      ensures Parsed(res.Value(), tokenIdx) == CompExprRule(tokens, old(tokenIdx))
      decreases |tokens| - tokenIdx, ChainRank(ComparisonChain) + 3
    {
      if currentToken.kind == Not {
        res := Negation();
        return;
      } else if currentToken.kind == LParen {
        res := Parenthesised();
        return;
      }
      res := new ParseResult();
      var sub := BinOp(ComparisonChain);
      var node := res.Register(sub);
      if res.error.Some? {
        res.Failure(SyntaxAt(currentToken, "compExpr()"));
        return;
      }
      res.Success(node.value);
    }

    method Negation() returns (res: ParseResult<Node>)
      requires Valid() && currentToken.kind == Not
      modifies this
      ensures Valid() && fresh(res)
      ensures Parsed(res.Value(), tokenIdx) == NotRule(tokens, old(tokenIdx))
      decreases |tokens| - tokenIdx, 0
    {
      res := new ParseResult();
      var opToken := currentToken;
      res.RegisterAdvancement();
      Advance();
      var sub := CompExpr();
      var node := res.Register(sub);
      if res.error.Some? {
        return;
      }
      res.Success(UnaryOpNode(opToken, node.value));
    }

    method Parenthesised() returns (res: ParseResult<Node>)
      requires Valid() && currentToken.kind == LParen
      modifies this
      ensures Valid() && fresh(res)
      ensures Parsed(res.Value(), tokenIdx) == ParenRule(tokens, old(tokenIdx))
      decreases |tokens| - tokenIdx, 0
    {
      res := new ParseResult();
      res.RegisterAdvancement();
      Advance();
      var sub := Expr();
      var expr := res.Register(sub);
      if res.error.Some? {
        return;
      }
      res.Success(expr.value);
    }

    method ArithExpr() returns (res: ParseResult<Node>)
      requires Valid()
      modifies this
      ensures Valid() && fresh(res)
      ensures Parsed(res.Value(), tokenIdx) == ArithExprRule(tokens, old(tokenIdx))
      decreases |tokens| - tokenIdx, ChainRank(SumChain) + 3
    {
      res := BinOp(SumChain);
    }

    method Term() returns (res: ParseResult<Node>)
      requires Valid()
      modifies this
      ensures Valid() && fresh(res)
      ensures Parsed(res.Value(), tokenIdx) == TermRule(tokens, old(tokenIdx))
      decreases |tokens| - tokenIdx, ChainRank(ProductChain) + 3
    {
      res := BinOp(ProductChain);
    }

    method Factor() returns (res: ParseResult<Node>)
      requires Valid()
      modifies this
      ensures Valid() && fresh(res)
      ensures Parsed(res.Value(), tokenIdx) == FactorRule(tokens, old(tokenIdx))
      decreases |tokens| - tokenIdx, 2
    {
      ghost var i := tokenIdx;
      var token := currentToken;
      if token.kind == Plus || token.kind == Minus {
        res := new ParseResult();
        res.RegisterAdvancement();
        Advance();
        assert tokenIdx == i + 1 && res.Value() == Advanced(Empty());
        var sub := Factor();
        ghost var inner := FactorRule(tokens, i + 1);
        assert sub.Value() == inner.res && tokenIdx == inner.next;
        var factor := res.Register(sub);
        assert res.Value() == Registered(Advanced(Empty()), inner.res);
        if res.error.Some? {
          return;
        }
        assert factor == inner.res.node;
        res.Success(UnaryOpNode(token, factor.value));
        assert res.Value() == Succeeded(Registered(Advanced(Empty()), inner.res), UnaryOpNode(tokens[i], inner.res.node.value));
        return;
      }
      res := Atom();
    }

    method Atom() returns (res: ParseResult<Node>)
      requires Valid()
      modifies this
      ensures Valid() && fresh(res)
      ensures Parsed(res.Value(), tokenIdx) == AtomRule(tokens, old(tokenIdx))
      decreases |tokens| - tokenIdx, 1
    {
      res := new ParseResult();
      var token := currentToken;
      if token.kind == Number {
        res.RegisterAdvancement();
        Advance();
        res.Success(NumberNode(token));
      } else if token.kind == String {
        res.RegisterAdvancement();
        Advance();
        res.Success(StringNode(token));
      } else if token.kind == Boolean {
        res.RegisterAdvancement();
        Advance();
        res.Success(BooleanNode(token));
      } else if token.kind == Identifier {
        res.RegisterAdvancement();
        Advance();
        res.Success(VarAccessNode(token));
      } else if Matches(token, Keyword, IfWord) {
        var sub := IfExpr();
        var ifExpr := res.Register(sub);
        if res.error.Some? {
          return;
        }
        res.Success(ifExpr.value);
      } else {
        res.Failure(SyntaxAt(currentToken, "Expected number, string, or boolean"));
      }
    }

    method IfExpr() returns (res: ParseResult<Node>)
      requires Valid() && Matches(currentToken, Keyword, IfWord)
      modifies this
      ensures Valid() && fresh(res)
      ensures Parsed(res.Value(), tokenIdx) == IfExprRule(tokens, old(tokenIdx))
      decreases |tokens| - tokenIdx, 0
    {
      res := new ParseResult();
      res.RegisterAdvancement();
      Advance();
      if currentToken.kind != LParen {
        res.Failure(SyntaxAt(currentToken, "Expected '('"));
        return;
      }
      res.RegisterAdvancement();
      Advance();
      var sub := Expr();
      var condition := res.Register(sub);
      if res.error.Some? {
        return;
      }
      IfBranches(res, condition.value);
    }

    /** The rest of `ifExpr()` once the condition is in `res`. */
    method IfBranches(res: ParseResult<Node>, condition: Node)
      requires Valid() && res.error.None?
      modifies this, res
      ensures Valid()
      ensures Parsed(res.Value(), tokenIdx) == IfBranchesRule(tokens, old(tokenIdx), old(res.Value()), condition)
      decreases |tokens| - tokenIdx, 0
    {
      if currentToken.kind != RParen {
        res.Failure(SyntaxAt(currentToken, "Expected ')'"));
        return;
      }
      res.RegisterAdvancement();
      Advance();
      var sub := Expr();
      var expr := res.Register(sub);
      if res.error.Some? {
        return;
      }
      ElseBranch(res, condition, expr.value);
    }

    /** The optional `else` and the IfNode. */
    method ElseBranch(res: ParseResult<Node>, condition: Node, expr: Node)
      requires Valid() && res.error.None?
      modifies this, res
      ensures Valid()
      ensures Parsed(res.Value(), tokenIdx) == ElseRule(tokens, old(tokenIdx), old(res.Value()), condition, expr)
      decreases |tokens| - tokenIdx, 0
    {
      var elseExpr: Option<Node> := None;
      if Matches(currentToken, Keyword, ElseWord) {
        res.RegisterAdvancement();
        Advance();
        var sub := Expr();
        elseExpr := res.Register(sub);
        if res.error.Some? {
          return;
        }
      }
      res.Success(IfNode(condition, expr, elseExpr));
    }

    /** The operand rule of a level (the function `binOp` is handed in the source). */
    method Operand(chain: Chain) returns (res: ParseResult<Node>)
      requires Valid()
      modifies this
      ensures Valid() && fresh(res)
      ensures Parsed(res.Value(), tokenIdx) == OperandRule(chain, tokens, old(tokenIdx))
      decreases |tokens| - tokenIdx, ChainRank(chain)
    {
      match chain
      case LogicChain => res := CompExpr();
      case ComparisonChain => res := ArithExpr();
      case SumChain => res := Term();
      case ProductChain => res := Factor();
    }

    /** One turn of the `binOp` loop: the operator, the right operand and the new tree. */
    method FoldStep(chain: Chain, res: ParseResult<Node>, left: Node) returns (folded: Option<Node>)
      requires Valid() && res.error.None? && IsOperator(ChainOps(chain), currentToken)
      modifies this, res
      ensures Valid() && old(tokenIdx) < tokenIdx
      ensures res.error.None? ==> folded.Some?
      ensures FoldRule(chain, tokens, old(tokenIdx), old(res.Value()), left) ==
        if res.error.Some? then Parsed(res.Value(), tokenIdx) else FoldRule(chain, tokens, tokenIdx, res.Value(), folded.value)
      decreases |tokens| - tokenIdx, ChainRank(chain) + 1
    {
      var opTok := currentToken;
      res.RegisterAdvancement();
      Advance();
      var sub := Operand(chain);
      var right := res.Register(sub);
      if res.error.Some? {
        return None;
      }
      folded := Some(BinOpNode(left, opTok, right.value));
    }

    method BinOp(chain: Chain) returns (res: ParseResult<Node>)
      requires Valid()
      modifies this
      ensures Valid() && fresh(res)
      ensures Parsed(res.Value(), tokenIdx) == BinOpRule(chain, tokens, old(tokenIdx))
      decreases |tokens| - tokenIdx, ChainRank(chain) + 2
    {
      ghost var i := tokenIdx;
      var ops := ChainOps(chain);
      res := new ParseResult();
      var sub := Operand(chain);
      var left := res.Register(sub);
      if res.error.Some? {
        return;
      }
      var listed := CheckArray(ops, currentToken.kind, currentToken.value);
      while OfKind(currentToken.kind) in ops || listed
        invariant Valid() && fresh(res) && i <= tokenIdx
        invariant res.error.None? && left.Some?
        invariant listed <==> PairListed(ops, currentToken.kind, currentToken.value)
        invariant FoldRule(chain, tokens, tokenIdx, res.Value(), left.value) == BinOpRule(chain, tokens, i)
        decreases |tokens| - tokenIdx
      {
        assert IsOperator(ops, currentToken);
        left := FoldStep(chain, res, left.value);
        if res.error.Some? {
          return;
        }
        listed := CheckArray(ops, currentToken.kind, currentToken.value);
      }
      res.Success(left.value);
    }
  }

  /** The parser as the pipeline uses it. */
  method ParseTokens(fileText: string, tokens: seq<Tok>) returns (r: Outcome<Node>)
    requires WellFormed(tokens)
    ensures r == Parse(tokens)
  {
    var parser := new Parser(fileText, tokens);
    var res := parser.Parse();
    r := res.Value();
  }
}
