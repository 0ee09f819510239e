/** Laws of the grammar of Parser.ts, proved about the rule functions: how the levels nest
    (precedence and left associativity), how errors are chosen, and what the special forms
    build. */
module ParserLaws {
  import opened Common
  import opened Source
  import opened Lexer
  import opened ParseResults
  import opened Parser

  // ---------------------------------------------------------------- vocabulary

  /** Tokens `atom()` turns into a node on its own. */
  predicate IsLeaf(t: Tok)
  {
    t.kind in {Number, String, Boolean, Identifier}
  }

  function LeafNode(t: Tok): Node
    requires IsLeaf(t)
  {
    match t.kind
    case Number => NumberNode(t)
    case String => StringNode(t)
    case Boolean => BooleanNode(t)
    case Identifier => VarAccessNode(t)
  }

  /** The level whose `binOp` loop takes a token type, if any. */
  function Level(k: TokenType): Option<Chain>
  {
    if k in {And, Or} then Some(LogicChain)
    else if k in {EE, NE, GT, GTE, LT, LTE} then Some(ComparisonChain)
    else if k in {Plus, Minus} then Some(SumChain)
    else if k in {Multiply, Divide} then Some(ProductChain)
    else None
  }

  /** The level whose operands a level's `binOp` parses (none below the product level,
      whose operand is `factor()`). */
  function Tighter(chain: Chain): Option<Chain>
  {
    match chain
    case LogicChain => Some(ComparisonChain)
    case ComparisonChain => Some(SumChain)
    case SumChain => Some(ProductChain)
    case ProductChain => None
  }

  /** The token types some level in `lo .. hi` (by rank, `lo` excluded) takes. */
  predicate OperatorBetween(k: TokenType, lo: nat, hi: nat)
  {
    Level(k).Some? && lo < ChainRank(Level(k).value) <= hi
  }

  /** A rule that succeeded from `i` with node `n`, stopping at `j`. */
  function Ok(n: Node, i: nat, j: nat): Parsed
    requires i <= j
  {
    Parsed(Outcome(None, Some(n), j - i), j)
  }

  /** The operator lists of the grammar take exactly the types of their level. */
  lemma OperatorLevel(chain: Chain, t: Tok)
    ensures IsOperator(ChainOps(chain), t) <==> Level(t.kind) == Some(chain)
  {
    ChainOperators(chain, t);
  }

  // ---------------------------------------------------------------- building blocks

  /** `binOp`'s loop stops at a token that is not one of its operators. */
  lemma FoldStops(chain: Chain, toks: seq<Tok>, j: nat, res: Outcome<Node>, left: Node)
    requires WellFormed(toks) && j < |toks| && Level(toks[j].kind) != Some(chain)
    ensures FoldRule(chain, toks, j, res, left) == Parsed(Succeeded(res, left), j)
  {
    OperatorLevel(chain, toks[j]);
  }

  /** One turn of `binOp`'s loop that succeeds: the tree so far becomes the left child. */
  lemma FoldTakes(chain: Chain, toks: seq<Tok>, j: nat, k: int, left: Node, right: Node, stop: nat)
    requires WellFormed(toks) && j + 1 < |toks| && Level(toks[j].kind) == Some(chain)
    requires j + 1 <= stop && OperandRule(chain, toks, j + 1) == Ok(right, j + 1, stop)
    ensures FoldRule(chain, toks, j, Outcome(None, None, k), left) ==
            FoldRule(chain, toks, stop, Outcome(None, None, k + 1 + (stop - j - 1)), BinOpNode(left, toks[j], right))
  {
    OperatorLevel(chain, toks[j]);
  }

  /** A level's operand rule, from a token that is neither `not` nor `(`, is the next
      tighter level. */
  lemma OperandIsTighter(chain: Chain, toks: seq<Tok>, i: nat, n: Node, j: nat)
    requires WellFormed(toks) && i < |toks| && toks[i].kind !in {Not, LParen} && Tighter(chain).Some?
    requires i <= j && BinOpRule(Tighter(chain).value, toks, i) == Ok(n, i, j)
    ensures OperandRule(chain, toks, i) == Ok(n, i, j)
  {
    match chain
    case LogicChain =>
      assert CompExprRule(toks, i) == Ok(n, i, j);
    case ComparisonChain =>
    case SumChain =>
  }

  /** A level whose first operand is followed by none of its operators yields that operand. */
  lemma LevelOfOperand(chain: Chain, toks: seq<Tok>, i: nat, n: Node, j: nat)
    requires WellFormed(toks) && i <= j < |toks| && Level(toks[j].kind) != Some(chain)
    requires OperandRule(chain, toks, i) == Ok(n, i, j)
    ensures BinOpRule(chain, toks, i) == Ok(n, i, j)
  {
    FoldStops(chain, toks, j, Outcome(None, None, j - i), n);
  }

  /** A leaf followed by no operator of this level or a tighter one is parsed by the level
      as itself. */
  lemma {:induction false} Leaf(chain: Chain, toks: seq<Tok>, i: nat)
    requires WellFormed(toks) && i + 1 < |toks| && IsLeaf(toks[i])
    requires !OperatorBetween(toks[i + 1].kind, 0, ChainRank(chain))
    ensures BinOpRule(chain, toks, i) == Ok(LeafNode(toks[i]), i, i + 1)
    decreases ChainRank(chain)
  {
    var leaf := Ok(LeafNode(toks[i]), i, i + 1);
    if chain == ProductChain {
      assert FactorRule(toks, i) == AtomRule(toks, i);
    } else {
      Leaf(Tighter(chain).value, toks, i);
      OperandIsTighter(chain, toks, i, LeafNode(toks[i]), i + 1);
    }
    LevelOfOperand(chain, toks, i, LeafNode(toks[i]), i + 1);
  }

  /** A result of a level, followed by no operator of the looser levels up to `top`, is
      the result of every one of them, and of `expr()`. */
  lemma {:induction false} Lift(chain: Chain, top: Chain, toks: seq<Tok>, i: nat, n: Node, j: nat)
    requires WellFormed(toks) && i <= j < |toks| && toks[i].kind !in {Not, LParen, LBrace, Type}
    requires ChainRank(chain) <= ChainRank(top)
    requires !OperatorBetween(toks[j].kind, ChainRank(chain), ChainRank(top))
    requires BinOpRule(chain, toks, i) == Ok(n, i, j)
    ensures BinOpRule(top, toks, i) == Ok(n, i, j)
    decreases ChainRank(top) - ChainRank(chain)
  {
    if chain != top {
      var up := match chain
        case ProductChain => SumChain
        case SumChain => ComparisonChain
        case ComparisonChain => LogicChain
        case LogicChain => LogicChain;
      assert Tighter(up) == Some(chain);
      OperandIsTighter(up, toks, i, n, j);
      LevelOfOperand(up, toks, i, n, j);
      Lift(up, top, toks, i, n, j);
    }
  }

  lemma ExprOfLogic(toks: seq<Tok>, i: nat, n: Node, j: nat)
    requires WellFormed(toks) && i <= j < |toks| && toks[i].kind !in {LBrace, Type}
    requires BinOpRule(LogicChain, toks, i) == Ok(n, i, j)
    ensures ExprRule(toks, i) == Ok(n, i, j)
  {
  }


  /** A leaf as a level's first operand, when the next token is no operator of a tighter
      level. */
  lemma OperandLeaf(chain: Chain, toks: seq<Tok>, i: nat)
    requires WellFormed(toks) && i + 1 < |toks| && IsLeaf(toks[i])
    requires !OperatorBetween(toks[i + 1].kind, 0, ChainRank(chain) - 1)
    ensures OperandRule(chain, toks, i) == Ok(LeafNode(toks[i]), i, i + 1)
  {
    if chain == ProductChain {
      assert FactorRule(toks, i) == AtomRule(toks, i);
    } else {
      Leaf(Tighter(chain).value, toks, i);
      OperandIsTighter(chain, toks, i, LeafNode(toks[i]), i + 1);
    }
  }

  /** `a op b` at the level of `op`, followed by no operator of that level or a tighter one. */
  lemma Pair(chain: Chain, toks: seq<Tok>, i: nat)
    requires WellFormed(toks) && i + 3 < |toks| && IsLeaf(toks[i]) && IsLeaf(toks[i + 2])
    requires Level(toks[i + 1].kind) == Some(chain)
    requires !OperatorBetween(toks[i + 3].kind, 0, ChainRank(chain))
    ensures BinOpRule(chain, toks, i) == Ok(BinOpNode(LeafNode(toks[i]), toks[i + 1], LeafNode(toks[i + 2])), i, i + 3)
  {
    OperandLeaf(chain, toks, i);
    OperandLeaf(chain, toks, i + 2);
    FoldTakes(chain, toks, i + 1, 1, LeafNode(toks[i]), LeafNode(toks[i + 2]), i + 3);
    FoldStops(chain, toks, i + 3, Outcome(None, None, 3), BinOpNode(LeafNode(toks[i]), toks[i + 1], LeafNode(toks[i + 2])));
  }

  /** What `parse()` makes of a successful `expr()` that ends at EndOfFile. */
  lemma ParseOfExpr(toks: seq<Tok>, n: Node, j: nat)
    requires WellFormed(toks) && j < |toks| && toks[j].kind == EndOfFile
    requires ExprRule(toks, 0) == Ok(n, 0, j)
    ensures Parse(toks) == Outcome(None, Some(n), j)
  {
  }

  // ---------------------------------------------------------------- precedence

  /** Three leaves with binary operators between them, then EndOfFile. */
  predicate ThreeLeaves(toks: seq<Tok>)
  {
    |toks| == 6 && toks[5].kind == EndOfFile &&
    IsLeaf(toks[0]) && IsLeaf(toks[2]) && IsLeaf(toks[4]) &&
    Level(toks[1].kind).Some? && Level(toks[3].kind).Some?
  }

  lemma TighterFirst(toks: seq<Tok>)
    requires ThreeLeaves(toks)
    requires ChainRank(Level(toks[1].kind).value) < ChainRank(Level(toks[3].kind).value)
    ensures BinOpRule(LogicChain, toks, 0) ==
      Ok(BinOpNode(BinOpNode(LeafNode(toks[0]), toks[1], LeafNode(toks[2])), toks[3], LeafNode(toks[4])), 0, 5)
  {
    var a, b, c := LeafNode(toks[0]), LeafNode(toks[2]), LeafNode(toks[4]);
    var l1, l2 := Level(toks[1].kind).value, Level(toks[3].kind).value;
    var ab := BinOpNode(a, toks[1], b);
    var n := BinOpNode(ab, toks[3], c);
    Pair(l1, toks, 0);
    Lift(l1, Tighter(l2).value, toks, 0, ab, 3);
    OperandIsTighter(l2, toks, 0, ab, 3);
    OperandLeaf(l2, toks, 4);
    FoldTakes(l2, toks, 3, 3, ab, c, 5);
    FoldStops(l2, toks, 5, Outcome(None, None, 5), n);
    Lift(l2, LogicChain, toks, 0, n, 5);
  }

  lemma SameLevel(toks: seq<Tok>)
    requires ThreeLeaves(toks) && Level(toks[1].kind) == Level(toks[3].kind)
    ensures BinOpRule(LogicChain, toks, 0) ==
      Ok(BinOpNode(BinOpNode(LeafNode(toks[0]), toks[1], LeafNode(toks[2])), toks[3], LeafNode(toks[4])), 0, 5)
  {
    var a, b, c := LeafNode(toks[0]), LeafNode(toks[2]), LeafNode(toks[4]);
    var l := Level(toks[1].kind).value;
    var ab := BinOpNode(a, toks[1], b);
    var n := BinOpNode(ab, toks[3], c);
    OperandLeaf(l, toks, 0);
    OperandLeaf(l, toks, 2);
    FoldTakes(l, toks, 1, 1, a, b, 3);
    OperandLeaf(l, toks, 4);
    FoldTakes(l, toks, 3, 3, ab, c, 5);
    FoldStops(l, toks, 5, Outcome(None, None, 5), n);
    Lift(l, LogicChain, toks, 0, n, 5);
  }

  lemma LooserFirst(toks: seq<Tok>)
    requires ThreeLeaves(toks)
    requires ChainRank(Level(toks[1].kind).value) > ChainRank(Level(toks[3].kind).value)
    ensures BinOpRule(LogicChain, toks, 0) ==
      Ok(BinOpNode(LeafNode(toks[0]), toks[1], BinOpNode(LeafNode(toks[2]), toks[3], LeafNode(toks[4]))), 0, 5)
  {
    var a, b, c := LeafNode(toks[0]), LeafNode(toks[2]), LeafNode(toks[4]);
    var l1, l2 := Level(toks[1].kind).value, Level(toks[3].kind).value;
    var bc := BinOpNode(b, toks[3], c);
    var n := BinOpNode(a, toks[1], bc);
    Pair(l2, toks, 2);
    Lift(l2, Tighter(l1).value, toks, 2, bc, 5);
    OperandIsTighter(l1, toks, 2, bc, 5);
    OperandLeaf(l1, toks, 0);
    FoldTakes(l1, toks, 1, 1, a, bc, 5);
    FoldStops(l1, toks, 5, Outcome(None, None, 5), n);
    Lift(l1, LogicChain, toks, 0, n, 5);
  }

  /** Precedence and associativity: with two binary operators between three leaves, the
      first pair is grouped exactly when its operator binds at least as tightly as the
      second (so operators of one level fold to the left); otherwise the second pair is. */
  lemma TwoOperators(toks: seq<Tok>)
    requires ThreeLeaves(toks)
    ensures var a, b, c := LeafNode(toks[0]), LeafNode(toks[2]), LeafNode(toks[4]);
      Parse(toks) == Outcome(None, Some(
        if ChainRank(Level(toks[1].kind).value) <= ChainRank(Level(toks[3].kind).value)
        then BinOpNode(BinOpNode(a, toks[1], b), toks[3], c)
        else BinOpNode(a, toks[1], BinOpNode(b, toks[3], c))), 5)
  {
    var a, b, c := LeafNode(toks[0]), LeafNode(toks[2]), LeafNode(toks[4]);
    var r1, r2 := ChainRank(Level(toks[1].kind).value), ChainRank(Level(toks[3].kind).value);
    var n := if r1 <= r2 then BinOpNode(BinOpNode(a, toks[1], b), toks[3], c)
             else BinOpNode(a, toks[1], BinOpNode(b, toks[3], c));
    if r1 < r2 {
      TighterFirst(toks);
    } else if r1 == r2 {
      assert Level(toks[1].kind) == Level(toks[3].kind);
      SameLevel(toks);
    } else {
      LooserFirst(toks);
    }
    ExprOfLogic(toks, 0, n, 5);
    ParseOfExpr(toks, n, 5);
  }

  // ---------------------------------------------------------------- errors

  /** A rule that failed from `i` with error `e`, stopping at `j`. */
  function Err(e: LexError, i: nat, j: nat): Parsed
    requires i <= j
  {
    Parsed(Outcome(Some(e), None, j - i), j)
  }

  const NoAtom := "Expected number, string, or boolean"

  /** Tokens no rule can start an expression with (EndOfFile, `)`, `=`, an operator other
      than a sign, a keyword other than `if`, ...). */
  predicate StartsNothing(t: Tok)
  {
    t.kind !in {LBrace, Type, Not, LParen, Plus, Minus, Number, String, Boolean, Identifier} &&
    !Matches(t, Keyword, IfWord)
  }

  /** At such a token every level up to comparisons fails with `atom()`'s error,
      consuming nothing. */
  lemma {:induction false} LevelRejects(chain: Chain, toks: seq<Tok>, i: nat)
    requires WellFormed(toks) && i < |toks| && StartsNothing(toks[i]) && chain != LogicChain
    ensures BinOpRule(chain, toks, i) == Err(SyntaxAt(toks[i], NoAtom), i, i)
    decreases ChainRank(chain)
  {
    if chain == ProductChain {
      assert FactorRule(toks, i) == AtomRule(toks, i);
    } else {
      LevelRejects(Tighter(chain).value, toks, i);
      assert OperandRule(chain, toks, i) == BinOpRule(Tighter(chain).value, toks, i);
    }
  }

  /** ... and `expr()` fails with `compExpr()`'s relabelled error, which replaces the
      earlier one because nothing was consumed. */
  lemma ExprRejects(toks: seq<Tok>, i: nat)
    requires WellFormed(toks) && i < |toks| && StartsNothing(toks[i])
    ensures ExprRule(toks, i) == Err(SyntaxAt(toks[i], "compExpr()"), i, i)
  {
    LevelRejects(ComparisonChain, toks, i);
    assert CompExprRule(toks, i) == Err(SyntaxAt(toks[i], "compExpr()"), i, i);
    assert OperandRule(LogicChain, toks, i) == CompExprRule(toks, i);
  }

  /** An input with no expression at all: the error is `compExpr()` at EndOfFile. */
  lemma EmptyInput(toks: seq<Tok>)
    requires |toks| == 1 && toks[0].kind == EndOfFile
    ensures Parse(toks) == Outcome(Some(SyntaxAt(toks[0], "compExpr()")), None, 0)
  {
    ExprRejects(toks, 0);
  }

  /** A failure after at least one consumed token passes unchanged through every looser
      level and `expr()`: `compExpr()` does not relabel it. */
  lemma {:induction false} LiftError(chain: Chain, toks: seq<Tok>, i: nat, e: LexError, j: nat)
    requires WellFormed(toks) && i < j < |toks| && toks[i].kind !in {Not, LParen, LBrace, Type}
    requires BinOpRule(chain, toks, i) == Err(e, i, j)
    ensures ExprRule(toks, i) == Err(e, i, j)
    decreases 15 - ChainRank(chain)
  {
    match chain
    case LogicChain =>
    case ComparisonChain =>
      assert CompExprRule(toks, i) == Err(e, i, j);
      assert OperandRule(LogicChain, toks, i) == Err(e, i, j);
      LiftError(LogicChain, toks, i, e, j);
    case SumChain =>
      assert OperandRule(ComparisonChain, toks, i) == Err(e, i, j);
      LiftError(ComparisonChain, toks, i, e, j);
    case ProductChain =>
      assert OperandRule(SumChain, toks, i) == Err(e, i, j);
      LiftError(SumChain, toks, i, e, j);
  }

  /** The error an operator's missing right operand reports: "compExpr()" after a logic
      operator (whose operand rule relabels it), and `atom()`'s error after any other. */
  function MissingOperand(chain: Chain, t: Tok): LexError
  {
    SyntaxAt(t, if chain == LogicChain then "compExpr()" else NoAtom)
  }

  lemma OperandRejects(chain: Chain, toks: seq<Tok>, i: nat)
    requires WellFormed(toks) && i < |toks| && StartsNothing(toks[i])
    ensures OperandRule(chain, toks, i) == Err(MissingOperand(chain, toks[i]), i, i)
  {
    match chain
    case LogicChain =>
      LevelRejects(ComparisonChain, toks, i);
    case ComparisonChain =>
      LevelRejects(SumChain, toks, i);
    case SumChain =>
      LevelRejects(ProductChain, toks, i);
    case ProductChain =>
      assert FactorRule(toks, i) == AtomRule(toks, i);
  }

  /** Sticky errors: in `a op t` where `t` starts no expression, the whole parse fails at
      `t` with the error of `op`'s operand rule, and the relabelling of `compExpr()`
      further up does not replace it, because `a` and `op` were consumed. */
  lemma MissingRightOperand(toks: seq<Tok>)
    requires WellFormed(toks) && |toks| >= 3 && IsLeaf(toks[0]) && Level(toks[1].kind).Some?
    requires StartsNothing(toks[2])
    ensures Parse(toks) == Outcome(Some(MissingOperand(Level(toks[1].kind).value, toks[2])), None, 2)
  {
    var l := Level(toks[1].kind).value;
    var e := MissingOperand(l, toks[2]);
    OperandLeaf(l, toks, 0);
    OperandRejects(l, toks, 2);
    OperatorLevel(l, toks[1]);
    assert FoldRule(l, toks, 1, Outcome(None, None, 1), LeafNode(toks[0])) == Err(e, 0, 2);
    LiftError(l, toks, 0, e, 2);
  }

  /** `parse()` accepts exactly what `expr()` accepts up to EndOfFile, with the same tree;
      an expression followed by anything else fails at that token. */
  lemma ParseChecksEnd(toks: seq<Tok>)
    requires WellFormed(toks)
    ensures var e := ExprRule(toks, 0);
      && (Parse(toks).error.None? <==> e.res.error.None? && toks[e.next].kind == EndOfFile)
      && (Parse(toks).error.None? ==> Parse(toks).node == e.res.node && Parse(toks).advanceCount == e.next)
      && (e.res.error.None? && toks[e.next].kind != EndOfFile ==>
            Parse(toks).error == Some(SyntaxAt(toks[e.next], "Unexpected EOF")))
      && (e.res.error.Some? ==> Parse(toks).error == e.res.error)
  {
  }

  // ---------------------------------------------------------------- special forms

  /** `type name = value`: a VarAssignNode spanning from the type to the end of the value;
      a missing name or `=` fails there after consuming what came before. */
  lemma Declaration(toks: seq<Tok>, i: nat)
    requires WellFormed(toks) && i + 3 < |toks| && toks[i].kind == Type
    ensures toks[i + 1].kind != Identifier ==>
      ExprRule(toks, i) == Err(SyntaxAt(toks[i + 1], "Expected Identifier"), i, i + 1)
    ensures toks[i + 1].kind == Identifier && toks[i + 2].kind != Equals ==>
      ExprRule(toks, i) == Err(SyntaxAt(toks[i + 2], "Expected '='"), i, i + 2)
    ensures toks[i + 1].kind == Identifier && toks[i + 2].kind == Equals ==>
      var v := ExprRule(toks, i + 3);
      && ExprRule(toks, i).next == v.next
      && ExprRule(toks, i).res.error == v.res.error
      && (v.res.error.None? ==>
            && ExprRule(toks, i) == Ok(VarAssignNode(toks[i + 1], toks[i], v.res.node.value), i, v.next)
            && PosStart(ExprRule(toks, i).res.node.value) == toks[i].posStart
            && PosEnd(ExprRule(toks, i).res.node.value) == PosEnd(v.res.node.value))
  {
  }

  /** `{ e }`: the braces are consumed and `e` is the result; without `}` the parse fails
      at the token after `e`. */
  lemma Braces(toks: seq<Tok>, i: nat, n: Node, j: nat)
    requires WellFormed(toks) && i < j < |toks| && toks[i].kind == LBrace
    requires ExprRule(toks, i + 1) == Ok(n, i + 1, j)
    ensures toks[j].kind == RBrace ==> j + 1 < |toks| && ExprRule(toks, i) == Ok(n, i, j + 1)
    ensures toks[j].kind != RBrace ==> ExprRule(toks, i) == Err(SyntaxAt(toks[j], "Expected '}'"), i, j)
  {
  }

  /** `! c` in `compExpr()`: the `!` is consumed and the result is a UnaryOpNode of the
      `!` token over the comparison that follows; an error there is the result. */
  lemma NotForm(toks: seq<Tok>, i: nat)
    requires WellFormed(toks) && i < |toks| && toks[i].kind == Not
    ensures i + 1 < |toks|
    ensures var c := CompExprRule(toks, i + 1);
      && (c.res.error.Some? ==> CompExprRule(toks, i) == Err(c.res.error.value, i, c.next))
      && (c.res.error.None? ==> CompExprRule(toks, i) == Ok(UnaryOpNode(toks[i], c.res.node.value), i, c.next))
  {
    assert CompExprRule(toks, i) == NotRule(toks, i);
  }

  /** A sign in `factor()`: the `+` or `-` is consumed and the result is a UnaryOpNode of
      the sign over the factor that follows, so signs nest; an error there is the result. */
  lemma SignedFactor(toks: seq<Tok>, i: nat)
    requires WellFormed(toks) && i < |toks| && toks[i].kind in {Plus, Minus}
    ensures i + 1 < |toks|
    ensures var f := FactorRule(toks, i + 1);
      && (f.res.error.Some? ==> FactorRule(toks, i) == Err(f.res.error.value, i, f.next))
      && (f.res.error.None? ==> FactorRule(toks, i) == Ok(UnaryOpNode(toks[i], f.res.node.value), i, f.next))
  {
  }

  /** `! a` on its own: a UnaryOpNode over the leaf, the whole input consumed. */
  lemma NotLeaf(toks: seq<Tok>)
    requires |toks| == 3 && toks[0].kind == Not && IsLeaf(toks[1]) && toks[2].kind == EndOfFile
    ensures Parse(toks) == Outcome(None, Some(UnaryOpNode(toks[0], LeafNode(toks[1]))), 2)
  {
    var a := LeafNode(toks[1]);
    var n := UnaryOpNode(toks[0], a);
    Leaf(ComparisonChain, toks, 1);
    assert CompExprRule(toks, 1) == Ok(a, 1, 2);
    NotForm(toks, 0);
    assert OperandRule(LogicChain, toks, 0) == Ok(n, 0, 2);
    LevelOfOperand(LogicChain, toks, 0, n, 2);
    ExprOfLogic(toks, 0, n, 2);
    ParseOfExpr(toks, n, 2);
  }

  /** `- a` on its own: a UnaryOpNode over the leaf, the whole input consumed. */
  lemma NegatedLeaf(toks: seq<Tok>)
    requires |toks| == 3 && toks[0].kind == Minus && IsLeaf(toks[1]) && toks[2].kind == EndOfFile
    ensures Parse(toks) == Outcome(None, Some(UnaryOpNode(toks[0], LeafNode(toks[1]))), 2)
  {
    var a := LeafNode(toks[1]);
    var n := UnaryOpNode(toks[0], a);
    assert FactorRule(toks, 1) == AtomRule(toks, 1);
    SignedFactor(toks, 0);
    assert OperandRule(ProductChain, toks, 0) == Ok(n, 0, 2);
    LevelOfOperand(ProductChain, toks, 0, n, 2);
    Lift(ProductChain, LogicChain, toks, 0, n, 2);
    ExprOfLogic(toks, 0, n, 2);
    ParseOfExpr(toks, n, 2);
  }

  /** `( e )` in `compExpr()`: the `(` is consumed but the `)` is not, so the `)` is left
      for the rules above, and `(e)` on its own is rejected at the `)` by `parse()` (the
      failed result still holds the tree). */
  lemma ParenLeavesClose(toks: seq<Tok>)
    requires |toks| == 4 && toks[0].kind == LParen && IsLeaf(toks[1]) && toks[2].kind == RParen
    requires toks[3].kind == EndOfFile
    ensures Parse(toks) == Outcome(Some(SyntaxAt(toks[2], "Unexpected EOF")), Some(LeafNode(toks[1])), 2)
  {
    var a := LeafNode(toks[1]);
    Leaf(LogicChain, toks, 1);
    ExprOfLogic(toks, 1, a, 2);
    assert CompExprRule(toks, 0) == Ok(a, 0, 2);
    assert OperandRule(LogicChain, toks, 0) == Ok(a, 0, 2);
    LevelOfOperand(LogicChain, toks, 0, a, 2);
  }

  /** `if (c) e [else f]`, entered at the `if`: an IfNode whose condition and branches are
      the parsed expressions, spanning from the condition to the end of the last branch. */
  lemma IfForm(toks: seq<Tok>, i: nat, c: Node, j: nat, b: Node, k: nat)
    requires WellFormed(toks) && i + 2 <= j < k < |toks| && Matches(toks[i], Keyword, IfWord)
    requires toks[i + 1].kind == LParen && ExprRule(toks, i + 2) == Ok(c, i + 2, j)
    requires toks[j].kind == RParen && ExprRule(toks, j + 1) == Ok(b, j + 1, k)
    ensures !Matches(toks[k], Keyword, ElseWord) ==>
      && IfExprRule(toks, i) == Ok(IfNode(c, b, None), i, k)
      && PosStart(IfExprRule(toks, i).res.node.value) == PosStart(c)
      && PosEnd(IfExprRule(toks, i).res.node.value) == PosEnd(b)
    ensures Matches(toks[k], Keyword, ElseWord) ==>
      var f := ExprRule(toks, k + 1);
      && IfExprRule(toks, i).res.error == f.res.error
      && (f.res.error.None? ==>
            && IfExprRule(toks, i) == Ok(IfNode(c, b, Some(f.res.node.value)), i, f.next)
            && PosStart(IfExprRule(toks, i).res.node.value) == PosStart(c)
            && PosEnd(IfExprRule(toks, i).res.node.value) == PosEnd(f.res.node.value))
  {
    var atElse := Outcome(None, None, k - i);
    assert IfExprRule(toks, i) == IfBranchesRule(toks, j, Outcome(None, None, j - i), c);
    assert IfBranchesRule(toks, j, Outcome(None, None, j - i), c) == ElseRule(toks, k, atElse, c, b);
    if !Matches(toks[k], Keyword, ElseWord) {
      assert ElseRule(toks, k, atElse, c, b) == Ok(IfNode(c, b, None), i, k);
    } else {
      var f := ExprRule(toks, k + 1);
      if f.res.error.None? {
        assert ElseRule(toks, k, atElse, c, b) == Ok(IfNode(c, b, Some(f.res.node.value)), i, f.next);
      }
    }
  }

  lemma IfErrors(toks: seq<Tok>, i: nat)
    requires WellFormed(toks) && i + 2 < |toks| && Matches(toks[i], Keyword, IfWord)
    ensures toks[i + 1].kind != LParen ==>
      IfExprRule(toks, i) == Err(SyntaxAt(toks[i + 1], "Expected '('"), i, i + 1)
    ensures toks[i + 1].kind == LParen ==>
      var c := ExprRule(toks, i + 2);
      && (c.res.error.Some? ==> IfExprRule(toks, i) == Err(c.res.error.value, i, c.next))
      && (c.res.error.None? && toks[c.next].kind != RParen ==>
            IfExprRule(toks, i) == Err(SyntaxAt(toks[c.next], "Expected ')'"), i, c.next))
  {
  }
}
