/** Laws of the grammar of Basic.ts, proved about the rule functions: how the levels nest
    (precedence, left folding of `+ -` and `* /`, right nesting of `^`), how errors are
    chosen, and what the special forms build. */
module BasicParserLaws {
  import opened Common
  import opened Source
  import opened BasicLexer
  import opened ParseResults
  import opened BasicParser

  // ---------------------------------------------------------------- vocabulary

  /** Tokens `atom()` turns into a node on its own. */
  predicate IsLeaf(t: Tok)
  {
    t.kind in {Int, Float, Identifier}
  }

  function LeafNode(t: Tok): Node
    requires IsLeaf(t)
  {
    if t.kind == Identifier then VarAccessNode(t) else NumberNode(t)
  }

  /** The loop that takes a token type, if any. */
  function LevelOf(k: TokenType): (r: Option<Level>)
    ensures r.Some? <==> k in {Plus, Minus, Mul, Div, Pow}
    ensures r.Some? ==> k in LevelOps(r.value)
  {
    if k in {Plus, Minus} then Some(SumLevel)
    else if k in {Mul, Div} then Some(ProductLevel)
    else if k == Pow then Some(PowerLevel)
    else None
  }

  /** An operator of a level whose rank is at most `hi`. */
  predicate OperatorUpTo(k: TokenType, hi: nat)
  {
    LevelOf(k).Some? && LevelRank(LevelOf(k).value) <= hi
  }

  /** A rule that succeeded from `i` with node `n`, stopping at `j`. */
  function Ok(n: Node, i: nat, j: nat): Parsed
    requires i <= j
  {
    Parsed(Outcome(None, Some(n), j - i), j)
  }

  /** A rule that failed from `i` with error `e`, stopping at `j`. */
  function Err(e: LexError, i: nat, j: nat): Parsed
    requires i <= j
  {
    Parsed(Outcome(Some(e), None, j - i), j)
  }

  /** The rule a level's loop parses its right operand with. */
  function RightOperand(level: Level, toks: seq<Tok>, i: nat): Parsed
    requires WellFormed(toks) && i < |toks|
  {
    if level == SumLevel then LevelRule(ProductLevel, toks, i) else FactorRule(toks, i)
  }

  /** The level just tighter than a looser one. */
  function Tighter(level: Level): Level
  {
    match level
    case SumLevel => ProductLevel
    case ProductLevel => PowerLevel
    case PowerLevel => PowerLevel
  }

  // ---------------------------------------------------------------- building blocks

  /** A level's loop stops at a token that is not one of its operators. */
  lemma FoldStops(level: Level, toks: seq<Tok>, j: nat, res: Outcome<Node>, left: Node)
    requires WellFormed(toks) && j < |toks| && toks[j].kind !in LevelOps(level)
    ensures FoldRule(level, toks, j, res, left) == Parsed(Succeeded(res, left), j)
  {
  }

  /** One turn of a level's loop that succeeds: the tree so far becomes the left child. */
  lemma FoldTakes(level: Level, toks: seq<Tok>, j: nat, k: int, left: Node, right: Node, stop: nat)
    requires WellFormed(toks) && j + 1 < |toks| && toks[j].kind in LevelOps(level)
    requires j + 1 <= stop && RightOperand(level, toks, j + 1) == Ok(right, j + 1, stop)
    ensures FoldRule(level, toks, j, Outcome(None, None, k), left) ==
            FoldRule(level, toks, stop, Outcome(None, None, k + 1 + (stop - j - 1)), BinOpNode(left, toks[j], right))
  {
  }

  /** A level's first operand that is followed by none of its operators is the level's
      result. */
  lemma LevelOfOperand(level: Level, toks: seq<Tok>, i: nat, n: Node, j: nat)
    requires WellFormed(toks) && i <= j < |toks| && toks[i].kind !in {Plus, Minus}
    requires toks[j].kind !in LevelOps(level)
    requires (if level == PowerLevel then AtomRule(toks, i) else LevelRule(Tighter(level), toks, i)) == Ok(n, i, j)
    ensures LevelRule(level, toks, i) == Ok(n, i, j)
  {
    if level == ProductLevel {
      assert FactorRule(toks, i) == LevelRule(PowerLevel, toks, i);
    }
    FoldStops(level, toks, j, Outcome(None, None, j - i), n);
  }

  /** A leaf followed by no operator of this level or a tighter one is parsed by the level
      as itself. */
  lemma {:induction false} Leaf(level: Level, toks: seq<Tok>, i: nat)
    requires WellFormed(toks) && i + 1 < |toks| && IsLeaf(toks[i])
    requires !OperatorUpTo(toks[i + 1].kind, LevelRank(level))
    ensures LevelRule(level, toks, i) == Ok(LeafNode(toks[i]), i, i + 1)
    decreases LevelRank(level)
  {
    if level != PowerLevel {
      Leaf(Tighter(level), toks, i);
    }
    LevelOfOperand(level, toks, i, LeafNode(toks[i]), i + 1);
  }

  /** A leaf as a level's right operand, when the next token is no operator of a tighter
      level. */
  lemma RightLeaf(level: Level, toks: seq<Tok>, i: nat)
    requires WellFormed(toks) && i + 1 < |toks| && IsLeaf(toks[i])
    requires !OperatorUpTo(toks[i + 1].kind, LevelRank(Tighter(level)))
    ensures RightOperand(level, toks, i) == Ok(LeafNode(toks[i]), i, i + 1)
  {
    Leaf(Tighter(level), toks, i);
    if level != SumLevel {
      assert FactorRule(toks, i) == LevelRule(PowerLevel, toks, i);
    }
  }

  /** A result of a level, followed by no operator of the looser levels up to `top`, is
      the result of every one of them. */
  lemma {:induction false} Lift(level: Level, top: Level, toks: seq<Tok>, i: nat, n: Node, j: nat)
    requires WellFormed(toks) && i <= j < |toks| && toks[i].kind !in {Plus, Minus}
    requires LevelRank(level) <= LevelRank(top)
    requires !(OperatorUpTo(toks[j].kind, LevelRank(top)) && !OperatorUpTo(toks[j].kind, LevelRank(level)))
    requires LevelRule(level, toks, i) == Ok(n, i, j)
    ensures LevelRule(top, toks, i) == Ok(n, i, j)
    decreases LevelRank(top) - LevelRank(level)
  {
    if level != top {
      var up := if level == PowerLevel then ProductLevel else SumLevel;
      assert Tighter(up) == level;
      LevelOfOperand(up, toks, i, n, j);
      Lift(up, top, toks, i, n, j);
    }
  }

  /** What `parse()` makes of a `literal` that ends at TT_EOF. */
  lemma ParseOfLiteral(toks: seq<Tok>, n: Node, j: nat)
    requires WellFormed(toks) && j < |toks| && toks[j].kind == EndOfFile && !Matches(toks[0], Keyword, VarWord)
    requires LevelRule(SumLevel, toks, 0) == Ok(n, 0, j)
    ensures Parse(toks) == Outcome(None, Some(n), j)
  {
  }

  /** `a op b` at the level of `op`, followed by no operator of that level or a tighter one. */
  lemma Pair(level: Level, toks: seq<Tok>, i: nat)
    requires WellFormed(toks) && i + 3 < |toks| && IsLeaf(toks[i]) && IsLeaf(toks[i + 2])
    requires LevelOf(toks[i + 1].kind) == Some(level)
    requires !OperatorUpTo(toks[i + 3].kind, LevelRank(level))
    ensures LevelRule(level, toks, i) ==
      Ok(BinOpNode(LeafNode(toks[i]), toks[i + 1], LeafNode(toks[i + 2])), i, i + 3)
  {
    var a, b := LeafNode(toks[i]), LeafNode(toks[i + 2]);
    if level == PowerLevel {
      assert AtomRule(toks, i) == Ok(a, i, i + 1);
    } else {
      Leaf(Tighter(level), toks, i);
    }
    RightLeaf(level, toks, i + 2);
    FoldTakes(level, toks, i + 1, 1, a, b, i + 3);
    FoldStops(level, toks, i + 3, Outcome(None, None, 3), BinOpNode(a, toks[i + 1], b));
    if level == ProductLevel {
      assert FactorRule(toks, i) == LevelRule(PowerLevel, toks, i);
    }
  }

  // ---------------------------------------------------------------- precedence

  /** Three leaves with binary operators between them, then TT_EOF. */
  predicate ThreeLeaves(toks: seq<Tok>)
  {
    |toks| == 6 && toks[5].kind == EndOfFile &&
    IsLeaf(toks[0]) && IsLeaf(toks[2]) && IsLeaf(toks[4]) &&
    LevelOf(toks[1].kind).Some? && LevelOf(toks[3].kind).Some?
  }

  /** Whether `a op1 b op2 c` groups as `(a op1 b) op2 c`: when `op1` binds more tightly,
      or both are of one level other than `^`. */
  predicate GroupsLeft(first: Level, second: Level)
  {
    LevelRank(first) < LevelRank(second) || (first == second && first != PowerLevel)
  }

  lemma TighterFirst(toks: seq<Tok>)
    requires ThreeLeaves(toks)
    requires LevelRank(LevelOf(toks[1].kind).value) < LevelRank(LevelOf(toks[3].kind).value)
    ensures LevelRule(SumLevel, toks, 0) ==
      Ok(BinOpNode(BinOpNode(LeafNode(toks[0]), toks[1], LeafNode(toks[2])), toks[3], LeafNode(toks[4])), 0, 5)
  {
    var a, b, c := LeafNode(toks[0]), LeafNode(toks[2]), LeafNode(toks[4]);
    var l1, l2 := LevelOf(toks[1].kind).value, LevelOf(toks[3].kind).value;
    var ab := BinOpNode(a, toks[1], b);
    var n := BinOpNode(ab, toks[3], c);
    Pair(l1, toks, 0);
    Lift(l1, Tighter(l2), toks, 0, ab, 3);
    RightLeaf(l2, toks, 4);
    FoldTakes(l2, toks, 3, 3, ab, c, 5);
    FoldStops(l2, toks, 5, Outcome(None, None, 5), n);
    if l2 == ProductLevel {
      assert FactorRule(toks, 0) == LevelRule(PowerLevel, toks, 0);
    }
    assert LevelRule(l2, toks, 0) == Ok(n, 0, 5);
    Lift(l2, SumLevel, toks, 0, n, 5);
  }

  lemma SameLevelLeft(toks: seq<Tok>)
    requires ThreeLeaves(toks) && LevelOf(toks[1].kind) == LevelOf(toks[3].kind)
    requires LevelOf(toks[1].kind) != Some(PowerLevel)
    ensures LevelRule(SumLevel, toks, 0) ==
      Ok(BinOpNode(BinOpNode(LeafNode(toks[0]), toks[1], LeafNode(toks[2])), toks[3], LeafNode(toks[4])), 0, 5)
  {
    var a, b, c := LeafNode(toks[0]), LeafNode(toks[2]), LeafNode(toks[4]);
    var l := LevelOf(toks[1].kind).value;
    var ab := BinOpNode(a, toks[1], b);
    var n := BinOpNode(ab, toks[3], c);
    Leaf(Tighter(l), toks, 0);
    RightLeaf(l, toks, 2);
    FoldTakes(l, toks, 1, 1, a, b, 3);
    RightLeaf(l, toks, 4);
    FoldTakes(l, toks, 3, 3, ab, c, 5);
    FoldStops(l, toks, 5, Outcome(None, None, 5), n);
    if l == ProductLevel {
      assert FactorRule(toks, 0) == LevelRule(PowerLevel, toks, 0);
    }
    assert LevelRule(l, toks, 0) == Ok(n, 0, 5);
    Lift(l, SumLevel, toks, 0, n, 5);
  }

  lemma PowersRight(toks: seq<Tok>)
    requires ThreeLeaves(toks) && toks[1].kind == Pow && toks[3].kind == Pow
    ensures LevelRule(SumLevel, toks, 0) ==
      Ok(BinOpNode(LeafNode(toks[0]), toks[1], BinOpNode(LeafNode(toks[2]), toks[3], LeafNode(toks[4]))), 0, 5)
  {
    var a, b, c := LeafNode(toks[0]), LeafNode(toks[2]), LeafNode(toks[4]);
    var bc := BinOpNode(b, toks[3], c);
    var n := BinOpNode(a, toks[1], bc);
    Pair(PowerLevel, toks, 2);
    assert FactorRule(toks, 2) == LevelRule(PowerLevel, toks, 2);
    assert AtomRule(toks, 0) == Ok(a, 0, 1);
    FoldTakes(PowerLevel, toks, 1, 1, a, bc, 5);
    FoldStops(PowerLevel, toks, 5, Outcome(None, None, 5), n);
    assert LevelRule(PowerLevel, toks, 0) == Ok(n, 0, 5);
    Lift(PowerLevel, SumLevel, toks, 0, n, 5);
  }

  lemma LooserFirst(toks: seq<Tok>)
    requires ThreeLeaves(toks)
    requires LevelRank(LevelOf(toks[1].kind).value) > LevelRank(LevelOf(toks[3].kind).value)
    ensures LevelRule(SumLevel, toks, 0) ==
      Ok(BinOpNode(LeafNode(toks[0]), toks[1], BinOpNode(LeafNode(toks[2]), toks[3], LeafNode(toks[4]))), 0, 5)
  {
    var a, b, c := LeafNode(toks[0]), LeafNode(toks[2]), LeafNode(toks[4]);
    var l1, l2 := LevelOf(toks[1].kind).value, LevelOf(toks[3].kind).value;
    var bc := BinOpNode(b, toks[3], c);
    var n := BinOpNode(a, toks[1], bc);
    Pair(l2, toks, 2);
    Lift(l2, Tighter(l1), toks, 2, bc, 5);
    if l1 == ProductLevel {
      assert FactorRule(toks, 2) == LevelRule(PowerLevel, toks, 2);
      assert FactorRule(toks, 0) == LevelRule(PowerLevel, toks, 0);
    }
    assert RightOperand(l1, toks, 2) == Ok(bc, 2, 5);
    Leaf(Tighter(l1), toks, 0);
    FoldTakes(l1, toks, 1, 1, a, bc, 5);
    FoldStops(l1, toks, 5, Outcome(None, None, 5), n);
    assert LevelRule(l1, toks, 0) == Ok(n, 0, 5);
    Lift(l1, SumLevel, toks, 0, n, 5);
  }

  /** Precedence and associativity: with two binary operators between three leaves, the
      first pair is grouped when its operator binds more tightly, or when both are of
      the same level other than `^` (so `+ -` and `* /` fold to the left); otherwise,
      and in particular for `a ^ b ^ c`, the second pair is. */
  lemma TwoOperators(toks: seq<Tok>)
    requires ThreeLeaves(toks)
    ensures var a, b, c := LeafNode(toks[0]), LeafNode(toks[2]), LeafNode(toks[4]);
      Parse(toks) == Outcome(None, Some(
        if GroupsLeft(LevelOf(toks[1].kind).value, LevelOf(toks[3].kind).value)
        then BinOpNode(BinOpNode(a, toks[1], b), toks[3], c)
        else BinOpNode(a, toks[1], BinOpNode(b, toks[3], c))), 5)
  {
    var a, b, c := LeafNode(toks[0]), LeafNode(toks[2]), LeafNode(toks[4]);
    var l1, l2 := LevelOf(toks[1].kind).value, LevelOf(toks[3].kind).value;
    var n := if GroupsLeft(l1, l2) then BinOpNode(BinOpNode(a, toks[1], b), toks[3], c)
             else BinOpNode(a, toks[1], BinOpNode(b, toks[3], c));
    if LevelRank(l1) < LevelRank(l2) {
      TighterFirst(toks);
    } else if l1 == l2 && l1 != PowerLevel {
      SameLevelLeft(toks);
    } else if l1 == l2 {
      PowersRight(toks);
    } else {
      LooserFirst(toks);
    }
    ParseOfLiteral(toks, n, 5);
  }

  // ---------------------------------------------------------------- the `^` loop

  /** A successful `factor` never stops at a `^`: the `power` inside it has taken them all. */
  lemma {:induction false} FactorEndsOffPow(toks: seq<Tok>, i: nat)
    requires WellFormed(toks) && i < |toks|
    ensures var r := FactorRule(toks, i); r.res.error.None? ==> toks[r.next].kind != Pow
    decreases |toks| - i, LevelRank(PowerLevel) + 3
  {
    if toks[i].kind == Plus || toks[i].kind == Minus {
      FactorEndsOffPow(toks, i + 1);
    } else {
      PowerEndsOffPow(toks, i);
    }
  }

  lemma {:induction false} PowerEndsOffPow(toks: seq<Tok>, i: nat)
    requires WellFormed(toks) && i < |toks|
    ensures var r := LevelRule(PowerLevel, toks, i); r.res.error.None? ==> toks[r.next].kind != Pow
    decreases |toks| - i, LevelRank(PowerLevel) + 2
  {
    var first := AtomRule(toks, i);
    var res := Registered(Empty(), first.res);
    if res.error.None? {
      PowerFoldEndsOffPow(toks, first.next, res, first.res.node.value);
    }
  }

  lemma {:induction false} PowerFoldEndsOffPow(toks: seq<Tok>, j: nat, res: Outcome<Node>, left: Node)
    requires WellFormed(toks) && j < |toks|
    ensures var r := FoldRule(PowerLevel, toks, j, res, left); r.res.error.None? ==> toks[r.next].kind != Pow
    decreases |toks| - j, LevelRank(PowerLevel) + 1
  {
    if toks[j].kind == Pow {
      var right := FactorRule(toks, j + 1);
      var res' := Registered(Advanced(res), right.res);
      if res'.error.None? {
        FactorEndsOffPow(toks, j + 1);
        PowerFoldEndsOffPow(toks, right.next, res', BinOpNode(left, toks[j], right.res.node.value));
      }
    }
  }

  /** The `while` of `power()` runs at most once: its right operand is a `factor`, which
      takes every further `^` itself, so a chain of `^` nests to the right. */
  lemma PowerLoopOnce(toks: seq<Tok>, j: nat, k: int, left: Node)
    requires WellFormed(toks) && j < |toks| && toks[j].kind == Pow
    ensures var r := FoldRule(PowerLevel, toks, j, Outcome(None, None, k), left);
      var right := FactorRule(toks, j + 1);
      && r.next == right.next
      && r.res.error == right.res.error
      && (r.res.error.None? ==> r.res.node == Some(BinOpNode(left, toks[j], right.res.node.value)))
  {
    var right := FactorRule(toks, j + 1);
    if right.res.error.None? {
      FactorEndsOffPow(toks, j + 1);
      var res := Outcome(None, None, k + 1 + right.res.advanceCount);
      FoldStops(PowerLevel, toks, right.next, res, BinOpNode(left, toks[j], right.res.node.value));
    }
  }

  /** A sign binds more loosely than `^`: `-a ^ b` is `-(a ^ b)`. */
  lemma NegatedPower(toks: seq<Tok>)
    requires |toks| == 5 && toks[0].kind == Minus && IsLeaf(toks[1]) && toks[2].kind == Pow
    requires IsLeaf(toks[3]) && toks[4].kind == EndOfFile
    ensures Parse(toks) ==
      Outcome(None, Some(UnaryOpNode(toks[0], BinOpNode(LeafNode(toks[1]), toks[2], LeafNode(toks[3])))), 4)
  {
    var ab := BinOpNode(LeafNode(toks[1]), toks[2], LeafNode(toks[3]));
    var n := UnaryOpNode(toks[0], ab);
    Pair(PowerLevel, toks, 1);
    assert FactorRule(toks, 1) == LevelRule(PowerLevel, toks, 1);
    assert FactorRule(toks, 0) == Ok(n, 0, 4);
    FoldStops(ProductLevel, toks, 4, Outcome(None, None, 4), n);
    assert LevelRule(ProductLevel, toks, 0) == Ok(n, 0, 4);
    FoldStops(SumLevel, toks, 4, Outcome(None, None, 4), n);
    assert LevelRule(SumLevel, toks, 0) == Ok(n, 0, 4);
    ParseOfLiteral(toks, n, 4);
  }

  // ---------------------------------------------------------------- errors

  /** Tokens no rule can start an expression with (TT_EOF, `)`, `=`, `*`, `/`, `^`, or a
      keyword other than `var`). */
  predicate StartsNothing(t: Tok)
  {
    t.kind !in {Int, Float, Identifier, LParen, Plus, Minus} && !Matches(t, Keyword, VarWord)
  }

  /** At such a token every level fails with `atom()`'s error, consuming nothing. */
  lemma {:induction false} LevelRejects(level: Level, toks: seq<Tok>, i: nat)
    requires WellFormed(toks) && i < |toks| && StartsNothing(toks[i])
    ensures LevelRule(level, toks, i) == Err(SyntaxAt(toks[i], NoAtom), i, i)
    decreases LevelRank(level)
  {
    if level != PowerLevel {
      LevelRejects(Tighter(level), toks, i);
      if level == ProductLevel {
        assert FactorRule(toks, i) == LevelRule(PowerLevel, toks, i);
      }
    }
  }

  /** ... and `expr()` fails with its own relabelled error, which replaces the earlier
      one because nothing was consumed. */
  lemma ExprRejects(toks: seq<Tok>, i: nat)
    requires WellFormed(toks) && i < |toks| && StartsNothing(toks[i])
    ensures ExprRule(toks, i) == Err(SyntaxAt(toks[i], NoExpr), i, i)
  {
    LevelRejects(SumLevel, toks, i);
  }

  /** An input with no expression at all: the error is `expr()`'s, at TT_EOF. */
  lemma EmptyInput(toks: seq<Tok>)
    requires |toks| == 1 && toks[0].kind == EndOfFile
    ensures Parse(toks) == Outcome(Some(SyntaxAt(toks[0], NoExpr)), None, 0)
  {
    ExprRejects(toks, 0);
  }

  /** A failure after at least one consumed token passes unchanged through every looser
      level and `expr()`, which does not relabel it. */
  lemma {:induction false} LiftError(level: Level, toks: seq<Tok>, i: nat, e: LexError, j: nat)
    requires WellFormed(toks) && i < j < |toks| && toks[i].kind !in {Plus, Minus} && !Matches(toks[i], Keyword, VarWord)
    requires LevelRule(level, toks, i) == Err(e, i, j)
    ensures ExprRule(toks, i) == Err(e, i, j)
    decreases LevelRank(SumLevel) - LevelRank(level)
  {
    match level
    case SumLevel =>
    case ProductLevel =>
      LiftError(SumLevel, toks, i, e, j);
    case PowerLevel =>
      assert FactorRule(toks, i) == Err(e, i, j);
      LiftError(ProductLevel, toks, i, e, j);
  }

  /** Sticky errors: in `a op t` where `t` starts no expression, the whole parse fails at
      `t` with `atom()`'s error, and `expr()`'s relabelling does not replace it, because
      `a` and `op` were consumed. */
  lemma MissingRightOperand(toks: seq<Tok>)
    requires WellFormed(toks) && |toks| >= 3 && IsLeaf(toks[0]) && LevelOf(toks[1].kind).Some?
    requires StartsNothing(toks[2])
    ensures Parse(toks) == Outcome(Some(SyntaxAt(toks[2], NoAtom)), None, 2)
  {
    var l := LevelOf(toks[1].kind).value;
    var e := SyntaxAt(toks[2], NoAtom);
    var a := LeafNode(toks[0]);
    if l == PowerLevel {
      assert AtomRule(toks, 0) == Ok(a, 0, 1);
    } else {
      Leaf(Tighter(l), toks, 0);
      if l == ProductLevel {
        assert FactorRule(toks, 0) == LevelRule(PowerLevel, toks, 0);
      }
    }
    LevelRejects(Tighter(l), toks, 2);
    if l != SumLevel {
      assert FactorRule(toks, 2) == LevelRule(PowerLevel, toks, 2);
    }
    assert RightOperand(l, toks, 2) == Err(e, 2, 2);
    assert FoldRule(l, toks, 1, Outcome(None, None, 1), a) == Err(e, 0, 2);
    LiftError(l, toks, 0, e, 2);
  }

  /** `parse()` accepts exactly what `expr()` accepts up to TT_EOF; an expression followed
      by anything else fails at that token; and when TT_EOF is only at the end, an
      accepted parse has consumed every other token. */
  lemma ParseChecksEnd(toks: seq<Tok>)
    requires WellFormed(toks)
    ensures var e := ExprRule(toks, 0);
      && (Parse(toks).error.None? <==> e.res.error.None? && toks[e.next].kind == EndOfFile)
      && (e.res.error.None? && toks[e.next].kind != EndOfFile ==>
            Parse(toks).error == Some(SyntaxAt(toks[e.next], NoOperator)))
      && (e.res.error.Some? ==> Parse(toks).error == e.res.error)
      && (NoEndOfFile(toks[..|toks| - 1]) && Parse(toks).error.None? ==> Parse(toks).advanceCount == |toks| - 1)
  {
    var e := ExprRule(toks, 0);
    if NoEndOfFile(toks[..|toks| - 1]) && e.next < |toks| - 1 {
      assert toks[..|toks| - 1][e.next] == toks[e.next];
    }
  }

  // ---------------------------------------------------------------- special forms

  /** `var NAME = value`: a VarAssignNode spanning from the name to the end of the value;
      a missing name or `=` fails there after consuming what came before. */
  lemma Declaration(toks: seq<Tok>, i: nat)
    requires WellFormed(toks) && i + 3 < |toks| && Matches(toks[i], Keyword, VarWord)
    ensures toks[i + 1].kind != Identifier ==>
      ExprRule(toks, i) == Err(SyntaxAt(toks[i + 1], "Expected Identifier"), i, i + 1)
    ensures toks[i + 1].kind == Identifier && toks[i + 2].kind != Eq ==>
      ExprRule(toks, i) == Err(SyntaxAt(toks[i + 2], "Expected '='"), i, i + 2)
    ensures toks[i + 1].kind == Identifier && toks[i + 2].kind == Eq ==>
      var v := ExprRule(toks, i + 3);
      && ExprRule(toks, i).next == v.next
      && ExprRule(toks, i).res.error == v.res.error
      && (v.res.error.None? ==>
            && ExprRule(toks, i) == Ok(VarAssignNode(toks[i + 1], v.res.node.value), i, v.next)
            && PosStart(ExprRule(toks, i).res.node.value) == toks[i + 1].posStart
            && PosEnd(ExprRule(toks, i).res.node.value) == PosEnd(v.res.node.value))
  {
  }

  /** `( e )` in `atom()`: both parentheses are consumed and `e` is the result; without
      `)` the parse fails at the token after `e`. */
  lemma Parentheses(toks: seq<Tok>, i: nat, n: Node, j: nat)
    requires WellFormed(toks) && i < j < |toks| && toks[i].kind == LParen
    requires ExprRule(toks, i + 1) == Ok(n, i + 1, j)
    ensures toks[j].kind == RParen ==> j + 1 < |toks| && AtomRule(toks, i) == Ok(n, i, j + 1)
    ensures toks[j].kind != RParen ==> AtomRule(toks, i) == Err(SyntaxAt(toks[j], "Expected ')'"), i, j)
  {
  }
}
