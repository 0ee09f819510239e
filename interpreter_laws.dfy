/** Properties of the evaluator: what the evaluation bound does and does not change,
    which visits can touch the symbol table, how a declaration and a later access of the
    same name agree, and the two places where the source as written departs from what it
    evidently means. */
module InterpreterLaws {
  import opened Common
  import opened Source
  import opened Lexer
  import opened Parser
  import opened Scope
  import opened Values
  import opened Interpreter

  // ---------------------------------------------------------------- the evaluation bound

  /** A tree with no indexing node, looking at what a visit evaluates (an array literal's
      elements are stored, not evaluated). */
  predicate Indexless(n: Node)
  {
    match n
    case VarAssignNode(_, _, value) => Indexless(value)
    case BinOpNode(left, _, right) => Indexless(left) && Indexless(right)
    case UnaryOpNode(_, operand) => Indexless(operand)
    case IfNode(c, e, o) => Indexless(c) && Indexless(e) && (o.Some? ==> Indexless(o.value))
    case AccessIndexNode(_, _, _, _) => false
    case _ => true
  }

  /** A visit that does not run out of fuel gives the same answer with more fuel: the
      bound cuts evaluations off and never changes their result. */
  lemma {:induction false} FuelMonotone(fuel: nat, n: Node, ctx: Context, own: Env, outer: Env)
    ensures !Eval(fuel, n, ctx, own, outer).result.Exhausted? ==>
      Eval(fuel + 1, n, ctx, own, outer) == Eval(fuel, n, ctx, own, outer)
    decreases fuel, n, 1
  {
    match n
    case BinOpNode(left, _, right) =>
      FuelMonotone(fuel, left, ctx, own, outer);
      FuelMonotone(fuel, right, ctx, Eval(fuel, left, ctx, own, outer).own, outer);
    case UnaryOpNode(_, operand) =>
      FuelMonotone(fuel, operand, ctx, own, outer);
    case VarAssignNode(_, _, value) =>
      FuelMonotone(fuel, value, ctx, own, outer);
    case IfNode(_, _, _) =>
      IfFuelMonotone(fuel, n, ctx, own, outer);
    case AccessIndexNode(target, index, _, _) =>
      FuelMonotone(fuel, target, ctx, own, outer);
      var item := Eval(fuel, target, ctx, own, outer);
      FuelMonotone(fuel, index, ctx, item.own, outer);
      var idx := Eval(fuel, index, ctx, item.own, outer);
      if item.result.Yields? && idx.result.Yields? {
        ElementFuelMonotone(fuel, n, ctx, item.result.value, idx.result.value, idx.own, outer);
      }
    case _ =>
  }

  lemma {:induction false} IfFuelMonotone(fuel: nat, n: Node, ctx: Context, own: Env, outer: Env)
    requires n.IfNode?
    ensures !EvalIf(fuel, n, ctx, own, outer).result.Exhausted? ==>
      EvalIf(fuel + 1, n, ctx, own, outer) == EvalIf(fuel, n, ctx, own, outer)
    decreases fuel, n, 0
  {
    FuelMonotone(fuel, n.condition, ctx, own, outer);
    var cond := Eval(fuel, n.condition, ctx, own, outer);
    FuelMonotone(fuel, n.expr, ctx, cond.own, outer);
    if n.elseExpr.Some? {
      FuelMonotone(fuel, n.elseExpr.value, ctx, cond.own, outer);
    }
  }

  /** The same for the last step of an index visit, where fuel is spent. */
  lemma {:induction false} ElementFuelMonotone(fuel: nat, n: Node, ctx: Context, item: Option<Value>,
                                              index: Option<Value>, own: Env, outer: Env)
    requires n.AccessIndexNode?
    ensures !IndexInto(fuel, n, ctx, item, index, own, outer).result.Exhausted? ==>
      IndexInto(fuel + 1, n, ctx, item, index, own, outer) == IndexInto(fuel, n, ctx, item, index, own, outer)
    decreases fuel, n, 0
  {
    if fuel > 0 && index.Some? && index.value.val.Num? && item.Some? && item.value.val.Arr? {
      var fetched := ArrayIndex(item.value, index.value.val.num);
      if fetched.Element? {
        FuelMonotone(fuel - 1, fetched.node, ctx, own, outer);
      }
    }
  }

  /** Without indexing nothing consumes fuel, so even none suffices. */
  lemma {:induction false} NeverExhausted(fuel: nat, n: Node, ctx: Context, own: Env, outer: Env)
    requires Indexless(n)
    ensures !Eval(fuel, n, ctx, own, outer).result.Exhausted?
    decreases n, 1
  {
    match n
    case BinOpNode(left, _, right) =>
      BinOpNeverExhausted(fuel, n, ctx, own, outer);
    case UnaryOpNode(_, operand) =>
      NeverExhausted(fuel, operand, ctx, own, outer);
    case VarAssignNode(_, _, value) =>
      NeverExhausted(fuel, value, ctx, own, outer);
    case IfNode(_, _, _) =>
      IfNeverExhausted(fuel, n, ctx, own, outer);
    case _ =>
  }

  lemma {:induction false} BinOpNeverExhausted(fuel: nat, n: Node, ctx: Context, own: Env, outer: Env)
    requires n.BinOpNode? && Indexless(n)
    ensures !EvalBinOp(fuel, n, ctx, own, outer).result.Exhausted?
    decreases n, 0
  {
    NeverExhausted(fuel, n.leftNode, ctx, own, outer);
    NeverExhausted(fuel, n.rightNode, ctx, Eval(fuel, n.leftNode, ctx, own, outer).own, outer);
  }

  lemma {:induction false} IfNeverExhausted(fuel: nat, n: Node, ctx: Context, own: Env, outer: Env)
    requires n.IfNode? && Indexless(n)
    ensures !EvalIf(fuel, n, ctx, own, outer).result.Exhausted?
    decreases n, 0
  {
    NeverExhausted(fuel, n.condition, ctx, own, outer);
    var cond := Eval(fuel, n.condition, ctx, own, outer);
    NeverExhausted(fuel, n.expr, ctx, cond.own, outer);
    if n.elseExpr.Some? {
      NeverExhausted(fuel, n.elseExpr.value, ctx, cond.own, outer);
    }
  }

  /** A tree without indexing evaluates the same under every bound. */
  lemma {:induction false} FuelIrrelevant(fuel: nat, more: nat, n: Node, ctx: Context, own: Env, outer: Env)
    requires Indexless(n)
    ensures Eval(fuel + more, n, ctx, own, outer) == Eval(fuel, n, ctx, own, outer)
    decreases more
  {
    if more > 0 {
      FuelIrrelevant(fuel, more - 1, n, ctx, own, outer);
      NeverExhausted(fuel + more - 1, n, ctx, own, outer);
      FuelMonotone(fuel + more - 1, n, ctx, own, outer);
    }
  }

  // ---------------------------------------------------------------- the symbol table

  /** A tree that neither declares nor indexes (an indexed array element may be a
      declaration stored earlier). */
  predicate DeclarationFree(n: Node)
  {
    match n
    case VarAssignNode(_, _, _) => false
    case BinOpNode(left, _, right) => DeclarationFree(left) && DeclarationFree(right)
    case UnaryOpNode(_, operand) => DeclarationFree(operand)
    case IfNode(c, e, o) => DeclarationFree(c) && DeclarationFree(e) && (o.Some? ==> DeclarationFree(o.value))
    case AccessIndexNode(_, _, _, _) => false
    case _ => true
  }

  /** Only declarations write to the symbol table. */
  lemma {:induction false} ReadOnly(fuel: nat, n: Node, ctx: Context, own: Env, outer: Env)
    requires DeclarationFree(n)
    ensures Eval(fuel, n, ctx, own, outer).own == own
  {
    match n
    case BinOpNode(left, _, right) =>
      ReadOnly(fuel, left, ctx, own, outer);
      ReadOnly(fuel, right, ctx, own, outer);
    case UnaryOpNode(_, operand) =>
      ReadOnly(fuel, operand, ctx, own, outer);
    case IfNode(c, e, o) =>
      ReadOnly(fuel, c, ctx, own, outer);
      ReadOnly(fuel, e, ctx, own, outer);
      if o.Some? {
        ReadOnly(fuel, o.value, ctx, own, outer);
      }
    case _ =>
  }

  /** A declaration whose value has the declared type binds the name to it in the own
      scope and returns it; any other value is an error at the declaration and binds
      nothing beyond what the value's own visit bound. */
  lemma DeclarationChecksType(fuel: nat, n: Node, ctx: Context, own: Env, outer: Env)
    requires n.VarAssignNode? && n.nameToken.value.StrValue? && n.typeToken.value.StrValue?
    requires n.nameToken.value.str != "__proto__"
    requires var s := Eval(fuel, n.valueNode, ctx, own, outer); s.result.Yields? && s.result.value.Some?
    ensures var s := Eval(fuel, n.valueNode, ctx, own, outer);
      var v, ty := s.result.value.value, n.typeToken.value.str;
      Eval(fuel, n, ctx, own, outer) ==
        if ty == TypeWord(v.val) then Step(Yields(Some(v)), s.own[n.nameToken.value.str := v])
        else Step(Fails(AtNode(n, "Cannot implicitly convert type '" + TypeWord(v.val) + "' to '" + ty + "'", ctx)), s.own)
  {
  }

  /** Reading a name fails exactly when no scope of the chain binds it, and otherwise
      gives the nearest binding itself. */
  lemma {:induction false} AccessResolves(fuel: nat, n: Node, ctx: Context, own: Env, outer: Env)
    requires n.VarAccessNode? && n.varNameToken.value.StrValue? && !Inherited(n.varNameToken.value.str, own)
    ensures var name, r := n.varNameToken.value.str, Eval(fuel, n, ctx, own, outer);
      && r.own == own
      && (r.result.Fails? <==> name !in own && name !in outer)
      && (r.result.Fails? ==> r.result.error == AtNode(n, name + " is not defined", ctx))
      && (!r.result.Fails? ==> r.result == Yields(Resolve(own, outer, name)))
  {
    assert Eval(fuel, n, ctx, own, outer) == Step(Access(n, ctx, own, outer), own);
  }

  /** A binary operation visits its left operand in the visiting frame and then its right
      operand in the frame the left one left, each failure stopping the visit, and applies
      the operator to the two values. */
  lemma {:induction false} BinOpSelects(fuel: nat, n: Node, ctx: Context, own: Env, outer: Env)
    requires n.BinOpNode?
    ensures var a, r := Eval(fuel, n.leftNode, ctx, own, outer), Eval(fuel, n, ctx, own, outer);
      && (!a.result.Yields? ==> r == a)
      && (a.result.Yields? ==>
            var b := Eval(fuel, n.rightNode, ctx, a.own, outer);
            && (!b.result.Yields? ==> r == b)
            && (b.result.Yields? ==> r == Step(Apply(n, ctx, a.result.value, b.result.value), b.own)))
  {
    assert Eval(fuel, n, ctx, own, outer) == EvalBinOp(fuel, n, ctx, own, outer);
  }

  /** A unary operation visits its operand in the visiting frame, a failure stopping the
      visit, and applies the operator to the value in the frame the operand left. */
  lemma {:induction false} UnarySelects(fuel: nat, n: Node, ctx: Context, own: Env, outer: Env)
    requires n.UnaryOpNode?
    ensures var a, r := Eval(fuel, n.node, ctx, own, outer), Eval(fuel, n, ctx, own, outer);
      && (!a.result.Yields? ==> r == a)
      && (a.result.Yields? ==> r == Step(Unary(n, ctx, a.result.value), a.own))
  {
    assert Eval(fuel, n, ctx, own, outer) == EvalUnary(fuel, n, ctx, own, outer);
  }

  /** A conditional visits its condition in the visiting frame and requires a Boolean; a
      true condition gives the visit of the branch, a false one the visit of the else
      branch or, without one, no value; both branches run in the frame the condition
      left, and a failing condition stops the visit. */
  lemma {:induction false} IfSelects(fuel: nat, n: Node, ctx: Context, own: Env, outer: Env)
    requires n.IfNode?
    ensures var c, r := Eval(fuel, n.condition, ctx, own, outer), Eval(fuel, n, ctx, own, outer);
      && (!c.result.Yields? ==> r == c)
      && (c.result.Yields? && c.result.value.Some? ==>
            var v := c.result.value.value;
            && (!v.val.Bool? ==>
                  r == Step(Fails(AtNode(n, "Condition cannot be of type " + ClassName(v.val), ctx)), c.own))
            && (v.val.Bool? && v.val.b ==> r == Eval(fuel, n.expr, ctx, c.own, outer))
            && (v.val.Bool? && !v.val.b && n.elseExpr.Some? ==>
                  r == Eval(fuel, n.elseExpr.value, ctx, c.own, outer))
            && (v.val.Bool? && !v.val.b && n.elseExpr.None? ==> r == Step(Yields(None), c.own)))
  {
    assert Eval(fuel, n, ctx, own, outer) == EvalIf(fuel, n, ctx, own, outer);
  }

  /** An index access visits the item and then the index, the index in the frame the
      item left, each failure stopping the visit; the two values are then looked up. */
  lemma {:induction false} IndexSelects(fuel: nat, n: Node, ctx: Context, own: Env, outer: Env)
    requires n.AccessIndexNode?
    ensures var t, r := Eval(fuel, n.target, ctx, own, outer), Eval(fuel, n, ctx, own, outer);
      && (!t.result.Yields? ==> r == t)
      && (t.result.Yields? ==>
            var x := Eval(fuel, n.index, ctx, t.own, outer);
            && (!x.result.Yields? ==> r == x)
            && (x.result.Yields? ==> r == IndexInto(fuel, n, ctx, t.result.value, x.result.value, x.own, outer)))
  {
    assert Eval(fuel, n, ctx, own, outer) == EvalIndex(fuel, n, ctx, own, outer);
  }

  /** The lookup: an index that is not a Number is an error at the node whatever the
      item; a Number or Boolean item cannot be indexed; a String gives its character; an
      Array's element node is visited in the same frame and its result is the result. */
  lemma IndexIntoCases(fuel: nat, n: Node, ctx: Context, item: Option<Value>, index: Option<Value>,
                       own: Env, outer: Env)
    requires n.AccessIndexNode?
    ensures var r := IndexInto(fuel, n, ctx, item, index, own, outer);
      && (index.None? ==> r == Step(Unmodelled, own))
      && (index.Some? && !index.value.val.Num? ==>
            r == Step(Fails(AtNode(n, "Index cannot be of type " + ClassName(index.value.val), ctx)), own))
      && (index.Some? && index.value.val.Num? && item.Some? ==>
            var v, i := item.value, index.value.val.num;
            && ((v.val.Num? || v.val.Bool?) ==>
                  r == Step(Fails(AtNode(n, "Cannot get index of type " + ClassName(v.val), ctx)), own))
            && (v.val.Str? ==> r == Step(StringIndex(v, i), own))
            && (v.val.Arr? && ArrayIndex(v, i).FetchFailed? ==> r == Step(Fails(ArrayIndex(v, i).error), own))
            && (v.val.Arr? && ArrayIndex(v, i).Element? && fuel > 0 ==>
                  r == Eval(fuel - 1, ArrayIndex(v, i).node, ctx, own, outer)))
  { }

  /** A successful declaration is read back: a later access of the same name, in any
      frame and under any bound, returns the declared value. */
  lemma {:induction false} DeclareThenAccess(fuel: nat, fuel': nat, d: Node, a: Node, ctx: Context, ctx': Context,
                                           own: Env, outer: Env)
    requires d.VarAssignNode? && a.VarAccessNode? && a.varNameToken.value == d.nameToken.value
    requires Eval(fuel, d, ctx, own, outer).result.Yields?
    ensures var s := Eval(fuel, d, ctx, own, outer);
      Eval(fuel', a, ctx', s.own, outer).result == s.result
  {
    var s := Eval(fuel, d, ctx, own, outer);
    var value := Eval(fuel, d.valueNode, ctx, own, outer);
    assert s == EvalAssign(fuel, d, ctx, own, outer);
    assert s == Declare(d, ctx, value.result.value, value.own);
    var name := d.nameToken.value.str;
    assert s.own == value.own[name := value.result.value.value];
    assert Eval(fuel', a, ctx', s.own, outer) == Step(Access(a, ctx', s.own, outer), s.own);
  }

  // ---------------------------------------------------------------- operators

  /** Arithmetic on number literals: the operator's result stamped with the whole
      expression's span, in the visiting frame; dividing by a zero literal is an error
      located at the divisor. */
  lemma {:induction false} NumberLiterals(fuel: nat, n: Node, ctx: Context, own: Env, outer: Env)
    requires n.BinOpNode? && n.leftNode.NumberNode? && n.rightNode.NumberNode?
    requires n.leftNode.token.value.NumValue? && n.rightNode.token.value.NumValue?
    ensures Eval(fuel, n, ctx, own, outer).own == own
    ensures var a, b := n.leftNode.token.value.num, n.rightNode.token.value.num;
      var r, k := Eval(fuel, n, ctx, own, outer).result, n.opToken.kind;
      && (k == Plus ==> r == Yields(Some(Value(Num(a + b), Some(NodeSpan(n)), Some(ctx)))))
      && (k == Minus ==> r == Yields(Some(Value(Num(a - b), Some(NodeSpan(n)), Some(ctx)))))
      && (k == Multiply ==> r == Yields(Some(Value(Num(a * b), Some(NodeSpan(n)), Some(ctx)))))
      && (k == Divide && b != 0.0 ==> r == Yields(Some(Value(Num(a / b), Some(NodeSpan(n)), Some(ctx)))))
      && (k == Divide && b == 0.0 ==>
            r == Fails(RunTimeError(Some(PosStart(n.rightNode)), Some(PosEnd(n.rightNode)), "Cannot divide by 0", Some(ctx))))
  {
    var a, b := n.leftNode.token.value.num, n.rightNode.token.value.num;
    var l := Value(Num(a), Some(NodeSpan(n.leftNode)), Some(ctx));
    var r := Value(Num(b), Some(NodeSpan(n.rightNode)), Some(ctx));
    assert Eval(fuel, n.leftNode, ctx, own, outer) == Step(Yields(Some(l)), own);
    assert Eval(fuel, n.rightNode, ctx, own, outer) == Step(Yields(Some(r)), own);
    BinOpSelects(fuel, n, ctx, own, outer);
    assert Eval(fuel, n, ctx, own, outer) == Step(Apply(n, ctx, Some(l), Some(r)), own);
    NumbersApplied(n, ctx, l, r);
    assert l.val.num * r.val.num == n.leftNode.token.value.num * n.rightNode.token.value.num;
  }

  /** The operator on two Numbers of the visiting frame, as `Apply` hands it on. */
  lemma NumbersApplied(n: Node, ctx: Context, l: Value, r: Value)
    requires n.BinOpNode? && l.val.Num? && r.val.Num? && l.context == Some(ctx)
    ensures var a, b, k, res := l.val.num, r.val.num, n.opToken.kind, Apply(n, ctx, Some(l), Some(r));
      && (k == Plus ==> res == Yields(Some(Value(Num(a + b), Some(NodeSpan(n)), Some(ctx)))))
      && (k == Minus ==> res == Yields(Some(Value(Num(a - b), Some(NodeSpan(n)), Some(ctx)))))
      && (k == Multiply ==> res == Yields(Some(Value(Num(a * b), Some(NodeSpan(n)), Some(ctx)))))
      && (k == Divide && b != 0.0 ==> res == Yields(Some(Value(Num(a / b), Some(NodeSpan(n)), Some(ctx)))))
      && (k == Divide && b == 0.0 ==> res == Fails(RunTimeError(StartOf(r), EndOf(r), "Cannot divide by 0", Some(ctx))))
  {
    if n.opToken.kind in {Plus, Minus, Multiply, Divide} {
      NumberArithmetic(OperatorOf(n.opToken.kind).value, l, r);
    }
  }

  /** A failing left operand ends the visit: the right operand is not visited, so it
      binds nothing. */
  lemma LeftFailureStops(fuel: nat, n: Node, ctx: Context, own: Env, outer: Env)
    requires n.BinOpNode? && Eval(fuel, n.leftNode, ctx, own, outer).result.Fails?
    ensures Eval(fuel, n, ctx, own, outer) == Eval(fuel, n.leftNode, ctx, own, outer)
  {
  }

  /** Every operator the parser puts in a binary node names a method of some class, so
      the error for a missing method is about the operand's class, never the token. */
  lemma ParsedOperatorsAreKnown(chain: Chain, tok: Tok)
    requires IsOperator(ChainOps(chain), tok)
    ensures OperatorOf(tok.kind).Some?
    ensures exists v: Val :: HasMethod(v, OperatorOf(tok.kind).value)
  {
    ChainOperators(chain, tok);
    var op := OperatorOf(tok.kind).value;
    if op == OpAnd || op == OpOr {
      assert HasMethod(Bool(true), op);
    } else {
      assert HasMethod(Num(0.0), op);
    }
  }

  // ---------------------------------------------------------------- the two departures

  /** As written, a successful negation or inversion has no result (the pair returned by
      the operator method has no `setPos`), while the intended visit returns the product
      with `Number(-1)`, stamped with the expression's span. */
  lemma {:induction false} NegationAsWritten(n: Node, ctx: Context, v: Value)
    requires n.UnaryOpNode? && n.opToken.kind == Minus && v.val.Num?
    ensures UnaryAsWritten(n, ctx, Some(v)) == Unmodelled
    ensures Unary(n, ctx, Some(v)) == Yields(Some(Stamp(Negated(v), n)))
    ensures Dispatch(OpMultiply, v, Some(MinusOne)) == Some(Yields(Some(Negated(v))))
  {
    NegatedIsProduct(v);
  }

  /** As written, a failing array element is reported as success with no value: for
      `[x][0]` with `x` unbound the visit has no error, while the intended visit fails
      with the element's error. */
  lemma {:induction false} ElementErrorAsWritten(fuel: nat, n: Node, ctx: Context, own: Env, outer: Env)
    requires fuel > 0 && n.AccessIndexNode?
    requires n.target.ArrayNode? && |n.target.elementNodes| == 1 && n.target.elementNodes[0].VarAccessNode?
    requires n.index.NumberNode? && n.index.token.value == NumValue(0.0)
    requires var x := n.target.elementNodes[0].varNameToken.value;
      x.StrValue? && x.str !in own && x.str !in outer && x.str !in PrototypeNames
    ensures var x := n.target.elementNodes[0];
      var e := AtNode(x, x.varNameToken.value.str + " is not defined", ctx);
      && Eval(fuel, n, ctx, own, outer).result == Fails(e)
      && ElementAsWritten(Fails(e)) == Yields(None)
  {
    var x := n.target.elementNodes[0];
    var item := Eval(fuel, n.target, ctx, own, outer);
    assert item == Step(Literal(Arr(n.target.elementNodes), n.target, ctx), own);
    var index := Eval(fuel, n.index, ctx, own, outer);
    assert index == Step(Literal(Num(0.0), n.index, ctx), own);
    assert ArrayIndex(item.result.value.value, 0.0) == Element(x);
    assert Eval(fuel, n, ctx, own, outer) == IndexInto(fuel, n, ctx, item.result.value, index.result.value, own, outer);
    AccessResolves(fuel - 1, x, ctx, own, outer);
  }
}
