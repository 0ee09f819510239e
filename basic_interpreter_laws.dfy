/** Laws of the Basic.ts evaluator: it computes the arithmetic the tree denotes (against
    an independent reference evaluator on plain reals), how division by zero, assignment
    and the global `null` behave, and what a runtime error's traceback shows. */
module BasicInterpreterLaws {
  import opened Common
  import opened Source
  import opened BasicLexer
  import opened BasicParser
  import opened Scope
  import opened BasicInterpreter
  import BasicParserLaws

  // ---------------------------------------------------------------- reference semantics

  /** A tree every visit of which stays on the modelled paths: number tokens carry
      numbers, names are strings that no JavaScript object inherits, and every binary
      operator is one `Number` has a method for. */
  predicate Plain(n: Node)
  {
    match n
    case NumberNode(t) => t.value.NumValue?
    case VarAccessNode(t) => t.value.StrValue? && t.value.str !in PrototypeNames
    case VarAssignNode(t, v) => t.value.StrValue? && t.value.str !in PrototypeNames && Plain(v)
    case BinOpNode(l, op, r) => op.kind in {Plus, Minus, Mul, Div, Pow} && Plain(l) && Plain(r)
    case UnaryOpNode(_, m) => Plain(m)
  }

  /** The reals an environment binds, forgetting spans and frames. */
  function Values(e: Env): map<string, real>
  {
    map k | k in e :: e[k].value
  }

  function Arith(k: TokenType, x: real, y: real, pow: PowFn): real
    requires k in {Plus, Minus, Mul, Div, Pow} && (k == Div ==> y != 0.0)
  {
    match k
    case Plus => x + y
    case Minus => x - y
    case Mul => x * y
    case Div => x / y
    case Pow => pow(x, y)
  }

  /** The value an expression denotes over plain reals, left to right, with assignments
      updating the environment; `None` for an unbound name or a division by zero. */
  function Denote(n: Node, env: map<string, real>, pow: PowFn): Option<(real, map<string, real>)>
    requires Plain(n)
  {
    match n
    case NumberNode(t) => Some((t.value.num, env))
    case VarAccessNode(t) => if t.value.str in env then Some((env[t.value.str], env)) else None
    case VarAssignNode(t, v) =>
      (match Denote(v, env, pow)
       case None => None
       case Some((x, e)) => Some((x, e[t.value.str := x])))
    case BinOpNode(l, op, r) =>
      (match Denote(l, env, pow)
       case None => None
       case Some((x, e1)) =>
         match Denote(r, e1, pow)
         case None => None
         case Some((y, e2)) => if op.kind == Div && y == 0.0 then None else Some((Arith(op.kind, x, y, pow), e2)))
    case UnaryOpNode(op, m) =>
      match Denote(m, env, pow)
      case None => None
      case Some((x, e)) => Some((if op.kind == Minus then -x else x, e))
  }

  lemma ValuesBind(outer: Env, own: Env, name: string, v: Number)
    ensures Values(outer + own[name := v]) == Values(outer + own)[name := v.value]
  {
  }

  lemma ValuesResolve(outer: Env, own: Env, name: string)
    ensures name in Values(outer + own) <==> name in own || name in outer
    ensures name in own || name in outer ==>
      Resolve(own, outer, name).value.value == Values(outer + own)[name]
  {
  }

  /** The interpreter computes what the tree denotes: on a plain tree it never leaves the
      modelled paths, it yields a value exactly when the reference evaluator does, and
      then with the same real and the same bindings (read through the own map over the
      outer one). Otherwise it fails: at an unbound name or a division by zero. */
  lemma {:induction false} EvalDenotes(n: Node, ctx: Context, own: Env, outer: Env, pow: PowFn)
    requires Plain(n)
    ensures var r := Eval(n, ctx, own, outer, pow);
      var d := Denote(n, Values(outer + own), pow);
      && !r.result.Unmodelled?
      && (r.result.Yields? <==> d.Some?)
      && (d.Some? ==> r.result.number.value == d.value.0 && Values(outer + r.own) == d.value.1)
    decreases n
  {
    match n
    case NumberNode(_) =>
    case VarAccessNode(t) =>
      ValuesResolve(outer, own, t.value.str);
    case VarAssignNode(t, v) =>
      EvalDenotes(v, ctx, own, outer, pow);
      var value := Eval(v, ctx, own, outer, pow);
      if value.result.Yields? {
        ValuesBind(outer, value.own, t.value.str, value.result.number);
      }
    case BinOpNode(l, op, r) =>
      BinOpDenotes(n, ctx, own, outer, pow);
    case UnaryOpNode(_, m) =>
      EvalDenotes(m, ctx, own, outer, pow);
  }

  lemma {:induction false} BinOpDenotes(n: Node, ctx: Context, own: Env, outer: Env, pow: PowFn)
    requires n.BinOpNode? && Plain(n)
    ensures var r := Eval(n, ctx, own, outer, pow);
      var d := Denote(n, Values(outer + own), pow);
      && !r.result.Unmodelled?
      && (r.result.Yields? <==> d.Some?)
      && (d.Some? ==> r.result.number.value == d.value.0 && Values(outer + r.own) == d.value.1)
    decreases n, 0
  {
    assert Eval(n, ctx, own, outer, pow) == EvalBinOp(n, ctx, own, outer, pow);
    EvalDenotes(n.leftNode, ctx, own, outer, pow);
    var left := Eval(n.leftNode, ctx, own, outer, pow);
    var dl := Denote(n.leftNode, Values(outer + own), pow);
    if left.result.Yields? {
      EvalDenotes(n.rightNode, ctx, left.own, outer, pow);
      var right := Eval(n.rightNode, ctx, left.own, outer, pow);
      assert Values(outer + left.own) == dl.value.1;
      if right.result.Yields? {
        OperateArith(n, left.result.number, right.result.number, pow);
      }
    }
  }

  /** `Number`'s methods compute the arithmetic; only dividing by 0 fails. */
  lemma OperateArith(n: Node, left: Number, right: Number, pow: PowFn)
    requires n.BinOpNode? && n.opToken.kind in {Plus, Minus, Mul, Div, Pow}
    ensures var r := Operate(n, left, right, pow);
      && !r.Unmodelled?
      && (r.Yields? <==> !(n.opToken.kind == Div && right.value == 0.0))
      && (r.Yields? ==> r.number.value == Arith(n.opToken.kind, left.value, right.value, pow))
  {
  }

  // ---------------------------------------------------------------- division, assignment, null

  /** Dividing by a value that is 0 fails at the span of the node that produced the
      divisor, in the frame of the dividend. */
  lemma DivisionByZero(n: Node, ctx: Context, own: Env, outer: Env, pow: PowFn)
    requires n.BinOpNode? && n.opToken.kind == Div
    requires var l := Eval(n.leftNode, ctx, own, outer, pow);
      var r := Eval(n.rightNode, ctx, l.own, outer, pow);
      l.result.Yields? && r.result.Yields? && r.result.number.value == 0.0
    ensures var l := Eval(n.leftNode, ctx, own, outer, pow);
      var d := SpanNode(n.rightNode);
      Eval(n, ctx, own, outer, pow).result ==
        Fails(RunTimeError(Some(PosStart(d)), Some(PosEnd(d)), "Cannot divide by 0", l.result.number.context))
  {
  }

  /** A value an assignment binds is what any later access of the name yields, from any
      frame and whatever the outer tables bind: the same real in the same frame, at the
      access's span. */
  lemma AssignThenAccess(t: Tok, v: Node, a: Tok, ctx: Context, ctx': Context, own: Env, outer: Env, outer': Env, pow: PowFn)
    requires a.value == t.value
    requires Eval(VarAssignNode(t, v), ctx, own, outer, pow).result.Yields?
    ensures var s := Eval(VarAssignNode(t, v), ctx, own, outer, pow);
      Eval(VarAccessNode(a), ctx', s.own, outer', pow) == Step(Yields(Stamp(s.result.number, VarAccessNode(a))), s.own)
  {
    var value := Eval(v, ctx, own, outer, pow);
    assert value.result.Yields?;
  }

  /** Before any run, `null` is 0 and carries no frame. */
  lemma NullIsZero(t: Tok, ctx: Context, pow: PowFn)
    requires t.value == StrValue("null")
    ensures Eval(VarAccessNode(t), ctx, InitialGlobals, map[], pow) ==
      Step(Yields(Number(0.0, Some(NodeSpan(VarAccessNode(t))), None)), InitialGlobals)
  {
    assert "null" !in PrototypeNames;
  }

  /** So an arithmetic result whose left operand is `null` has no frame either, and
      dividing `null` by 0 raises an error with no frame, whose traceback lists no frame
      at all. */
  lemma NullDividedByZero(t: Tok, op: Tok, z: Tok, pow: PowFn)
    requires t.value == StrValue("null") && op.kind == Div && z.value == NumValue(0.0)
    ensures var n := BinOpNode(VarAccessNode(t), op, NumberNode(z));
      var r := Eval(n, ProgramContext, InitialGlobals, map[], pow).result;
      && r == Fails(RunTimeError(Some(z.posStart), Some(z.posEnd), "Cannot divide by 0", None))
      && Traceback(WithFile("<stdin>"), r.error) == Some(TracebackHeader)
  {
    var n := BinOpNode(VarAccessNode(t), op, NumberNode(z));
    NullIsZero(t, ProgramContext, pow);
    var zero := Number(0.0, Some(NodeSpan(NumberNode(z))), Some(ProgramContext));
    assert Eval(NumberNode(z), ProgramContext, InitialGlobals, map[], pow) == Step(Yields(zero), InitialGlobals);
    assert Eval(n, ProgramContext, InitialGlobals, map[], pow) == EvalBinOp(n, ProgramContext, InitialGlobals, map[], pow);
    assert TracebackHeader + Concat([]) == TracebackHeader;
  }

  // ---------------------------------------------------------------- tracebacks

  /** A runtime error of a program has one frame line, the program's, at the error's
      position, or, when the error's frame is absent, none; generating it never throws. */
  lemma ProgramTraceback(n: Node, globals: Env, pow: PowFn, fileName: string)
    requires EnvFrom(globals, ProgramContext)
    requires Eval(n, ProgramContext, globals, map[], pow).result.Fails?
    ensures var e := Eval(n, ProgramContext, globals, map[], pow).result.error;
      Traceback(WithFile(fileName), e) == Some(TracebackHeader +
        (if e.context.Some? then FrameLine(WithFile(fileName), e.posStart.value, "<program>") else ""))
  {
    var e := Eval(n, ProgramContext, globals, map[], pow).result.error;
    var style := WithFile(fileName);
    if e.context.Some? {
      assert e.context == Some(ProgramContext);
      var line := FrameLine(style, e.posStart.value, "<program>");
      assert FrameLines(style, e.posStart, e.context) == Some([] + [line]);
      assert [] + [line] == [line];
      assert [line][1..] == [];
      assert Concat([line]) == line + Concat([]);
      assert Concat([line]) == line;
      assert Traceback(style, e) == Some(TracebackHeader + line);
    } else {
      assert FrameLines(style, e.posStart, e.context) == Some([]);
      assert TracebackHeader + Concat([]) == TracebackHeader + "";
      assert Traceback(style, e) == Some(TracebackHeader + "");
    }
  }

  // ---------------------------------------------------------------- run

  /** The empty program lexes to TT_EOF alone, which `expr()` rejects, and binds nothing. */
  lemma EmptyProgram(globals: Env, pow: PowFn)
    ensures Run("", globals, pow) ==
      (ParseFailed(SyntaxAt(NewToken(EndOfFile, NoValue, Pos(0, 0, 0), None), NoExpr)), globals)
  {
    var toks := Tokenize("").tokens;
    assert PosAt("", 0) == Pos(0, 0, 0);
    assert toks == [NewToken(EndOfFile, NoValue, Pos(0, 0, 0), None)];
    BasicParserLaws.EmptyInput(toks);
  }
}
