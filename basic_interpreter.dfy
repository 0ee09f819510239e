/** The tree-walking evaluator of Basic.ts and its `run` pipeline.

    Every value is a `Number`: a real, the span it was produced at and the frame it was
    made in. `Eval` defines what each `visit…` method computes, with the own bindings of
    the frame's symbol table threaded through (an assignment anywhere in the tree binds
    there, and later visits see it). Evaluation is structural, so no fuel is needed.
    `Math.pow` is the parameter `pow`. The class `Interpreter` visits with a mutable
    `SymbolTable` and is proved to compute exactly `Eval`. */
module BasicInterpreter {
  import opened Common
  import opened Source
  import opened BasicLexer
  import opened BasicParser
  import opened Scope

  /** A `Number` object: `value`, `posStart`/`posEnd` (absent until `setPos`) and
      `context` (absent until `setContext`). */
  datatype Number = Number(value: real, span: Option<Span>, context: Option<Context>)

  type Env = map<string, Number>

  /** What a visit's `RunTimeResult` holds: a value, an error, or a path on which the
      source throws a JavaScript exception instead (reading a method of a non-Number). */
  datatype Result = Yields(number: Number) | Fails(error: RunTimeError) | Unmodelled

  /** A visit's result and the own bindings of the table afterwards. */
  datatype Step = Step(result: Result, own: Env)

  /** `Math.pow`, which is not modelled. */
  type PowFn = (real, real) -> real

  function NodeSpan(n: Node): Span
  {
    Span(PosStart(n), PosEnd(n))
  }

  /** `value.setPos(node.posStart, node.posEnd)`. */
  function Stamp(v: Number, n: Node): Number
  {
    v.(span := Some(NodeSpan(n)))
  }

  function StartOf(v: Number): Option<Pos>
  {
    if v.span.Some? then Some(v.span.value.start) else None
  }

  function EndOf(v: Number): Option<Pos>
  {
    if v.span.Some? then Some(v.span.value.end) else None
  }

  /** The node whose span a visit's value carries: an assignment returns its value's
      visit unchanged. */
  function SpanNode(n: Node): Node
  {
    if n.VarAssignNode? then SpanNode(n.valueNode) else n
  }

  /** A tree that contains no assignment. */
  predicate Assigns(n: Node)
  {
    match n
    case NumberNode(_) => false
    case VarAccessNode(_) => false
    case VarAssignNode(_, _) => true
    case BinOpNode(l, _, r) => Assigns(l) || Assigns(r)
    case UnaryOpNode(_, m) => Assigns(m)
  }

  /** A frame is absent (a value never given one, like the global `null`) or the visiting
      frame. */
  predicate FromFrame(c: Option<Context>, ctx: Context)
  {
    c.None? || c == Some(ctx)
  }

  predicate EnvFrom(e: Env, ctx: Context)
  {
    forall k | k in e :: FromFrame(e[k].context, ctx)
  }

  predicate ResultFrom(r: Result, ctx: Context)
  {
    (r.Yields? ==> FromFrame(r.number.context, ctx)) &&
    (r.Fails? ==> FromFrame(r.error.context, ctx))
  }

  // ---------------------------------------------------------------- Number's methods

  /** The `[result, error]` pair of `left.add(right)`, `subtract`, `multiply`, `divide`
      and `power`: a new Number in the left operand's frame, with no span; dividing by
      0 is an error at the right operand in the left operand's frame. */
  function Method(k: TokenType, left: Number, right: Number, pow: PowFn): (r: Option<(Option<Number>, Option<RunTimeError>)>)
    ensures r.Some? <==> k in {Plus, Minus, Mul, Div, Pow}
    ensures r.Some? ==> (r.value.0.Some? <==> r.value.1.None?)
    ensures r.Some? && r.value.0.Some? ==> r.value.0.value.span.None? && r.value.0.value.context == left.context
    ensures r.Some? && r.value.1.Some? ==>
      k == Div && right.value == 0.0 &&
      r.value.1.value == RunTimeError(StartOf(right), EndOf(right), "Cannot divide by 0", left.context)
  {
    var made := (x: real) => Some((Some(Number(x, None, left.context)), None));
    if k == Plus then made(left.value + right.value)
    else if k == Minus then made(left.value - right.value)
    else if k == Mul then made(left.value * right.value)
    else if k == Div then
      if right.value == 0.0 then Some((None, Some(RunTimeError(StartOf(right), EndOf(right), "Cannot divide by 0", left.context))))
      else made(left.value / right.value)
    else if k == Pow then made(pow(left.value, right.value))
    else None
  }

  // ---------------------------------------------------------------- visit

  /** `visit(node, context)`. The value of a visit carries the span of the node that made
      it; every error has a position; an assignment-free tree binds nothing; and in an
      environment whose values come from the visiting frame (or from none), so do all
      produced values and errors. */
  function Eval(n: Node, ctx: Context, own: Env, outer: Env, pow: PowFn): (r: Step)
    decreases n, 1
    ensures own.Keys <= r.own.Keys
    ensures !Assigns(n) ==> r.own == own
    ensures r.result.Yields? ==> r.result.number.span == Some(NodeSpan(SpanNode(n)))
    ensures r.result.Fails? ==> r.result.error.posStart.Some? && r.result.error.posEnd.Some?
    ensures EnvFrom(own, ctx) && EnvFrom(outer, ctx) ==> EnvFrom(r.own, ctx) && ResultFrom(r.result, ctx)
  {
    match n
    case NumberNode(t) =>
      Step(if t.value.NumValue? then Yields(Number(t.value.num, Some(NodeSpan(n)), Some(ctx))) else Unmodelled, own)
    case VarAccessNode(_) => Step(Access(n, ctx, own, outer), own)
    case VarAssignNode(_, _) => EvalAssign(n, ctx, own, outer, pow)
    case BinOpNode(_, _, _) => EvalBinOp(n, ctx, own, outer, pow)
    case UnaryOpNode(_, _) => EvalUnary(n, ctx, own, outer, pow)
  }

  // ---------------------------------------------------------------- visitBinOpNode

  /** Both operands in order, each stopping the visit on failure, then the operator. */
  function EvalBinOp(n: Node, ctx: Context, own: Env, outer: Env, pow: PowFn): (r: Step)
    requires n.BinOpNode?
    decreases n, 0
    ensures own.Keys <= r.own.Keys
    ensures !Assigns(n) ==> r.own == own
    ensures r.result.Yields? ==> r.result.number.span == Some(NodeSpan(n))
    ensures r.result.Fails? ==> r.result.error.posStart.Some? && r.result.error.posEnd.Some?
    ensures EnvFrom(own, ctx) && EnvFrom(outer, ctx) ==> EnvFrom(r.own, ctx) && ResultFrom(r.result, ctx)
  {
    var left := Eval(n.leftNode, ctx, own, outer, pow);
    if !left.result.Yields? then left
    else
      var right := Eval(n.rightNode, ctx, left.own, outer, pow);
      if !right.result.Yields? then right
      else Step(Operate(n, left.result.number, right.result.number, pow), right.own)
  }

  /** The left operand's method for the operator: its error, or its result stamped with
      the node's span. */
  function Operate(n: Node, left: Number, right: Number, pow: PowFn): (r: Result)
    requires n.BinOpNode?
    ensures r.Yields? ==> r.number.span == Some(NodeSpan(n)) && r.number.context == left.context
    ensures r.Fails? ==> r.error.posStart == StartOf(right) && r.error.posEnd == EndOf(right) &&
                         r.error.context == left.context
    ensures r.Unmodelled? <==> n.opToken.kind !in {Plus, Minus, Mul, Div, Pow}
  {
    match Method(n.opToken.kind, left, right, pow)
    case None => Unmodelled
    case Some((result, error)) =>
      if error.Some? then Fails(error.value) else Yields(Stamp(result.value, n))
  }

  // ---------------------------------------------------------------- visitUnaryOpNode

  function EvalUnary(n: Node, ctx: Context, own: Env, outer: Env, pow: PowFn): (r: Step)
    requires n.UnaryOpNode?
    decreases n, 0
    ensures own.Keys <= r.own.Keys
    ensures !Assigns(n) ==> r.own == own
    ensures r.result.Yields? ==> r.result.number.span == Some(NodeSpan(n))
    ensures r.result.Fails? ==> r.result.error.posStart.Some? && r.result.error.posEnd.Some?
    ensures EnvFrom(own, ctx) && EnvFrom(outer, ctx) ==> EnvFrom(r.own, ctx) && ResultFrom(r.result, ctx)
  {
    var operand := Eval(n.node, ctx, own, outer, pow);
    if !operand.result.Yields? then operand
    else Step(Yields(Unary(n, operand.result.number, pow)), operand.own)
  }

  /** `-` multiplies by a new `Number(-1)`; any other operator keeps the operand; either
      is stamped with the node's span. The frame is the operand's. */
  function Unary(n: Node, v: Number, pow: PowFn): (r: Number)
    requires n.UnaryOpNode?
    ensures r.span == Some(NodeSpan(n)) && r.context == v.context
    ensures r.value == if n.opToken.kind == Minus then -v.value else v.value
  {
    if n.opToken.kind == Minus then
      var product := Method(Mul, v, Number(-1.0, None, None), pow).value.0.value;
      Stamp(product, n)
    else Stamp(v, n)
  }

  // ---------------------------------------------------------------- visitVarAssignNode

  function EvalAssign(n: Node, ctx: Context, own: Env, outer: Env, pow: PowFn): (r: Step)
    requires n.VarAssignNode?
    decreases n, 0
    ensures own.Keys <= r.own.Keys
    ensures r.result.Yields? ==> r.result.number.span == Some(NodeSpan(SpanNode(n)))
    ensures r.result.Fails? ==> r.result.error.posStart.Some? && r.result.error.posEnd.Some?
    ensures EnvFrom(own, ctx) && EnvFrom(outer, ctx) ==> EnvFrom(r.own, ctx) && ResultFrom(r.result, ctx)
  {
    var value := Eval(n.valueNode, ctx, own, outer, pow);
    if !value.result.Yields? then value
    else Bind(n, value.result.number, value.own)
  }

  /** The visited value is bound under the name, as it is, and returned. */
  function Bind(n: Node, v: Number, own: Env): (r: Step)
    requires n.VarAssignNode?
    ensures r.result.Yields? ==> n.varNameToken.value.StrValue? && r.result.number == v && r.own == own[n.varNameToken.value.str := v]
    ensures r.result.Unmodelled? ==> r.own == own
    ensures !r.result.Fails?
  {
    if !n.varNameToken.value.StrValue? || n.varNameToken.value.str == "__proto__" then Step(Unmodelled, own)
    else Step(Yields(v), own[n.varNameToken.value.str := v])
  }

  // ---------------------------------------------------------------- visitVarAccessNode

  /** A copy of the stored value with the node's span (its real and its frame kept), or
      an error at the node, in the visiting frame, for an unbound name. */
  function Access(n: Node, ctx: Context, own: Env, outer: Env): (r: Result)
    requires n.VarAccessNode?
    ensures n.varNameToken.value.StrValue? && !Inherited(n.varNameToken.value.str, own) ==>
      var name := n.varNameToken.value.str;
      && (r.Yields? <==> name in own || name in outer)
      && (r.Yields? ==> r.number == Stamp((outer + own)[name], n))
      && (r.Fails? ==> r.error == RunTimeError(Some(PosStart(n)), Some(PosEnd(n)), name + " is not defined", Some(ctx)))
    ensures r.Yields? ==> r.number.span == Some(NodeSpan(n))
    ensures EnvFrom(own, ctx) && EnvFrom(outer, ctx) ==> ResultFrom(r, ctx)
  {
    if !n.varNameToken.value.StrValue? || Inherited(n.varNameToken.value.str, own) then Unmodelled
    else
      var name := n.varNameToken.value.str;
      match Resolve(own, outer, name)
      case Some(v) => Yields(Stamp(v, n))
      case None => Fails(RunTimeError(Some(PosStart(n)), Some(PosEnd(n)), name + " is not defined", Some(ctx)))
  }

  // ---------------------------------------------------------------- the interpreter object

  /** The `Interpreter` object holds no state; its visits change only the frame's table. */
  class Interpreter {
    constructor ()
    {
    }

    /** `visit(node, context)` with `context.symbolTable` passed as `table`: the visit
        computes `Eval` and leaves the new own bindings in `symbols`; the parent chain is
        untouched. */
    method Visit(node: Node, ctx: Context, table: SymbolTable<Number>, pow: PowFn) returns (r: Result)
      requires table.Valid()
      modifies table
      decreases node, 1
      ensures table.Valid() && table.parent == old(table.parent) && table.Repr == old(table.Repr)
      ensures table.Outer() == old(table.Outer())
      ensures Step(r, table.symbols) == Eval(node, ctx, old(table.symbols), old(table.Outer()), pow)
    {
      match node {
        case NumberNode(t) =>
          r := if t.value.NumValue? then Yields(Number(t.value.num, Some(NodeSpan(node)), Some(ctx))) else Unmodelled;
        case VarAccessNode(_) =>
          r := VisitAccess(node, ctx, table);
        case VarAssignNode(_, _) =>
          r := VisitAssign(node, ctx, table, pow);
        case BinOpNode(_, _, _) =>
          r := VisitBinOp(node, ctx, table, pow);
        case UnaryOpNode(_, _) =>
          r := VisitUnary(node, ctx, table, pow);
      }
    }

    method VisitBinOp(node: Node, ctx: Context, table: SymbolTable<Number>, pow: PowFn) returns (r: Result)
      requires node.BinOpNode? && table.Valid()
      modifies table
      decreases node, 0
      ensures table.Valid() && table.parent == old(table.parent) && table.Repr == old(table.Repr)
      ensures table.Outer() == old(table.Outer())
      ensures Step(r, table.symbols) == EvalBinOp(node, ctx, old(table.symbols), old(table.Outer()), pow)
    {
      var left := Visit(node.leftNode, ctx, table, pow);
      if !left.Yields? {
        return left;
      }
      var right := Visit(node.rightNode, ctx, table, pow);
      if !right.Yields? {
        return right;
      }
      r := Operate(node, left.number, right.number, pow);
    }

    method VisitUnary(node: Node, ctx: Context, table: SymbolTable<Number>, pow: PowFn) returns (r: Result)
      requires node.UnaryOpNode? && table.Valid()
      modifies table
      decreases node, 0
      ensures table.Valid() && table.parent == old(table.parent) && table.Repr == old(table.Repr)
      ensures table.Outer() == old(table.Outer())
      ensures Step(r, table.symbols) == EvalUnary(node, ctx, old(table.symbols), old(table.Outer()), pow)
    {
      var number := Visit(node.node, ctx, table, pow);
      if !number.Yields? {
        return number;
      }
      r := Yields(Unary(node, number.number, pow));
    }

    method VisitAssign(node: Node, ctx: Context, table: SymbolTable<Number>, pow: PowFn) returns (r: Result)
      requires node.VarAssignNode? && table.Valid()
      modifies table
      decreases node, 0
      ensures table.Valid() && table.parent == old(table.parent) && table.Repr == old(table.Repr)
      ensures table.Outer() == old(table.Outer())
      ensures Step(r, table.symbols) == EvalAssign(node, ctx, old(table.symbols), old(table.Outer()), pow)
    {
      var value := Visit(node.valueNode, ctx, table, pow);
      if !value.Yields? {
        return value;
      }
      var b := Bind(node, value.number, table.symbols);
      if b.result.Yields? {
        table.Set(node.varNameToken.value.str, value.number);
      }
      r := b.result;
    }

    method VisitAccess(node: Node, ctx: Context, table: SymbolTable<Number>) returns (r: Result)
      requires node.VarAccessNode? && table.Valid()
      ensures r == Access(node, ctx, table.symbols, table.Outer())
    {
      var t := node.varNameToken;
      if !t.value.StrValue? || Inherited(t.value.str, table.symbols) {
        return Unmodelled;
      }
      var v := table.Get(t.value.str);
      if v.None? {
        return Fails(RunTimeError(Some(PosStart(node)), Some(PosEnd(node)), t.value.str + " is not defined", Some(ctx)));
      }
      return Yields(Stamp(v.value, node));
    }
  }

  // ---------------------------------------------------------------- run

  /** The `[value, error]` pair `run` returns, by which stage produced it. */
  datatype RunOutcome = LexFailed(lexError: LexError) | ParseFailed(syntaxError: LexError) | Ran(result: Result)

  /** The frame every program is visited in. */
  const ProgramContext := Context("<program>", None, None)

  /** The module-level `globalSymbolTable`'s bindings before any run: `null` is a Number
      0 with neither span nor frame. */
  const InitialGlobals: Env := map["null" := Number(0.0, None, None)]

  /** `run(fileName, text)` against the global table's bindings `globals`: the outcome and
      the bindings afterwards, which the next run starts from. A failed stage leaves the
      table as it was, a completed visit may only add or rebind names, and a runtime error
      always has a position. */
  function Run(text: string, globals: Env, pow: PowFn): (r: (RunOutcome, Env))
    ensures !r.0.Ran? ==> r.1 == globals
    ensures globals.Keys <= r.1.Keys
    ensures r.0.LexFailed? <==> Tokenize(text).error.Some?
    ensures r.0.Ran? && r.0.result.Fails? ==> r.0.result.error.posStart.Some?
    ensures EnvFrom(globals, ProgramContext) ==> EnvFrom(r.1, ProgramContext)
  {
    var lexed := Tokenize(text);
    if lexed.error.Some? then (LexFailed(lexed.error.value), globals)
    else
      TokenizeShape(text);
      var ast := Parse(lexed.tokens);
      if ast.error.Some? then (ParseFailed(ast.error.value), globals)
      else
        var s := Eval(ast.node.value, ProgramContext, globals, map[], pow);
        (Ran(s.result), s.own)
  }

  /** `run(fileName, text)` with `globalSymbolTable` as `table`: the stages as objects, each
      proved to compute its function, so the whole run computes `Run`. */
  method RunProgram(fileName: string, text: string, table: SymbolTable<Number>, pow: PowFn) returns (r: RunOutcome)
    requires table.Valid() && table.parent == null
    modifies table
    ensures table.Valid() && table.parent == null
    ensures (r, table.symbols) == Run(text, old(table.symbols), pow)
  {
    var lexed := Lex(fileName, text);
    if lexed.error.Some? {
      return LexFailed(lexed.error.value);
    }
    TokenizeShape(text);
    var ast := ParseTokens(lexed.tokens);
    if ast.error.Some? {
      return ParseFailed(ast.error.value);
    }
    var interpreter := new Interpreter();
    var context := ProgramContext;
    var result := interpreter.Visit(ast.node.value, context, table, pow);
    return Ran(result);
  }
}
