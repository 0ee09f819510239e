/** The tree-walking evaluator of Interpreter.ts.

    `Eval` and its per-node helpers define what each `visit_…` method computes: a result
    and the new own bindings of the scope's symbol table (a declaration anywhere in the
    tree binds there, and later visits see it). `fuel` bounds only the re-visiting of a
    stored array element, the one place where evaluation is not structural: an array can
    hold a node that indexes itself. The class `Interpreter` visits with a mutable
    `SymbolTable` and is proved to compute exactly `Eval`. */
module Interpreter {
  import opened Common
  import opened Source
  import opened Lexer
  import opened Parser
  import opened Scope
  import opened Values

  type Env = map<string, Value>

  /** A visit's result and the own bindings of the table afterwards. */
  datatype Step = Step(result: RTResult, own: Env)

  /** `TokenType[kind]`, the enum member's name. */
  function TokenTypeName(k: TokenType): string
  {
    match k
    case Type => "Type"
    case Number => "Number"
    case String => "String"
    case Boolean => "Boolean"
    case Identifier => "Identifier"
    case Keyword => "Keyword"
    case Equals => "Equals"
    case EndOfFile => "EndOfFile"
    case SemiColon => "SemiColon"
    case LBrace => "LBrace"
    case RBrace => "RBrace"
    case LParen => "LParen"
    case RParen => "RParen"
    case LSqr => "LSqr"
    case RSqr => "RSqr"
    case Comma => "Comma"
    case Plus => "Plus"
    case Minus => "Minus"
    case Multiply => "Multiply"
    case Divide => "Divide"
    case EE => "EE"
    case NE => "NE"
    case LT => "LT"
    case LTE => "LTE"
    case GT => "GT"
    case GTE => "GTE"
    case Not => "Not"
    case Or => "Or"
    case And => "And"
  }

  function NodeSpan(n: Node): Span
  {
    Span(PosStart(n), PosEnd(n))
  }

  /** An error located at a node and raised in the visiting frame. */
  function AtNode(n: Node, details: string, ctx: Context): RunTimeError
  {
    RunTimeError(Some(PosStart(n)), Some(PosEnd(n)), details, Some(ctx))
  }

  /** `value.setPos(node.posStart, node.posEnd)`. */
  function Stamp(v: Value, n: Node): Value
  {
    v.(span := Some(NodeSpan(n)))
  }

  /** A value made by a literal's visitor: the node's span and the visiting frame. */
  function Literal(v: Val, n: Node, ctx: Context): RTResult
  {
    Yields(Some(Value(v, Some(NodeSpan(n)), Some(ctx))))
  }

  /** Every value carries the frame it was made in. */
  predicate EnvInContext(e: Env)
  {
    forall k | k in e :: e[k].context.Some?
  }

  /** Every produced value and error carries a frame, so its traceback names one. */
  predicate InContext(r: RTResult)
  {
    (r.Yields? && r.value.Some? ==> r.value.value.context.Some?) &&
    (r.Fails? ==> r.error.context.Some?)
  }

  /** `visit(node, context)`. Declarations only ever add or rebind own names; evaluated in
      an environment whose values all carry a frame, every value and error it produces
      carries one as well. */
  function Eval(fuel: nat, n: Node, ctx: Context, own: Env, outer: Env): (r: Step)
    decreases fuel, n, 2
    ensures own.Keys <= r.own.Keys
    ensures EnvInContext(own) && EnvInContext(outer) ==> EnvInContext(r.own) && InContext(r.result)
  {
    match n
    case NumberNode(t) => Step(if t.value.NumValue? then Literal(Num(t.value.num), n, ctx) else Unmodelled, own)
    case StringNode(t) => Step(if t.value.StrValue? then Literal(Str(t.value.str), n, ctx) else Unmodelled, own)
    case BooleanNode(t) => Step(if t.value.BoolValue? then Literal(Bool(t.value.b), n, ctx) else Unmodelled, own)
    case ArrayNode(elements, _, _) => Step(Literal(Arr(elements), n, ctx), own)
    case VarAccessNode(_) => Step(Access(n, ctx, own, outer), own)
    case VarAssignNode(_, _, _) => EvalAssign(fuel, n, ctx, own, outer)
    case BinOpNode(_, _, _) => EvalBinOp(fuel, n, ctx, own, outer)
    case UnaryOpNode(_, _) => EvalUnary(fuel, n, ctx, own, outer)
    case IfNode(_, _, _) => EvalIf(fuel, n, ctx, own, outer)
    case AccessIndexNode(_, _, _, _) => EvalIndex(fuel, n, ctx, own, outer)
  }

  // ---------------------------------------------------------------- visit_BinOpNode

  /** Both operands in order, each stopping the visit on failure, then the operator. */
  function EvalBinOp(fuel: nat, n: Node, ctx: Context, own: Env, outer: Env): (r: Step)
    requires n.BinOpNode?
    decreases fuel, n, 1
    ensures own.Keys <= r.own.Keys
    ensures EnvInContext(own) && EnvInContext(outer) ==> EnvInContext(r.own) && InContext(r.result)
  {
    var left := Eval(fuel, n.leftNode, ctx, own, outer);
    if !left.result.Yields? then left
    else
      var right := Eval(fuel, n.rightNode, ctx, left.own, outer);
      if !right.result.Yields? then right
      else Step(Apply(n, ctx, left.result.value, right.result.value), right.own)
  }

  /** The operator method of the left operand applied to the right one; a class without
      that method is an error at the node, and a result is stamped with the node's span. */
  function Apply(n: Node, ctx: Context, left: Option<Value>, right: Option<Value>): (r: RTResult)
    requires n.BinOpNode?
    ensures !r.Exhausted?
    ensures left.Some? && left.value.context.Some? ==> InContext(r)
    ensures left.None? ==> r == Unmodelled
    ensures left.Some? && (OperatorOf(n.opToken.kind).None? || !HasMethod(left.value.val, OperatorOf(n.opToken.kind).value)) ==>
      r == Fails(AtNode(n, "Operator '" + TokenTypeName(n.opToken.kind) + "' cannot be applied to type " +
        ClassName(left.value.val), ctx))
    ensures r.Yields? && r.value.Some? ==> r.value.value.span == Some(NodeSpan(n))
  {
    if left.None? then Unmodelled
    else
      var op := OperatorOf(n.opToken.kind);
      var applied := if op.Some? then Dispatch(op.value, left.value, right) else None;
      match applied
      case None =>
        Fails(AtNode(n, "Operator '" + TokenTypeName(n.opToken.kind) + "' cannot be applied to type " +
          ClassName(left.value.val), ctx))
      case Some(d) =>
        if d.Yields? && d.value.Some? then Yields(Some(Stamp(d.value.value, n))) else d
  }

  // ---------------------------------------------------------------- visit_UnaryOpNode

  function EvalUnary(fuel: nat, n: Node, ctx: Context, own: Env, outer: Env): (r: Step)
    requires n.UnaryOpNode?
    decreases fuel, n, 1
    ensures own.Keys <= r.own.Keys
    ensures EnvInContext(own) && EnvInContext(outer) ==> EnvInContext(r.own) && InContext(r.result)
  {
    var operand := Eval(fuel, n.node, ctx, own, outer);
    if !operand.result.Yields? then operand
    else Step(Unary(n, ctx, operand.result.value), operand.own)
  }

  /** `-` negates a Number and `!` inverts a Boolean, each stamped with the node's span;
      either on another class is an error at the operand; any other operator re-stamps
      the operand. */
  function Unary(n: Node, ctx: Context, operand: Option<Value>): (r: RTResult)
    requires n.UnaryOpNode?
    ensures !r.Exhausted?
    ensures operand.Some? && operand.value.context.Some? ==> InContext(r)
    ensures operand.None? ==> r == Unmodelled
    ensures operand.Some? && n.opToken.kind == Minus && operand.value.val.Num? ==>
      r.Yields? && r.value.Some? && r.value.value.val == Num(-operand.value.val.num) &&
      r.value.value.span == Some(NodeSpan(n)) && r.value.value.context == operand.value.context
    ensures operand.Some? && n.opToken.kind == Minus && !operand.value.val.Num? ==>
      r == Fails(RunTimeError(StartOf(operand.value), EndOf(operand.value),
        "The '-' operator cannot be applied to operand of type '" + ClassName(operand.value.val) + "'", Some(ctx)))
    ensures operand.Some? && n.opToken.kind == Not && operand.value.val.Bool? ==>
      r.Yields? && r.value.Some? && r.value.value.val == Bool(!operand.value.val.b) &&
      r.value.value.span == Some(NodeSpan(n)) && r.value.value.context == operand.value.context
    ensures operand.Some? && n.opToken.kind == Not && !operand.value.val.Bool? ==>
      r == Fails(RunTimeError(StartOf(operand.value), EndOf(operand.value),
        "The '!' operator cannot be applied to operand of type '" + ClassName(operand.value.val) + "'", Some(ctx)))
    ensures operand.Some? && n.opToken.kind != Minus && n.opToken.kind != Not ==>
      r == Yields(Some(operand.value.(span := Some(NodeSpan(n)))))
  {
    if operand.None? then Unmodelled
    else
      var v := operand.value;
      if n.opToken.kind == Minus then
        if v.val.Num? then Yields(Some(Stamp(Negated(v), n)))
        else Fails(RunTimeError(StartOf(v), EndOf(v),
          "The '-' operator cannot be applied to operand of type '" + ClassName(v.val) + "'", Some(ctx)))
      else if n.opToken.kind == Not then
        if v.val.Bool? then Yields(Some(Stamp(Inverted(v), n)))
        else Fails(RunTimeError(StartOf(v), EndOf(v),
          "The '!' operator cannot be applied to operand of type '" + ClassName(v.val) + "'", Some(ctx)))
      else Yields(Some(Stamp(v, n)))
  }

  /** `visit_UnaryOpNode` as written: the successful `-` and `!` paths keep the method's
      `[result, error]` pair as the operand and then call `setPos` on the pair, which has
      no such method. */
  function UnaryAsWritten(n: Node, ctx: Context, operand: Option<Value>): RTResult
    requires n.UnaryOpNode?
  {
    if operand.Some? && ((n.opToken.kind == Minus && operand.value.val.Num?) ||
                         (n.opToken.kind == Not && operand.value.val.Bool?))
    then Unmodelled
    else Unary(n, ctx, operand)
  }

  // ---------------------------------------------------------------- visit_VarAssignNode

  function EvalAssign(fuel: nat, n: Node, ctx: Context, own: Env, outer: Env): (r: Step)
    requires n.VarAssignNode?
    decreases fuel, n, 1
    ensures own.Keys <= r.own.Keys
    ensures EnvInContext(own) && EnvInContext(outer) ==> EnvInContext(r.own) && InContext(r.result)
  {
    var value := Eval(fuel, n.valueNode, ctx, own, outer);
    if !value.result.Yields? then value
    else Declare(n, ctx, value.result.value, value.own)
  }

  /** A value whose class's type word is the declared type is bound under the name and
      returned; any other is an error at the declaration and binds nothing. */
  function Declare(n: Node, ctx: Context, value: Option<Value>, own: Env): (r: Step)
    requires n.VarAssignNode?
    ensures own.Keys <= r.own.Keys
    ensures value.Some? && value.value.context.Some? && EnvInContext(own) ==> EnvInContext(r.own) && InContext(r.result)
    ensures n.nameToken.value.StrValue? ==> r.own.Keys <= own.Keys + {n.nameToken.value.str}
    ensures !r.result.Yields? ==> r.own == own
  {
    if value.None? || !n.nameToken.value.StrValue? || !n.typeToken.value.StrValue? ||
       n.nameToken.value.str == "__proto__"
    then Step(Unmodelled, own)
    else
      var v, word, ty := value.value, TypeWord(value.value.val), n.typeToken.value.str;
      if ty != word then
        Step(Fails(AtNode(n, "Cannot implicitly convert type '" + word + "' to '" + ty + "'", ctx)), own)
      else Step(Yields(Some(v)), own[n.nameToken.value.str := v])
  }

  // ---------------------------------------------------------------- visit_VarAccessNode

  /** The stored value itself (not a copy), or an error at the node for an unbound name. */
  function Access(n: Node, ctx: Context, own: Env, outer: Env): (r: RTResult)
    requires n.VarAccessNode?
    ensures EnvInContext(own) && EnvInContext(outer) ==> InContext(r)
  {
    if !n.varNameToken.value.StrValue? || Inherited(n.varNameToken.value.str, own) then Unmodelled
    else
      var name := n.varNameToken.value.str;
      match Resolve(own, outer, name)
      case Some(v) => Yields(Some(v))
      case None => Fails(AtNode(n, name + " is not defined", ctx))
  }

  // ---------------------------------------------------------------- visit_IfNode

  /** The condition must be a Boolean; then exactly one branch, or none, is visited. */
  function EvalIf(fuel: nat, n: Node, ctx: Context, own: Env, outer: Env): (r: Step)
    requires n.IfNode?
    decreases fuel, n, 1
    ensures own.Keys <= r.own.Keys
    ensures EnvInContext(own) && EnvInContext(outer) ==> EnvInContext(r.own) && InContext(r.result)
  {
    var cond := Eval(fuel, n.condition, ctx, own, outer);
    if !cond.result.Yields? then cond
    else if cond.result.value.None? then Step(Unmodelled, cond.own)
    else
      var c := cond.result.value.value;
      if !c.val.Bool? then
        Step(Fails(AtNode(n, "Condition cannot be of type " + ClassName(c.val), ctx)), cond.own)
      else if c.val.b then Eval(fuel, n.expr, ctx, cond.own, outer)
      else if n.elseExpr.Some? then Eval(fuel, n.elseExpr.value, ctx, cond.own, outer)
      else Step(Yields(None), cond.own)
  }

  // ---------------------------------------------------------------- visit_AccessIndexNode

  function EvalIndex(fuel: nat, n: Node, ctx: Context, own: Env, outer: Env): (r: Step)
    requires n.AccessIndexNode?
    decreases fuel, n, 1
    ensures own.Keys <= r.own.Keys
    ensures EnvInContext(own) && EnvInContext(outer) ==> EnvInContext(r.own) && InContext(r.result)
  {
    var item := Eval(fuel, n.target, ctx, own, outer);
    if !item.result.Yields? then item
    else
      var index := Eval(fuel, n.index, ctx, item.own, outer);
      if !index.result.Yields? then index
      else IndexInto(fuel, n, ctx, item.result.value, index.result.value, index.own, outer)
  }

  /** The index must be a Number and the item a String or an Array; an Array's element
      node is then visited in the same frame, and its result is the result. */
  function IndexInto(fuel: nat, n: Node, ctx: Context, item: Option<Value>, index: Option<Value>,
                     own: Env, outer: Env): (r: Step)
    requires n.AccessIndexNode?
    decreases fuel, n, 0
    ensures own.Keys <= r.own.Keys
    ensures (item.Some? ==> item.value.context.Some?) && EnvInContext(own) && EnvInContext(outer) ==>
      EnvInContext(r.own) && InContext(r.result)
  {
    if index.None? then Step(Unmodelled, own)
    else if !index.value.val.Num? then
      Step(Fails(AtNode(n, "Index cannot be of type " + ClassName(index.value.val), ctx)), own)
    else if item.None? then Step(Unmodelled, own)
    else
      var v, i := item.value, index.value.val.num;
      match v.val
      case Str(_) => Step(StringIndex(v, i), own)
      case Arr(_) =>
        (match ArrayIndex(v, i)
         case FetchFailed(e) => Step(Fails(e), own)
         case NoElement => Step(Unmodelled, own)
         case Element(node) => if fuel == 0 then Step(Exhausted, own) else Eval(fuel - 1, node, ctx, own, outer))
      case _ => Step(Fails(AtNode(n, "Cannot get index of type " + ClassName(v.val), ctx)), own)
  }

  /** The result of an array element's visit as lines 652-653 hand it on: `register`
      adopts the element's error, and `failure(error)` then overwrites it with the `null`
      that `getIndex` returned beside the element. */
  function ElementAsWritten(element: RTResult): RTResult
  {
    if element.Fails? then AsResult(Failure(Register(Fresh, RunTimeResult(None, Some(element.error))), None))
    else element
  }

  // ---------------------------------------------------------------- the class

  /** The visitor object. `fileText` is what the source keeps in a module variable for
      the errors' underlining. */
  class Interpreter {
    const fileText: string

    constructor (fileText: string)
      ensures this.fileText == fileText
    {
      this.fileText := fileText;
    }

    /** `visit(node, context)` with `context.symbolTable` passed as `table`: the visit
        computes `Eval`, and leaves the table's new own bindings in `symbols`; the parent
        chain is untouched. */
    method Visit(fuel: nat, node: Node, ctx: Context, table: SymbolTable<Value>) returns (r: RTResult)
      requires table.Valid()
      modifies table
      decreases fuel, node, 2
      ensures table.Valid() && table.parent == old(table.parent) && table.Repr == old(table.Repr)
      ensures table.Outer() == old(table.Outer())
      ensures Step(r, table.symbols) == Eval(fuel, node, ctx, old(table.symbols), old(table.Outer()))
    {
      match node {
        case NumberNode(t) =>
          r := if t.value.NumValue? then Literal(Num(t.value.num), node, ctx) else Unmodelled;
        case StringNode(t) =>
          r := if t.value.StrValue? then Literal(Str(t.value.str), node, ctx) else Unmodelled;
        case BooleanNode(t) =>
          r := if t.value.BoolValue? then Literal(Bool(t.value.b), node, ctx) else Unmodelled;
        case ArrayNode(elements, _, _) =>
          r := Literal(Arr(elements), node, ctx);
        case VarAccessNode(_) =>
          r := VisitAccess(node, ctx, table);
        case VarAssignNode(_, _, _) =>
          r := VisitAssign(fuel, node, ctx, table);
        case BinOpNode(_, _, _) =>
          r := VisitBinOp(fuel, node, ctx, table);
        case UnaryOpNode(_, _) =>
          r := VisitUnary(fuel, node, ctx, table);
        case IfNode(_, _, _) =>
          r := VisitIf(fuel, node, ctx, table);
        case AccessIndexNode(_, _, _, _) =>
          r := VisitIndex(fuel, node, ctx, table);
      }
    }

    method VisitBinOp(fuel: nat, node: Node, ctx: Context, table: SymbolTable<Value>) returns (r: RTResult)
      requires node.BinOpNode? && table.Valid()
      modifies table
      decreases fuel, node, 1
      ensures table.Valid() && table.parent == old(table.parent) && table.Repr == old(table.Repr)
      ensures table.Outer() == old(table.Outer())
      ensures Step(r, table.symbols) == EvalBinOp(fuel, node, ctx, old(table.symbols), old(table.Outer()))
    {
      var left := Visit(fuel, node.leftNode, ctx, table);
      if !left.Yields? {
        return left;
      }
      var right := Visit(fuel, node.rightNode, ctx, table);
      if !right.Yields? {
        return right;
      }
      r := Apply(node, ctx, left.value, right.value);
    }

    method VisitUnary(fuel: nat, node: Node, ctx: Context, table: SymbolTable<Value>) returns (r: RTResult)
      requires node.UnaryOpNode? && table.Valid()
      modifies table
      decreases fuel, node, 1
      ensures table.Valid() && table.parent == old(table.parent) && table.Repr == old(table.Repr)
      ensures table.Outer() == old(table.Outer())
      ensures Step(r, table.symbols) == EvalUnary(fuel, node, ctx, old(table.symbols), old(table.Outer()))
    {
      var operand := Visit(fuel, node.node, ctx, table);
      if !operand.Yields? {
        return operand;
      }
      r := Unary(node, ctx, operand.value);
    }

    method VisitAssign(fuel: nat, node: Node, ctx: Context, table: SymbolTable<Value>) returns (r: RTResult)
      requires node.VarAssignNode? && table.Valid()
      modifies table
      decreases fuel, node, 1
      ensures table.Valid() && table.parent == old(table.parent) && table.Repr == old(table.Repr)
      ensures table.Outer() == old(table.Outer())
      ensures Step(r, table.symbols) == EvalAssign(fuel, node, ctx, old(table.symbols), old(table.Outer()))
    {
      var value := Visit(fuel, node.valueNode, ctx, table);
      if !value.Yields? {
        return value;
      }
      var d := Declare(node, ctx, value.value, table.symbols);
      if d.result.Yields? {
        table.Set(node.nameToken.value.str, value.value.value);
      }
      r := d.result;
    }

    method VisitAccess(node: Node, ctx: Context, table: SymbolTable<Value>) returns (r: RTResult)
      requires node.VarAccessNode? && table.Valid()
      ensures r == Access(node, ctx, table.symbols, table.Outer())
    {
      var t := node.varNameToken;
      if !t.value.StrValue? || Inherited(t.value.str, table.symbols) {
        return Unmodelled;
      }
      var v := table.Get(t.value.str);
      if v.None? {
        return Fails(AtNode(node, t.value.str + " is not defined", ctx));
      }
      return Yields(v);
    }

    method VisitIf(fuel: nat, node: Node, ctx: Context, table: SymbolTable<Value>) returns (r: RTResult)
      requires node.IfNode? && table.Valid()
      modifies table
      decreases fuel, node, 1
      ensures table.Valid() && table.parent == old(table.parent) && table.Repr == old(table.Repr)
      ensures table.Outer() == old(table.Outer())
      ensures Step(r, table.symbols) == EvalIf(fuel, node, ctx, old(table.symbols), old(table.Outer()))
    {
      var cond := Visit(fuel, node.condition, ctx, table);
      if !cond.Yields? {
        return cond;
      }
      if cond.value.None? {
        return Unmodelled;
      }
      var c := cond.value.value;
      if !c.val.Bool? {
        return Fails(AtNode(node, "Condition cannot be of type " + ClassName(c.val), ctx));
      }
      if c.val.b {
        r := Visit(fuel, node.expr, ctx, table);
      } else if node.elseExpr.Some? {
        r := Visit(fuel, node.elseExpr.value, ctx, table);
      } else {
        r := Yields(None);
      }
    }

    method VisitIndex(fuel: nat, node: Node, ctx: Context, table: SymbolTable<Value>) returns (r: RTResult)
      requires node.AccessIndexNode? && table.Valid()
      modifies table
      decreases fuel, node, 1
      ensures table.Valid() && table.parent == old(table.parent) && table.Repr == old(table.Repr)
      ensures table.Outer() == old(table.Outer())
      ensures Step(r, table.symbols) == EvalIndex(fuel, node, ctx, old(table.symbols), old(table.Outer()))
    {
      var item := Visit(fuel, node.target, ctx, table);
      if !item.Yields? {
        return item;
      }
      var index := Visit(fuel, node.index, ctx, table);
      if !index.Yields? {
        return index;
      }
      r := VisitElement(fuel, node, ctx, item.value, index.value, table);
    }

    /** The `getIndex` call and, for an Array, the visit of the element node. */
    method VisitElement(fuel: nat, node: Node, ctx: Context, item: Option<Value>, index: Option<Value>,
                        table: SymbolTable<Value>) returns (r: RTResult)
      requires node.AccessIndexNode? && table.Valid()
      modifies table
      decreases fuel, node, 0
      ensures table.Valid() && table.parent == old(table.parent) && table.Repr == old(table.Repr)
      ensures table.Outer() == old(table.Outer())
      ensures Step(r, table.symbols) == IndexInto(fuel, node, ctx, item, index, old(table.symbols), old(table.Outer()))
    {
      if index.None? {
        return Unmodelled;
      }
      if !index.value.val.Num? {
        return Fails(AtNode(node, "Index cannot be of type " + ClassName(index.value.val), ctx));
      }
      if item.None? {
        return Unmodelled;
      }
      var v, i := item.value, index.value.val.num;
      match v.val {
        case Str(_) =>
          r := StringIndex(v, i);
        case Arr(_) =>
          match ArrayIndex(v, i) {
            case FetchFailed(e) =>
              r := Fails(e);
            case NoElement =>
              r := Unmodelled;
            case Element(element) =>
              if fuel == 0 {
                r := Exhausted;
              } else {
                r := Visit(fuel - 1, element, ctx, table);
              }
          }
        case _ =>
          r := Fails(AtNode(node, "Cannot get index of type " + ClassName(v.val), ctx));
      }
    }
  }
}
