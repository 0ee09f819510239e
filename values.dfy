/** The runtime values of Interpreter.ts (`Number`, `Boolean`, `String`, `Array`) and
    their operator methods, each of which returns a new value or an error. */
module Values {
  import opened Common
  import opened Source
  import opened Lexer
  import opened Parser
  import opened Scope

  /** The payload of a value. An `Array` holds element nodes, not values: they are
      evaluated when indexed. Numbers are exact reals, not IEEE doubles. */
  datatype Val = Num(num: real) | Bool(b: bool) | Str(s: string) | Arr(nodes: seq<Node>)

  /** A value with the span `setPos` gave it and the frame `setContext` gave it; either may
      be absent (`undefined`). */
  datatype Value = Value(val: Val, span: Option<Span>, context: Option<Context>)

  /** `constructor.name` of a value. */
  function ClassName(v: Val): string
  {
    match v
    case Num(_) => "Number"
    case Bool(_) => "Boolean"
    case Str(_) => "String"
    case Arr(_) => "Array"
  }

  /** `constructor.name.toLowerCase()`, the word a declaration's type must match. */
  function TypeWord(v: Val): string
  {
    match v
    case Num(_) => "number"
    case Bool(_) => "boolean"
    case Str(_) => "string"
    case Arr(_) => "array"
  }

  /** Every runtime class has a type word that the lexer reads as a `Type` token, and no
      two classes share one: every value can be declared under exactly one type. */
  lemma TypeWordsAreTypes(u: Val, v: Val)
    ensures TypeWord(v) in Types && ClassifyWord(TypeWord(v)).0 == Type
    ensures TypeWord(u) == TypeWord(v) <==> ClassName(u) == ClassName(v)
  {
  }

  function StartOf(v: Value): Option<Pos>
  {
    if v.span.Some? then Some(v.span.value.start) else None
  }

  function EndOf(v: Value): Option<Pos>
  {
    if v.span.Some? then Some(v.span.value.end) else None
  }

  /** What a visitor returns: its `RunTimeResult` (a value, possibly `undefined`, or an
      error), `Unmodelled` where the source throws a JavaScript `TypeError` or builds a
      value outside this model, and `Exhausted` when the evaluation bound runs out. */
  datatype RTResult = Yields(value: Option<Value>) | Fails(error: RunTimeError) | Unmodelled | Exhausted

  /** The `RunTimeResult` object: a value and an error, `null` or a `RunTimeError`. */
  datatype RunTimeResult = RunTimeResult(value: Option<Value>, error: Option<RunTimeError>)

  /** `new RunTimeResult()`. */
  const Fresh := RunTimeResult(None, None)

  /** `register(res)`: adopts the child's error, if any; the child's value is handed back
      to the caller, not stored. */
  function Register(r: RunTimeResult, child: RunTimeResult): RunTimeResult
  {
    if child.error.Some? then r.(error := child.error) else r
  }

  /** `success(value)`. */
  function Success(r: RunTimeResult, value: Option<Value>): RunTimeResult
  {
    r.(value := value)
  }

  /** `failure(error)`: overwrites whatever error is there, even with `null`. */
  function Failure(r: RunTimeResult, error: Option<RunTimeError>): RunTimeResult
  {
    r.(error := error)
  }

  /** Unlike the parser's accumulator, the runtime one has no sticky errors: the last
      failure wins, and a failure with `null` erases an adopted error. */
  lemma FailureOverwrites(r: RunTimeResult, child: RunTimeResult, e: Option<RunTimeError>)
    ensures Failure(Register(r, child), e).error == e
    ensures Failure(Register(r, child), e).value == r.value
    ensures Register(r, child).error.Some? <==> child.error.Some? || r.error.Some?
  {
  }

  /** What a visitor's `RunTimeResult` means: an error, or else its value. */
  function AsResult(r: RunTimeResult): RTResult
  {
    if r.error.Some? then Fails(r.error.value) else Yields(r.value)
  }

  // ---------------------------------------------------------------- operators

  /** The operator methods a `visit_BinOpNode` may look up. */
  datatype Operator =
    | OpAdd | OpSubtract | OpMultiply | OpDivide
    | OpEE | OpNE | OpLT | OpLTE | OpGT | OpGTE
    | OpAnd | OpOr

  /** The method `visit_BinOpNode` picks for a token type, if any. */
  function OperatorOf(k: TokenType): Option<Operator>
  {
    match k
    case Plus => Some(OpAdd)
    case Minus => Some(OpSubtract)
    case Multiply => Some(OpMultiply)
    case Divide => Some(OpDivide)
    case EE => Some(OpEE)
    case NE => Some(OpNE)
    case LT => Some(OpLT)
    case LTE => Some(OpLTE)
    case GT => Some(OpGT)
    case GTE => Some(OpGTE)
    case And => Some(OpAnd)
    case Or => Some(OpOr)
    case _ => None
  }

  /** The operator as the error messages spell it. */
  function Symbol(op: Operator): string
  {
    match op
    case OpAdd => "+"
    case OpSubtract => "-"
    case OpMultiply => "*"
    case OpDivide => "/"
    case OpEE => "=="
    case OpNE => "!="
    case OpLT => "<"
    case OpLTE => "<="
    case OpGT => ">"
    case OpGTE => ">="
    case OpAnd => "&&"
    case OpOr => "||"
  }

  /** Which classes define which operator methods. */
  predicate HasMethod(v: Val, op: Operator)
  {
    match v
    case Num(_) => op != OpAnd && op != OpOr
    case Bool(_) => op == OpEE || op == OpNE || op == OpAnd || op == OpOr
    case Str(_) => op == OpAdd || op == OpEE || op == OpNE
    case Arr(_) => false
  }

  predicate SameClass(u: Val, v: Val)
  {
    ClassName(u) == ClassName(v)
  }

  /** `this.value !== other.value` is the negation of this: payloads of one class that
      are equal (an `Array` has no `value`, so two arrays compare as `undefined`). */
  predicate SamePrimitive(u: Val, v: Val)
  {
    match (u, v)
    case (Num(a), Num(b)) => a == b
    case (Bool(a), Bool(b)) => a == b
    case (Str(a), Str(b)) => a == b
    case (Arr(_), Arr(_)) => true
    case _ => false
  }

  /** A new value made by an operator method: no span, the left operand's context. */
  function Made(v: Val, left: Value): RTResult
  {
    Yields(Some(Value(v, None, left.context)))
  }

  /** The error of a method given a right operand of another class, located at the left
      operand and raised in its context. */
  function OperandError(op: Operator, left: Value, right: Value): RunTimeError
  {
    RunTimeError(StartOf(left), EndOf(left),
      "The '" + Symbol(op) + "' operator cannot be applied to operands of type '" +
      ClassName(left.val) + "' and '" + ClassName(right.val) + "'", left.context)
  }

  /** `getComparisonNE`, the same in every class that has it: no type check at all (a
      missing right operand has no `value` to read). */
  function NotEqual(left: Value, right: Option<Value>): RTResult
  {
    if right.None? then Unmodelled
    else Made(Bool(!SamePrimitive(left.val, right.value.val)), left)
  }

  /** The operator methods of `Number`. */
  function NumberMethod(op: Operator, a: real, left: Value, right: Option<Value>): Option<RTResult>
  {
    if op == OpAnd || op == OpOr then None
    else if op == OpNE then Some(NotEqual(left, right))
    else if right.None? then Some(Unmodelled)
    else if !right.value.val.Num? then Some(Fails(OperandError(op, left, right.value)))
    else
      var b := right.value.val.num;
      Some(match op
        case OpAdd => Made(Num(a + b), left)
        case OpSubtract => Made(Num(a - b), left)
        case OpMultiply => Made(Num(a * b), left)
        case OpDivide =>
          if b == 0.0 then Fails(RunTimeError(StartOf(right.value), EndOf(right.value), "Cannot divide by 0", left.context))
          else Made(Num(a / b), left)
        case OpEE => Made(Bool(a == b), left)
        case OpLT => Made(Bool(a < b), left)
        case OpLTE => Made(Bool(a <= b), left)
        case OpGT => Made(Bool(a > b), left)
        case _ => Made(Bool(a >= b), left))
  }

  /** The operator methods of `Boolean`. */
  function BooleanMethod(op: Operator, a: bool, left: Value, right: Option<Value>): Option<RTResult>
  {
    if !(op == OpEE || op == OpNE || op == OpAnd || op == OpOr) then None
    else if op == OpNE then Some(NotEqual(left, right))
    else if right.None? then Some(Unmodelled)
    else if !right.value.val.Bool? then Some(Fails(OperandError(op, left, right.value)))
    else
      var b := right.value.val.b;
      Some(if op == OpEE then Made(Bool(a == b), left)
           else if op == OpAnd then Made(Bool(a && b), left)
           else Made(Bool(a || b), left))
  }

  /** The operator methods of `String`. */
  function StringMethod(op: Operator, a: string, left: Value, right: Option<Value>): Option<RTResult>
  {
    if !(op == OpAdd || op == OpEE || op == OpNE) then None
    else if op == OpNE then Some(NotEqual(left, right))
    else if right.None? then Some(Unmodelled)
    else if !right.value.val.Str? then Some(Fails(OperandError(op, left, right.value)))
    else
      var b := right.value.val.s;
      Some(if op == OpAdd then Made(Str(a + b), left) else Made(Bool(a == b), left))
  }

  /** `left[method](right)`, or `None` where the left operand's class has no such method. */
  function Dispatch(op: Operator, left: Value, right: Option<Value>): Option<RTResult>
  {
    match left.val
    case Num(a) => NumberMethod(op, a, left, right)
    case Bool(a) => BooleanMethod(op, a, left, right)
    case Str(a) => StringMethod(op, a, left, right)
    case Arr(_) => None
  }

  /** A method is found exactly where the class defines it. */
  lemma DispatchFindsMethods(op: Operator, left: Value, right: Option<Value>)
    ensures Dispatch(op, left, right).Some? <==> HasMethod(left.val, op)
  {
  }

  /** Number arithmetic on two numbers: a new Number in the left operand's context, except
      that dividing by exactly 0 fails at the divisor. */
  lemma NumberArithmetic(op: Operator, left: Value, right: Value)
    requires left.val.Num? && right.val.Num?
    ensures op == OpAdd ==> Dispatch(op, left, Some(right)) == Some(Made(Num(left.val.num + right.val.num), left))
    ensures op == OpSubtract ==> Dispatch(op, left, Some(right)) == Some(Made(Num(left.val.num - right.val.num), left))
    ensures op == OpMultiply ==> Dispatch(op, left, Some(right)) == Some(Made(Num(left.val.num * right.val.num), left))
    ensures op == OpDivide && right.val.num != 0.0 ==>
      Dispatch(op, left, Some(right)) == Some(Made(Num(left.val.num / right.val.num), left))
    ensures op == OpDivide && right.val.num == 0.0 ==>
      Dispatch(op, left, Some(right)) ==
      Some(Fails(RunTimeError(StartOf(right), EndOf(right), "Cannot divide by 0", left.context)))
  {
    if op == OpMultiply {
      var r := NumberMethod(op, left.val.num, left, Some(right));
      assert r.value.value.value.val == Num(left.val.num * right.val.num);
      assert Dispatch(op, left, Some(right)) == r;
    }
  }

  /** Every method but `!=` needs a right operand of its own class and otherwise fails at
      the left operand with a message naming both classes. */
  lemma MethodsCheckTypes(op: Operator, left: Value, right: Value)
    requires HasMethod(left.val, op) && op != OpNE && !SameClass(left.val, right.val)
    ensures Dispatch(op, left, Some(right)) == Some(Fails(OperandError(op, left, right)))
  {
  }

  /** `!=` never fails on a right operand: it is true unless both payloads are equal
      values of one class. */
  lemma NotEqualNeverFails(left: Value, right: Value)
    requires HasMethod(left.val, OpNE)
    ensures Dispatch(OpNE, left, Some(right)) == Some(Made(Bool(!SamePrimitive(left.val, right.val)), left))
    ensures HasMethod(left.val, OpNE) <==> !left.val.Arr?
  {
  }

  /** On operands of one class, `==` succeeds and is the negation of `!=`. */
  lemma EqualityDual(left: Value, right: Value)
    requires HasMethod(left.val, OpEE) && SameClass(left.val, right.val)
    ensures Dispatch(OpEE, left, Some(right)) == Some(Made(Bool(SamePrimitive(left.val, right.val)), left))
    ensures Dispatch(OpNE, left, Some(right)).value.value.value.val.b ==
            !Dispatch(OpEE, left, Some(right)).value.value.value.val.b
  {
  }

  /** Comparisons and logical operators produce Booleans; arithmetic on numbers produces
      Numbers, and `+` on strings a String. */
  lemma ResultClasses(op: Operator, left: Value, right: Option<Value>)
    requires Dispatch(op, left, right).Some? && Dispatch(op, left, right).value.Yields?
    ensures var v := Dispatch(op, left, right).value.value;
      && v.Some? && v.value.context == left.context && v.value.span.None?
      && (op !in {OpAdd, OpSubtract, OpMultiply, OpDivide} ==> v.value.val.Bool?)
      && (op in {OpSubtract, OpMultiply, OpDivide} ==> v.value.val.Num?)
      && (op == OpAdd ==> SameClass(v.value.val, left.val))
  {
  }

  // ---------------------------------------------------------------- unary operators

  const MinusOne := Value(Num(-1.0), None, None)

  /** The first component of `operand.multiply(new Number(-1))`. */
  function Negated(v: Value): Value
    requires v.val.Num?
  {
    Value(Num(-v.val.num), None, v.context)
  }

  /** The first component of `operand.operatorNOT()`. */
  function Inverted(v: Value): Value
    requires v.val.Bool?
  {
    Value(Bool(!v.val.b), None, v.context)
  }

  /** Negation is the product with the constant `Number(-1)`. */
  lemma NegatedIsProduct(v: Value)
    requires v.val.Num?
    ensures Dispatch(OpMultiply, v, Some(MinusOne)) == Some(Yields(Some(Negated(v))))
  {
  }

  // ---------------------------------------------------------------- indexing

  /** A JavaScript property index: a natural number. */
  predicate IsIndex(i: real)
  {
    i >= 0.0 && i.Floor as real == i
  }

  /** `String.getIndex(index)`: an index above the last one fails at the string; otherwise
      the one-character String in the string's context (no span). An index `text[i]`
      leaves undefined (negative or fractional) is outside the model. */
  function StringIndex(str: Value, i: real): (r: RTResult)
    requires str.val.Str?
  {
    var s := str.val.s;
    if i > |s| as real - 1.0 then Fails(RunTimeError(StartOf(str), EndOf(str), "Index out of range", str.context))
    else if IsIndex(i) then Yields(Some(Value(Str([s[i.Floor]]), None, str.context)))
    else Unmodelled
  }

  /** What `Array.getIndex(index)` hands back: the stored node, not yet evaluated. */
  datatype Fetched = Element(node: Node) | FetchFailed(error: RunTimeError) | NoElement

  /** `Array.getIndex(index)`. */
  function ArrayIndex(arr: Value, i: real): Fetched
    requires arr.val.Arr?
  {
    var nodes := arr.val.nodes;
    if i > |nodes| as real - 1.0 then FetchFailed(RunTimeError(StartOf(arr), EndOf(arr), "Index out of range", arr.context))
    else if IsIndex(i) then Element(nodes[i.Floor])
    else NoElement
  }

  /** Both `getIndex` methods fail exactly above the last index; at a natural index in
      range they give the character, or the stored element node itself; at a negative or
      fractional index in range, where `text[i]` is undefined, neither is modelled. */
  lemma IndexBounds(v: Value, i: real)
    requires v.val.Str? || v.val.Arr?
    ensures v.val.Str? ==> (StringIndex(v, i).Fails? <==> i > |v.val.s| as real - 1.0)
    ensures v.val.Arr? ==> (ArrayIndex(v, i).FetchFailed? <==> i > |v.val.nodes| as real - 1.0)
    ensures IsIndex(i) && v.val.Str? && i.Floor < |v.val.s| ==>
      StringIndex(v, i) == Yields(Some(Value(Str([v.val.s[i.Floor]]), None, v.context)))
    ensures IsIndex(i) && v.val.Arr? && i.Floor < |v.val.nodes| ==>
      ArrayIndex(v, i) == Element(v.val.nodes[i.Floor])
    ensures !IsIndex(i) && v.val.Str? && i <= |v.val.s| as real - 1.0 ==> StringIndex(v, i) == Unmodelled
    ensures !IsIndex(i) && v.val.Arr? && i <= |v.val.nodes| as real - 1.0 ==> ArrayIndex(v, i) == NoElement
  {
  }
}
