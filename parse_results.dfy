/** `ParseResult`, the accumulator both parsers (Parser.ts and Basic.ts) thread through
    their rules: an error, a node and the number of tokens consumed so far.

    `Outcome` is its state as a value; the functions below say what each of its
    methods does to that state, and the class `ParseResult` is the mutable object of the
    source, proved to follow them. */
module ParseResults {
  import opened Common
  import opened Source

  datatype Outcome<N> = Outcome(error: Option<LexError>, node: Option<N>, advanceCount: int)

  /** A new `ParseResult`: no error, no node, nothing consumed. */
  function Empty<N>(): Outcome<N>
  {
    Outcome(None, None, 0)
  }

  /** `register(child)`: add the child's count and adopt the child's error, if any. */
  function Registered<N>(o: Outcome<N>, child: Outcome<N>): (r: Outcome<N>)
  {
    Outcome(if child.error.Some? then child.error else o.error, o.node, o.advanceCount + child.advanceCount)
  }

  /** `registerAdvancement()`. */
  function Advanced<N>(o: Outcome<N>): (r: Outcome<N>)
  {
    o.(advanceCount := o.advanceCount + 1)
  }

  /** `success(node)`. */
  function Succeeded<N>(o: Outcome<N>, node: N): (r: Outcome<N>)
  {
    o.(node := Some(node))
  }

  /** `failure(error)`: the new error is recorded unless an error is already there and
      a token has been consumed. */
  function Failed<N>(o: Outcome<N>, error: LexError): (r: Outcome<N>)
  {
    if o.error.None? || o.advanceCount == 0 then o.(error := Some(error)) else o
  }

  /** Registering a child that consumed no negative number of tokens, or an advancement,
      never lowers the count; success and failure leave it alone. */
  lemma CountNeverDecreases<N>(o: Outcome<N>, child: Outcome<N>, node: N, e: LexError)
    requires child.advanceCount >= 0
    ensures Registered(o, child).advanceCount >= o.advanceCount
    ensures Advanced(o).advanceCount == o.advanceCount + 1
    ensures Succeeded(o, node).advanceCount == o.advanceCount
    ensures Failed(o, e).advanceCount == o.advanceCount
  {
  }

  /** Soft and sticky errors: after a failure the result always holds an error; it is the
      new one exactly when there was none or nothing was consumed, and otherwise the
      earlier error stays, however many failures follow. */
  lemma FailureRule<N>(o: Outcome<N>, e: LexError, later: LexError)
    ensures Failed(o, e).error.Some?
    ensures Failed(o, e).error == Some(e) <==> o.error.None? || o.advanceCount == 0 || o.error == Some(e)
    ensures o.advanceCount != 0 ==> Failed(Failed(o, e), later).error == Failed(o, e).error
    ensures Failed(o, e).node == o.node && Failed(o, e).advanceCount == o.advanceCount
  {
  }

  /** The mutable accumulator of the source. */
  class ParseResult<N> {
    var error: Option<LexError>
    var node: Option<N>
    var advanceCount: int

    function Value(): Outcome<N>
      reads this
    {
      Outcome(error, node, advanceCount)
    }

    constructor ()
      ensures Value() == Empty()
    {
      error := None;
      node := None;
      advanceCount := 0;
    }

    /** Returns the child's node. */
    method Register(res: ParseResult<N>) returns (n: Option<N>)
      modifies this
      ensures Value() == Registered(old(Value()), old(res.Value()))
      ensures n == old(res.node)
    {
      n := res.node;
      advanceCount := advanceCount + res.advanceCount;
      if res.error.Some? {
        error := res.error;
      }
    }

    method RegisterAdvancement()
      modifies this
      ensures Value() == Advanced(old(Value()))
    {
      advanceCount := advanceCount + 1;
    }

    method Success(node: N)
      modifies this
      ensures Value() == Succeeded(old(Value()), node)
    {
      this.node := Some(node);
    }

    method Failure(error: LexError)
      modifies this
      ensures Value() == Failed(old(Value()), error)
    {
      if this.error.None? || advanceCount == 0 {
        this.error := Some(error);
      }
    }
  }
}
