/** Scopes and frames shared by both interpreters (Interpreter.ts and Basic.ts): the
    chained `SymbolTable`, the `Context` chain, `RunTimeError` and its traceback. */
module Scope {
  import opened Common
  import opened Source

  // ---------------------------------------------------------------- contexts

  /** A frame of the call chain: its name, the frame it was entered from and where. The
      frame's `symbolTable` is passed to the interpreters separately. */
  datatype Context = Context(displayName: string, parent: Option<Context>, parentEntryPos: Option<Pos>)

  /** The number of frames in a chain. */
  function Depth(ctx: Option<Context>): nat
  {
    if ctx.None? then 0 else 1 + Depth(ctx.value.parent)
  }

  /** The `j`-th frame from the innermost one, with the position the traceback shows for
      it: the error's own position for the innermost frame, and for each outer frame the
      position at which its child was entered. */
  function Frame(pos: Option<Pos>, ctx: Option<Context>, j: nat): (Option<Pos>, Option<Context>)
    decreases j
  {
    if j == 0 then (pos, ctx)
    else if ctx.None? then (None, None)
    else Frame(ctx.value.parentEntryPos, ctx.value.parent, j - 1)
  }

  /** A `RunTimeError`: its span (absent when the offending value had none), its details
      and the frame it was raised in. Its error name is always `RunTimeErrorName`. */
  datatype RunTimeError = RunTimeError(posStart: Option<Pos>, posEnd: Option<Pos>, details: string, context: Option<Context>)

  const RunTimeErrorName := "RunTime Error"

  // ---------------------------------------------------------------- traceback

  /** Interpreter.ts prints line and frame; Basic.ts also prints the file name. */
  datatype TraceStyle = LineOnly | WithFile(fileName: string)

  function FrameLine(style: TraceStyle, pos: Pos, displayName: string): string
  {
    match style
    case LineOnly => "   line: " + IntToString(pos.ln + 1) + ", in " + displayName + "\n"
    case WithFile(fileName) =>
      "   File: " + fileName + ", line: " + IntToString(pos.ln + 1) + ", in " + displayName + "\n"
  }

  const TracebackHeader := "Traceback (most recent call last):\n"

  /** The traceback's lines, outermost frame first; `None` when a frame is reached without
      a position, where the source reads a field of `undefined` and throws. */
  function FrameLines(style: TraceStyle, pos: Option<Pos>, ctx: Option<Context>): Option<seq<string>>
    decreases ctx
  {
    if ctx.None? then Some([])
    else if pos.None? then None
    else
      match FrameLines(style, ctx.value.parentEntryPos, ctx.value.parent)
      case None => None
      case Some(outer) => Some(outer + [FrameLine(style, pos.value, ctx.value.displayName)])
  }

  function Concat(lines: seq<string>): string
  {
    if lines == [] then "" else lines[0] + Concat(lines[1..])
  }

  /** What `generateTraceback()` returns, `None` where it throws. */
  function Traceback(style: TraceStyle, e: RunTimeError): Option<string>
  {
    match FrameLines(style, e.posStart, e.context)
    case None => None
    case Some(lines) => Some(TracebackHeader + Concat(lines))
  }

  /** Every frame of the chain has a position to show. */
  predicate Placed(pos: Option<Pos>, ctx: Option<Context>)
  {
    forall j :: 0 <= j < Depth(ctx) ==> Frame(pos, ctx, j).0.Some?
  }

  /** The lines exist exactly when every frame has a position. */
  lemma {:induction false} TracebackDefined(style: TraceStyle, pos: Option<Pos>, ctx: Option<Context>)
    ensures FrameLines(style, pos, ctx).Some? <==> Placed(pos, ctx)
    decreases ctx
  {
    if ctx.Some? {
      var c := ctx.value;
      TracebackDefined(style, c.parentEntryPos, c.parent);
      assert Depth(ctx) == 1 + Depth(c.parent);
      assert Frame(pos, ctx, 0) == (pos, ctx);
      if Placed(pos, ctx) {
        forall j | 0 <= j < Depth(c.parent)
          ensures Frame(c.parentEntryPos, c.parent, j).0.Some?
        {
          assert Frame(pos, ctx, j + 1) == Frame(c.parentEntryPos, c.parent, j);
        }
        assert Placed(c.parentEntryPos, c.parent);
      } else if pos.Some? {
        var j :| 0 <= j < Depth(ctx) && Frame(pos, ctx, j).0.None?;
        assert Frame(pos, ctx, j) == Frame(c.parentEntryPos, c.parent, j - 1);
        assert !Placed(c.parentEntryPos, c.parent);
      }
    }
  }

  /** Line `k` of `lines` shows frame `|lines| - 1 - k`, counted from the innermost. */
  predicate ShowsFrame(style: TraceStyle, pos: Option<Pos>, ctx: Option<Context>, lines: seq<string>, k: nat)
    requires k < |lines|
  {
    var frame := Frame(pos, ctx, |lines| - 1 - k);
    frame.0.Some? && frame.1.Some? && lines[k] == FrameLine(style, frame.0.value, frame.1.value.displayName)
  }

  /** One line per frame, the outermost first and the innermost, at the error's own
      position, last. */
  lemma {:induction false} TracebackOrder(style: TraceStyle, pos: Option<Pos>, ctx: Option<Context>)
    requires FrameLines(style, pos, ctx).Some?
    ensures var lines := FrameLines(style, pos, ctx).value;
      && |lines| == Depth(ctx)
      && forall k :: 0 <= k < |lines| ==> ShowsFrame(style, pos, ctx, lines, k)
    decreases ctx
  {
    if ctx.Some? {
      var c := ctx.value;
      assert Depth(ctx) == 1 + Depth(c.parent);
      TracebackOrder(style, c.parentEntryPos, c.parent);
      var outer := FrameLines(style, c.parentEntryPos, c.parent).value;
      var lines := FrameLines(style, pos, ctx).value;
      assert lines == outer + [FrameLine(style, pos.value, c.displayName)];
      forall k | 0 <= k < |lines|
        ensures ShowsFrame(style, pos, ctx, lines, k)
      {
        if k < |outer| {
          ShowsOuterFrame(style, pos, c, outer, k);
        } else {
          assert Frame(pos, ctx, |lines| - 1 - k) == (pos, ctx);
        }
      }
    }
  }

  lemma ShowsOuterFrame(style: TraceStyle, pos: Option<Pos>, c: Context, outer: seq<string>, k: nat)
    requires pos.Some? && k < |outer| && ShowsFrame(style, c.parentEntryPos, c.parent, outer, k)
    ensures ShowsFrame(style, pos, Some(c), outer + [FrameLine(style, pos.value, c.displayName)], k)
  {
    var lines := outer + [FrameLine(style, pos.value, c.displayName)];
    assert lines[k] == outer[k];
    assert Frame(pos, Some(c), |lines| - 1 - k) == Frame(c.parentEntryPos, c.parent, |outer| - 1 - k);
  }

  function Join(lines: Option<seq<string>>, done: seq<string>): Option<seq<string>>
  {
    if lines.None? then None else Some(lines.value + done)
  }

  /** One turn of the traceback loop: the frame's line moves from the lines still to come
      to the front of the lines done. */
  lemma JoinTurn(style: TraceStyle, pos: Pos, c: Context, done: seq<string>)
    ensures Join(FrameLines(style, Some(pos), Some(c)), done) ==
            Join(FrameLines(style, c.parentEntryPos, c.parent), [FrameLine(style, pos, c.displayName)] + done)
  {
    var outer := FrameLines(style, c.parentEntryPos, c.parent);
    if outer.Some? {
      var line := FrameLine(style, pos, c.displayName);
      assert (outer.value + [line]) + done == outer.value + ([line] + done);
    }
  }

  lemma JoinNothing(lines: Option<seq<string>>)
    ensures Join(lines, []) == lines
  {
    if lines.Some? {
      assert lines.value + [] == lines.value;
    }
  }

  lemma ConcatCons(line: string, done: seq<string>)
    ensures Concat([line] + done) == line + Concat(done)
  {
    assert ([line] + done)[1..] == done;
  }

  /** `RunTimeError.generateTraceback()`: walks the context chain from the error's frame
      outwards, putting each frame's line in front of the lines so far. */
  method GenerateTraceback(style: TraceStyle, e: RunTimeError) returns (r: Option<string>)
    ensures r == Traceback(style, e)
  {
    var res := "";
    var pos := e.posStart;
    var ctx := e.context;
    ghost var done: seq<string> := [];
    JoinNothing(FrameLines(style, pos, ctx));
    while ctx.Some?
      invariant res == Concat(done)
      invariant Join(FrameLines(style, pos, ctx), done) == FrameLines(style, e.posStart, e.context)
      decreases ctx
    {
      if pos.None? {
        return None;
      }
      var line := FrameLine(style, pos.value, ctx.value.displayName);
      JoinTurn(style, pos.value, ctx.value, done);
      ConcatCons(line, done);
      res := line + res;
      done := [line] + done;
      pos := ctx.value.parentEntryPos;
      ctx := ctx.value.parent;
    }
    assert FrameLines(style, pos, ctx) == Some([]);
    assert [] + done == done;
    r := Some(TracebackHeader + res);
  }

  // ---------------------------------------------------------------- symbol tables

  /** Name resolution through an own map and the flattened maps of its ancestors. */
  function Resolve<V>(own: map<string, V>, outer: map<string, V>, name: string): (r: Option<V>)
    ensures r.Some? <==> name in own || name in outer
    ensures name in own ==> r == Some(own[name])
  {
    if name in own then Some(own[name]) else if name in outer then Some(outer[name]) else None
  }

  /** The properties every plain JavaScript object inherits from `Object.prototype`; a
      symbol table's `symbols` is such an object, so `symbols[name]` finds them. */
  const PrototypeNames: set<string> := {
    "constructor", "hasOwnProperty", "isPrototypeOf", "propertyIsEnumerable",
    "toLocaleString", "toString", "valueOf", "__proto__",
    "__defineGetter__", "__defineSetter__", "__lookupGetter__", "__lookupSetter__"}

  /** Names whose lookup in `own` yields an inherited function instead of a value. */
  predicate Inherited<V>(name: string, own: map<string, V>)
  {
    name == "__proto__" || (name in PrototypeNames && name !in own)
  }

  /** A scope: its own bindings and an optional parent scope, never itself an ancestor. */
  class SymbolTable<V> {
    var symbols: map<string, V>
    var parent: SymbolTable?<V>
    ghost var Repr: set<object>

    ghost predicate Valid()
      reads this, Repr
      decreases Repr
    {
      this in Repr &&
      (parent == null ==> Repr == {this}) &&
      (parent != null ==>
        parent in Repr && parent.Repr <= Repr && this !in parent.Repr &&
        Repr == {this} + parent.Repr && parent.Valid())
    }

    /** What `get(name)` returns: the own binding, else the parent's answer. */
    ghost function Lookup(name: string): Option<V>
      requires Valid()
      reads Repr
      decreases Repr
    {
      if name in symbols then Some(symbols[name])
      else if parent == null then None
      else parent.Lookup(name)
    }

    /** All bindings visible from this table, nearer ones hiding farther ones. */
    ghost function Flat(): map<string, V>
      requires Valid()
      reads Repr
      decreases Repr
    {
      (if parent == null then map[] else parent.Flat()) + symbols
    }

    /** The bindings visible through the parent chain alone. */
    ghost function Outer(): map<string, V>
      requires Valid()
      reads Repr
    {
      if parent == null then map[] else parent.Flat()
    }

    /** Resolution through the chain is resolution in the flattened maps: a name is found
        exactly when some table of the chain binds it, and the nearest binding wins. */
    lemma {:induction false} LookupResolves(name: string)
      requires Valid()
      ensures Lookup(name) == Resolve(symbols, Outer(), name)
      ensures Lookup(name).Some? <==> name in Flat()
      ensures Lookup(name).Some? ==> Lookup(name) == Some(Flat()[name])
      decreases Repr
    {
      if parent != null {
        parent.LookupResolves(name);
      }
    }

    constructor ()
      ensures Valid() && fresh(Repr)
      ensures symbols == map[] && parent == null
    {
      symbols := map[];
      parent := null;
      Repr := {this};
    }

    /** The assignment `table.parent = p`. */
    method SetParent(p: SymbolTable<V>)
      requires Valid() && p.Valid() && this !in p.Repr
      modifies this
      ensures Valid() && parent == p && symbols == old(symbols) && Repr == {this} + p.Repr
    {
      parent := p;
      Repr := {this} + p.Repr;
    }

    /** `get(name)`: the own binding, or the parent's `get` when there is none. */
    method Get(name: string) returns (v: Option<V>)
      requires Valid()
      ensures v == Lookup(name)
      ensures v == Resolve(symbols, Outer(), name)
      decreases Repr
    {
      LookupResolves(name);
      if name in symbols {
        return Some(symbols[name]);
      }
      if parent != null {
        v := parent.Get(name);
        return;
      }
      return None;
    }

    /** `set(name, value)`: binds in the own map only; every ancestor is untouched. */
    method Set(name: string, value: V)
      requires Valid()
      modifies this
      ensures Valid() && parent == old(parent) && Repr == old(Repr)
      ensures symbols == old(symbols)[name := value]
      ensures Outer() == old(Outer())
      ensures Lookup(name) == Some(value)
      ensures forall n :: n != name ==> Lookup(n) == old(Lookup(n))
    {
      symbols := symbols[name := value];
    }

    /** `remove(name)`: drops the own binding only, so the parent's binding, if any,
        becomes visible again. */
    method Remove(name: string)
      requires Valid()
      modifies this
      ensures Valid() && parent == old(parent) && Repr == old(Repr)
      ensures symbols == old(symbols) - {name}
      ensures Outer() == old(Outer())
      ensures Lookup(name) == if parent == null then None else parent.Lookup(name)
      ensures forall n :: n != name ==> Lookup(n) == old(Lookup(n))
    {
      symbols := symbols - {name};
    }
  }
}
