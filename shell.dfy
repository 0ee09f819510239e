/** The `run` pipeline of Shell.ts: lex, stop on a lexical error; parse, stop on a syntax
    error; otherwise visit the tree in the frame `<program>` whose symbol table is the
    global one. Reading the file and printing the outcome are left to the caller. */
module Shell {
  import opened Common
  import opened Source
  import opened Lexer
  import opened Parser
  import opened Scope
  import opened Values
  import opened Interpreter
  import opened ParserLaws

  /** The `[result, error]` pair `run` returns, by which stage produced it. */
  datatype RunOutcome = LexFailed(lexError: LexError) | ParseFailed(syntaxError: LexError) | Ran(result: RTResult)

  /** The frame every program is visited in. */
  const ProgramContext := Context("<program>", None, None)

  /** A run of `text` against the global table's own bindings `globals`: the outcome and
      the bindings afterwards. A failed stage leaves the table as it was; a completed
      visit may only add or rebind names, and every runtime error names its frame. */
  function Run(fuel: nat, text: string, globals: Env): (r: (RunOutcome, Env))
    ensures !r.0.Ran? ==> r.1 == globals
    ensures globals.Keys <= r.1.Keys
    ensures r.0.LexFailed? <==> Tokenize(text).error.Some?
    ensures EnvInContext(globals) ==> EnvInContext(r.1) && (r.0.Ran? ==> InContext(r.0.result))
  {
    var lexed := Tokenize(text);
    if lexed.error.Some? then (LexFailed(lexed.error.value), globals)
    else
      TokenizeShape(text);
      var ast := Parse(lexed.tokens);
      if ast.error.Some? then (ParseFailed(ast.error.value), globals)
      else
        var s := Eval(fuel, ast.node.value, ProgramContext, globals, map[]);
        (Ran(s.result), s.own)
  }

  /** The empty program is a syntax error at its only token, the end of the file at
      offset 0 of line 0, and binds nothing. */
  lemma EmptyProgram(fuel: nat, globals: Env)
    ensures Run(fuel, "", globals) ==
      (ParseFailed(SyntaxAt(NewToken(EndOfFile, NoValue, Pos(0, 0, 0), None), "compExpr()")), globals)
  {
    var toks := Tokenize("").tokens;
    assert PosAt("", 0) == Pos(0, 0, 0);
    assert toks == [NewToken(EndOfFile, NoValue, Pos(0, 0, 0), None)];
    EmptyInput(toks);
  }

  /** A program that lexes is parsed by the expression rule from its first token: it runs
      exactly when that rule succeeds and stops on the end of the file, and then the tree
      the rule built is visited in `<program>` against the global bindings; otherwise the
      run reports the rule's error, or "Unexpected EOF" at the first token it left over. */
  lemma RunsParsedTree(fuel: nat, text: string, globals: Env)
    requires Tokenize(text).error.None?
    ensures var toks := Tokenize(text).tokens;
      var r := Run(fuel, text, globals);
      WellFormed(toks) &&
      var e := ExprRule(toks, 0);
      && (r.0.Ran? <==> e.res.error.None? && toks[e.next].kind == EndOfFile)
      && (r.0.Ran? ==>
            var s := Eval(fuel, e.res.node.value, ProgramContext, globals, map[]);
            r == (Ran(s.result), s.own))
      && (e.res.error.Some? ==> r == (ParseFailed(e.res.error.value), globals))
      && (e.res.error.None? && toks[e.next].kind != EndOfFile ==>
            r == (ParseFailed(SyntaxAt(toks[e.next], "Unexpected EOF")), globals))
  {
    TokenizeShape(text);
    ParseChecksEnd(Tokenize(text).tokens);
  }

  /** `run(fileName, fileText)` with `globalSymbolTable` as `table`: the stages as objects,
      each proved to compute its function, so the whole run computes `Run`. */
  method RunProgram(fuel: nat, fileName: string, fileText: string, table: SymbolTable<Value>) returns (r: RunOutcome)
    requires table.Valid() && table.parent == null
    modifies table
    ensures table.Valid() && table.parent == null
    ensures (r, table.symbols) == Run(fuel, fileText, old(table.symbols))
  {
    var lexer := new Lexer(fileName, fileText);
    var lexed := lexer.MakeTokens();
    if lexed.error.Some? {
      return LexFailed(lexed.error.value);
    }
    TokenizeShape(fileText);
    var ast := ParseTokens(fileText, lexed.tokens);
    if ast.error.Some? {
      return ParseFailed(ast.error.value);
    }
    var interpreter := new Interpreter(fileText);
    var result := interpreter.Visit(fuel, ast.node.value, ProgramContext, table);
    return Ran(result);
  }
}
