# Cosmos-Lang in Dafny

A model of the Cosmos-Lang expression interpreter, with proofs about it. The interpreter is
a three-stage pipeline: a lexer, a recursive-descent parser and a tree-walking evaluator.
The model also covers `Basic.ts`, an earlier self-contained pipeline for arithmetic only.

Each stage is modelled in the form the source has:

- **Cursor objects are classes.** The lexer (`Lexer`, `Position`), the parser (`Parser`,
  `ParseResult`) and the chained `SymbolTable` keep their mutable fields.
- **Each class is proved equal to a pure function.** Every method is proved to compute
  exactly a pure reference function of its inputs and old state:
  - the lexer computes `Tokenize`/`LexLoop`;
  - the parser's grammar methods compute the rule functions `ExprRule` … `AtomRule`;
  - the symbol table computes `Lookup`/`Resolve`;
  - the visitor computes `Eval`.
- **The laws are proved about those functions.** Precedence and associativity, the
  "sticky error" rule, the token-stream shape, fuel independence, and agreement of the
  arithmetic evaluator with an independent reference semantics.

Modules, in dependency order:

| module | file | models |
|---|---|---|
| `Common` | common.dfy | `Option`, the character classes of the lexers' regular expressions, digit strings, decimal numerals |
| `Source` | source.dfy | `Position` (a class; `Pos` is its value), `Token`, the lexical error records |
| `Scans` | scans.dfy | the digit and identifier scanning loops shared by both lexers |
| `Lexer` | lexer.dfy | `Lexer.ts` |
| `ParseResults` | parse_results.dfy | `ParseResult` (identical in `Parser.ts` and `Basic.ts`) |
| `Parser`, `ParserLaws` | parser.dfy, parser_laws.dfy | `Parser.ts` |
| `Scope` | scope.dfy | `Context`, `RunTimeError.generateTraceback`, `SymbolTable` (identical in `Interpreter.ts` and `Basic.ts`) |
| `Values` | values.dfy | `Interpreter.ts`'s runtime values and their operator methods, `RunTimeResult` |
| `Interpreter`, `InterpreterLaws` | interpreter.dfy, interpreter_laws.dfy | `Interpreter.visit_*` |
| `Shell` | shell.dfy | `Shell.ts`'s `run` |
| `BasicLexer`, `BasicParser`, `BasicParserLaws`, `BasicInterpreter`, `BasicInterpreterLaws` | basic_*.dfy | `Basic.ts` |

Representation choices:

- **Numbers are `real`.** A numeral's value is the exact decimal it spells.
- **`Math.pow` is a parameter.** In `Basic.ts` it is a function `pow` that callers pass in.
- **Interpreter results.** An evaluation yields a value, fails with a `RunTimeError`, or
  is `Unmodelled`. `Unmodelled` stands for a path on which the JavaScript code would throw
  TypeError: a name JavaScript objects inherit (`toString`, `__proto__`, …), or a method
  missing on an `undefined` value.
- **Fuel.** `Interpreter.ts` re-visits the node stored in an array element, so its
  evaluation is not structural. `Eval` takes a `fuel` bound that only that re-visit
  consumes, and yields `Exhausted` when the bound runs out.
  `InterpreterLaws.FuelIrrelevant` proves the bound never matters for trees without
  index access.
- **Module globals become parameters.** `fileText` and the global symbol table are passed
  explicitly.

## Model

| member | source | states |
|---|---|---|
| `Common.NatToStringRoundTrip` | Interpreter.ts:107 | the decimal rendering of a line number reads back as the same number |
| `Source.PosAt` | Lexer.ts:165-183 | the position reached by advancing from the origin (-1, 0, -1) over the text has the requested index |
| `Source.PosAtLine` | Lexer.ts:90-100 | the line of the position at index i is the number of line breaks before i |
| `Source.PosAtColumn` | Lexer.ts:90-100 | the column of the position at index i is i on the first line, and otherwise i - k - 2 for the last line break k before i, so it is -1 right after a break |
| `Source.Position.constructor` | Lexer.ts:84-88 | a new position holds exactly the given index, line and column |
| `Source.Position.Advance` | Lexer.ts:90-100 | the position is updated in place to `AdvancePos` of its old value |
| `Source.Position.Copy` | Lexer.ts:105-107 | the copy is a new object (never an alias) with the same index, line and column |
| `Scans.ScanNumber` | Lexer.ts:245-262 | the digit loop stops at or after its starting index and inside the text |
| `Scans.ScanNumberFrom` | Lexer.ts:250-261 | from any point of the loop, the accumulated text is the text slice scanned, is a numeral with at most one dot, and the loop stops at the end of input, at a character that is neither digit nor dot, or at a second dot |
| `Scans.NumberScanned` | Basic.ts:240-250 | from a digit, the scan consumes at least that digit and stops where `makeNumber` stops, with exactly the slice it consumed as the numeral |
| `Scans.ScanWord` | Lexer.ts:270-275 | the identifier loop stops at or after its start and inside the text |
| `Scans.ScanWordFrom` | Lexer.ts:270-275 | the accumulated name is the slice scanned, every character of it is in `[a-zA-Z0-9_]`, and the scan stops at the end or at a character outside that class |
| `Scans.WordScanned` | Basic.ts:260-263 | from a name character, the scanned name is nonempty, made of `[a-zA-Z0-9_]` only, and maximal |
| `Lexer.NumberToken` | Lexer.ts:245-264 | `makeNumber` always yields a `Number` token and leaves the cursor inside the text, at or after the first digit |
| `Lexer.NumberSpan` | Lexer.ts:245-264 | the cursor is left on the numeral's last character, one before where the digit loop stopped (the `reverse()` of line 262); the token runs from the first digit to that character and its value is the scanned numeral's |
| `Lexer.ClassifyWord` | Lexer.ts:276-290 | names in `Types` become `Type`, `true`/`false` become `Boolean` with that truth value, names in `Keywords` become `Keyword`, every other name becomes `Identifier`; every non-boolean token carries the name as its value |
| `Lexer.WordToken` | Lexer.ts:266-291 | `makeIdentifier` leaves the cursor inside the text, at or after its start |
| `Lexer.ScanString` | Lexer.ts:299-322 | the string loop stops at an unescaped `"` or at the end of input |
| `Lexer.StringToken` | Lexer.ts:293-325 | `makeString` always yields a `String` token; it moves past the opening quote and stops at the closing one, or at the end of input |
| `Lexer.ScanEscaped` | Lexer.ts:299-322 | scanning the escaped form of any string yields exactly that string and stops at the closing quote |
| `Lexer.StringRoundTrip` | Lexer.ts:293-325 | a quoted escaped string lexes to a `String` token whose value is the original string (`\n`, `\t`, `\\`, `\"` decoded, quotes excluded), stopping on the closing quote |
| `Lexer.OperatorToken` | Lexer.ts:327-373 | `makeOperator` yields one of the ten operator kinds (Or, And, Equals, EE, GT, GTE, LT, LTE, Not, NE) and consumes one character, or two when the operator is doubled |
| `Lexer.StepAt` | Lexer.ts:191-238 | every turn of the `makeTokens` loop that does not fail moves the cursor forward |
| `Lexer.SkipTurn` | Lexer.ts:194-197 | whitespace is skipped without emitting anything |
| `Lexer.StepKind` | Lexer.ts:199-236 | no turn of the loop emits `EndOfFile` |
| `Lexer.LexLoopShape` | Lexer.ts:189-243 | an error discards every token; otherwise the tokens so far are a prefix of the result, which ends in exactly one `EndOfFile` |
| `Lexer.WordResumes` | Lexer.ts:238 | a name is emitted with its classification and start position; after an `Identifier` the next turn starts right after the name, but after a `Type`, `Boolean` or `Keyword` (no `reverse()`) the following character is skipped |
| `Lexer.OperatorForms` | Lexer.ts:327-373 | `= > < !` always succeed, as `EE`, `GTE`, `LTE`, `NE` exactly when followed by `=` and as `Equals`, `GT`, `LT`, `Not` otherwise; `\|` and `&` succeed only when doubled, as `Or` and `And`, and otherwise fail with ExpectedCharError `"'\|'"` or `"'&'"` spanning the character and the next; positions are those of the characters |
| `Lexer.StepFails` | Lexer.ts:199-236 | a turn fails exactly on a character no branch takes, with IllegalCharError "Unexpected Char 'c'" at it, or on a `\|` or `&` not followed by itself, with `makeOperator`'s ExpectedCharError |
| `Lexer.LexLoopFails` | Lexer.ts:189-243 | a failing loop returns no tokens and the error of a failing turn at or after its start |
| `Lexer.TokenizeFails` | Lexer.ts:189-243 | `makeTokens` fails only at a character outside its alphabet or at an undoubled `\|` or `&`, with exactly the error that character produces |
| `Lexer.TokenizeShape` | Lexer.ts:189-243 | `makeTokens` returns `[[], error]` on an error, and otherwise a list whose last token, and only that, is `EndOfFile` |
| `Lexer.Lexer.constructor` | Lexer.ts:165-173 | a new lexer's two cursors are distinct fresh objects and it stands on index 0 with `currentChar` the first character |
| `Lexer.Lexer.Advance` | Lexer.ts:175-183 | `lastPos` becomes a copy of the old cursor, which moves one step; `currentChar` is the character under it, `None` past the end |
| `Lexer.Lexer.Reverse` | Lexer.ts:185-187 | the cursor becomes a new copy of `lastPos`; `currentChar` is left unchanged |
| `Lexer.Lexer.MakeNumber` | Lexer.ts:245-264 | the method returns `NumberToken`'s token and leaves the cursor where it says |
| `Lexer.Lexer.MakeIdentifier` | Lexer.ts:266-291 | the method returns `WordToken`'s token and cursor, the pushback included |
| `Lexer.Lexer.MakeString` | Lexer.ts:293-325 | the method returns `StringToken`'s token and cursor |
| `Lexer.Lexer.MakeOperator` | Lexer.ts:327-373 | the method returns `OperatorToken`'s token and cursor, or its error |
| `Lexer.Lexer.ScanToken` | Lexer.ts:199-238 | one turn of the loop on a non-blank character returns a token or an error, never both, and what remains of `LexLoop` is the rest of the loop after it |
| `Lexer.Lexer.MakeTokens` | Lexer.ts:189-243 | the loop returns exactly `LexLoop` from the starting index |
| `Lexer.PunctuationChars` | Lexer.ts:219-230 | a character is a single-character token exactly when it is one of `( ) { } [ ] + - * / ; ,`, and each of them has its own kind (LParen … Comma) |
| `Lexer.StepPunctuation` | Lexer.ts:219-230 | a turn that emits a token of a single-character kind stands on that character and spans from the cursor on it to the cursor one step later |
| `Lexer.LexLoopPunctuation` | Lexer.ts:189-243 | from any point of the loop, every single-character token in the list, old or new, spans exactly the character it was made from |
| `Lexer.PunctuationTokens` | Lexer.ts:189-243 | every `( ) { } [ ] + - * / ; ,` token `makeTokens` returns spans exactly one character of the text, the one it was made from |
| `Lexer.Lex` | Shell.ts:21-22 | constructing a lexer and calling `makeTokens` yields `Tokenize` of the text |
| `ParseResults.CountNeverDecreases` | Parser.ts:14-32 | `register` adds the child's count, `registerAdvancement` adds one, and `success` and `failure` keep the count, so the count never decreases |
| `ParseResults.FailureRule` | Parser.ts:29-32 | `failure` always leaves an error; it records the new error exactly when there was none or nothing was consumed; once a token was consumed the first error sticks |
| `ParseResults.ParseResult.constructor` | Parser.ts:8-12 | a new result has no error, no node and count 0 |
| `ParseResults.ParseResult.Register` | Parser.ts:14-18 | the result becomes `Registered` of the old result and the child, and the child's node is returned |
| `ParseResults.ParseResult.RegisterAdvancement` | Parser.ts:20-22 | the count goes up by one |
| `ParseResults.ParseResult.Success` | Parser.ts:24-27 | the node is set; nothing else changes |
| `ParseResults.ParseResult.Failure` | Parser.ts:29-32 | the result becomes `Failed` of the old one |
| `Parser.ChainOperators` | Parser.ts:280-322 | each level's operator list takes exactly its token types: `&& \|\|`; `== != > >= < <=`; `+ -`; `* /` |
| `Parser.CheckArray` | Parser.ts:449-453 | the loop answers true exactly when some `[type, value]` pair of the list matches the token |
| `Parser.ParseRule` | Parser.ts:214-224 | `parse` consumes exactly its count of tokens, ends on a token, and has a node when it has no error |
| `Parser.ExprRule` | Parser.ts:226-284 | the same accounting for `expr` |
| `Parser.BraceRule` | Parser.ts:229-247 | the same accounting for `{ expr }` |
| `Parser.DeclarationRule` | Parser.ts:250-278 | the same accounting for `type name = expr` |
| `Parser.CompExprRule` | Parser.ts:286-319 | the same accounting for `compExpr` |
| `Parser.NotRule` | Parser.ts:289-298 | the same accounting for `not compExpr` |
| `Parser.ParenRule` | Parser.ts:300-308 | the same accounting for `( expr` |
| `Parser.ArithExprRule` | Parser.ts:321-323 | the same accounting for `arithExpr` |
| `Parser.TermRule` | Parser.ts:325-327 | the same accounting for `term` |
| `Parser.FactorRule` | Parser.ts:329-343 | the same accounting for `factor` |
| `Parser.AtomRule` | Parser.ts:345-382 | the same accounting for `atom` |
| `Parser.IfExprRule` | Parser.ts:384-425 | the same accounting for `ifExpr` |
| `Parser.IfBranchesRule` | Parser.ts:398-413 | from the condition on, the count grows by exactly the tokens consumed and a success has a node |
| `Parser.ElseRule` | Parser.ts:414-424 | the same for the optional `else` part |
| `Parser.OperandRule` | Parser.ts:431 | the same accounting for a level's operand rule |
| `Parser.BinOpRule` | Parser.ts:427-447 | the same accounting for `binOp` |
| `Parser.FoldRule` | Parser.ts:435-446 | each turn of `binOp`'s loop adds exactly the tokens it consumed, and a success has a node |
| `Parser.Parser.constructor` | Parser.ts:195-202 | a new parser stands on token 0 |
| `Parser.Parser.Advance` | Parser.ts:204-212 | the index goes up by one; the current token follows it while it is in range and otherwise stays on the last token |
| `Parser.Parser.Parse` | Parser.ts:214-224 | the method's result and final index are exactly `ParseRule`'s |
| `Parser.Parser.Expr` | Parser.ts:226-284 | exactly `ExprRule` |
| `Parser.Parser.Brace` | Parser.ts:229-247 | exactly `BraceRule` |
| `Parser.Parser.Declaration` | Parser.ts:250-278 | exactly `DeclarationRule` |
| `Parser.Parser.CompExpr` | Parser.ts:286-319 | exactly `CompExprRule` |
| `Parser.Parser.Negation` | Parser.ts:289-298 | exactly `NotRule` |
| `Parser.Parser.Parenthesised` | Parser.ts:300-308 | exactly `ParenRule` |
| `Parser.Parser.ArithExpr` | Parser.ts:321-323 | exactly `ArithExprRule` |
| `Parser.Parser.Term` | Parser.ts:325-327 | exactly `TermRule` |
| `Parser.Parser.Factor` | Parser.ts:329-343 | exactly `FactorRule` |
| `Parser.Parser.Atom` | Parser.ts:345-382 | exactly `AtomRule` |
| `Parser.Parser.IfExpr` | Parser.ts:384-425 | exactly `IfExprRule` |
| `Parser.Parser.IfBranches` | Parser.ts:398-413 | updates the shared result and cursor exactly as `IfBranchesRule` says |
| `Parser.Parser.ElseBranch` | Parser.ts:414-424 | updates them exactly as `ElseRule` says |
| `Parser.Parser.Operand` | Parser.ts:431 | exactly `OperandRule` |
| `Parser.Parser.FoldStep` | Parser.ts:436-443 | one turn of the loop moves forward, and what is left of `FoldRule` afterwards is the rest of the loop, or its stop on an error |
| `Parser.Parser.BinOp` | Parser.ts:427-447 | exactly `BinOpRule` |
| `Parser.ParseTokens` | Shell.ts:33-34 | constructing a parser and calling `parse` yields `Parse` of the tokens |
| `ParserLaws.OperatorLevel` | Parser.ts:435 | an operator list takes a token exactly when the token's type belongs to that level |
| `ParserLaws.TighterFirst` | Parser.ts:427-447 | in `a op1 b op2 c` with `op1` binding tighter, `(a op1 b)` is grouped first |
| `ParserLaws.SameLevel` | Parser.ts:435-444 | two operators of one level fold to the left |
| `ParserLaws.LooserFirst` | Parser.ts:427-447 | with `op1` looser, `b op2 c` is grouped first |
| `ParserLaws.TwoOperators` | Parser.ts:280-343 | precedence and associativity: `parse` groups the first pair exactly when its operator binds at least as tightly as the second, otherwise the second |
| `ParserLaws.LevelRejects` | Parser.ts:379-381 | at a token that starts no expression, every level up to comparisons fails with "Expected number, string, or boolean" having consumed nothing |
| `ParserLaws.ExprRejects` | Parser.ts:310-316 | … and `expr` fails there with the relabelled error "compExpr()" |
| `ParserLaws.EmptyInput` | Parser.ts:214-224 | an input that is only `EndOfFile` fails with "compExpr()" at it |
| `ParserLaws.LiftError` | Parser.ts:310-316 | an error after a consumed token passes unchanged through every level and `expr`; the relabelling does not replace it |
| `ParserLaws.OperandRejects` | Parser.ts:441-442 | the operand rule of each level fails at such a token with its own error |
| `ParserLaws.MissingRightOperand` | Parser.ts:441-442 | in `a op t` with `t` starting no expression, the whole parse fails at `t` with the operand rule's error |
| `ParserLaws.ParseChecksEnd` | Parser.ts:214-224 | `parse` succeeds exactly when `expr` succeeds and stops at `EndOfFile`, with the same tree; an expression followed by anything else fails there with "Unexpected EOF"; an error of `expr` is `parse`'s error |
| `ParserLaws.Declaration` | Parser.ts:250-278 | `type name = value` gives a `VarAssignNode` spanning from the type token's start to the value's end; a missing name or `=` fails at that token with "Expected Identifier" or "Expected '='" |
| `ParserLaws.Braces` | Parser.ts:229-247 | `{ e }` yields `e` with both braces consumed; without `}` it fails with "Expected '}'" at the token after `e` |
| `ParserLaws.NotForm` | Parser.ts:288-296 | `! c` in `compExpr` consumes the `!` and yields `UnaryOpNode(!, c)` for the comparison `c` after it; an error there is the result, at the same token |
| `ParserLaws.SignedFactor` | Parser.ts:330-339 | a `+` or `-` in `factor` is consumed and yields `UnaryOpNode(sign, f)` for the factor `f` after it; an error there is the result |
| `ParserLaws.NotLeaf` | Parser.ts:288-296 | `! a` parses to the UnaryOpNode of `!` over the leaf, consuming the input |
| `ParserLaws.NegatedLeaf` | Parser.ts:330-339 | `- a` parses to the UnaryOpNode of `-` over the leaf, consuming the input |
| `ParserLaws.ParenLeavesClose` | Parser.ts:300-308 | `(` is consumed but `)` is not, so a parenthesised leaf on its own is rejected with "Unexpected EOF" at the `)` |
| `ParserLaws.IfForm` | Parser.ts:384-425 | `if (c) e [else f]` yields an `IfNode` of the parsed parts, spanning from the condition's start to the end of the else-branch, or of the then-branch when there is none |
| `ParserLaws.IfErrors` | Parser.ts:389-406 | a missing `(` or `)` fails with "Expected '('" or "Expected ')'" at that token; an error in the condition is passed on |
| `Scope.TracebackDefined` | Interpreter.ts:101-113 | the traceback walk succeeds exactly when every frame on the chain has an entry position |
| `Scope.TracebackOrder` | Interpreter.ts:106-110 | one line per frame of the chain, outermost first, each naming the frame and the line of its entry position |
| `Scope.GenerateTraceback` | Interpreter.ts:101-113 | the loop computes `Traceback`: the header followed by the frame lines (Basic.ts:123-135 in the `File: …` style) |
| `Scope.Resolve` | Interpreter.ts:27-35 | a name resolves when bound in the own map or an outer one, and the own binding wins |
| `Scope.SymbolTable.LookupResolves` | Interpreter.ts:27-35 | a chained lookup is the own binding, or else the lookup of the parents; it finds exactly the names of the flattened chain |
| `Scope.SymbolTable.constructor` | Interpreter.ts:22-25 | a new table is empty and has no parent |
| `Scope.SymbolTable.Get` | Interpreter.ts:27-35 | `get` falls back to the parent only when there is no own binding, and returns `Lookup`'s answer |
| `Scope.SymbolTable.Set` | Interpreter.ts:37-39 | `set` rebinds only the own map: the name now looks up to the value, every other name as before, the parents untouched |
| `Scope.SymbolTable.Remove` | Interpreter.ts:41-43 | `remove` deletes only the own binding: the name now looks up through the parents, every other name as before |
| `Values.TypeWordsAreTypes` | Interpreter.ts:582 | every value's lower-cased class name is a word `Types` lists, and two values share it exactly when they share a class |
| `Values.FailureOverwrites` | Interpreter.ts:69-82 | `register` adopts a child's error; `failure` then replaces whatever error there was, keeping the value |
| `Values.DispatchFindsMethods` | Interpreter.ts:509-530 | an operator finds a method exactly when the left value's class has it |
| `Values.NumberArithmetic` | Interpreter.ts:150-191 | `+ - * /` on two Numbers give a new Number with the left operand's frame; division by exactly 0 fails with "Cannot divide by 0" at the divisor |
| `Values.MethodsCheckTypes` | Interpreter.ts:150-394 | every method other than `!=`, given a right operand of another class, fails with "The '<op>' operator cannot be applied to operands of type 'A' and 'B'" at the left operand |
| `Values.NotEqualNeverFails` | Interpreter.ts:204-206 | `!=` never fails, for any right operand, and compares the primitive payloads; every class but Array has it |
| `Values.EqualityDual` | Interpreter.ts:194-206 | on operands of one class `==` compares the payloads, and `!=` is its negation |
| `Values.ResultClasses` | Interpreter.ts:150-394 | a method's result has no span and the left operand's frame; comparisons and logic give Booleans, arithmetic gives Numbers, `+` keeps the class |
| `Values.NegatedIsProduct` | Interpreter.ts:545-548 | multiplying a Number by -1 yields its negation |
| `Values.IndexBounds` | Interpreter.ts:361-428 | `getIndex` fails with "Index out of range" exactly when the index exceeds length - 1; at a natural index in range a String yields its one-character string and an Array its stored node, unevaluated; a negative or fractional index in range is left unmodelled |
| `Interpreter.Eval` | Interpreter.ts:454-458 | a visit only adds or rebinds own names, and when every stored value carries a frame, so does every value and error it produces |
| `Interpreter.EvalBinOp` | Interpreter.ts:501-507 | the same invariants for a binary node (the visiting order is stated by `InterpreterLaws.BinOpSelects`) |
| `Interpreter.Apply` | Interpreter.ts:509-535 | a left operand whose class has no method for the operator fails with "Operator '<type>' cannot be applied to type <class>" at the node in the visiting frame; a value it yields carries the node's span; it never runs out of fuel, and its value or error carries the left operand's frame |
| `Interpreter.EvalUnary` | Interpreter.ts:538-541 | the same invariants for a unary node |
| `Interpreter.Unary` | Interpreter.ts:543-570 | `-` on a Number yields its negation and `!` on a Boolean its inverse, each at the node's span in the operand's frame; `-` on a non-Number and `!` on a non-Boolean fail with "The '-' (or '!') operator cannot be applied to operand of type '<class>'" at the operand in the visiting frame; any other operator (`+`) yields the operand re-spanned at the node |
| `Interpreter.EvalAssign` | Interpreter.ts:573-580 | the same invariants for a declaration |
| `Interpreter.Declare` | Interpreter.ts:582-589 | binding adds at most the declared name, an error binds nothing, and every stored value stays framed |
| `Interpreter.Access` | Interpreter.ts:592-605 | an access yields a framed value or a framed error |
| `Interpreter.EvalIf` | Interpreter.ts:607-632 | the same invariants for an `if` (what it selects is stated by `InterpreterLaws.IfSelects`) |
| `Interpreter.EvalIndex` | Interpreter.ts:634-641 | the same invariants for an index access (the order of its visits is stated by `InterpreterLaws.IndexSelects`) |
| `Interpreter.IndexInto` | Interpreter.ts:642-663 | the same invariants for indexing a value, the element's re-visit included (its cases are stated by `InterpreterLaws.IndexIntoCases`) |
| `Interpreter.Interpreter.constructor` | Interpreter.ts:450-452 | the visitor keeps the file text it is given |
| `Interpreter.Interpreter.Visit` | Interpreter.ts:454-458 | visiting with a mutable table returns `Eval`'s result and leaves the table's own map as `Eval` says, parents untouched |
| `Interpreter.Interpreter.VisitBinOp` | Interpreter.ts:501-536 | exactly `EvalBinOp` on the table |
| `Interpreter.Interpreter.VisitUnary` | Interpreter.ts:538-571 | exactly `EvalUnary` on the table |
| `Interpreter.Interpreter.VisitAssign` | Interpreter.ts:573-590 | exactly `EvalAssign`, the binding written with `set` |
| `Interpreter.Interpreter.VisitAccess` | Interpreter.ts:592-605 | exactly `Access` through the table's chained `get` |
| `Interpreter.Interpreter.VisitIf` | Interpreter.ts:607-632 | exactly `EvalIf` on the table |
| `Interpreter.Interpreter.VisitIndex` | Interpreter.ts:634-663 | exactly `EvalIndex` on the table |
| `Interpreter.Interpreter.VisitElement` | Interpreter.ts:642-663 | exactly `IndexInto` on the table |
| `InterpreterLaws.FuelMonotone` | Interpreter.ts:648-655 | a visit that did not run out of fuel gives the same outcome with more fuel |
| `InterpreterLaws.IfFuelMonotone` | Interpreter.ts:607-632 | the same for `if` |
| `InterpreterLaws.ElementFuelMonotone` | Interpreter.ts:648-655 | the same for an element's re-visit |
| `InterpreterLaws.NeverExhausted` | Interpreter.ts:454-632 | a tree without index access never needs fuel |
| `InterpreterLaws.BinOpNeverExhausted` | Interpreter.ts:501-536 | the same for a binary node |
| `InterpreterLaws.IfNeverExhausted` | Interpreter.ts:607-632 | the same for an `if` |
| `InterpreterLaws.FuelIrrelevant` | Interpreter.ts:454-632 | for such trees the outcome is the same for every amount of fuel |
| `InterpreterLaws.ReadOnly` | Interpreter.ts:588 | a tree without declarations leaves the table as it was |
| `InterpreterLaws.BinOpSelects` | Interpreter.ts:501-507 | a binary node visits the left operand, then the right one in the frame the left left, each failure being the outcome, and then applies the operator |
| `InterpreterLaws.UnarySelects` | Interpreter.ts:538-541 | a unary node visits its operand, a failure being the outcome, and applies the operator in the frame the operand left |
| `InterpreterLaws.IfSelects` | Interpreter.ts:607-632 | a non-Boolean condition fails with "Condition cannot be of type <class>" at the node; true yields the then-branch's visit, false the else-branch's, or no value without one, both in the frame the condition left; a failing condition is the outcome |
| `InterpreterLaws.IndexSelects` | Interpreter.ts:634-641 | an index access visits the item, then the index in the frame the item left, each failure being the outcome, then looks the index up |
| `InterpreterLaws.IndexIntoCases` | Interpreter.ts:643-663 | a non-Number index fails with "Index cannot be of type <class>" whatever the item; a Number or Boolean item fails with "Cannot get index of type <class>"; a String yields its `getIndex`; an Array's failed fetch is the error and its element is visited in the same frame |
| `InterpreterLaws.DeclarationChecksType` | Interpreter.ts:573-590 | a declaration binds and returns the value exactly when its lower-cased class name is the declared type, and otherwise fails with "Cannot implicitly convert type 'X' to 'Y'" at the node, binding nothing |
| `InterpreterLaws.AccessResolves` | Interpreter.ts:592-605 | an access never changes the table; it fails exactly when the name is bound nowhere on the chain, with "<name> is not defined" at the node in the visiting frame, and otherwise yields the stored value itself |
| `InterpreterLaws.DeclareThenAccess` | Interpreter.ts:588-604 | after a declaration succeeds, an access of the name from any frame yields the declared value |
| `InterpreterLaws.NumberLiterals` | Interpreter.ts:501-536 | `a op b` on two number literals computes `+ - * /` with the node's span and the visiting frame, and dividing by a literal 0 fails at that literal |
| `InterpreterLaws.NumbersApplied` | Interpreter.ts:509-535 | the operator on two Numbers of the visiting frame yields `+ - * /` of them at the node's span, and dividing by 0 fails at the divisor |
| `InterpreterLaws.LeftFailureStops` | Interpreter.ts:503-504 | a failing left operand is the binary node's outcome, and the right operand is never visited |
| `InterpreterLaws.ParsedOperatorsAreKnown` | Interpreter.ts:509-527 | every operator the parser builds maps to a method some class has |
| `InterpreterLaws.NegationAsWritten` | Interpreter.ts:545-570 | `-` on a Number throws as written, while the corrected rule yields the negated Number at the node's span |
| `InterpreterLaws.ElementErrorAsWritten` | Interpreter.ts:648-655 | an element whose visit fails makes the index access fail with that error, while as written the error is dropped and the access yields nothing |
| `Shell.Run` | Shell.ts:18-43 | a failed lex or parse leaves the global table unchanged, a lex failure happens exactly when the lexer reports one, and a completed visit only adds or rebinds names, keeping every value and error framed |
| `Shell.RunsParsedTree` | Shell.ts:18-43 | a program that lexes runs exactly when the expression rule from its first token succeeds and stops on the end of file, and then the rule's tree is visited in `<program>` against the global bindings; otherwise the run reports the rule's error, or "Unexpected EOF" at the first token left over, and binds nothing |
| `Shell.EmptyProgram` | Shell.ts:18-43 | the empty program fails to parse with "compExpr()" at the end of file on line 0, column 0, and binds nothing |
| `Shell.RunProgram` | Shell.ts:18-43 | the stages run as objects on the global table compute exactly `Run` |
| `BasicLexer.SingleChar` | Basic.ts:211-218 | a character is a single-character token exactly when it is one of `+ - * ^ / ( ) =`, and each of them has its own kind (PLUS … EQ) |
| `BasicLexer.NumberToken` | Basic.ts:235-254 | `makeNumber` consumes at least one character and yields `TT_INT` or `TT_FLOAT` |
| `BasicLexer.WordToken` | Basic.ts:256-271 | `makeIdentifier` consumes at least one character and yields `TT_KEYWORD` or `TT_IDENTIFIER` |
| `BasicLexer.StepAt` | Basic.ts:196-228 | every turn of the loop that does not fail moves forward |
| `BasicLexer.LexLoopShape` | Basic.ts:192-232 | an error discards every token; otherwise the tokens so far are a prefix of the result, which ends in exactly one `TT_EOF` |
| `BasicLexer.TokenizeShape` | Basic.ts:192-232 | `makeTokens` returns `[[], error]` on an error and otherwise a list whose last token, and only that, is `TT_EOF` |
| `BasicLexer.LexErrorIsIllegalChar` | Basic.ts:220-226 | the only lexical error is an IllegalCharError at a character outside the alphabet, spanning it |
| `BasicLexer.IntNumeral` | Basic.ts:252 | a numeral without a dot is all digits and denotes its decimal integer value |
| `BasicLexer.NumberKinds` | Basic.ts:235-254 | a number token spans exactly its numeral; it is `TT_INT` exactly without a dot and `TT_FLOAT` exactly with one; a second dot ends it |
| `BasicLexer.WordSwallowsNext` | Basic.ts:207-228 | a name is emitted as `TT_KEYWORD` exactly when it is `var`, and the character right after it is skipped by the loop's advance |
| `BasicLexer.OperatorAfterNameLost` | Basic.ts:207-228 | so `a+b` lexes to two identifiers and `TT_EOF`, with the `+` lost |
| `BasicLexer.IllegalCharAfterName` | Basic.ts:207-228 | and an illegal character right after a name is never reported |
| `BasicLexer.IllegalCharShowsNext` | Basic.ts:220-226 | the error's details show the character after the illegal one, and `"null"` at the end of input |
| `BasicLexer.Lexer.constructor` | Basic.ts:176-183 | a new lexer stands on index 0 of its text |
| `BasicLexer.Lexer.Advance` | Basic.ts:185-190 | the cursor moves one step in place, and `currentChar` follows it |
| `BasicLexer.Lexer.MakeNumber` | Basic.ts:235-254 | the method returns `NumberToken`'s token and cursor |
| `BasicLexer.Lexer.MakeIdentifier` | Basic.ts:256-271 | the method returns `WordToken`'s token and cursor |
| `BasicLexer.Lexer.MakeTokens` | Basic.ts:192-233 | the loop returns exactly `LexLoop` from the start |
| `BasicLexer.Lex` | Basic.ts:803-804 | constructing a lexer and calling `makeTokens` yields `Tokenize` |
| `BasicParser.ParseRule` | Basic.ts:413-423 | `parse` consumes exactly its count of tokens, ends on a token, and has a node when it has no error |
| `BasicParser.ExprRule` | Basic.ts:518-560 | the same accounting for `expr` |
| `BasicParser.VarRule` | Basic.ts:521-548 | the same accounting for `var name = expr` |
| `BasicParser.LevelRule` | Basic.ts:465-579 | the same accounting for `literal`, `term` and `power` |
| `BasicParser.FoldRule` | Basic.ts:504-513 | each turn of a level's loop adds exactly the tokens it consumed |
| `BasicParser.FactorRule` | Basic.ts:484-497 | the same accounting for `factor` |
| `BasicParser.AtomRule` | Basic.ts:425-463 | the same accounting for `atom` |
| `BasicParser.ParenRule` | Basic.ts:441-458 | the same accounting for `( expr )` |
| `BasicParser.Parser.constructor` | Basic.ts:395-401 | a new parser stands on token 0 |
| `BasicParser.Parser.Advance` | Basic.ts:403-411 | the index goes up by one, and the current token stays on the last token past the end |
| `BasicParser.Parser.Parse` | Basic.ts:413-423 | exactly `ParseRule` |
| `BasicParser.Parser.Expr` | Basic.ts:518-560 | exactly `ExprRule` |
| `BasicParser.Parser.VarAssign` | Basic.ts:521-548 | exactly `VarRule` |
| `BasicParser.Parser.FoldStep` | Basic.ts:505-512 | one turn of a loop moves forward, and what is left of `FoldRule` is the rest of the loop |
| `BasicParser.Parser.Literal` | Basic.ts:562-579 | exactly `LevelRule` at the `+ -` level |
| `BasicParser.Parser.Term` | Basic.ts:499-516 | exactly `LevelRule` at the `* /` level |
| `BasicParser.Parser.Power` | Basic.ts:465-482 | exactly `LevelRule` at the `^` level |
| `BasicParser.Parser.Factor` | Basic.ts:484-497 | exactly `FactorRule` |
| `BasicParser.Parser.Atom` | Basic.ts:425-463 | exactly `AtomRule` |
| `BasicParser.Parser.Parenthesised` | Basic.ts:441-458 | exactly `ParenRule` |
| `BasicParser.ParseTokens` | Basic.ts:809-810 | constructing a parser and calling `parse` yields `Parse` |
| `BasicParserLaws.LevelOf` | Basic.ts:470-567 | exactly `+ - * / ^` belong to a level, the one whose loop takes them |
| `BasicParserLaws.TighterFirst` | Basic.ts:465-579 | in `a op1 b op2 c` with `op1` tighter, `(a op1 b)` is grouped first |
| `BasicParserLaws.SameLevelLeft` | Basic.ts:504-513 | two `+ -` or two `* /` operators fold to the left |
| `BasicParserLaws.PowersRight` | Basic.ts:470-479 | `a ^ b ^ c` nests to the right, because the right operand of `^` is a `factor` |
| `BasicParserLaws.LooserFirst` | Basic.ts:465-579 | with `op1` looser, `b op2 c` is grouped first |
| `BasicParserLaws.TwoOperators` | Basic.ts:465-579 | `parse` groups the first pair exactly when its operator is tighter, or of the same level other than `^`; otherwise the second |
| `BasicParserLaws.FactorEndsOffPow` | Basic.ts:484-497 | a successful `factor` never stops at a `^` |
| `BasicParserLaws.PowerEndsOffPow` | Basic.ts:465-482 | nor does `power` |
| `BasicParserLaws.PowerFoldEndsOffPow` | Basic.ts:470-479 | nor does `power`'s loop |
| `BasicParserLaws.PowerLoopOnce` | Basic.ts:470-479 | so `power`'s loop runs at most once: its result is `left ^ factor` with `factor`'s error and stopping point |
| `BasicParserLaws.NegatedPower` | Basic.ts:484-497 | `-a ^ b` parses as `-(a ^ b)` |
| `BasicParserLaws.LevelRejects` | Basic.ts:460-462 | at a token that starts no expression every level fails with `atom`'s error having consumed nothing |
| `BasicParserLaws.ExprRejects` | Basic.ts:550-557 | … and `expr` relabels it "Expected 'var', int, float, identifier, '+', '-' or '('" |
| `BasicParserLaws.EmptyInput` | Basic.ts:413-423 | an input that is only `TT_EOF` fails with `expr`'s error at it |
| `BasicParserLaws.LiftError` | Basic.ts:553-557 | an error after a consumed token reaches `expr` unchanged |
| `BasicParserLaws.MissingRightOperand` | Basic.ts:504-509 | in `a op t` with `t` starting no expression, the parse fails at `t` with `atom`'s error |
| `BasicParserLaws.ParseChecksEnd` | Basic.ts:413-423 | `parse` succeeds exactly when `expr` succeeds at `TT_EOF`; leftover tokens fail with "Expected Operator ('+', '-', '*' or '/')"; a success consumed every token but `TT_EOF` |
| `BasicParserLaws.Declaration` | Basic.ts:521-548 | `var name = value` gives a `VarAssignNode` spanning from the name to the value's end; errors "Expected Identifier" and "Expected '='" at the offending token |
| `BasicParserLaws.Parentheses` | Basic.ts:441-458 | `( e )` yields `e` with both parentheses consumed; otherwise "Expected ')'" at the token after `e` |
| `BasicInterpreter.Method` | Basic.ts:630-659 | exactly `+ - * / ^` have a method; each returns a result or an error, not both; a result has no span and the left operand's frame; the only error is "Cannot divide by 0" for a divisor of 0, at the divisor |
| `BasicInterpreter.Eval` | Basic.ts:718-725 | a visit only adds or rebinds names, and only when it assigns; a value carries the node's span; an error has a position; frames are kept |
| `BasicInterpreter.EvalBinOp` | Basic.ts:761-767 | the same for a binary node, whose value has the node's span |
| `BasicInterpreter.Operate` | Basic.ts:769-779 | a result has the node's span and the left operand's frame; an error lies at the right operand; the outcome is unmodelled exactly for an operator with no method |
| `BasicInterpreter.EvalUnary` | Basic.ts:782-785 | the same invariants for a unary node |
| `BasicInterpreter.Unary` | Basic.ts:787-794 | `-` negates and `+` keeps the value; either way the node's span and the operand's frame |
| `BasicInterpreter.EvalAssign` | Basic.ts:743-747 | the same invariants for an assignment |
| `BasicInterpreter.Bind` | Basic.ts:749-750 | an assignment returns the value and binds it under the name in the own map, and never fails |
| `BasicInterpreter.Access` | Basic.ts:727-741 | an access yields exactly when the name is bound on the chain, a copy of the stored value at the access's span; otherwise "<name> is not defined" at the node in the visiting frame |
| `BasicInterpreter.Interpreter.Visit` | Basic.ts:718-725 | visiting with a mutable table computes exactly `Eval` |
| `BasicInterpreter.Interpreter.VisitBinOp` | Basic.ts:761-780 | exactly `EvalBinOp` |
| `BasicInterpreter.Interpreter.VisitUnary` | Basic.ts:782-795 | exactly `EvalUnary` |
| `BasicInterpreter.Interpreter.VisitAssign` | Basic.ts:743-751 | exactly `EvalAssign` |
| `BasicInterpreter.Interpreter.VisitAccess` | Basic.ts:727-741 | exactly `Access` |
| `BasicInterpreter.Run` | Basic.ts:801-820 | a failed stage leaves the globals unchanged; a lex failure happens exactly when the lexer reports one; a runtime error has a position |
| `BasicInterpreter.RunProgram` | Basic.ts:801-820 | the stages as objects on the global table compute exactly `Run` |
| `BasicInterpreterLaws.EvalDenotes` | Basic.ts:718-795 | on trees of numbers, names and `+ - * / ^`, the interpreter yields a value exactly when the reference semantics over plain reals does, with the same real and the same bindings |
| `BasicInterpreterLaws.BinOpDenotes` | Basic.ts:761-780 | the same for binary nodes |
| `BasicInterpreterLaws.OperateArith` | Basic.ts:630-659 | the methods compute the arithmetic, and fail only for division by 0 |
| `BasicInterpreterLaws.DivisionByZero` | Basic.ts:648-653 | dividing by a 0 fails with "Cannot divide by 0" at the span of the divisor's node, in the dividend's frame |
| `BasicInterpreterLaws.AssignThenAccess` | Basic.ts:727-751 | a bound value is what every later access of the name yields, from any frame, at the access's span |
| `BasicInterpreterLaws.NullIsZero` | Basic.ts:798-799 | before any run `null` is 0, with no frame |
| `BasicInterpreterLaws.NullDividedByZero` | Basic.ts:798-799 | `null / 0` fails with an error that has no frame, so its traceback is the header alone |
| `BasicInterpreterLaws.ProgramTraceback` | Basic.ts:123-135 | a program's runtime error has one frame line, `<program>` at the error's line, or none when the error has no frame |
| `BasicInterpreterLaws.EmptyProgram` | Basic.ts:801-811 | the empty program fails to parse at the end of file, binding nothing |

## Left out

- I/O. Reading the file, `process.argv` and printing come from Shell.ts:6-14 and are not modelled: `run` is the function `Shell.Run` of the text and the bindings.
- Floating point. `parseFloat`/`parseInt` and JavaScript's IEEE arithmetic are modelled by exact reals. A numeral's value is its exact decimal, and `/` is real division.
- `Math.pow` (Basic.ts:657) is the caller-supplied function `pow`.
- Presentation. `Underline`, `StrWithArrows`, the `toString` methods, `SymbolTable.toString` and the `showTokens` dump only render text and are not modelled. The traceback header and frame lines are modelled.
- JavaScript exceptions and reflection. Some paths would throw a TypeError or behave reflectively. A name that every JavaScript object inherits (`toString`, `__proto__`, …) used as a symbol reads or calls what the object inherits, and `var __proto__ = …` replaces the symbol table's prototype instead of binding a name. A method called on `undefined` throws. These paths yield `Unmodelled` and are not given a meaning.
- Reflective dispatch and `visit_missing`/`process.exit` (Interpreter.ts:454-463) become a `match` over the node datatype. Every node constructor has a case, so no visit is missing.
- Interpreter.Eval. Its `fuel` bound is not in the source, which can loop forever on an array that holds a node indexing itself. `Exhausted` marks a visit that needed more re-visits of array elements. `InterpreterLaws.FuelIrrelevant` shows the bound never matters without index access.
- Unparsed constructs. `;`, `[`, `]`, `,` and the `function` keyword have no parser rules and build no nodes. `ArrayNode` and `AccessIndexNode` exist only in the node datatype, so that `visit_ArrayNode` and `visit_AccessIndexNode` can be modelled.
- Positions. Basic.ts's `Position` also carries the file name and text (`fn`, `ftxt`), which are only read for error display. Its `advance` is the same as Lexer.ts's and is modelled by `Source.Position`. Basic.ts's `Token` (23-49) is modelled by `Source.NewToken`, `ParseResult` (358-388) by `ParseResults.ParseResult`, and `SymbolTable` (687-713) by `Scope.SymbolTable`: the code is identical.
- Basic.ts's `RunTimeResult` (582-605). It is folded into the result of the evaluation functions. Its register/success/failure sequence is the same as Interpreter.ts's, modelled in `Values`.
- Basic.ts line 724 repeats the `UnaryOpNode` test of line 721 and is unreachable.
- Basic.ts's `Number` methods return `undefined` for a non-Number operand (Basic.ts:630-659). That case is unreachable because Basic has only numbers.
- Interpreter.Unary: values are immutable in the model, so it stamps the node's span on a copy of its operand. Interpreter.ts:570 calls `setPos` on the operand object itself, and `visit_VarAccessNode` (Interpreter.ts:592-605) returns the object stored in the symbol table, not a copy. So `+b` moves the span of the object bound to `b`, and a later error that reports that object's span reports the moved one. In `({boolean b = true }\n&& +b && (b && 1`, the source reports the `&&` error at line 2, where the `+` stands, and the model at line 1, where `true` stands. The same in-place update happens through a value returned by an assignment.
- BasicInterpreter.Unary: the same copy is not observable in Basic.ts, because its variable access copies the stored object and stamps a new span on the copy (Basic.ts:739).
- Unicode. Text is modelled as a sequence of characters, one index each. JavaScript strings are sequences of UTF-16 code units, so a character outside the Basic Multilingual Plane takes two indices in the source's positions (Lexer.ts:177-180) but one in the model. Likewise `String.getIndex` (Interpreter.ts:361-368) yields a single code unit, possibly half of a surrogate pair, where `Values.StringIndex` yields the whole character. The `Unexpected Char '…'` text shows a whole character where the source shows one code unit.
- Values.IndexBounds and Values.StringIndex: at a negative or fractional index in range, `this.value[index.value]` is `undefined` and the source builds `new String(undefined)` (Interpreter.ts:367), which the model gives as `Unmodelled`. `Array.getIndex` (Interpreter.ts:420-428) then hands back an `undefined` element, and visiting it (Interpreter.ts:652) would throw a TypeError. The model gives `NoElement` there, and `visit_AccessIndexNode` then gives `Unmodelled`. `IndexBounds` states the natural indices only.
- IllegalCharError's end position in Basic.ts aliases the lexer's cursor object. The model takes a snapshot at the time the error is made, which is the only time it is read.
- Plain trees. `BasicInterpreterLaws.EvalDenotes` assumes its tree is plain: names outside the inherited-name set and number tokens carrying numbers. The model does not prove that every parsed tree is plain.
- Lexer.NumberToken, Lexer.WordToken, Lexer.StringToken and Lexer.OperatorToken: their own ensures give only the cursor bounds and, except for `WordToken`, the token kind. The rest is stated by lemmas. `Lexer.NumberSpan` and `Scans.ScanNumberFrom` state the number's span, value and stopping point. `Lexer.ClassifyWord` and `Lexer.WordResumes` state a word's classification and stopping point. `Lexer.StringRoundTrip` states a string's value. `Lexer.OperatorForms` states each operator's kind, span and error.
- Parser.ExprRule and the other rule functions, the same in `BasicParser`: their own ensures state only the token accounting. What they parse is stated by the laws in `ParserLaws` and `BasicParserLaws`, for the forms listed there rather than for every input.

## Findings

| source | as written | input that shows it | evidently intended | confidence | as-written member | corrected member |
|---|---|---|---|---|---|---|
| Interpreter.ts:545-570 | on success, `-` and `!` store the method's whole `[value, error]` pair in `operand`, and line 570 then calls `setPos` on that array, which throws a TypeError | `-1`, or `!true` | the pair's first component, stamped with the node's span | not executed | `Interpreter.UnaryAsWritten`, exhibited by `InterpreterLaws.NegationAsWritten` | `Interpreter.Unary` |
| Interpreter.ts:652-653 | when the visit of an array element fails, `res.failure(error)` passes the `null` that `getIndex` returned, so the element's error is replaced by none and the access yields `undefined` without an error | an `AccessIndexNode` at index 0 of an `ArrayNode` whose single element is an access of an unbound name | the element's error is the access's error | not executed | `Interpreter.ElementAsWritten`, exhibited by `InterpreterLaws.ElementErrorAsWritten` | `Interpreter.IndexInto` |
