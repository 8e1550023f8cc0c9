# kaleigoscope front end in Dafny

A model of the front end of the kaleigoscope compiler, a Go implementation
of the Kaleidoscope toy language. It covers three parts:

- **The scanner** (`lex.go`): a cursor over a byte buffer with one cached
  lookahead character. It returns keywords, identifiers, numbers and
  one-byte operators, and it skips blanks and `#` comments.
- **The parser** (`parse.go`): recursive descent with precedence climbing.
  It pulls one token at a time from the scanner and builds the AST: numbers,
  variables, binary operators, calls, prototypes and functions.
- **The ARMv8 emitter** (`asmgen.go`): it walks the AST and prints
  assembly text for each node.

Each part is modelled twice.

- **Pure specification functions.**
  - `Lexer.Scan` and `Lexer.TokensFrom` give the tokens the scanner yields from a position.
  - `Grammar.Parse*` give the parse of a token stream.
  - `AsmCode.ExprCode` and `AsmCode.FunctionCode` give the lines the emitter prints.
- **Imperative classes, written as the Go code is.** Each method is proved
  to compute what the matching function says.
  - `Lexer.Scanner` has the fields `pos` and `lastChar`.
  - `Parser.Parser` holds a scanner, `curTok` and `lit`.
  - `AsmGen.ASMGen` has `symbolTable` and `stkSize`. Standard output is the
    field `out`, with one string per `fmt.Printf`.

The properties the code promises are then proved as lemmas about the
functions:

- `LexerFacts`: maximal runs, keywords, comments, the operator fallback,
  progress and the sticky end.
- `GrammarFacts`: precedence, left folding, nesting of tighter operators,
  argument and parameter order, the top-level dispatch and each syntax error.
- `AsmFacts`: frame offsets, function layout, balanced spills, operator
  panics and call order.
- `LexerExamples`, `GrammarExamples` and `ParseTests`: the expected results
  in `lex_test.go` and `parse_test.go`. `GrammarExamples` states each parse
  vector over its token stream. `ParseTests` derives that stream from the
  test's input bytes with the scanner model, so each vector is proved as the
  test runs it: from `Init([]byte(input))` to `ParseTopLevel`.

What the emitted code does when it runs is modelled as well:

- `AsmMachine` gives each printed line a meaning on an AArch64 machine with
  the d registers, `sp`, `x29`, `x30` and 8-byte memory cells. Any access
  based on `sp` faults unless `sp` is a multiple of 16, as the
  architecture's stack alignment check makes it. `AsmMachine.Eval` gives
  the value an expression denotes. The routine a `bl` reaches is a function
  of its arguments in d0, d1, ..., and it returns its value in d0.
- `AsmCorrect` proves that the code of an expression leaves its value in d0,
  and that a function's code returns its body's value and restores `sp`,
  `fp` and `lr`. Both are proved under two conditions: every argument of a
  call but the last is a number or a variable, and a function has an even
  number of parameters. The conditions are sufficient, not necessary: some
  programs outside them still work, and two counterexample lemmas show
  programs outside them that go wrong (see Findings).
- `AsmFixed` is the emitter with both faults corrected. It is proved
  correct for every expression that has a value and every function with
  distinct parameter names, whatever the number of parameters.

Modelling choices:

- **Bytes and strings.** Source bytes are a `byte` newtype. A Go string is a
  `seq<char>` with one char per byte.
- **Panics.** Every `panic` becomes a failure value.
  - The parser returns `Result.Failure` with one `ParseError` per message.
  - The emitter returns an `Emission`: the lines printed before the panic,
    plus the panic. No line after a panic is printed.
- **Token kinds are integers**, as `type Token int` is. So the `case ';'`
  arm of `ParseTopLevel` compares the token kind with 59, as
  parse.go:263 does.
- **Dispatch on the expression variant.** In parse.go:12-15 the
  `ExprAST` interface declares only `exprNode()`, yet `asmgen.go` calls
  `asmGen` through it. The model dispatches on the expression's variant
  (`AsmGen.ASMGen.ExprAsm`), which is what the calls evidently intend.

## Model

| member | source | states |
|---|---|---|
| Lexer.Scanner.constructor | lex.go:26-37 | The cursor starts at 0 and the scanner invariant holds: `lastChar` is the byte at `pos`, or `EOF` (0) past the end. |
| Lexer.Scanner.Next | lex.go:43-54 | Keeps the invariant. At the end sentinel it does not move; otherwise `pos` grows by exactly one. |
| Lexer.Scanner.SkipRun | lex.go:58-60 | The loop stops at the end of the maximal run of the given character class, `RunEnd`. |
| Lexer.Scanner.GetTok | lex.go:56-115 | Returns the token that `Scan` gives for the old position and leaves `pos` where `Scan` says. The comment tail call included. |
| Lexer.RunEnd | lex.go:58-99 | Every character before the returned end is in the class and the character at the end is not, so the run is maximal. |
| Lexer.IsAlphaNum | lex.go:117-119 | A letter or a digit. On ASCII that is exactly `A`-`Z`, `a`-`z` and `0`-`9`; the end sentinel 0 and the blanks are never one. |
| Lexer.OperatorText | lex.go:111 | Go's `string(byte)`: one character equal to the byte below 0x80, two (UTF-8) from 0x80 on. |
| Lexer.Scan | lex.go:56-115 | Never moves backwards. Every token but the end consumes input. The end token is `(TokEOF, "")` and leaves the scanner on the sentinel. An operator has one or two bytes of text. Only the six kinds occur. |
| Lexer.TokensFrom | lex.go:56-115 | The stream ends with exactly one end token, and every operator has text. |
| LexerFacts.RunEndUnique | lex.go:58-99 | A run described by its bounds ends where `RunEnd` says. |
| LexerFacts.ScanAtEnd | lex.go:106-108 | At the sentinel the scanner answers `(TokEOF, "")` and stays put. |
| LexerFacts.EndIsSticky | lex.go:43-46 | Once the end token is returned, every later call returns it again from the same position. |
| LexerFacts.EmptyInput | lex.go:31-35 | Empty input yields the end token at once. |
| LexerFacts.ScanIdentifier | lex.go:63-81 | After blanks, a letter starts a maximal letter/digit run. `def` and `extern` become keywords with empty text; anything else is an identifier with exactly that text. |
| LexerFacts.ScanNumber | lex.go:84-92 | A digit or `.` starts a number token: the maximal digit/dot run, not validated. |
| LexerFacts.ScanComment | lex.go:95-104 | `#` drops everything up to a line break or the end. At a break scanning restarts there; at the end the end token comes back. |
| LexerFacts.CommentYieldsNoToken | lex.go:95-104 | A comment adds nothing to the token stream. |
| LexerFacts.ScanOperator | lex.go:110-113 | Any other byte is an operator whose text is that byte (two UTF-8 bytes from 0x80 on), and the cursor moves by exactly one. |
| LexerFacts.NulEndsInput | lex.go:18 | Because `EOF` is 0, a NUL byte ends the input whatever follows it. |
| LexerFacts.StreamIsBounded | lex.go:43-54 | Progress: from `p` there are at most `len(src) - p` tokens before the end token. |
| LexerFacts.StreamKinds | lex.go:9-16 | Only the six declared kinds occur, so no token's kind equals the rune `;`. |
| LexerExamples.Number123 | lex_test.go:56 | `123` lexes as `123 EOF`. |
| LexerExamples.NumberWithDot | lex_test.go:57 | `1.4` lexes as `1.4 EOF`. |
| LexerExamples.NumberTwoDots | lex.go:84-92 | `1..2` is a single number token. |
| LexerExamples.Assignment | lex_test.go:58 | `x = 3` lexes as `x = 3 EOF`. |
| LexerExamples.DefWithEquals | lex_test.go:59 | `def foo(x) = x + 3` lexes as `def foo ( x ) = x + 3 EOF`. |
| LexerExamples.ExternSin | lex_test.go:60 | `extern sin()` lexes as `extern sin ( ) EOF`. |
| LexerExamples.DefWithComment | lex_test.go:61 | `def foo(x) # comment` lexes as `def foo ( x ) EOF`. |
| Grammar.Adv | parse.go:65-67 | Consuming a token drops the head of the stream, except that the end token is never consumed. |
| Grammar.TokPrecedence | parse.go:146-162 | 10 for `<`, 20 for `+` and `-`, 40 for `*`, looked up by an operator's first byte; -1 for every other token. Each is an if-and-only-if. |
| Grammar.ParsePrimary | parse.go:128-144 | On success the rest is a well-formed, strictly shorter stream. |
| Grammar.ParseParenExpr | parse.go:77-85 | On success the rest is a well-formed, strictly shorter stream. |
| Grammar.ParseIdentifierExpr | parse.go:91-121 | On success the rest is a well-formed, strictly shorter stream. |
| Grammar.ParseBinOpRhs | parse.go:177-197 | On success the rest is a well-formed stream no longer than the input. |
| Grammar.ParsePrototype | parse.go:201-226 | On success the rest is a well-formed, strictly shorter stream. |
| Grammar.ParseDefinition | parse.go:231-236 | On success the rest is a well-formed, strictly shorter stream. |
| Grammar.ParseExtern | parse.go:241-244 | On success the rest is a well-formed, strictly shorter stream. |
| Grammar.ParseTopLevelExpr | parse.go:249-253 | On success the rest is a well-formed, strictly shorter stream. |
| Grammar.ParseExpr | parse.go:169-172 | On success the rest is a well-formed, strictly shorter stream. |
| Grammar.ParseArgs | parse.go:101-116 | On success the loop has stopped at a `)` that it did not consume. |
| Grammar.ParseParams | parse.go:213-217 | The loop stops at the first token that is not an identifier. |
| Grammar.ParseTopLevel | parse.go:258-273 | On success the rest is a well-formed stream no longer than the input. |
| Parser.Parser.Init | parse.go:60-63 | The parser stands at the whole stream the scanner yields from position 0. |
| Parser.Parser.GetNextToken | parse.go:65-67 | The stream advances by one token, or stays at the end. |
| Parser.Parser.ParseNumberExpr | parse.go:70-74 | Returns the number with the current text and consumes it. |
| Parser.Parser.ParseParenExpr | parse.go:77-85 | Result and remaining stream agree with `Grammar.ParseParenExpr`. |
| Parser.Parser.ParseIdentifierExpr | parse.go:91-121 | Result and remaining stream agree with `Grammar.ParseIdentifierExpr`. |
| Parser.Parser.ParseArgList | parse.go:99-116 | The argument loop agrees with `Grammar.ParseArgs`: arguments in order, stopping at `)`. |
| Parser.Parser.ParsePrimary | parse.go:128-144 | Agrees with `Grammar.ParsePrimary`. |
| Parser.Parser.ParseExpression | parse.go:169-172 | Agrees with `Grammar.ParseExpr`. |
| Parser.Parser.ParseBinOpRhs | parse.go:177-197 | The loop that reassigns `lhs` agrees with `Grammar.ParseBinOpRhs`. |
| Parser.Parser.ParsePrototype | parse.go:201-226 | Agrees with `Grammar.ParsePrototype`, parameter loop included. |
| Parser.Parser.ParseDefinition | parse.go:231-236 | Agrees with `Grammar.ParseDefinition`. |
| Parser.Parser.ParseExtern | parse.go:241-244 | Agrees with `Grammar.ParseExtern`. |
| Parser.Parser.ParseTopLevelExpr | parse.go:249-253 | Agrees with `Grammar.ParseTopLevelExpr`. |
| Parser.Parser.ParseTopLevel | parse.go:258-273 | The loop agrees with `Grammar.ParseTopLevel`. |
| GrammarFacts.NumberPrimary | parse.go:70-74 | A number token is a primary by itself. |
| GrammarFacts.VariablePrimary | parse.go:95-97 | An identifier not followed by `(` is a variable, and only the name is consumed. |
| GrammarFacts.BinOpRhsStops | parse.go:179-183 | When the current token binds less tightly than `prec`, the climb returns its left side and consumes nothing. |
| GrammarFacts.NonOperatorsStop | parse.go:153-162 | `)`, `,`, `;`, `(`, `=` and every non-operator have precedence -1. |
| GrammarFacts.BinOpRhsStep | parse.go:185-195 | One turn: consume the operator, parse the right operand, absorb a tighter operator into it, fold the node onto the left. |
| GrammarFacts.BinOpRhsOperandFails | parse.go:188 | A right operand that fails fails the climb with its error. |
| GrammarFacts.BinOpRhsNestedFails | parse.go:190-193 | A nested climb that fails fails the whole climb with its error. |
| GrammarFacts.EqualPrecedenceFoldsLeft | parse.go:177-196 | `x o1 y o2 z` with equally tight operators parses as `(x o1 y) o2 z`. |
| GrammarFacts.ChainFoldsLeft | parse.go:177-197 | Over a flat chain `o1 y1 ... on yn` of equally tight operators with single-token operands, the loop gives `LeftFold` of the chain onto `lhs`, an independent left fold, and stops at the first looser token. |
| GrammarFacts.FlatChainFoldsLeft | parse.go:169-197 | `x o1 y1 ... on yn` with equally tight operators parses as `(((x o1 y1) o2 y2) ... on yn)` for any n, consuming the whole chain. |
| GrammarFacts.TighterOperatorNests | parse.go:188-193 | `x o1 y o2 z` with `o2` tighter parses as `x o1 (y o2 z)`. |
| GrammarFacts.FoldAtom | parse.go:185-195 | A single-token right operand not followed by a tighter operator is folded at once. |
| GrammarFacts.AtomExpression | parse.go:169-172 | A single-token operand followed by neither `(` nor an operator is a whole expression. |
| GrammarFacts.ArgThenComma | parse.go:101-115 | After an argument of any shape (tokens that parse as an expression) and a `,`, the loop runs again after the comma with that argument appended. |
| GrammarFacts.ArgThenClose | parse.go:101-110 | After an argument of any shape and a `)`, the loop ends at the `)` with that argument appended. |
| GrammarFacts.ArgsCollected | parse.go:101-116 | Arguments of any shape, each parsed up to its `,` or the closing `)`, are collected in source order; the loop stops at the `)` without consuming it. |
| GrammarFacts.ArgsInOrder | parse.go:101-116 | The single-token case: numbers and names are collected in source order, and the loop stops at the `)`, not consuming it. |
| GrammarFacts.CallArguments | parse.go:91-121 | `f(e1, ..., en)` with arguments of any shape is a call to `f` with exactly e1, ..., en in source order, and the `)` is consumed; `f()` has none. |
| GrammarFacts.CallAtomArguments | parse.go:91-121 | The single-token case: `f(a1, ..., an)` with numbers and names is a call with exactly those arguments, everything up to the `)` consumed. |
| GrammarFacts.CompoundArgument | parse.go:91-121 | `f(x + y)` is a call with the one argument `x + y`: an argument need not be a single token. |
| GrammarFacts.ParamsCollected | parse.go:213-217 | The parameter loop takes every identifier in a row, in order. |
| GrammarFacts.PrototypeParses | parse.go:201-226 | `name ( p1 ... pn )` is a prototype with exactly those parameters. |
| GrammarFacts.PrototypeShape | parse.go:201-226 | A prototype fails with "Expected identifier" without a name first, with "Expected '('" without `(` after it, and with the missing-`)` error (printed as "Expected ')", quote unclosed) when the names are not followed by `)`. |
| GrammarFacts.UnclosedParams | parse.go:213-222 | `name ( p1 ... pn` followed by anything but a name or `)` fails with the missing-`)` error. |
| GrammarFacts.CommaBetweenParams | parse.go:213-222 | Parameters are not comma-separated: `f(a, b)` fails at the `,` with the missing-`)` error. |
| GrammarFacts.PrimaryErrors | parse.go:134-141 | An operator other than `(` fails with "Unexpected operator"; the end or a keyword where a primary is expected fails with "Unknown token". |
| GrammarFacts.ParenPrimary | parse.go:77-85 | A parenthesised expression closed by `)` is the inner expression; both parentheses are consumed. |
| GrammarFacts.MissingCloseParen | parse.go:80-82 | Without the `)` it fails with "Expected ')'". |
| GrammarFacts.StrayTokenInArguments | parse.go:112-114 | A token other than `,` or `)` after an argument fails with "Expected ',' or ')'". |
| GrammarFacts.TopLevelEnd | parse.go:261-262 | At the end the top level yields nil and consumes nothing. |
| GrammarFacts.TopLevelDefinition | parse.go:265-266 | `def` followed by a prototype and a body is a function made of the two. |
| GrammarFacts.TopLevelDefinitionFails | parse.go:231-236 | A `def` whose prototype fails fails with that error. |
| GrammarFacts.TopLevelExtern | parse.go:267-268 | `extern` and a prototype give a prototype declaration. |
| GrammarFacts.TopLevelExpression | parse.go:269-270 | Any other token starts an anonymous, parameterless function `__anon` around the expression, or fails with the expression's error. |
| GrammarFacts.LeadingSemicolonFails | parse.go:263 | The `;` arm tests the token kind, so an operator `;` falls to the expression arm and fails. |
| GrammarFacts.TrailingCommaAccepted | parse.go:101-116 | `f(1,)` is accepted as a call with one argument. |
| GrammarExamples.SinCallTokens | parse_test.go:66-67 | The tokens `sin ( 1 ) EOF` parse to `__anon` calling `sin` with the number 1. |
| GrammarExamples.DefFooTokens | parse_test.go:69-70 | The tokens of `def foo(a b) a + foo(b, 4.0)` parse to the expected function tree. |
| GrammarExamples.ExternSinTokens | parse_test.go:72-73 | The tokens `extern sin ( a ) EOF` parse to the prototype of `sin` with parameter `a`. |
| GrammarExamples.SumOfVariablesTokens | parse_test.go:75-76 | The tokens `x + y EOF` parse to `__anon` adding two variables. |
| GrammarExamples.ParenthesisedTokens | parse_test.go:78-79 | The tokens of `4+(3*4-5)-4` parse to `-(+(4, -(*(3,4),5)), 4)`. |
| ParseTests.SinCall | parse_test.go:66-67 | From the bytes `sin(1)`: the first top-level item is `__anon` calling `sin` with the number 1, and only the end token is left. |
| ParseTests.DefFoo | parse_test.go:69-70 | From the bytes `def foo(a b) a + foo(b, 4.0)`: the function `foo(a, b)` whose body adds `a` to the call `foo(b, 4.0)`. |
| ParseTests.ExternSin | parse_test.go:72-73 | From the bytes `extern sin(a)`: the prototype of `sin` with parameter `a`. |
| ParseTests.SumOfVariables | parse_test.go:75-76 | From the bytes `x + y`: `__anon` adding the two variables. |
| ParseTests.Parenthesised | parse_test.go:78-79 | From the bytes `4+(3*4-5)-4`: `-(+(4, -(*(3,4),5)), 4)`. |
| AsmCode.NatToString | asmgen.go:80 | `%d` of a natural number: decimal digits only, with no leading zero. |
| AsmCode.Render | asmgen.go:25-114 | Each printed line ends with a line break; a label starts in the first column and every instruction is indented by a tab. |
| AsmCode.Text | asmgen.go:25-114 | One printed string per line. |
| AsmCode.ExprCode | asmgen.go:43-84 | An "Unknown var" panic, from anywhere in the tree, names a variable that is missing from the table. |
| AsmCode.BinaryCode | asmgen.go:56-74 | An operator node succeeds only for an implemented operator; an "Unknown var" panic names a missing variable. |
| AsmCode.CallCode | asmgen.go:76-84 | An "Unknown var" panic in a call names a missing variable. |
| AsmCode.ArgsCode | asmgen.go:78-81 | An "Unknown var" panic in the argument loop names a missing variable. |
| AsmCode.BindParams | asmgen.go:96-100 | The offset loop never removes a name from the table. |
| AsmCode.FunctionCode | asmgen.go:88-114 | A function panics with "Unknown var" only for a name that is neither a parameter nor in the table it started from. |
| AsmCode.FunctionCodeParts | asmgen.go:88-114 | A function's lines are the head, the body, and `add sp` plus the epilogue unless the body panicked. The table left behind is the old one with the parameters bound. |
| AsmCode.BindParamsKeys | asmgen.go:96-100 | The offset loop adds exactly the parameter names to the table and removes none. |
| AsmCode.ArgsErrorSticks | asmgen.go:78-81 | Once an argument panics, no argument to its left is emitted. |
| AsmGen.ASMGen.constructor | asmgen.go:19-23 | An empty symbol table, `stkSize` 0, nothing printed. |
| AsmGen.ASMGen.Print | asmgen.go:25-114 | One `Printf`: the rendered line is appended to the output, nothing else changes. |
| AsmGen.ASMGen.AddPrologue | asmgen.go:25-28 | Prints `stp x29, x30` and `mov x29, sp`. |
| AsmGen.ASMGen.AddEpilogue | asmgen.go:30-33 | Prints `ldp x29, x30` and `ret`. |
| AsmGen.ASMGen.Push | asmgen.go:35-37 | Prints the spill of d0. |
| AsmGen.ASMGen.Pop | asmgen.go:39-41 | Prints the reload into the given register. |
| AsmGen.ASMGen.ExprAsm | asmgen.go:43-84 | Prints exactly `ExprCode`'s lines and panics exactly when it says. |
| AsmGen.ASMGen.NumberAsm | asmgen.go:43-46 | Prints `ExprCode`'s one line and never panics. |
| AsmGen.ASMGen.VariableAsm | asmgen.go:48-54 | Prints `ExprCode`'s lines, or panics as it says. |
| AsmGen.ASMGen.BinaryAsm | asmgen.go:56-74 | The right operand, spill, left operand, reload and operator, as `BinaryCode` gives them, panics included. |
| AsmGen.ASMGen.ApplyOp | asmgen.go:62-73 | `+`, `-` and `*` print one arithmetic line. `<` panics with "not implemented" and anything else with "Invalid binop"; both print nothing. |
| AsmGen.ASMGen.CallAsm | asmgen.go:76-84 | The reverse loop over the arguments prints `ArgsCode`'s lines and then `bl`, or stops at the first argument that panics. |
| AsmGen.ASMGen.PrototypeAsm | asmgen.go:86 | Prints nothing and changes nothing. |
| AsmGen.ASMGen.FunctionAsm | asmgen.go:88-114 | Prints exactly `FunctionCode`'s lines, leaves the table that it gives, and sets `stkSize` to 8 per parameter. |
| AsmGen.ASMGen.FunctionEntry | asmgen.go:89-108 | Prints the head (label, prologue, `sub sp`, stores) and binds the parameters. |
| AsmGen.ASMGen.Header | asmgen.go:89-93 | Prints `.globl`, `.p2align 2` and the label. |
| AsmGen.ASMGen.BindOffsets | asmgen.go:96-100 | The forward loop leaves the table `BindParams` gives and returns 8 per parameter. |
| AsmGen.ASMGen.StoreParams | asmgen.go:106-108 | The store loop prints one `str d<ix>` per parameter, in order. |
| AsmFacts.DecimalRoundTrip | asmgen.go:80 | A printed `%d` reads back as the number printed. |
| AsmFacts.TextAppend | asmgen.go:25-114 | The text of two runs of lines is the text of the first followed by that of the second. |
| AsmFacts.TextLines | asmgen.go:25-114 | Line i of the text renders instruction i. |
| AsmFacts.ParamOffset | asmgen.go:96-100 | Parameter i gets offset `8*(i+1)`, unless a later parameter has the same name; a repeated name keeps its last offset. |
| AsmFacts.EarlierNamesKept | asmgen.go:19-23 | The table is never cleared: names that the parameters do not mention keep their earlier offsets. |
| AsmFacts.StoresInOrder | asmgen.go:106-108 | One store per parameter, in declaration order, each at its name's slot. |
| AsmFacts.FunctionLayout | asmgen.go:88-114 | The fixed order: `.globl`, `.p2align`, label, `stp`, `mov`, `sub sp` by `8n`, the n stores, the body, then `add sp` by `8n`, `ldp` and `ret` unless the body panicked. |
| AsmFacts.WalkAppend | asmgen.go:35-41 | The stack depth over two runs of lines is composed from the depth over each. |
| AsmFacts.ExprBalanced | asmgen.go:56-60 | An expression's code never pops an empty stack, and when it does not panic it leaves the stack as deep as it found it. |
| AsmFacts.BinaryBalanced | asmgen.go:56-60 | The same for an operator node: each spill is matched by one later reload. |
| AsmFacts.ArgsBalanced | asmgen.go:78-81 | The same for the argument loop. |
| AsmFacts.OperatorCases | asmgen.go:62-73 | After both operands the node succeeds exactly for `+`, `-` and `*`, printing one `fadd`/`fsub`/`fmul`. Otherwise it panics ("not implemented" for `<`, "Invalid binop" for the rest) after the reload has been printed. |
| AsmFacts.OperandErrors | asmgen.go:56-60 | A panicking operand stops the node right after that operand's own lines. |
| AsmFacts.NumberLine | asmgen.go:43-46 | A number prints exactly `fmov d0, #` followed by its text as written. |
| AsmFacts.VariableLine | asmgen.go:48-54 | A variable prints one `ldr` from its slot exactly when the table knows it; otherwise it panics with "Unknown var" before printing. |
| AsmFacts.CallChecksNothing | asmgen.go:76-84 | A call panics exactly when one of its arguments does; neither the callee nor the arity is checked. |
| AsmFacts.ArgsFail | asmgen.go:78-81 | The loop succeeds exactly when every argument from the loop's index on succeeds. |
| AsmFacts.CallShape | asmgen.go:76-84 | The last argument is emitted first, the move into d0 comes just before the branch, and `bl _callee` is the last line. |
| AsmFacts.ArgsFirst | asmgen.go:78-81 | The loop's output starts with the last argument's code and ends with the move into `d<j>`. |
| AsmCorrect.LeafCorrect | asmgen.go:43-54 | A number, or a variable in the table, run on any machine whose slots hold the variables: d0 becomes its value and nothing else changes. |
| AsmCorrect.BinaryCorrect | asmgen.go:56-74 | An operator node with safe operands leaves the operator applied to the operands' values in d0, with `sp`, `fp` and the stack from `sp` up as they were; d1 ends holding the right operand. |
| AsmCorrect.ArgsCorrect | asmgen.go:78-81 | The argument loop from index j leaves argument k's value in `d<k>` for every k >= j, provided every argument but the last is a number or a variable. |
| AsmCorrect.CallCorrect | asmgen.go:76-84 | Under the same proviso, a call leaves in d0 the routine's value on the values of all its arguments, in order. |
| AsmCorrect.ExprCorrect | asmgen.go:43-84 | A safe expression that has a value runs without a fault on a 16-aligned stack. It leaves its value in d0 and gives back `sp`, `fp` and every cell from `sp` up unchanged. |
| AsmCorrect.ExprDefined | asmgen.go:43-84 | An expression that has a value, with every variable in the table, never panics. |
| AsmCorrect.EnterFunction | asmgen.go:88-108 | The lines before the body save `x29` and `x30` below the caller's `sp`, point `x29` at them and reserve the frame. Each parameter's argument register is stored in that parameter's slot, and the caller's stack is untouched. |
| AsmCorrect.LeaveFunction | asmgen.go:112-113 | `add sp` and the epilogue release the frame and give back the caller's `sp`, `x29` and `x30`, keeping d0. |
| AsmCorrect.FunctionCorrect | asmgen.go:88-114 | A function with distinct parameters, an even number of them and a safe body returns its body's value in d0. `sp`, `x29`, `x30` and the caller's stack come back as they were. |
| AsmCorrect.ClobberedArgument | asmgen.go:76-84 | For `f(l op r, c)` with `c` a number or a variable, the code runs without a fault. It calls `f` with the value of `r` as its second argument, where the expression's meaning is `f` of `l op r` and `c`. |
| AsmCorrect.OddFrameFaults | asmgen.go:96-103 | A function with an odd number of parameters whose body is an operator with a number or a variable on its right faults. Its frame leaves `sp` 8 bytes off 16, so the body's first spill faults, although the body has a value. |
| AsmFixed.RegNameIndex | asmgen.go:39-41 | The name `d<k>` given to `pop` reads back as register k. |
| AsmFixed.FrameSizeFits | asmgen.go:103 | The rounded frame holds 8 bytes per parameter and is a multiple of 16. |
| AsmFixed.FixedArgsCorrect | asmgen.go:78-81 | The corrected argument loop pushes each argument's value, last first, whatever the arguments are. Entry i above the new `sp` holds argument j+i. |
| AsmFixed.FixedCallCorrect | asmgen.go:76-84 | The corrected call leaves in d0 the routine's value on the values of all its arguments, for any arguments. |
| AsmFixed.FixedExprCorrect | asmgen.go:43-84 | The corrected code of any expression with a value leaves that value in d0 and gives back `sp`, `fp` and the stack from `sp` up. |
| AsmFixed.FixedFunctionCorrect | asmgen.go:88-114 | The corrected code of any function with distinct parameters returns its body's value and restores `sp`, `x29`, `x30` and the caller's stack, for any number of parameters. |

## Left out

- `codegen.go` and `evaluate.go` are not part of this model. They lower to LLVM IR and run it through a JIT: foreign calls and floating point.
- `main` in asmgen.go:116-128 is not part of this model. It is a driver with fixed programs and section headers.
- Output is a sequence of strings, one per `fmt.Printf`. The formatting machinery is not modelled; each line's text is written out in `AsmCode.Render`.
- A panic's message text is not modelled, only which panic it is. Recovery from a panic is not modelled.
- The check `arg == nil` in parse.go:103-105 cannot fire: every failing expression already panicked. It is therefore not a separate error.
- Whether an `fmov` immediate can be encoded is not modelled, and the code never checks it. A number literal's value enters only the machine model, as a parameter.
- `unicode.IsLetter` and `unicode.IsDigit` are written out for the runes 0..255, the only ones that `rune(byte)` produces. The Latin-1 letters 0xAA, 0xB5, 0xBA, 0xC0-0xD6, 0xD8-0xF6 and 0xF8-0xFF count as letters.
- lex_test.go:11 calls `sc.Init`, which lex.go does not define. The expected token strings of lex_test.go:55-61 are proved about `Scan` and `TokensFrom` from position 0, which is what `newScanner` starts at.
- Operator text: lex.go:111 converts a byte to a string, so bytes from 0x80 on give two UTF-8 bytes rather than one. The model follows the code here, not the one-byte description of operator tokens.
- The AST is a value, so the parser's pointers and any sharing between nodes are not modelled.
- AsmFacts.ExprBalanced: stack balance is stated over the spill and reload lines only. The frame's own `stp`/`ldp` and `sub sp`/`add sp` adjust `sp` as well, and they are given by the layout lemmas instead.
- AsmMachine: memory is one cell per 8-byte address used. `stp` and `ldp` are two such cells, and no access overlaps another in part.
- AsmMachine: the address `bl` writes to `x30` is not tracked. It is a fixed value, and `ret` only ends the run.
- AsmMachine: `bl` faults unless `sp` is a multiple of 16. The hardware `bl` does not check `sp`; the fault stands in for the callee's own prologue, whose `stp x29, x30, [sp, #-16]!` accesses memory through `sp`.
- AsmMachine: a routine reached by `bl` is a function of its arguments. It leaves d0 as its result, no other d register, and every cell from `sp` up as it was. The cells below `sp` are dropped.
- AsmMachine: the value of a number literal is a parameter (`Context.num`). Parsing its text as a double is not modelled.
- AsmMachine.Eval: `<` has no value, because the emitter panics on it.
- AsmCorrect.ExprCorrect: requires every argument of a call but the last to be a number or a variable (`Safe`). The proviso is sufficient, not necessary: some calls outside it still pass the right values, and some go wrong (see Findings).
- AsmCorrect.FunctionCorrect: requires an even number of parameters. That too is sufficient, not necessary: with an odd number, a body that never spills or calls still works, while one that does faults (see Findings). It also requires distinct parameter names. With a repeated name the later offset wins in both the table and the environment, but that case is not proved.
- AsmCorrect.CallCorrect: requires the same proviso as ExprCorrect.
- AsmFixed.FixedFunctionCorrect: requires distinct parameter names, like AsmCorrect.FunctionCorrect. With a repeated name the later offset wins, and that case is not proved.
- AsmFixed.FixedExprCorrect: states nothing about an expression without a value under `AsmMachine.Eval`: one using an operator other than `+`, `-` and `*`, a name with no value, an unknown routine, or a call whose argument count differs from the routine's. The emitter panics on such an operator (AsmFacts.OperatorCases); it checks neither routine nor argument count (AsmFacts.CallChecksNothing).

## Findings

| source | as written | input that shows it | evidently intended | confidence | as-written member | corrected member |
|---|---|---|---|---|---|---|
| asmgen.go:78-81 | Each argument is computed into d0 and moved to `d<ix>`, last first. Computing an earlier argument reuses d1 for its reloads and lets calls overwrite every register, so registers already set are lost. | `f(1 + 2, 3)`: `3` goes to d1, then the sum reloads `2` into d1, so `f` receives 3 and 2 | the routine receives every argument's value | not executed | AsmCorrect.ClobberedArgument | AsmFixed.FixedCallCorrect |
| asmgen.go:96-103 | The frame is `sub sp, sp, 8n` for n parameters, so an odd n leaves `sp` 8 bytes off a multiple of 16. The next `str d0, [sp, #-16]!` then faults on the stack alignment check. | `def f(x) x + x` | a frame rounded up to a multiple of 16 bytes | not executed | AsmCorrect.OddFrameFaults | AsmFixed.FixedFunctionCorrect |

In the corrected emitter (`AsmFixed`), a call pushes every argument, last first, and only then pops them into d0, d1, .... The frame is 16 times the number of parameters halved and rounded up. `AsmGen.ASMGen` and `AsmCode` keep the code as written.
