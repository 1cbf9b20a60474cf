# asciimath-rs expression front end, modelled in Dafny

This project models the live front end of the `asciimath` Rust crate, which
turns an infix expression string into an expression tree. It has these parts:

- **Lexer** (`tokenize`). It reads the string left to right. A run of
  alphanumerics, `_` and `.` right before a `(` that names a function
  becomes one `Function` token. Any other run goes through
  `parse_implicit`, which does three things:
  - it splits letters into variables with `resolve_vars`;
  - it reads digit runs as numbers;
  - it inserts the `Multiply` of implicit multiplication.

  Every other character gets its token from `get_token`. This is where a
  unary `-` becomes `-1.0 *`, and where `!=`, `>=`, `<=` and `==` are
  assembled.
- **Parser** (`parse_tokens`). A shunting-yard parser with an operator
  stack and an operand stack, extended with function calls:
  - `encounter_operator` reduces by precedence and associativity;
  - `encounter_func` gathers comma-separated arguments off the operand
    stack;
  - `right_paren` closes groups and calls;
  - `add_operator` builds operator nodes.
- **Operator table** (`get_precedence`, `num_operands`,
  `is_right_associative`, `Display`). Rust's operator `==`, `<` and `>`
  compare precedence only.
- **Name resolution** (`resolve_fn`, `resolve_var`). A name is looked up in
  the builtin registries first, then in the user `Scope`.
- **`Scope`**: a map from names to numbers or user functions, and
  **`consume_while`**, the scanner helper.

Each source file is one module:

| module | file |
|---|---|
| `Operators` | `operator.dfy` |
| `Tokens` | `token.dfy` |
| `Errors` | `errors.dfy` |
| `Constants` (the registries reduced to name sets) | `constants.dfy` |
| `Scopes` | `scope.dfy` |
| `Resolve` | `resolve.dfy` |
| `Util` | `util.dfy` |
| `Lexer` | `lexer.dfy` |
| `Parser` | `parser.dfy` |
| `Compiler` (`compile`) | `compiler.dfy` |

`Options` holds an `Option` type. The properties are proved in their own
modules:

- `LexerFacts` (`lexer_facts.dfy`);
- `ParserFacts` (`parser_facts.dfy`);
- `ParserExamples` (`parser_examples.dfy`), which proves what the parser
  returns for the token lists of the crate's tests and of a few edge cases;
- `LexerExamples` (`lexer_examples.dfy`), which proves what `tokenize`
  returns for the expressions of the crate's lexer tests
  (src/lexer/tests.rs). Number tokens carry their literal text, so the
  tests' `Number::new(2.0)` read `2` there.

Every loop of the source is a Dafny `method` with a `while` loop. The
method is proved equal to a tail-recursive specification function in the
same module:

| method | specification function |
|---|---|
| `ConsumeWhile` | `SpanEnd` |
| `ResolveVars` | `VarTokens` |
| `ParseImplicit` | `Implicit` |
| `Tokenize` | `Lex` |
| `EncounterFunc` | `CollectFunction` |
| `EncounterOperator` | `PushOperator` |
| `RightParen` | `CloseFrom` |
| `ParseTokens` | `Parse` |

The source's properties are then proved about those functions. `Scope` is
a class whose `variables` map is updated in place. Reading the scope is a
`reads scope` frame on the functions that consult it.

Quirks of the source that the model reproduces:

- `resolve_vars` grows a prefix one letter at a time. It commits to the
  first (shortest) prefix that resolves, so with `ab` and `abc` bound,
  `abc` splits as `ab`, `c`.
- Argument collection has no group boundary. A function takes every
  comma-separated operand below it, so `max(1, sin(2))` gives
  `max(sin(1, 2))` (`ParserExamples.NestedCallTakesOuterArguments`).
- `right_paren` goes on popping after a call's `(`. In `max(sin(2), 1)`,
  the first `)` also closes `max`, and the result is `1`
  (`NestedCallClosesOuterCall`). Closing a call also reduces the operator
  below it: `1 - max(2) * 3` is `(1 - max(2)) * 3`
  (`CallReducesEnclosingOperator`).
- The final drain stops at the first non-operator it pops. In `1 + (2` it
  stops at the unclosed `(`, so `+` is lost and the result is `2`
  (`UnclosedParenthesis`).
- Operator `==` compares precedence only: `Add == IsEqualTo` holds. That
  comparison is `Operators.Eq`. Dafny's own `==` on the datatype is kept
  for what Rust's `match` arms distinguish.
- After a run that names a function, `tokenize` leaves the `(` for the
  next iteration, where `get_token` turns it into a `LeftParenthesis`.
  The test `lexer_floats` (src/lexer/tests.rs:214-229) lists no
  `LeftParenthesis` after `Function("max")`, as the older src/lexer/index.rs
  produced. The model follows src/lexer/mod.rs, and
  `LexerExamples.FunctionCall` states the tokens it gives, the
  `LeftParenthesis` included.
- An `_` or `.` at the scan position of `parse_implicit` (input `.5`, say)
  matches the `_ => {}` arm. The iterator is not advanced, so the source
  loops forever. The model reports this as the outcome `Diverges` of
  `tokenize`. It is not a precondition.

## Model

| member | source | states |
|---|---|---|
| Operators.Precedence | src/tokens/operator.rs:59-74 | precedence 4 exactly for `Exponentiate` and 3 exactly for `Multiply` and `Divide`; every other operator (`Add`, `Substract`, comparisons, `Not`) has 2 |
| Operators.NumOperands | src/tokens/operator.rs:76-81 | 1 exactly for `Not`, 2 for every other operator |
| Operators.IsRightAssociative | src/tokens/operator.rs:83-85 | holds exactly for `Exponentiate`, the only operator "equal" in precedence to it |
| Operators.PartialCmp | src/tokens/operator.rs:52-56 | `Equal` exactly when the precedences are equal, `Less`/`Greater` exactly when the precedence is smaller/larger |
| Operators.EqIsEquivalence | src/tokens/operator.rs:47-51 | precedence equality is reflexive, symmetric and transitive |
| Operators.EqIsNotIdentity | src/tokens/operator.rs:47-51 | `Add == IsEqualTo` and `Not == Substract` hold although the operators differ; `Multiply == Add` does not |
| Operators.OrderingIsTotal | src/tokens/operator.rs:47-56 | exactly one of `a > b`, `a == b`, `b > a`; `>` is transitive and agrees with integer order of precedences; `partial_cmp` is antisymmetric |
| Operators.Symbol | src/tokens/operator.rs:18-39 | each `Display` symbol has one or two characters |
| Operators.SymbolInjective | src/tokens/operator.rs:18-39 | the twelve `Display` symbols are pairwise distinct |
| Scopes.Scope.constructor | src/ast/scope.rs:33-37 | a new scope has no bindings: `get_var` is `None` for every name |
| Scopes.Scope.SetVar | src/ast/scope.rs:39-47 | binds the name to `Number(value)`, replacing any earlier binding; every other name keeps its binding |
| Scopes.Scope.SetFn | src/ast/scope.rs:49-54 | binds the name to `Function(f)`, replacing any earlier binding; every other name keeps its binding |
| Scopes.Scope.GetVar | src/ast/scope.rs:56-58 | `Some` exactly for bound names, carrying their binding |
| Scopes.LastWriteWins | src/ast/scope.rs:43-53 | after `set_var` then `set_fn` on one name, `get_var` gives the function; after another `set_var`, the number |
| Scopes.OtherNamesUnaffected | src/ast/scope.rs:43-53 | writing one name of a fresh scope leaves any other name unbound |
| Resolve.ResolveFn | src/ast/resolve.rs:5-13 | succeeds exactly for builtin function names (whatever the scope) and for names the scope binds to a function; a builtin wins; otherwise the error is `UnknownFunction(name)` |
| Resolve.ResolveVar | src/ast/resolve.rs:15-26 | succeeds exactly for builtin constant names and names the scope binds to a number; a constant wins; otherwise the error is `UnknownVariable(name)` |
| Resolve.BuiltinsIgnoreScope | src/ast/resolve.rs:5-26 | builtin names resolve alike in any two scopes |
| Resolve.ScopeKindsExclusive | src/ast/resolve.rs:7-10 | a non-builtin name never resolves both as a function and as a variable |
| Resolve.ConstantsShadowScope | src/ast/resolve.rs:19-25 | a constant name resolves to the constant whatever the scope binds it to |
| Util.SpanEnd | src/util.rs:11-19 | the end of the longest run from `from` whose characters satisfy the predicate: all before it satisfy it, the one at it does not |
| Util.SpanEndIs | src/util.rs:11-19 | a position `e` such that all characters from `from` up to `e` satisfy the predicate and the one at `e` (if any) does not is the end of the run |
| Util.ConsumeWhile | src/util.rs:6-20 | returns that longest run and leaves the position at the first failing character; run followed by the rest is the input; empty input or a failing first character give the empty run and no advance |
| Lexer.Pop | src/lexer/mod.rs:100-109 | `Vec::pop`: drops the last token, no change on an empty list |
| Lexer.Singles | src/lexer/mod.rs:31-33 | one `Variable`, `Multiply` pair per letter, in order: pair `k` is the one-letter variable of letter `k` followed by `Multiply` |
| Lexer.ResolveVars | src/lexer/mod.rs:8-41 | the loop appends exactly `VarTokens(run)` to the tokens |
| Lexer.ParseImplicit | src/lexer/mod.rs:43-75 | the loop's outcome is exactly `Implicit(run, tokens)` |
| Lexer.ImplicitNumberStep | src/lexer/mod.rs:56-65 | a digit starts a maximal digit-and-dot literal: `Number`, `Multiply` when it parses as a float, else the whole lexing fails with `InvalidToken(literal)` |
| Lexer.ImplicitLetterStep | src/lexer/mod.rs:66-70 | a letter starts a maximal letter run given to `resolve_vars`, and the one character after it is consumed without a token |
| Lexer.Tokenize | src/lexer/mod.rs:125-152 | the loop's outcome is exactly `Lex(expr, scope)` |
| LexerFacts.MinusRule | src/lexer/mod.rs:81-92 | `-` appends `Number(-1.0), Multiply` after a comma, `(`, function, operator or nothing, and is `Substract` after a number, variable or `)` |
| LexerFacts.EqualsRule | src/lexer/mod.rs:98-113 | `=` turns a trailing `!`, `>`, `<` into `!=`, `>=`, `<=`; adds nothing after `==`; is `==` otherwise |
| LexerFacts.SingleCharRule | src/lexer/mod.rs:77-123 | any other character appends its fixed token (`+ * / ^ > < ( ) , !`) or, having none, appends nothing |
| LexerFacts.VarTokensShape | src/lexer/mod.rs:8-41 | `resolve_vars` emits variable/`Multiply` pairs that spell the letters it got, each name resolving or being one letter |
| LexerFacts.VarTokensFirstMatch | src/lexer/mod.rs:18-37 | when `run[..k]` is the shortest prefix that resolves, it is emitted as one variable and the scan restarts at `k` |
| LexerFacts.VarTokensNoMatch | src/lexer/mod.rs:27-34 | when no prefix resolves, each letter becomes its own variable |
| LexerFacts.ImplicitShape | src/lexer/mod.rs:50-69 | `parse_implicit` keeps the earlier tokens, prefixes `Multiply` after a `)`, and emits operand/`Multiply` pairs ending in `Multiply` |
| LexerFacts.FunctionRun | src/lexer/mod.rs:134-137 | a run before `(` that resolves as a function yields `Function(run)` and then `LeftParenthesis` from the `(` |
| LexerFacts.OperandRun | src/lexer/mod.rs:138-148 | any other run yields `parse_implicit`'s tokens with the trailing `Multiply` dropped unless `(` follows, then the next character's token |
| LexerFacts.FailingRun | src/lexer/mod.rs:139 | a run whose `parse_implicit` fails (or diverges) ends `tokenize` with that outcome |
| LexerFacts.CharStep | src/lexer/mod.rs:129-148 | a character that starts no run is handed straight to `get_token` and consumed |
| LexerFacts.SymbolLexes | src/lexer/mod.rs:77-123 | the `Display` symbol of any operator, written after a number, variable or `)`, is read back by `get_token` as exactly that operator, the two-character symbols `!=`, `>=`, `<=`, `==` included |
| LexerFacts.LexSound | src/lexer/mod.rs:125-152 | every token `tokenize` returns is sound: variables resolve or are one letter, functions resolve, numbers are `-1.0` or valid literals |
| Parser.AddOperator | src/parser.rs:67-80 | `MissingOperands(op)` exactly when fewer than `num_operands(op)` operands; otherwise the top `n` operands, in order, become the args of one `Operator(op)` node and the rest is unchanged |
| Parser.EncounterFunc | src/parser.rs:19-47 | the loop's result is exactly `CollectFunction(f, operands)` |
| Parser.EncounterOperator | src/parser.rs:82-108 | the loop's result is exactly `PushOperator(cur, stacks)` |
| Parser.RightParen | src/parser.rs:49-65 | the loop's result is exactly `CloseFrom(stacks)` |
| Parser.ParseTokens | src/parser.rs:110-144 | the token loop and final drain give exactly `Parse(tokens)` |
| ParserFacts.CollectFunctionNeedsOperand | src/parser.rs:23-27 | `NotEnoughFunctionParams(f)` exactly when the operand stack is empty |
| ParserFacts.CollectFunctionShape | src/parser.rs:19-47 | `Function(f)` goes on an untouched prefix that does not end in a comma marker; its args are the nodes taken, in order, that alternated with the discarded comma markers; a comma marker at the bottom is `FunctionSyntaxError(f)` |
| ParserFacts.GatherShape | src/parser.rs:29-40 | the gathering loop stops at the first non-comma operand, leaving a prefix; what it took interleaves args and comma markers |
| ParserFacts.ReduceShape | src/parser.rs:87-104 | the reduction loop removes exactly the longest run of tokens on top that pop (tighter or equal non-right-associative operators, functions) |
| ParserFacts.PushOperatorShape | src/parser.rs:82-108 | `encounter_operator` pushes `cur` on what the longest popping run leaves |
| ParserFacts.CloseShape | src/parser.rs:49-65 | `right_paren` removes the top of the operator stack down to and including the topmost `(` with no `Function` under it, or all of it; a `(` of a call does not stop it |
| ParserFacts.ReduceKeepsOperands | src/parser.rs:87-104 | the reduction loop only rewrites the top of the operand stack: the result is no longer than the input, and everything under its top node is an untouched prefix of the input |
| ParserFacts.CloseKeepsOperands | src/parser.rs:49-65 | the same frame for `right_paren`: the operands under the nodes it builds are left as they were |
| ParserFacts.AddOperatorWellFormed | src/parser.rs:73-77 | `add_operator` keeps every operand well formed |
| ParserFacts.CollectFunctionWellFormed | src/parser.rs:42-45 | `encounter_func` keeps every operand well formed |
| ParserFacts.ParseWellFormed | src/parser.rs:110-144 | every tree returned has exactly `num_operands` args at each operator node and at least one at each function node, and no parenthesis nodes |
| ParserFacts.ParseEmpty | src/parser.rs:140-143 | no tokens give `EmptyExpression` |
| ParserExamples.Precedence | tests/lib.rs:10-18 | `3 + 4 * 2 / ( 1 - 5 ) ^ 2 ^ 3` parses to `3 + ((4*2) / ((1-5) ^ (2^3)))` |
| ParserExamples.CallWithoutArguments | tests/lib.rs:101-109 | `max()` fails with `NotEnoughFunctionParams("max")` |
| ParserExamples.CallWithThreeArguments | src/parser.rs:29-45 | `max(1,2,3)` becomes one `max` node with args `1, 2, 3` |
| ParserExamples.NestedCallTakesOuterArguments | src/parser.rs:29-40 | `max(1, sin(2))` parses to `max(sin(1, 2))` |
| ParserExamples.NestedCallClosesOuterCall | src/parser.rs:53-63 | `max(sin(2), 1)` parses to `1` |
| ParserExamples.ParenMismatch | tests/lib.rs:111-114 | `x+())` fails with `MissingOperands(Add)` |
| ParserExamples.CallReducesEnclosingOperator | src/parser.rs:53-63 | `1 - max(2) * 3` parses to `(1 - max(2)) * 3` |
| ParserExamples.TooManyBrackets | tests/lib.rs:43-50 | `((((((x^2))-((16))))))` parses to `x^2 - 16` |
| ParserExamples.NestedCallsCloseTogether | tests/lib.rs:86-88 | the tokens of `abs(abs(-1))` parse to `abs(abs(-1.0 * 1))` |
| ParserExamples.UnclosedParenthesis | src/parser.rs:136-143 | `1 + (2` parses to `2` |
| LexerExamples.NegativeNumber | src/lexer/tests.rs:7-19 | `x+-1` lexes to `x`, `+`, `-1.0`, `*`, `1` |
| LexerExamples.WholeRunBound | src/lexer/tests.rs:42-47 | with `abcd` bound, `abcd` lexes to the one variable `abcd` |
| LexerExamples.TwoWordsBound | src/lexer/tests.rs:49-60 | with `ab` and `cd` bound, `abcd` lexes to `ab`, `*`, `cd` |
| LexerExamples.LongPrefixBound | src/lexer/tests.rs:62-73 | with `abc` and `d` bound, `abcd` lexes to `abc`, `*`, `d` |
| LexerExamples.ShortPrefixBound | src/lexer/tests.rs:75-86 | with `a` and `bcd` bound, `abcd` lexes to `a`, `*`, `bcd` |
| LexerExamples.NothingBound | src/lexer/tests.rs:88-107 | with nothing bound, `abcd` lexes to `a`, `*`, `b`, `*`, `c`, `*`, `d` |
| LexerExamples.WordTimesNumber | src/lexer/tests.rs:112-121 | with `quantity` bound, `quantity*2` lexes to `quantity`, `*`, `2` |
| LexerExamples.NumberTimesWord | src/lexer/tests.rs:123-132 | with `quantity` bound, `2quantity` lexes to `2`, `*`, `quantity` |
| LexerExamples.LoneNumber | src/lexer/tests.rs:139-142 | `1` lexes to the one number `1` |
| LexerExamples.CoefficientPower | src/lexer/tests.rs:143-154 | `3x^2` lexes to `3`, `*`, `x`, `^`, `2` |
| LexerExamples.ImplicitAroundParentheses | src/lexer/tests.rs:155-170 | `4(x+3)2` lexes to `4`, `*`, `(`, `x`, `+`, `3`, `)`, `*`, `2` |
| LexerExamples.ImplicitBeforeParenthesis | src/lexer/tests.rs:172-189 | with `x` bound, `2x(x+3)` lexes to `2`, `*`, `x`, `*`, `(`, `x`, `+`, `3`, `)` |
| LexerExamples.ImplicitInsideParentheses | src/lexer/tests.rs:190-211 | `x^(2y+3z)` lexes to `x`, `^`, `(`, `2`, `*`, `y`, `+`, `3`, `*`, `z`, `)` |
| LexerExamples.FunctionCall | src/lexer/mod.rs:134-148 | `max(1,3,25.75,10.5)` lexes to `Function("max")`, `(`, `1`, `,`, `3`, `,`, `25.75`, `,`, `10.5`, `)` |
| Compiler.Compile | src/parser.rs:15-17 | `compile` diverges exactly when `tokenize` does; a lexing error is returned as it is; the tokens of a successful lexing give exactly `parse_tokens`'s result; any tree returned is well formed |
| Compiler.CompileBlank | src/parser.rs:15-17 | an expression with no characters that make tokens (blanks, say) compiles to `EmptyExpression` |

## Left out

- `eval` (src/parser.rs:11-13) and all of AST evaluation leave out floating point: `f64` arithmetic, `powf`, and the builtin functions' math.
- Constants' values are left out. Only the names of `CONSTANTS` and `FUNCTIONS` are modelled.
- Number payloads are the literal text (`NumericLiteral`). `str::parse::<f64>` is the predicate `ParsesAsFloat`: a digit-led run of digits and dots parses exactly when it has at most one `.`.
- User functions (`CustomFunc` pointers) are opaque ids (`CustomFn`), and `set_var`'s generic `Into<NumericLiteral>` conversion is left out.
- Character classes are ASCII. Rust's `is_alphabetic` and `is_alphanumeric` also accept non-ASCII letters and digits.
- The divergence of `parse_implicit` on `_` or `.` is the outcome `Diverges`. The endless loop itself is not modelled.
- Compiler.Compile returns the node only. `Root` also holds a reference to the scope it was compiled with.
- Operators.Symbol states only the length of each symbol. Which symbol each operator has is stated through the lexer instead: LexerFacts.SymbolLexes reads every symbol back as its operator, and Operators.SymbolInjective keeps the symbols distinct.
- The `Debug` implementations are left out, as are the `thiserror` messages, the logging macros (src/macros.rs, src/logger) and the command-line tool (src/main.rs).
- Older revisions that the crate does not build are left out: src/lexer.rs, src/lexer/index.rs, src/lib/, src/ast/node.rs, src/functions/index.rs, src/constants/index.rs, src/tokens/func.rs and src/tokens/number.rs.
- Vector capacities (`with_capacity`) have no observable effect and are left out.
