# Lox tree-walking interpreter, modelled in Dafny

This project models the core of a C# implementation of Lox, the small
dynamically typed scripting language. The model covers:

- **Scanner**: source text to tokens.
- **Resolver**: the static pass that records, for each local variable
  reference, how many scopes out its binding lives.
- **Interpreter**: the tree-walking evaluator, with its scope chain, values,
  operators and runtime errors.
- **Runtime objects**: functions, classes and instances.
- **AST printer**: the debugging renderer.

The C# code is written against mutable objects and exceptions. The model is
pure functions over immutable datatypes:

- **Runtime state.** The interpreter's fields become a `State`:
  - the scope chain, a sequence of maps with the innermost first and the
    globals last;
  - an instance heap;
  - a fresh-id counter, so object identity is explicit;
  - the lines `print` has written.
- **Exceptions** become an `Outcome`: `Ok`, `Err` (a Lox runtime error),
  `Returning` (the non-local exit of `return`), `NoFuel`, or `Unmodelled`.
  `Unmodelled` covers a host failure that the C# code does not turn into a
  Lox error.
- **Fuel.** Every evaluation step spends one unit of fuel, so loops and
  recursion terminate.
- **Resolver state.** The resolver's scope stack is a sequence, bottom
  first. Its side table maps a reference node's id to a distance.
- **Scanner.** One token is one step, `ScanToken`. The recursive
  `ScanFrom` repeats the step to the end of the source, and the loop
  `ScanTokens` is proved to produce the same tokens.

Modules: `Tokens`, `Wrappers`/`Errors`, `Extensions`, `Ast`, `Values`,
`Environment`, `Objects`, `Operators`, `Interpreter`, `InterpreterFacts`,
`Resolver`, `ResolverFacts`, `Scanner`, `ScannerFacts` and `AstPrinter`.

Two places in the code behave differently from what they evidently intend
(see Findings). Each has a mode switch: `Resolver.Lookup` and
`Scanner.KeywordMode`. In both, the as-written behaviour is modelled and
the corrected behaviour is proved alongside it.

In three places this implementation departs from standard Lox semantics
(innermost-scope resolution, closures, chained environments). The model
follows the code in each:

- `ResolveLocal` finds the outermost scope, not the innermost.
- A called function runs under the globals, not a captured closure
  environment, because `LoxFunction.Call` builds its scope on
  `interpreter.globals`.
- `Environment` is a flat map. Chain walking happens only through the
  resolved distance (`GetAt`/`AssignAt`).

Object identity is explicit. Every function, class and instance made at run
time takes the next value of a counter; an instance's heap address is that
value. The interpreter's states keep every heap address below the counter,
and no step moves the counter back, so a new instance never shares an
address with an instance already in the heap. Function ids are not bounded
in the same way (see Left out).

## Model

| member | source | states |
|---|---|---|
| Values.FromLiteral | Lox/Interpreter.cs:143-146 | a literal evaluates to its own payload: nil, the boolean, the number or the string it holds, never an object |
| Extensions.JavaStyleSubstring | Lox/Extensions.cs:5-10 | defined only for 0 <= begin <= end <= length (Substring throws otherwise); the result has end - begin characters, character k being s[begin + k] |
| Extensions.SubstringEmpty | Lox/Extensions.cs:8-9 | equal indices give the empty string |
| Extensions.SubstringConcat | Lox/Extensions.cs:5-10 | two adjacent substrings concatenate to the substring spanning both |
| Extensions.NatToString | Lox/Interpreter.cs:124 | the count interpolated into the arity message is a non-empty run of decimal digits |
| Extensions.NatToStringRoundTrip | Lox/Interpreter.cs:124 | reading those digits back as a decimal gives the count again |
| Environment.Define | Lox/Environment.cs:9-12 | never fails; the name is bound to the value, the key set gains exactly the name, every other binding is unchanged |
| Environment.Get | Lox/Environment.cs:14-22 | succeeds exactly when the name is bound, with its value; otherwise fails with "Undefined variable '<name>'." on the name's token |
| Environment.Assign | Lox/Environment.cs:24-33 | succeeds exactly when the name is already bound, never adds a key, changes only that binding; otherwise the undefined-variable error |
| Environment.GetAfterDefine | Lox/Environment.cs:9-19 | reading a name after a define gives the defined value for that name and the old answer for any other |
| Environment.GetAfterAssign | Lox/Environment.cs:14-33 | reading after a successful assign gives the assigned value for that name and the old answer for any other |
| Environment.AssignFailsLikeGet | Lox/Environment.cs:21-32 | assign fails exactly when get would, with the same error |
| Environment.DefineAllBindings | Lox/LoxFunction.cs:19-23 | defining names in order binds exactly those names, each to the value of its last occurrence |
| Environment.GetAt | Lox/Interpreter.cs:312 | reading at distance d finds a value exactly when scope d of the chain (0 innermost) binds the name, and it is that scope's value |
| Environment.AssignAt | Lox/Interpreter.cs:327 | writing at distance d succeeds exactly when scope d binds the name; only scope d changes, as an assign on it would |
| Objects.BindParameters | Lox/LoxFunction.cs:19-23 | the call scope binds exactly the parameter names, parameter i to argument i (the last duplicate winning) |
| Objects.Bind | Lox/LoxInstance.cs:23 | a bound method keeps the declaration and arity and records the receiving instance |
| Objects.FindMethod | Lox/LoxClass.cs:41-49 | finds a method exactly when the class's own table has the name, and it is that entry (no superclass walk) |
| Objects.ClassArity | Lox/LoxClass.cs:22-27 | a class's arity is its `init` method's arity, or 0 without one |
| Objects.MethodTable | Lox/Interpreter.cs:223-228 | the method table holds exactly the declared method names, each mapped to a fresh function for its last declaration |
| Objects.InstanceGet | Lox/LoxInstance.cs:15-26 | a field wins over a method of the same name; with no field, the class's method bound to the instance; with neither, "Undefined property '<name>'." |
| Objects.InstanceSet | Lox/LoxInstance.cs:28-31 | setting adds or overwrites exactly one field and leaves the others |
| Objects.GetAfterSet | Lox/LoxInstance.cs:15-31 | after setting n to v, getting n gives v and any other name gives what it gave before |
| Objects.Arity | Lox/ILoxCallable.cs:7 | the arity of a function, of a class (through `init`) and of the native clock (0) |
| Operators.TruthinessTable | Lox/Interpreter.cs:164-169 | nil is falsy, a boolean is its own truth value, everything else, 0 and "" included, is truthy; falsy exactly for nil and false |
| Operators.IsTruthy | Lox/Interpreter.cs:164-169 | a value is falsy exactly when it is nil or false |
| Operators.EqualityLaws | Lox/Interpreter.cs:130-136 | nil equals nil, nil never equals a non-nil; equality is reflexive, symmetric, transitive and never relates values of different kinds (no coercion) |
| Operators.IsEqual | Lox/Interpreter.cs:130-136 | the nil checks followed by `Equals` amount to equality of the two values: identity for objects, value equality otherwise, never across kinds |
| Operators.ObjectEquality | Lox/Interpreter.cs:135 | objects compare by identity: instances at different addresses, or function objects with different ids, are never equal even with equal contents; a reference equals itself |
| Operators.BinaryOp | Lox/Interpreter.cs:61-102 | arithmetic and comparison fail with "Operands must be numbers." exactly when an operand is not a number; on two numbers `-`, `*`, `/` give the difference, product and quotient (division by zero unmodelled) and `>`, `>=`, `<`, `<=` the comparison; `+` adds numbers, concatenates strings, otherwise "Operands must be two numbers or two strings."; `==`/`!=` never fail |
| Operators.NotEqualNegatesEqual | Lox/Interpreter.cs:94-97 | `!=` is the negation of `==`, and a number never equals a string |
| Operators.UnaryOp | Lox/Interpreter.cs:152-161 | `!` is the negated truthiness; `-` negates a number and is an unchecked cast failure otherwise, never a Lox error |
| Operators.Stringify | Lox/Interpreter.cs:39-54 | nil prints as "nil"; a number as the host text less a trailing ".0"; booleans as "True"/"False"; strings as themselves; a function as `<fn name>`, a class as its name, an instance as its class name and " instance", the clock as its type name (the `ToString` overrides of LoxFunction.cs:37-40, LoxClass.cs:51-54, LoxInstance.cs:33-36) |
| Interpreter.InitialState | Lox/Interpreter.cs:12-16 | the interpreter starts in the globals alone, which bind just `clock` to the native clock |
| Interpreter.LookUpVariable | Lox/Interpreter.cs:307-318 | with a recorded distance, the read succeeds exactly when that scope binds the name; without one, only the globals are consulted, failing with the undefined-variable error |
| Interpreter.AssignVariable | Lox/Interpreter.cs:320-334 | with a distance, only that scope's binding changes; without one, only the globals change, failing when the name is unbound; the value is the result |
| Interpreter.Eval | Lox/Interpreter.cs:185-188 | an expression keeps the chain's length and the names every scope binds, keeps heap addresses below the id counter and never moves it back, only appends output, and never lets a `return` escape |
| Interpreter.EvalBinary | Lox/Interpreter.cs:56-61 | the expression invariants through both operands (the order: InterpreterFacts.BinaryEvaluationOrder) |
| Interpreter.EvalLogical | Lox/Interpreter.cs:336-350 | the expression invariants whether or not the right operand runs (the short circuit: InterpreterFacts.ShortCircuit) |
| Interpreter.EvalCall | Lox/Interpreter.cs:105-128 | the expression invariants through callee, arguments and call (the checks: InterpreterFacts.CallChecks) |
| Interpreter.EvalGet | Lox/Interpreter.cs:352-360 | reading a property keeps the expression invariants: chain and scope names, ids never reused, output only appended, no `return` escaping (the non-instance error: InterpreterFacts.PropertiesNeedAnInstance) |
| Interpreter.EvalSet | Lox/Interpreter.cs:362-373 | writing a property keeps the same expression invariants (what it stores: InterpreterFacts.SetThenGet) |
| Interpreter.EvalArgs | Lox/Interpreter.cs:109-113 | the same invariants across the argument list; when all arguments succeed there is one value per argument (their order: InterpreterFacts.ArgumentsLeftToRight) |
| Interpreter.CallValue | Lox/Interpreter.cs:115-127 | a non-callable fails with "Can only call functions and classes."; a wrong count fails with "Expected N arguments but got M."; neither changes the state |
| Interpreter.Invoke | Lox/LoxClass.cs:29-39 | calling a class consumes at least one fresh id, and a successful call yields the instance at the old counter value, an address no instance used before |
| Interpreter.CallFunction | Lox/LoxFunction.cs:17-35 | a call leaves every scope of the caller but the globals untouched, adds no name to any scope, keeps the id and heap invariants, and never lets a `return` escape |
| Interpreter.ExecBlock | Lox/Interpreter.cs:202-218 | on every exit path the previous chain is restored, with its length and the scopes the block could not see unchanged, and every scope binding the same names as before |
| Interpreter.ExecStmts | Lox/Interpreter.cs:209-212 | running the statements in order keeps the statement invariants: names added only to the innermost scope, ids never reused, output only appended |
| Interpreter.Exec | Lox/Interpreter.cs:190-193 | a statement keeps the chain's length, adds names only to the innermost scope, keeps the id and heap invariants and only appends output |
| Interpreter.ExecIf | Lox/Interpreter.cs:249-261 | the statement invariants through the condition and the chosen branch (the choice: InterpreterFacts.IfBranches) |
| Interpreter.ExecWhile | Lox/Interpreter.cs:290-298 | the statement invariants through every iteration (the unrolling: InterpreterFacts.WhileUnrolls) |
| Interpreter.ExecClass | Lox/Interpreter.cs:220-234 | a class declaration binds the name in the current scope to a class holding its methods and changes no other scope |
| Interpreter.Interpret | Lox/Interpreter.cs:18-31 | top-level execution ends in the statements' state with their outcome, except that a `return` escaping to top level becomes a host failure; the chain keeps its length and output is only appended |
| InterpreterFacts.ShortCircuit | Lox/Interpreter.cs:336-350 | `or` with a truthy left and `and` with a falsy left give the left value and state, the right unevaluated; otherwise the right operand's result |
| InterpreterFacts.BinaryEvaluationOrder | Lox/Interpreter.cs:56-61 | the left operand runs first, the right from its state, and the operator applies to both values |
| InterpreterFacts.NumericOperatorTypeError | Lox/Interpreter.cs:177-183 | a numeric operator on a non-number fails, after both operands ran |
| InterpreterFacts.CallChecks | Lox/Interpreter.cs:105-128 | callee, then all arguments; then the callable check, then the arity check; otherwise the callable's own result |
| InterpreterFacts.ArgumentsLeftToRight | Lox/Interpreter.cs:109-113 | when all arguments succeed, value i is what argument i yields from the state argument i - 1 left, and the call continues from the state after the last |
| InterpreterFacts.BlockRestoresChain | Lox/Interpreter.cs:196-218 | a block runs its statements in a fresh innermost scope, and afterwards the chain is the inner run's without that scope |
| InterpreterFacts.ShadowingIsLocal | Lox/Interpreter.cs:196-218 | for any block and any outcome, every scope of the enclosing chain binds exactly the names it bound before: declarations inside never leak out |
| InterpreterFacts.VarBindsInnermost | Lox/Interpreter.cs:278-288 | `var` binds nil, or the initializer's value, in the innermost scope only |
| InterpreterFacts.VariableReadPaths | Lox/Interpreter.cs:300-318 | a resolved read takes the value at the recorded depth; an unresolved one reads the globals or fails with the undefined-variable error |
| InterpreterFacts.CallIgnoresCallerLocals | Lox/LoxFunction.cs:17-28 | two calls from different local chains with the same globals behave identically |
| InterpreterFacts.BlockIgnoresHiddenScopes | Lox/Interpreter.cs:202-218 | a block run above the globals alone is independent of the scopes it hides |
| InterpreterFacts.CallCatchesReturn | Lox/LoxFunction.cs:25-34 | the call's state is the body's; its result is the value a `return` carried out of the body, nil when the body completes, or the body's error |
| InterpreterFacts.ClassCallYieldsInstance | Lox/LoxClass.cs:29-39 | calling a class yields a new instance of it whatever `init` returns; `init` runs bound to it exactly when it exists, and its error is the call's |
| InterpreterFacts.WhileUnrolls | Lox/Interpreter.cs:290-298 | a falsy condition stops the loop; a truthy one runs the body, then the same loop again |
| InterpreterFacts.PrintAppendsOneLine | Lox/Interpreter.cs:263-268 | `print` appends exactly the value's printed form as one line |
| InterpreterFacts.IfBranches | Lox/Interpreter.cs:249-261 | a truthy condition runs the then-branch, a falsy one the else-branch if any, from the condition's state |
| InterpreterFacts.PropertiesNeedAnInstance | Lox/Interpreter.cs:352-368 | property get and set on a non-instance fail on the name with their own messages; set fails before evaluating its value |
| InterpreterFacts.SetThenGet | Lox/Interpreter.cs:362-373 | set stores the value in that instance only, yields it, and a get of the same name then gives it back |
| Resolver.BeginScope | Lox/Resolver.cs:35-38 | pushes one empty innermost scope and changes nothing else |
| Resolver.EndScope | Lox/Resolver.cs:39-42 | pops the innermost scope and changes nothing else |
| Resolver.Declare | Lox/Resolver.cs:202-213 | with no scope open nothing happens; otherwise the name is marked not ready in the innermost scope, reported as a duplicate exactly when that scope already had it |
| Resolver.Define | Lox/Resolver.cs:215-219 | with no scope open nothing happens; otherwise the name is marked ready in the innermost scope, without any report |
| Resolver.ToArray | Lox/Resolver.cs:183 | the array lists the stack top (innermost) first |
| Resolver.LoopDistance | Lox/Resolver.cs:179-189 | the loop as written finds nothing exactly when no scope has the name, and otherwise records the bottom-based index of the outermost scope holding it |
| Resolver.ScanDownFindsOutermost | Lox/Resolver.cs:181-188 | each iteration from index i down meets the scopes from the bottom up |
| Resolver.InnermostDistance | Lox/Resolver.cs:179-189 | the intended distance: none exactly when no scope has the name, else the number of scopes crossed to the innermost one holding it |
| Resolver.ResolveLocal | Lox/Resolver.cs:179-189 | records nothing when no open scope has the name, else exactly one entry for the reference, below the stack depth, as the selected search gives it |
| Resolver.ResolveExpr | Lox/Resolver.cs:44-166 | resolving an expression keeps the scopes, function kind and mode and only adds diagnostics and recorded distances |
| Resolver.ResolveExprs | Lox/Resolver.cs:70-73 | resolving the argument list keeps the scopes, function kind and mode, and only adds diagnostics and distances (the order: ResolverFacts.ResolveExprsInOrder) |
| Resolver.ResolveVariable | Lox/Resolver.cs:168-177 | a read whose innermost entry is not ready adds exactly the own-initializer diagnostic, and the reference is resolved either way |
| Resolver.ResolveStmts | Lox/Resolver.cs:17-23 | the statements in order keep depth, function kind and outer scopes, and only add diagnostics and distances |
| Resolver.ResolveStmt | Lox/Resolver.cs:25-28 | every statement kind keeps those invariants |
| Resolver.ResolveBlock | Lox/Resolver.cs:58-64 | a block leaves the scope stack exactly as it found it |
| Resolver.ResolveIf | Lox/Resolver.cs:121-127 | an `if` keeps the invariants through its condition and branches |
| Resolver.ResolveWhile | Lox/Resolver.cs:221-226 | a `while` keeps the invariants through its condition and body |
| Resolver.ResolveReturn | Lox/Resolver.cs:147-160 | a `return` at top level is reported with "Can't return from top-level code.", inside a function it is not; a bare `return` changes nothing else, and a returned value is then resolved like any expression |
| Resolver.ResolveVar | Lox/Resolver.cs:191-200 | after `var` the name is ready in the innermost scope, a redeclaration there is reported, and at top level a bare `var` changes nothing |
| Resolver.DeclareParameters | Lox/Resolver.cs:104-108 | the function's scope gains exactly the parameter names, all ready; no enclosing scope changes; distinct names new to the scope draw no diagnostic |
| Resolver.FunctionScope | Lox/Resolver.cs:98-108 | a body is resolved with function kind FUNCTION in one new innermost scope holding exactly its parameters, all ready, above the unchanged enclosing scopes |
| Resolver.ResolveFunction | Lox/Resolver.cs:98-113 | the body is resolved in the function scope, its diagnostics and distances are the function's, and afterwards the scopes and the enclosing function kind are as before |
| Resolver.Resolve | Lox/Resolver.cs:17-23 | a whole program ends with no scope open at top-level function kind |
| ResolverFacts.VarIsDeclaredBeforeItsInitializer | Lox/Resolver.cs:191-200 | while the initializer is resolved the name is present but not ready; afterwards it is ready |
| ResolverFacts.SelfInitializationReported | Lox/Resolver.cs:168-177 | `var a = a;` in a local scope is reported, whatever `a` means outside |
| ResolverFacts.SelfInitialization | Lox/Resolver.cs:191-200 | the same, at the level of the `var` visit |
| ResolverFacts.RedeclarationOnlyReportedLocally | Lox/Resolver.cs:202-213 | declaring a name twice is reported in a local scope and silently allowed at top level |
| ResolverFacts.LoneDeclaration | Lox/Resolver.cs:191-200 | `var name;` alone declares and then defines the name |
| ResolverFacts.ResolveExprsInOrder | Lox/Resolver.cs:70-73 | arguments are resolved left to right: a list split anywhere resolves its first part, stops if that aborts, and otherwise resolves the rest from the state the first part left; one argument resolves like an expression |
| ResolverFacts.ReturnReportedOnlyAtTopLevel | Lox/Resolver.cs:147-160 | `fun f() { return; }` with distinct parameters resolves without a diagnostic and leaves the state as it was; the same `return;` at top level is reported |
| ResolverFacts.ParameterReadResolvesToZero | Lox/Resolver.cs:98-113 | a body reading its own parameter records distance 0 under the intended search |
| ResolverFacts.LookupsAgreeAtDepthOne | Lox/Resolver.cs:179-189 | with at most one scope open the loop as written and the intended search agree |
| ResolverFacts.LoopDistanceMissesEnclosingScope | Lox/Resolver.cs:179-189 | with the name only in the outer of two scopes, the loop records 0 where the intended distance is 1 |
| ResolverFacts.NestedReadResolution | Lox/Resolver.cs:179-189 | `{ var a = 1; { print a; } }` resolves cleanly, recording 0 as written and 1 as intended for the read of `a` |
| ResolverFacts.InnerBlockResolution | Lox/Resolver.cs:58-64 | the inner block of that program resolves with the outer scope unchanged |
| ResolverFacts.NestedReadAsWrittenFails | Lox/Interpreter.cs:307-313 | with the distance the code records, that program's read looks in the wrong scope and fails without printing |
| ResolverFacts.NestedReadInnermostPrints | Lox/Interpreter.cs:307-313 | with the intended distance the same program prints 1 |
| ResolverFacts.NestedReadRun | Lox/Interpreter.cs:196-218 | the whole run of that program under either distance |
| ResolverFacts.InnerBlockRun | Lox/Interpreter.cs:196-218 | the inner block's run, one scope in from the binding of `a` |
| Scanner.Span | Lox/Scanner.cs:110 | an advance-while loop stops at the first character failing the test, or at the end |
| Scanner.Peek | Lox/Scanner.cs:160-164 | before the end, the lookahead is the character `Match` tests; past the end it is NUL |
| Scanner.PeekNext | Lox/Scanner.cs:166-170 | the second lookahead is the first lookahead one position on |
| Scanner.AddToken | Lox/Scanner.cs:187-192 | a token's lexeme is the source from the lexeme's start to the current position, on the current line |
| Scanner.OneOrTwo | Lox/Scanner.cs:52-63 | an operator followed by `=` gives the two-character kind, otherwise the one-character kind |
| Scanner.IdentifierKind | Lox/Scanner.cs:114-119 | as written, a keyword gets IDENTIFIER and any other word the default kind; the intended lookup gives keywords their kind and other words IDENTIFIER |
| Scanner.DoIdentifier | Lox/Scanner.cs:108-120 | a word takes the maximal run of letters and digits, with the kind the lookup gives it |
| Scanner.DoNumber | Lox/Scanner.cs:122-136 | a number takes the maximal run of digits, and a single `.` exactly when a digit follows it, then the digits after it |
| Scanner.DoString | Lox/Scanner.cs:138-158 | a string runs to the next quote, counting the line breaks inside; its literal is the text between the quotes; unterminated, it reports "Unterminated string." and adds no token |
| Scanner.ScanToken | Lox/Scanner.cs:37-106 | each step consumes at least one character, counts exactly the line breaks it consumed, and adds a non-EOF token whose lexeme is what it consumed, or an error, never both |
| Scanner.ScanTokenCases | Lox/Scanner.cs:39-105 | the case analysis on the first character consumes at least one character and yields a token that is the consumed slice |
| Scanner.ScanTokenLines | Lox/Scanner.cs:77-85 | the line counter advances by exactly the line breaks consumed |
| Scanner.StringLines | Lox/Scanner.cs:140-144 | line breaks inside a string are counted, and the string token carries the line where it ends |
| Scanner.ScanTokenNoLineBreaks | Lox/Scanner.cs:39-82 | outside strings and newlines, a step consumes no line break |
| Scanner.ScanLayout | Lox/Scanner.cs:22-33 | the scan's final line counts every line break of the source; each token is the source slice at its start, on the line that start lies on, and tokens do not overlap |
| Scanner.ScannedTokensAreLexemes | Lox/Scanner.cs:187-192 | every scanned token is non-EOF with a non-empty lexeme |
| Scanner.ScanTokens | Lox/Scanner.cs:22-33 | the token list is the scan's tokens followed by exactly one EOF token with an empty lexeme on the last line, and no earlier token is EOF |
| ScannerFacts.OperatorTokens | Lox/Scanner.cs:42-63 | single-character operators, and one- or two-character operators by whether `=` follows |
| ScannerFacts.SlashAndComments | Lox/Scanner.cs:65-75 | `//` consumes up to, not including, the line break and adds nothing; a lone `/` is SLASH |
| ScannerFacts.Whitespace | Lox/Scanner.cs:77-85 | blanks add nothing; a line break adds nothing and counts a line |
| ScannerFacts.UnexpectedCharacter | Lox/Scanner.cs:100-103 | any other character is reported with "Unexpected character." and consumed, so scanning goes on |
| ScannerFacts.Lookahead | Lox/Scanner.cs:172-179 | `Match` consumes exactly when the expected character is the lookahead before the end; past the end both lookaheads are NUL |
| ScannerFacts.NumberDispatch | Lox/Scanner.cs:92-95 | a digit starts a number |
| ScannerFacts.NumberFraction | Lox/Scanner.cs:124-133 | `1.5` scans as one number, while `1.x` gives the number `1` and stops before the `.` |
| ScannerFacts.StringDispatch | Lox/Scanner.cs:87-89 | a quote starts a string |
| ScannerFacts.WordDispatch | Lox/Scanner.cs:96-99 | a letter starts a word |
| ScannerFacts.WordLexeme | Lox/Scanner.cs:108-120 | a source that is one word scans as that whole word |
| ScannerFacts.KeywordScannedAsIdentifier | Lox/Scanner.cs:114-116 | `var` scans as IDENTIFIER as written, and as VAR under the intended lookup |
| ScannerFacts.NameScannedAsDefaultKind | Lox/Scanner.cs:114-119 | `x` scans as the default kind as written, and as IDENTIFIER under the intended lookup |
| ScannerFacts.LookupsDisagreeEverywhere | Lox/Scanner.cs:114-119 | the two lookups never agree on any word, and the intended one gives each keyword its own kind |
| AstPrinter.Parenthesize | Lox/AstPrinter.cs:46-59 | the rendering opens with a parenthesis and the name and closes with a parenthesis |
| AstPrinter.ParenthesizeWithBuilder | Lox/AstPrinter.cs:46-59 | the builder loop yields "(" + name, then " " + part for each part, then ")", of exactly that length |
| AstPrinter.ParenthesizeShapes | Lox/AstPrinter.cs:46-59 | zero, one and two operands spelled out |
| AstPrinter.NamedForm | Lox/AstPrinter.cs:46-59 | a one-operand form with a fixed name renders as the name after the opening parenthesis, a space, the operand and the closing parenthesis |
| AstPrinter.PrintExpr | Lox/AstPrinter.cs:11-18 | every operator form (assignment, binary, call, grouping, unary) is wrapped in parentheses; variables, property accesses and `this` are not |
| AstPrinter.LiteralsPrintLikeValues | Lox/AstPrinter.cs:15 | a non-number literal prints as `print` prints the value it denotes; a number prints as the host's full text, without the ".0" trimming |
| AstPrinter.PrintStmt | Lox/AstPrinter.cs:20-29 | a rendering exists exactly for blocks, expression, if and print statements, and `var` with an initializer |
| AstPrinter.BinaryForm | Lox/AstPrinter.cs:12 | a binary expression prints as `(op left right)` |
| AstPrinter.UnaryForm | Lox/AstPrinter.cs:16 | a unary expression prints as `(op right)` |
| AstPrinter.GroupingForm | Lox/AstPrinter.cs:14 | a grouping prints as `(group inner)` |
| AstPrinter.AssignForm | Lox/AstPrinter.cs:11 | an assignment prints as `(assignstmt value)` |
| AstPrinter.CallForm | Lox/AstPrinter.cs:13 | a call prints as `(call callee)` |
| AstPrinter.LossyForms | Lox/AstPrinter.cs:11-18 | the target of an assignment, a call's arguments and both operands of a logical expression do not affect the output |
| AstPrinter.LeafForms | Lox/AstPrinter.cs:15-17 | nil prints as "nil", a string literal as its text, a variable as "var:" and its name |

## Left out

- Console I/O, error reporting flags and exit codes (`Program.cs`) are not
  part of this model. Diagnostics and runtime errors are returned as data,
  and `print` output is a sequence of lines.
- `LoxClock`: the clock's reading is a parameter of the evaluation context.
  The wall-clock time and its millisecond arithmetic are not modelled.
- IEEE doubles: numbers are mathematical reals.
  - Division by zero is `Unmodelled` instead of an infinity or NaN.
  - The host's `double.ToString` is a parameter. Only the trimming of a
    trailing ".0" is modelled.
  - A number token keeps its text instead of the `double.Parse` value.
- Operators.UnaryOp: unary minus on a non-number is an unchecked cast in the
  code. It is modelled as a host failure (`Unmodelled`), not as a Lox error.
- Class declarations in the resolver throw `NotImplementedException`.
  Property get and set, and `this`, have no resolver visit method. All of
  these are `Aborted` resolutions. `this` also has no interpreter visit
  method, so it is `Unmodelled` there. `super` does not appear in the code.
- The printer's statement visits that throw (class, function, return,
  while) and a `var` without an initializer give `None`.
- Token.cs and TokenType.cs are not part of this model.
  - `default(TokenType)` is taken to be the first kind, `LEFT_PAREN`.
  - A token's `ToString`, which the printer interpolates for property
    names, is a parameter.
- Members the code calls but does not define are inferred from their call
  sites:
  - `new Environment(enclosing)`;
  - `GetAt` and `AssignAt`, as index `d` from the innermost scope;
  - `LoxFunction.Bind` and the two-argument `LoxFunction` constructor;
  - the fields of the function, return, while and class statements.

  A `GetAt`/`AssignAt` miss is `Unmodelled`.
- The side table is keyed by a per-node id. The code keys it on C# records,
  which compare structurally, so two structurally equal references share an
  entry there and not here.
- Interpreter.Eval: every step spends fuel. Running out is `NoFuel`, so
  properties of non-terminating or very deep programs are stated only up to
  the fuel given.
- Scanner.IdentifierKind: `char.IsLetter`/`IsDigit` are taken as ASCII
  letters and digits. Unicode letters and digits are not modelled.
- Scanner.DoNumber: `char.IsDigit` is taken as the ASCII digits, so a run of
  other Unicode decimal digits does not continue a number here.
- Scanner.ScanTokens: the scanner's mutable `start`/`current`/`line` fields
  are a step function, `ScanToken`, repeated by the recursive `ScanFrom`,
  plus a loop proved to agree with it. `Advance`
  appears only through the lexing functions.
- Scanner.ScanTokens: a Dafny string is a sequence of Unicode scalar values,
  while `Source[current]` indexes UTF-16 code units. A character outside
  the Basic Multilingual Plane is one step here but two in the code, so an
  unexpected such character is reported once here and twice in the code.
- Operators.ObjectEquality: identity is the heap address or the function
  id. The model shows that allocation never reuses an address in use
  (Interpreter.Invoke), but it does not prove a whole-state invariant that
  every reference held anywhere agrees with the heap about its class.
  Function ids are drawn from the same counter, but no invariant bounds the
  ids of functions held in the scope chain or in fields by the counter, so
  freshness of a new function's id is not proved.
- Interpreter.CallFunction: functions do not capture an environment, as in
  the code. Closures over enclosing locals are not modelled because the code
  has none.

## Findings

| source | as written | input that shows it | evidently intended | confidence | as-written member | corrected member |
|---|---|---|---|---|---|---|
| Lox/Resolver.cs:181-185 | the loop indexes `scopes.ToArray()`, which lists the top of the stack first, from its last entry down. It therefore finds the OUTERMOST scope holding the name and records its bottom-based index | `{ var a = 1; { print a; } }`: the read of `a` is recorded at distance 0, so the interpreter looks in the inner block's empty scope and fails | the number of scopes from the innermost one to the innermost scope holding the name (1 here), so the program prints 1 | not executed | Resolver.LoopDistance, ResolverFacts.LoopDistanceMissesEnclosingScope, ResolverFacts.NestedReadAsWrittenFails | Resolver.InnermostDistance, ResolverFacts.NestedReadInnermostPrints |
| Lox/Scanner.cs:114-116 | when the word IS a keyword, its kind is overwritten with IDENTIFIER; otherwise `type` stays `default(TokenType)` | `var`: scans as IDENTIFIER; `x`: scans as the default kind, not IDENTIFIER | a keyword gets its own kind and any other word IDENTIFIER | not executed | ScannerFacts.KeywordScannedAsIdentifier, ScannerFacts.NameScannedAsDefaultKind | Scanner.IdentifierKind, ScannerFacts.LookupsDisagreeEverywhere |

The corrected member of the second row is the `KeywordsRecognized` mode
of `Scanner.IdentifierKind`. The resolver and the scanner take the mode as
an input, and the properties above hold in both modes unless a row names
one.
