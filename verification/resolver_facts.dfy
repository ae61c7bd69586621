/** Properties of the resolver, and what the distances it records mean to
    the interpreter that consumes them. */
module ResolverFacts {
  import opened Tokens
  import opened Wrappers
  import opened Ast
  import opened Resolver
  import opened Values
  import opened Operators
  import Interpreter

  /** Arguments are resolved left to right: resolving `a + b` resolves all
      of `a` first, stops there if it aborts, and otherwise resolves `b`
      from the state `a` left, so the diagnostics and distances of `a` come
      first. A single argument is resolved like any expression. */
  lemma {:induction false} ResolveExprsInOrder(a: seq<Expr>, b: seq<Expr>, st: ResolverState)
    ensures ResolveExprs(a + b, st) == match ResolveExprs(a, st)
                                       case Aborted(_) => ResolveExprs(a, st)
                                       case Resolved(mid) => ResolveExprs(b, mid)
    ensures |a| == 1 ==> ResolveExprs(a, st) == ResolveExpr(a[0], st)
    decreases |a|
  {
    if |a| == 0 {
      assert a + b == b;
    } else {
      assert (a + b)[0] == a[0];
      assert (a + b)[1..] == a[1..] + b;
      var h := ResolveExpr(a[0], st);
      if h.Resolved? {
        ResolveExprsInOrder(a[1..], b, h.st);
      }
      if |a| == 1 {
        assert a[1..] == [];
      }
    }
  }

  /** `var a = init;` in a local scope: the name is in the innermost scope
      but unusable while the initializer is resolved, and usable after. */
  lemma VarIsDeclaredBeforeItsInitializer(st: ResolverState, name: Token, init: Expr)
    requires |st.scopes| > 0
    ensures var d := Declare(st, name);
            name.lexeme in d.scopes[|d.scopes| - 1] && !d.scopes[|d.scopes| - 1][name.lexeme]
    ensures var r := ResolveStmt(Var(name, Some(init)), st);
            r.Resolved? ==> name.lexeme in r.st.scopes[|r.st.scopes| - 1]
                            && r.st.scopes[|r.st.scopes| - 1][name.lexeme]
  {
    VarDispatch(name, Some(init), st);
  }

  /** `var a = a;` in a local scope is reported, whatever `a` means outside. */
  lemma SelfInitializationReported(st: ResolverState, name: Token, id: nat)
    requires |st.scopes| > 0
    ensures var r := ResolveStmt(Var(name, Some(Variable(id, name))), st);
            r.Resolved? && Diagnostic(name, OwnInitializerMessage) in r.st.errors
  {
    var r := SelfInitialization(st, name, id);
    VarDispatch(name, Some(Variable(id, name)), st);
  }

  lemma SelfInitialization(st: ResolverState, name: Token, id: nat) returns (r: ResolverState)
    requires |st.scopes| > 0
    ensures ResolveVar(name, Some(Variable(id, name)), st) == Resolved(r)
    ensures Diagnostic(name, OwnInitializerMessage) in r.errors
  {
    var d := Declare(st, name);
    assert name.lexeme in d.scopes[|d.scopes| - 1] && !d.scopes[|d.scopes| - 1][name.lexeme];
    var v := ResolveVariable(d, id, name);
    assert v.errors == d.errors + [Diagnostic(name, OwnInitializerMessage)];
    assert ResolveExpr(Variable(id, name), d) == Resolved(v);
    r := Define(v, name);
    assert r.errors == v.errors;
  }

  /** Redeclaring a name is reported in a local scope and allowed at top
      level, where names are globals the resolver does not track. */
  lemma RedeclarationOnlyReportedLocally(st: ResolverState, name: Token)
    ensures var r := ResolveStmts([Var(name, None), Var(name, None)], st);
            r.Resolved?
            && (|st.scopes| == 0 ==> r.st == st)
            && (|st.scopes| > 0 ==> Diagnostic(name, DuplicateMessage) in r.st.errors)
  {
    var s1 := LoneDeclaration(st, name);
    var s2 := LoneDeclaration(s1, name);
    assert [Var(name, None), Var(name, None)][1..] == [Var(name, None)];
    if |st.scopes| > 0 {
      assert name.lexeme in s1.scopes[|s1.scopes| - 1];
      assert s2.errors == s1.errors + [Diagnostic(name, DuplicateMessage)];
    }
  }

  /** `var name;` on its own declares and defines the name. */
  lemma LoneDeclaration(st: ResolverState, name: Token) returns (s1: ResolverState)
    ensures s1 == Define(Declare(st, name), name)
    ensures ResolveStmt(Var(name, None), st) == Resolved(s1)
    ensures ResolveStmts([Var(name, None)], st) == Resolved(s1)
  {
    s1 := Define(Declare(st, name), name);
    VarDispatch(name, None, st);
    OneStatement(Var(name, None), st);
  }

  /** `return;` is reported only outside a function: `fun f() { return; }`
      (with distinct parameter names) resolves without a diagnostic and
      changes nothing, at top level or nested, while the same `return` at
      top level is reported. */
  lemma ReturnReportedOnlyAtTopLevel(decl: FunDecl, keyword: Token, st: ResolverState)
    requires decl.body == [Return(keyword, None)] && NoDuplicates(Lexemes(decl.params))
    ensures ResolveFunction(decl, st) == Resolved(st)
    ensures |st.scopes| == 0 ==> ResolveStmt(Function(decl), st) == Resolved(st)
    ensures st.currentFunction == NONE ==>
              ResolveStmt(Return(keyword, None), st)
              == Resolved(st.(errors := st.errors + [Diagnostic(keyword, TopLevelReturnMessage)]))
  {
    var inner := FunctionScope(decl, st);
    OneStatement(Return(keyword, None), inner);
    ReturnDispatch(keyword, None, inner);
    assert ResolveStmts(decl.body, inner) == Resolved(inner);
    var closed := EndScope(inner).(currentFunction := st.currentFunction);
    assert closed.scopes == st.scopes;
    assert closed == st;
    FunctionDispatch(decl, st);
    ReturnDispatch(keyword, None, st);
  }

  /** A function body reads its own parameter at distance 0 when the
      innermost-first search is used. */
  lemma ParameterReadResolvesToZero(st: ResolverState, fname: Token, p: Token, id: nat)
    requires st.lookup == Innermost
    ensures var r := ResolveFunction(FunDecl(fname, [p], [Expression(Variable(id, p))]), st);
            r.Resolved? && id in r.st.locals && r.st.locals[id] == 0
  {
    var inner := FunctionScope(FunDecl(fname, [p], [Expression(Variable(id, p))]), st);
    var v := ReadOwnParameter(inner, p, id);
    ExpressionDispatch(Variable(id, p), inner);
    OneStatement(Expression(Variable(id, p)), inner);
  }

  /** The read of a name bound in the innermost scope records 0. */
  lemma ReadOwnParameter(inner: ResolverState, p: Token, id: nat) returns (v: ResolverState)
    requires inner.lookup == Innermost && |inner.scopes| > 0 && p.lexeme in inner.scopes[|inner.scopes| - 1]
    ensures ResolveExpr(Variable(id, p), inner) == Resolved(v)
    ensures id in v.locals && v.locals[id] == 0
  {
    v := ResolveVariable(inner, id, p);
    assert InnermostDistance(inner.scopes, p.lexeme) == Some(0);
  }

  /** With one scope open the source's search and the intended one agree,
      which is why single-level programs resolve correctly. */
  lemma LookupsAgreeAtDepthOne(scopes: seq<map<string, bool>>, name: string)
    requires |scopes| <= 1
    ensures LoopDistance(scopes, name) == InnermostDistance(scopes, name)
  {
  }

  /** With two scopes open and the name only in the outer one, the source's
      search records 0 (the inner scope) where the interpreter has to walk
      one link out. */
  lemma LoopDistanceMissesEnclosingScope(outer: map<string, bool>, inner: map<string, bool>, name: string)
    requires name in outer && name !in inner
    ensures LoopDistance([outer, inner], name) == Some(0)
    ensures InnermostDistance([outer, inner], name) == Some(1)
  {
  }

  // ----- The finding, end to end: { var a = 1; { print a; } } -----

  const A := Token(IDENTIFIER, "a", NoLiteral, 1)
  const ReadId: nat := 7
  const InnerBlock := Block([Print(Variable(ReadId, A))])
  const NestedRead := [Block([Var(A, Some(Literal(LitNum(1.0)))), InnerBlock])]

  /** The distance each search records for the inner read of `a`. */
  lemma NestedReadResolution(lookup: Lookup)
    ensures var r := Resolve(NestedRead, lookup);
            r.Resolved? && r.st.errors == []
            && r.st.locals == map[ReadId := if lookup == AsWritten then 0 else 1]
  {
    var s0 := ResolverState([], NONE, map[], [], lookup);
    var s1 := BeginScope(s0);
    var declaration := Var(A, Some(Literal(LitNum(1.0))));
    var s2 := OuterDeclaration(s1);
    var s5 := InnerBlockResolution(s2);
    OneStatement(InnerBlock, s2);
    TwoStatements(declaration, InnerBlock, s1);
    BlockDispatch([declaration, InnerBlock], s0);
    OneStatement(NestedRead[0], s0);
  }

  /** `var a = 1;` in the outer block's fresh scope. */
  lemma OuterDeclaration(s1: ResolverState) returns (s2: ResolverState)
    requires s1.scopes == [map[]] && s1.errors == [] && s1.locals == map[]
    ensures ResolveStmt(Var(A, Some(Literal(LitNum(1.0)))), s1) == Resolved(s2)
    ensures s2.scopes == [map["a" := true]] && s2.errors == [] && s2.locals == map[] && s2.lookup == s1.lookup
  {
    VarDispatch(A, Some(Literal(LitNum(1.0))), s1);
    var declared := Declare(s1, A);
    assert declared.errors == [];
    assert ResolveExpr(Literal(LitNum(1.0)), declared) == Resolved(declared);
    s2 := Define(declared, A);
    assert map[]["a" := false]["a" := true] == map["a" := true];
  }

  /** `{ print a; }` with `a` defined only in the one enclosing scope. */
  lemma InnerBlockResolution(s2: ResolverState) returns (s5: ResolverState)
    requires s2.scopes == [map["a" := true]] && s2.errors == [] && s2.locals == map[]
    ensures ResolveStmt(InnerBlock, s2) == Resolved(s5)
    ensures s5.scopes == s2.scopes && s5.errors == [] && s5.lookup == s2.lookup
    ensures s5.locals == map[ReadId := if s2.lookup == AsWritten then 0 else 1]
  {
    var s3 := BeginScope(s2);
    assert s3.scopes == [map["a" := true], map[]];
    LoopDistanceMissesEnclosingScope(map["a" := true], map[], "a");
    var s4 := ResolveVariable(s3, ReadId, A);
    PrintDispatch(Variable(ReadId, A), s3);
    OneStatement(Print(Variable(ReadId, A)), s3);
    BlockDispatch([Print(Variable(ReadId, A))], s2);
    s5 := EndScope(s4);
  }

  // Proof plumbing, not part of the model: each lemma below is one step of
  // the resolver's traversal, stated once so that the proofs above need not
  // unfold `ResolveStmt` or `ResolveStmts` themselves. They model no source
  // line of their own.

  lemma VarDispatch(name: Token, initializer: Option<Expr>, st: ResolverState)
    ensures ResolveStmt(Var(name, initializer), st) == ResolveVar(name, initializer, st)
  {
  }

  lemma BlockDispatch(statements: seq<Stmt>, st: ResolverState)
    ensures ResolveStmt(Block(statements), st) == ResolveBlock(statements, st)
  {
  }

  lemma ReturnDispatch(keyword: Token, value: Option<Expr>, st: ResolverState)
    ensures ResolveStmt(Return(keyword, value), st) == ResolveReturn(keyword, value, st)
  {
  }

  lemma FunctionDispatch(decl: FunDecl, st: ResolverState)
    ensures ResolveStmt(Function(decl), st) == ResolveFunction(decl, Define(Declare(st, decl.name), decl.name))
  {
  }

  lemma ExpressionDispatch(e: Expr, st: ResolverState)
    ensures ResolveStmt(Expression(e), st) == ResolveExpr(e, st)
  {
  }

  lemma PrintDispatch(e: Expr, st: ResolverState)
    ensures ResolveStmt(Print(e), st) == ResolveExpr(e, st)
  {
  }

  lemma OneStatement(s: Stmt, st: ResolverState)
    ensures ResolveStmts([s], st) == ResolveStmt(s, st)
  {
    assert [s][1..] == [];
  }

  lemma TwoStatements(s: Stmt, t: Stmt, st: ResolverState)
    ensures var h := ResolveStmt(s, st);
            ResolveStmts([s, t], st) == if h.Aborted? then h else ResolveStmts([t], h.st)
  {
    assert [s, t][1..] == [t];
  }

  /** Running the program with the distance the source's search records: the
      read of `a` looks in the inner block's scope, where `a` is not bound,
      and the host fails instead of printing. */
  lemma NestedReadAsWrittenFails(clock: real, show: real -> string)
    ensures var cx := Interpreter.Context(map[ReadId := 0], clock, show);
            var r := Interpreter.Interpret(cx, NestedRead, Interpreter.InitialState(), 10);
            r.out.Unmodelled? && r.st.output == []
  {
    var cx := Interpreter.Context(map[ReadId := 0], clock, show);
    NestedReadRun(cx);
  }

  /** Running it with the intended distance prints `1`. */
  lemma NestedReadInnermostPrints(clock: real, show: real -> string)
    ensures var cx := Interpreter.Context(map[ReadId := 1], clock, show);
            var r := Interpreter.Interpret(cx, NestedRead, Interpreter.InitialState(), 10);
            r.out.Ok? && r.st.output == [Stringify(Num(1.0), show)]
  {
    var cx := Interpreter.Context(map[ReadId := 1], clock, show);
    NestedReadRun(cx);
  }

  /** The run of the program, for either recorded distance. */
  lemma NestedReadRun(cx: Interpreter.Context)
    requires cx.locals == map[ReadId := 0] || cx.locals == map[ReadId := 1]
    ensures var r := Interpreter.Interpret(cx, NestedRead, Interpreter.InitialState(), 10);
            (cx.locals[ReadId] == 0 ==> r.out.Unmodelled? && r.st.output == [])
            && (cx.locals[ReadId] == 1 ==> r.out.Ok? && r.st.output == [Stringify(Num(1.0), cx.show)])
  {
    var st0 := Interpreter.InitialState();
    var declaration := Var(A, Some(Literal(LitNum(1.0))));
    // The outer block runs in a fresh scope in front of the globals.
    var st1 := st0.(env := [map[]] + st0.env[0..]);
    var st2 := Interpreter.DefineHere(st1, "a", Num(1.0));
    assert Interpreter.Eval(cx, Literal(LitNum(1.0)), st1, 8) == Interpreter.Run(Ok(Num(1.0)), st1);
    assert Interpreter.Exec(cx, declaration, st1, 9) == Interpreter.Run(Ok(()), st2);
    assert st2.env[0] == map["a" := Num(1.0)] && st2.output == [];
    var innerRun := Interpreter.Exec(cx, InnerBlock, st2, 9);
    InnerBlockRun(cx, st2);
    assert Interpreter.ExecStmts(cx, [InnerBlock], st2, 9) == innerRun;
    assert [declaration, InnerBlock][1..] == [InnerBlock];
    assert Interpreter.ExecStmts(cx, [declaration, InnerBlock], st1, 9) == innerRun;
    var outerRun := Interpreter.ExecBlock(cx, [declaration, InnerBlock], map[], 0, st0, 9);
    assert outerRun.out == innerRun.out && outerRun.st.output == innerRun.st.output;
    assert Interpreter.Exec(cx, NestedRead[0], st0, 10) == outerRun;
    assert Interpreter.ExecStmts(cx, NestedRead, st0, 10) == outerRun;
  }

  /** `{ print a; }` run where the innermost scope binds `a` to 1: a fresh
      empty scope goes in front, so `a` is one link out. */
  lemma InnerBlockRun(cx: Interpreter.Context, st2: Interpreter.State)
    requires cx.locals == map[ReadId := 0] || cx.locals == map[ReadId := 1]
    requires Interpreter.Valid(st2) && st2.env[0] == map["a" := Num(1.0)] && st2.output == []
    ensures var r := Interpreter.Exec(cx, InnerBlock, st2, 9);
            (cx.locals[ReadId] == 0 ==> r.out.Unmodelled? && r.st.output == [])
            && (cx.locals[ReadId] == 1 ==> r.out.Ok? && r.st.output == [Stringify(Num(1.0), cx.show)])
  {
    var printA := Print(Variable(ReadId, A));
    var st3 := st2.(env := [map[]] + st2.env[0..]);
    assert st3.env[0] == map[] && st3.env[1] == map["a" := Num(1.0)];
    var read := Interpreter.Eval(cx, Variable(ReadId, A), st3, 7);
    assert read == Interpreter.Run(Interpreter.LookUpVariable(cx, ReadId, A, st3), st3);
    var printed := Interpreter.Exec(cx, printA, st3, 8);
    assert Interpreter.ExecStmts(cx, [printA], st3, 8) == printed;
    var innerRun := Interpreter.ExecBlock(cx, [printA], map[], 0, st2, 8);
    assert innerRun.out == printed.out && innerRun.st.output == printed.st.output;
    assert Interpreter.Exec(cx, InnerBlock, st2, 9) == innerRun;
    if cx.locals[ReadId] == 0 {
      assert read.out.Unmodelled?;
    } else {
      assert read.out == Ok(Num(1.0));
    }
  }
}
