/** The static resolver: one pass over the program with a stack of scopes,
    each mapping a declared name to whether its initializer has finished
    (`false` between `Declare` and `Define`). It reports diagnostics and
    records, for each variable reference it finds in an open scope, a distance
    in the interpreter's side table, keyed by the reference node's id.

    The stack is a sequence with the bottom (outermost) scope first and the
    top (innermost, what `Peek` returns) last. The global scope is never
    pushed. */
module Resolver {
  import opened Tokens
  import opened Wrappers
  import opened Ast

  datatype FunctionType = NONE | FUNCTION

  /** Which scope search `ResolveLocal` performs: the loop as the source
      writes it, or the innermost-first search it means (see `LoopDistance`
      and `InnermostDistance`). */
  datatype Lookup = AsWritten | Innermost

  datatype Diagnostic = Diagnostic(token: Token, message: string)

  datatype ResolverState = ResolverState(
    scopes: seq<map<string, bool>>,
    currentFunction: FunctionType,
    locals: map<nat, nat>,
    errors: seq<Diagnostic>,
    lookup: Lookup)

  /** Resolution either finishes or stops at a construct the resolver throws
      on (a class declaration) or has no visit method for. */
  datatype Resolution = Resolved(st: ResolverState) | Aborted(reason: string)

  const DuplicateMessage := "Already variable with this name in this scope."
  const OwnInitializerMessage := "Can't read local variable in its own initializer."
  const TopLevelReturnMessage := "Can't return from top-level code."

  /** Appends one diagnostic; `Program.Error` printing it is not modelled. */
  function Report(st: ResolverState, token: Token, message: string): ResolverState
  {
    st.(errors := st.errors + [Diagnostic(token, message)])
  }

  function BeginScope(st: ResolverState): (r: ResolverState)
    ensures r.scopes == st.scopes + [map[]]
    ensures r.currentFunction == st.currentFunction && r.errors == st.errors
    ensures r.locals == st.locals && r.lookup == st.lookup
  {
    st.(scopes := st.scopes + [map[]])
  }

  function EndScope(st: ResolverState): (r: ResolverState)
    requires |st.scopes| > 0
    ensures r.scopes == st.scopes[..|st.scopes| - 1]
    ensures r.currentFunction == st.currentFunction && r.errors == st.errors
    ensures r.locals == st.locals && r.lookup == st.lookup
  {
    st.(scopes := st.scopes[..|st.scopes| - 1])
  }

  /** `Declare`: with no scope open, nothing happens (the name is a global).
      Otherwise the name is entered in the innermost scope as not yet
      initialized, after a diagnostic if that scope already had it. Enclosing
      scopes play no part. */
  function Declare(st: ResolverState, name: Token): (r: ResolverState)
    ensures |st.scopes| == 0 ==> r == st
    ensures |r.scopes| == |st.scopes| && r.currentFunction == st.currentFunction
    ensures r.locals == st.locals && r.lookup == st.lookup
    ensures |st.scopes| > 0 ==>
              var top := |st.scopes| - 1;
              r.scopes == st.scopes[top := st.scopes[top][name.lexeme := false]]
              && r.errors == st.errors + (if name.lexeme in st.scopes[top]
                                          then [Diagnostic(name, DuplicateMessage)] else [])
  {
    if |st.scopes| == 0 then st
    else
      var top := |st.scopes| - 1;
      var st1 := if name.lexeme in st.scopes[top] then Report(st, name, DuplicateMessage) else st;
      st1.(scopes := st1.scopes[top := st1.scopes[top][name.lexeme := false]])
  }

  /** `Define`: marks the name initialized in the innermost scope; with no
      scope open, nothing happens. It never reports. */
  function Define(st: ResolverState, name: Token): (r: ResolverState)
    ensures |st.scopes| == 0 ==> r == st
    ensures |r.scopes| == |st.scopes| && r.currentFunction == st.currentFunction
    ensures r.locals == st.locals && r.errors == st.errors && r.lookup == st.lookup
    ensures |st.scopes| > 0 ==>
              r.scopes == st.scopes[|st.scopes| - 1 := st.scopes[|st.scopes| - 1][name.lexeme := true]]
  {
    if |st.scopes| == 0 then st
    else
      var top := |st.scopes| - 1;
      st.(scopes := st.scopes[top := st.scopes[top][name.lexeme := true]])
  }

  // ----- ResolveLocal -----

  /** `Stack.ToArray()`: the items from the top of the stack down. */
  function ToArray<T>(stack: seq<T>): (arr: seq<T>)
    ensures |arr| == |stack|
    ensures forall i :: 0 <= i < |stack| ==> arr[i] == stack[|stack| - 1 - i]
  {
    seq(|stack|, i requires 0 <= i < |stack| => stack[|stack| - 1 - i])
  }

  /** The loop of `ResolveLocal` from index `i` down to 0: the first array
      entry holding the name yields `count - 1 - i`. */
  function ScanDown(arr: seq<map<string, bool>>, name: string, i: int, count: nat): (d: Option<nat>)
    requires -1 <= i < |arr| == count
    decreases i + 1
  {
    if i < 0 then None
    else if name in arr[i] then Some(count - 1 - i)
    else ScanDown(arr, name, i - 1, count)
  }

  /** The distance the source's loop records. It indexes the top-first array
      from its last entry down, so it looks at the outermost scope first: the
      result is the position, counted from the bottom of the stack, of the
      OUTERMOST scope holding the name. */
  function LoopDistance(scopes: seq<map<string, bool>>, name: string): (d: Option<nat>)
    ensures d.None? <==> forall j :: 0 <= j < |scopes| ==> name !in scopes[j]
    ensures d.Some? ==> d.value < |scopes| && name in scopes[d.value] && forall j :: 0 <= j < d.value ==> name !in scopes[j]
  {
    ScanDownFindsOutermost(scopes, name, |scopes| - 1);
    ScanDown(ToArray(scopes), name, |scopes| - 1, |scopes|)
  }

  lemma {:induction false} ScanDownFindsOutermost(scopes: seq<map<string, bool>>, name: string, i: int)
    requires -1 <= i < |scopes|
    requires forall j :: 0 <= j < |scopes| - 1 - i ==> name !in scopes[j]
    ensures var r := ScanDown(ToArray(scopes), name, i, |scopes|);
            (r.None? <==> forall j :: |scopes| - 1 - i <= j < |scopes| ==> name !in scopes[j])
            && (r.Some? ==> r.value < |scopes| && name in scopes[r.value]
                            && forall j :: 0 <= j < r.value ==> name !in scopes[j])
    decreases i + 1
  {
    var arr := ToArray(scopes);
    if i >= 0 {
      assert arr[i] == scopes[|scopes| - 1 - i];
      if name !in arr[i] {
        ScanDownFindsOutermost(scopes, name, i - 1);
      }
    }
  }

  /** The distance the source means to record: from the top of the stack,
      the number of scopes crossed to reach the INNERMOST one holding the
      name, which is how many links the interpreter walks at run time. */
  function InnermostDistance(scopes: seq<map<string, bool>>, name: string): (d: Option<nat>)
    ensures d.None? <==> forall j :: 0 <= j < |scopes| ==> name !in scopes[j]
    ensures d.Some? ==> d.value < |scopes| && name in scopes[|scopes| - 1 - d.value]
                        && forall k :: |scopes| - d.value <= k < |scopes| ==> name !in scopes[k]
    decreases |scopes|
  {
    if |scopes| == 0 then None
    else if name in scopes[|scopes| - 1] then Some(0)
    else
      var outer := scopes[..|scopes| - 1];
      assert forall k :: 0 <= k < |outer| ==> outer[k] == scopes[k];
      match InnermostDistance(outer, name)
      case None => None
      case Some(d) => Some(d + 1)
  }

  /** `ResolveLocal`: records nothing when no open scope holds the name, and
      otherwise exactly one entry for this reference, a distance below the
      stack depth. */
  function ResolveLocal(st: ResolverState, id: nat, name: Token): (r: ResolverState)
    ensures r.scopes == st.scopes && r.errors == st.errors
    ensures r.currentFunction == st.currentFunction && r.lookup == st.lookup
    ensures (forall j :: 0 <= j < |st.scopes| ==> name.lexeme !in st.scopes[j]) ==> r.locals == st.locals
    ensures (exists j :: 0 <= j < |st.scopes| && name.lexeme in st.scopes[j]) ==>
              id in r.locals && r.locals[id] < |st.scopes| && r.locals == st.locals[id := r.locals[id]]
    ensures st.lookup == AsWritten ==>
              r.locals == match LoopDistance(st.scopes, name.lexeme)
                          case None => st.locals
                          case Some(d) => st.locals[id := d]
    ensures st.lookup == Innermost ==>
              r.locals == match InnermostDistance(st.scopes, name.lexeme)
                          case None => st.locals
                          case Some(d) => st.locals[id := d]
  {
    var found := match st.lookup
                 case AsWritten => LoopDistance(st.scopes, name.lexeme)
                 case Innermost => InnermostDistance(st.scopes, name.lexeme);
    match found
    case None => st
    case Some(d) => st.(locals := st.locals[id := d])
  }

  // ----- The traversal -----

  /** The invariants every resolution step keeps when it finishes: the stack
      depth, the function kind and the lookup mode are restored, only the
      innermost scope may have gained names, and diagnostics and recorded
      distances are only ever added. */
  predicate Keeps(st: ResolverState, r: Resolution)
  {
    r.Resolved? ==>
      |r.st.scopes| == |st.scopes| && r.st.currentFunction == st.currentFunction
      && (|st.scopes| > 0 ==> r.st.scopes[..|st.scopes| - 1] == st.scopes[..|st.scopes| - 1])
      && r.st.lookup == st.lookup && st.errors <= r.st.errors && st.locals.Keys <= r.st.locals.Keys
  }

  function ResolveExpr(e: Expr, st: ResolverState): (r: Resolution)
    ensures Keeps(st, r)
    ensures r.Resolved? ==> r.st.scopes == st.scopes
    decreases e
  {
    match e
    case Assign(id, name, value) =>
      var a := ResolveExpr(value, st);
      if a.Aborted? then a else Resolved(ResolveLocal(a.st, id, name))
    case Binary(left, _, right) =>
      var a := ResolveExpr(left, st);
      if a.Aborted? then a else ResolveExpr(right, a.st)
    case Call(callee, _, arguments) =>
      var c := ResolveExpr(callee, st);
      if c.Aborted? then c else ResolveExprs(arguments, c.st)
    case Get(_, _) => Aborted("the resolver has no visit method for property get")
    case Grouping(inner) => ResolveExpr(inner, st)
    case Literal(_) => Resolved(st)
    case Logical(left, _, right) =>
      var a := ResolveExpr(left, st);
      if a.Aborted? then a else ResolveExpr(right, a.st)
    case Set(_, _, _) => Aborted("the resolver has no visit method for property set")
    case This(_) => Aborted("the resolver has no visit method for this")
    case Unary(_, right) => ResolveExpr(right, st)
    case Variable(id, name) => Resolved(ResolveVariable(st, id, name))
  }

  function ResolveExprs(es: seq<Expr>, st: ResolverState): (r: Resolution)
    ensures Keeps(st, r)
    ensures r.Resolved? ==> r.st.scopes == st.scopes
    decreases es
  {
    if |es| == 0 then Resolved(st)
    else
      var h := ResolveExpr(es[0], st);
      if h.Aborted? then h else ResolveExprs(es[1..], h.st)
  }

  /** `VisitVariableExpr`: a read of a name whose innermost-scope entry is
      still `false` is reported, and the reference is resolved either way. */
  function ResolveVariable(st: ResolverState, id: nat, name: Token): (r: ResolverState)
    ensures var own := |st.scopes| > 0 && name.lexeme in st.scopes[|st.scopes| - 1]
                       && !st.scopes[|st.scopes| - 1][name.lexeme];
            r.errors == st.errors + (if own then [Diagnostic(name, OwnInitializerMessage)] else [])
            && r.scopes == st.scopes && r.currentFunction == st.currentFunction && r.lookup == st.lookup
            && r.locals == ResolveLocal(st, id, name).locals
  {
    var top := |st.scopes| - 1;
    var st1 := if |st.scopes| > 0 && name.lexeme in st.scopes[top] && !st.scopes[top][name.lexeme]
               then Report(st, name, OwnInitializerMessage) else st;
    ResolveLocal(st1, id, name)
  }

  function ResolveStmts(ss: seq<Stmt>, st: ResolverState): (r: Resolution)
    ensures Keeps(st, r)
    decreases ss, 0
  {
    if |ss| == 0 then Resolved(st)
    else
      var h := ResolveStmt(ss[0], st);
      if h.Aborted? then h else ResolveStmts(ss[1..], h.st)
  }

  function ResolveStmt(s: Stmt, st: ResolverState): (r: Resolution)
    ensures Keeps(st, r)
    decreases s, 1
  {
    match s
    case Block(statements) => ResolveBlock(statements, st)
    case Class(_, _) => Aborted("class declarations are not implemented by the resolver")
    case Expression(e) => ResolveExpr(e, st)
    case Function(decl) => ResolveFunction(decl, Define(Declare(st, decl.name), decl.name))
    case If(condition, thenBranch, elseBranch) => ResolveIf(condition, thenBranch, elseBranch, st)
    case Print(e) => ResolveExpr(e, st)
    case Return(keyword, value) => ResolveReturn(keyword, value, st)
    case Var(name, initializer) => ResolveVar(name, initializer, st)
    case While(condition, body) => ResolveWhile(condition, body, st)
  }

  /** `VisitBlockStmt`: the statements in a new innermost scope, which is
      then closed, so the enclosing scopes come back exactly as they were. */
  function ResolveBlock(statements: seq<Stmt>, st: ResolverState): (r: Resolution)
    ensures Keeps(st, r)
    ensures r.Resolved? ==> r.st.scopes == st.scopes
    decreases Block(statements), 0
  {
    var b := ResolveStmts(statements, BeginScope(st));
    if b.Aborted? then b else Resolved(EndScope(b.st))
  }

  function ResolveIf(condition: Expr, thenBranch: Stmt, elseBranch: Option<Stmt>, st: ResolverState): (r: Resolution)
    ensures Keeps(st, r)
    decreases If(condition, thenBranch, elseBranch), 0
  {
    var c := ResolveExpr(condition, st);
    if c.Aborted? then c
    else
      var t := ResolveStmt(thenBranch, c.st);
      if t.Aborted? then t
      else
        match elseBranch
        case None => t
        case Some(e) => ResolveStmt(e, t.st)
  }

  function ResolveWhile(condition: Expr, body: Stmt, st: ResolverState): (r: Resolution)
    ensures Keeps(st, r)
    decreases While(condition, body), 0
  {
    var c := ResolveExpr(condition, st);
    if c.Aborted? then c else ResolveStmt(body, c.st)
  }

  /** `VisitReturnStmt`: a `return` outside any function is reported, and
      its value is resolved either way. */
  function ResolveReturn(keyword: Token, value: Option<Expr>, st: ResolverState): (r: Resolution)
    ensures Keeps(st, r)
    ensures var reported := if st.currentFunction == NONE
                            then st.errors + [Diagnostic(keyword, TopLevelReturnMessage)] else st.errors;
            r.Resolved? ==> reported <= r.st.errors
    ensures value.None? ==> r == Resolved(st.(errors := if st.currentFunction == NONE
                                                       then st.errors + [Diagnostic(keyword, TopLevelReturnMessage)]
                                                       else st.errors))
    ensures value.Some? ==> r == ResolveExpr(value.value, st.(errors := if st.currentFunction == NONE
                                                                      then st.errors + [Diagnostic(keyword, TopLevelReturnMessage)]
                                                                      else st.errors))
  {
    var st1 := if st.currentFunction == NONE then Report(st, keyword, TopLevelReturnMessage) else st;
    match value
    case None => Resolved(st1)
    case Some(e) => ResolveExpr(e, st1)
  }

  /** `VisitVarStmt`: the name is declared, the initializer resolved while
      the name is unusable, and the name then defined. */
  function ResolveVar(name: Token, initializer: Option<Expr>, st: ResolverState): (r: Resolution)
    ensures Keeps(st, r)
    ensures |st.scopes| == 0 && initializer.None? ==> r == Resolved(st)
    ensures |st.scopes| > 0 && r.Resolved? ==>
              var top := |st.scopes| - 1;
              name.lexeme in r.st.scopes[top] && r.st.scopes[top][name.lexeme]
              && (name.lexeme in st.scopes[top] ==> st.errors + [Diagnostic(name, DuplicateMessage)] <= r.st.errors)
  {
    var declared := Declare(st, name);
    match initializer
    case None => Resolved(Define(declared, name))
    case Some(e) =>
      var i := ResolveExpr(e, declared);
      if i.Aborted? then i else Resolved(Define(i.st, name))
  }

  /** Each parameter declared and then defined, in order. The innermost
      scope gains exactly the parameter names, all ready; a parameter is
      reported only when its name is already there, so distinct names new to
      the scope draw no diagnostic. */
  function DeclareParameters(params: seq<Token>, st: ResolverState): (r: ResolverState)
    ensures |r.scopes| == |st.scopes| && r.currentFunction == st.currentFunction
    ensures r.lookup == st.lookup && st.errors <= r.errors && r.locals == st.locals
    ensures |st.scopes| > 0 ==> r.scopes[..|st.scopes| - 1] == st.scopes[..|st.scopes| - 1]
    ensures |st.scopes| > 0 ==> forall i :: 0 <= i < |params| ==>
              params[i].lexeme in r.scopes[|r.scopes| - 1] && r.scopes[|r.scopes| - 1][params[i].lexeme]
    ensures |st.scopes| > 0 ==> forall n :: n in r.scopes[|r.scopes| - 1] <==>
              n in st.scopes[|st.scopes| - 1] || n in Lexemes(params)
    ensures |st.scopes| > 0 && NoDuplicates(Lexemes(params))
            && (forall i :: 0 <= i < |params| ==> params[i].lexeme !in st.scopes[|st.scopes| - 1]) ==>
              r.errors == st.errors
    decreases |params|
  {
    if |params| == 0 then st
    else
      var k := |params| - 1;
      var front := DeclareParameters(params[..k], st);
      var r := Define(Declare(front, params[k]), params[k]);
      assert forall i :: 0 <= i < k ==> params[..k][i] == params[i];
      assert Lexemes(params) == Lexemes(params[..k]) + [params[k].lexeme];
      assert NoDuplicates(Lexemes(params)) ==> params[k].lexeme !in Lexemes(params[..k]);
      r
  }

  /** The state a function body is resolved in: the function kind is
      FUNCTION, and one new innermost scope holds exactly the parameters, all
      ready, above the enclosing scopes, which are unchanged. */
  function FunctionScope(decl: FunDecl, st: ResolverState): (inner: ResolverState)
    ensures inner.currentFunction == FUNCTION
    ensures |inner.scopes| == |st.scopes| + 1 && inner.scopes[..|st.scopes|] == st.scopes
    ensures forall n :: n in inner.scopes[|st.scopes|] <==> n in Lexemes(decl.params)
    ensures forall n :: n in inner.scopes[|st.scopes|] ==> inner.scopes[|st.scopes|][n]
    ensures inner.locals == st.locals && inner.lookup == st.lookup && st.errors <= inner.errors
    ensures NoDuplicates(Lexemes(decl.params)) ==> inner.errors == st.errors
  {
    var entered := BeginScope(st.(currentFunction := FUNCTION));
    var inner := DeclareParameters(decl.params, entered);
    assert forall n :: n in inner.scopes[|st.scopes|] ==> n in Lexemes(decl.params);
    assert forall n :: n in Lexemes(decl.params) ==> exists i :: 0 <= i < |decl.params| && decl.params[i].lexeme == n;
    inner
  }

  /** `ResolveFunction`: the body resolved in `FunctionScope`; afterwards
      that scope is closed and the enclosing function kind restored, and what
      the body reported and recorded is the function's result. */
  function ResolveFunction(decl: FunDecl, st: ResolverState): (r: Resolution)
    ensures Keeps(st, r)
    ensures r.Resolved? ==> r.st.scopes == st.scopes
    ensures var b := ResolveStmts(decl.body, FunctionScope(decl, st));
            (r.Aborted? <==> b.Aborted?)
            && (r.Resolved? ==> r.st.errors == b.st.errors && r.st.locals == b.st.locals)
    decreases decl, 0
  {
    var b := ResolveStmts(decl.body, FunctionScope(decl, st));
    if b.Aborted? then b
    else Resolved(EndScope(b.st).(currentFunction := st.currentFunction))
  }

  /** The resolver's entry point, from an empty stack at top level. */
  function Resolve(program: seq<Stmt>, lookup: Lookup): (r: Resolution)
    ensures r.Resolved? ==> r.st.scopes == [] && r.st.currentFunction == NONE
  {
    ResolveStmts(program, ResolverState([], NONE, map[], [], lookup))
  }
}
