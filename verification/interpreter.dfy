/** The tree-walking evaluator.

    The interpreter's mutable fields become an explicit `State`: the current
    scope chain (index 0 innermost, the last element the globals), the fields
    of every instance by heap address, the next fresh object id, and the lines
    `print` has written. The resolver's side table, the reading the native
    `clock` returns and the host's rendering of doubles are read-only inputs.

    A thrown exception becomes an `Outcome`: a runtime error is `Err`, the
    non-local exit of `return` is `Returning`. Every evaluation or execution
    step spends one unit of `fuel`, so loops and recursion terminate; running
    out is `NoFuel`. */
module Interpreter {
  import opened Tokens
  import opened Wrappers
  import opened Errors
  import opened Extensions
  import opened Ast
  import opened Values
  import opened Environment
  import opened Objects
  import opened Operators

  datatype State = State(
    env: seq<Scope<Value>>,
    heap: map<nat, map<string, Value>>,
    nextId: nat,
    output: seq<string>)

  datatype Context = Context(locals: map<nat, nat>, clock: real, show: real -> string)

  datatype Run<+T> = Run(out: Outcome<T>, st: State)

  /** There is always at least the global scope, and every instance address
      in use lies below the fresh-id counter, so the counter never names a
      live instance. */
  predicate Valid(st: State)
  {
    |st.env| > 0 && forall a :: a in st.heap ==> a < st.nextId
  }

  /** `later` is a state a step from `st` can reach: still valid, and with
      no id handed out before `st` about to be handed out again. */
  predicate Follows(st: State, later: State)
  {
    Valid(later) && st.nextId <= later.nextId
  }

  function Globals(st: State): Scope<Value>
    requires Valid(st)
  {
    st.env[|st.env| - 1]
  }

  function WithGlobals(st: State, globals: Scope<Value>): (r: State)
    requires Valid(st)
    ensures r.heap == st.heap && r.nextId == st.nextId && r.output == st.output
    ensures |r.env| == |st.env| && Globals(r) == globals
    ensures r.env[..|st.env| - 1] == st.env[..|st.env| - 1]
  {
    st.(env := st.env[|st.env| - 1 := globals])
  }

  /** `environment.Define(name, value)` on the current (innermost) scope. */
  function DefineHere(st: State, name: string, value: Value): (r: State)
    requires Valid(st)
    ensures |r.env| == |st.env| && r.output == st.output
    ensures r.env[0] == Define(st.env[0], name, value)
    ensures r.env[1..] == st.env[1..]
    ensures r.heap == st.heap && r.nextId == st.nextId
  {
    st.(env := st.env[0 := Define(st.env[0], name, value)])
  }

  /** A fresh interpreter: only the globals, holding the native `clock`. */
  function InitialState(): (st: State)
    ensures Valid(st) && st.env == [Globals(st)]
    ensures Globals(st) == map["clock" := Callable(Clock)]
  {
    State([map["clock" := Callable(Clock)]], map[], 0, [])
  }

  function ArityMessage(expected: nat, got: nat): string
  {
    "Expected " + NatToString(expected) + " arguments but got " + NatToString(got) + "."
  }

  const NotCallableMessage := "Can only call functions and classes."

  // ----- Variables -----

  /** `lookUpVariable`: a reference with a recorded distance reads the scope
      that many links out; one without reads the globals only. */
  function LookUpVariable(cx: Context, id: nat, name: Token, st: State): (r: Outcome<Value>)
    requires Valid(st)
    ensures !r.Returning? && !r.NoFuel?
    ensures id in cx.locals ==>
              (r.Ok? <==> GetAt(st.env, cx.locals[id], name.lexeme).Some?)
              && (r.Ok? ==> r.value == st.env[cx.locals[id]][name.lexeme])
    ensures id !in cx.locals ==>
              (r.Ok? <==> name.lexeme in Globals(st))
              && (r.Ok? ==> r.value == Globals(st)[name.lexeme])
              && (!r.Ok? ==> r == Err(UndefinedVariable(name)))
  {
    if id in cx.locals then
      match GetAt(st.env, cx.locals[id], name.lexeme)
      case Some(v) => Ok(v)
      case None => Unmodelled("no binding at the recorded distance")
    else
      match Environment.Get(Globals(st), name)
      case Success(v) => Ok(v)
      case Failure(e) => Err(e)
  }

  /** The assignment half of `VisitAssignExpr`, after the value is computed:
      with a recorded distance, the scope that many links out; otherwise the
      globals. Only the one binding changes. */
  function AssignVariable(cx: Context, id: nat, name: Token, value: Value, st: State): (r: Run<Value>)
    requires Valid(st)
    ensures Follows(st, r.st)
    ensures SameNames(st.env, r.st.env)
    ensures |r.st.env| == |st.env| && r.st.output == st.output
    ensures !r.out.Returning? && !r.out.NoFuel?
    ensures r.out.Ok? ==> r.out.value == value
    ensures id in cx.locals && r.out.Ok? ==>
              var d := cx.locals[id];
              d < |st.env| && name.lexeme in st.env[d]
              && r.st.env[d] == st.env[d][name.lexeme := value]
              && forall i :: 0 <= i < |st.env| && i != d ==> r.st.env[i] == st.env[i]
    ensures id !in cx.locals ==>
              (r.out.Ok? <==> name.lexeme in Globals(st))
              && (r.out.Ok? ==> r.st == WithGlobals(st, Globals(st)[name.lexeme := value]))
              && (!r.out.Ok? ==> r.out == Err(UndefinedVariable(name)))
  {
    if id in cx.locals then
      match AssignAt(st.env, cx.locals[id], name, value)
      case Some(env) => Run(Ok(value), st.(env := env))
      case None => Run(Unmodelled("no binding at the recorded distance"), st)
    else
      match Environment.Assign(Globals(st), name, value)
      case Success(globals) => Run(Ok(value), WithGlobals(st, globals))
      case Failure(e) => Run(Err(e), st)
  }

  // ----- Expressions -----

  function Eval(cx: Context, e: Expr, st: State, fuel: nat): (r: Run<Value>)
    requires Valid(st)
    ensures Follows(st, r.st)
    ensures SameNames(st.env, r.st.env)
    ensures |r.st.env| == |st.env|
    ensures st.output <= r.st.output
    ensures !r.out.Returning?
    decreases fuel, 0
  {
    if fuel == 0 then Run(NoFuel, st)
    else
      var f := fuel - 1;
      match e
      case Literal(l) => Run(Ok(FromLiteral(l)), st)
      case Grouping(inner) => Eval(cx, inner, st, f)
      case Unary(op, right) =>
        var a := Eval(cx, right, st, f);
        if !a.out.Ok? then a else Run(UnaryOp(op, a.out.value), a.st)
      case Binary(left, op, right) => EvalBinary(cx, left, op, right, st, f)
      case Logical(left, op, right) => EvalLogical(cx, left, op, right, st, f)
      case Variable(id, name) => Run(LookUpVariable(cx, id, name, st), st)
      case Assign(id, name, value) =>
        var a := Eval(cx, value, st, f);
        if !a.out.Ok? then a else AssignVariable(cx, id, name, a.out.value, a.st)
      case Call(callee, paren, arguments) => EvalCall(cx, callee, paren, arguments, st, f)
      case Get(obj, name) => EvalGet(cx, obj, name, st, f)
      case Set(obj, name, value) => EvalSet(cx, obj, name, value, st, f)
      case This(_) => Run(Unmodelled("the interpreter has no visit method for this"), st)
  }

  /** Left, then right, then the operator's type check. */
  function EvalBinary(cx: Context, left: Expr, op: Token, right: Expr, st: State, fuel: nat): (r: Run<Value>)
    requires Valid(st)
    ensures Follows(st, r.st)
    ensures SameNames(st.env, r.st.env)
    ensures |r.st.env| == |st.env|
    ensures st.output <= r.st.output
    ensures !r.out.Returning?
    decreases fuel, 6
  {
    var a := Eval(cx, left, st, fuel);
    if !a.out.Ok? then a
    else
      var b := Eval(cx, right, a.st, fuel);
      if !b.out.Ok? then b else Run(BinaryOp(op, a.out.value, b.out.value), b.st)
  }

  /** `or` keeps a truthy left operand and `and` a falsy one, without
      evaluating the right operand; otherwise the right operand's value. */
  function EvalLogical(cx: Context, left: Expr, op: Token, right: Expr, st: State, fuel: nat): (r: Run<Value>)
    requires Valid(st)
    ensures Follows(st, r.st)
    ensures SameNames(st.env, r.st.env)
    ensures |r.st.env| == |st.env|
    ensures st.output <= r.st.output
    ensures !r.out.Returning?
    decreases fuel, 6
  {
    var a := Eval(cx, left, st, fuel);
    if !a.out.Ok? then a
    else if op.kind == OR && IsTruthy(a.out.value) then a
    else if op.kind == AND && !IsTruthy(a.out.value) then a
    else Eval(cx, right, a.st, fuel)
  }

  /** The callee, then the arguments left to right, then the checks. */
  function EvalCall(cx: Context, callee: Expr, paren: Token, arguments: seq<Expr>, st: State, fuel: nat): (r: Run<Value>)
    requires Valid(st)
    ensures Follows(st, r.st)
    ensures SameNames(st.env, r.st.env)
    ensures |r.st.env| == |st.env|
    ensures st.output <= r.st.output
    ensures !r.out.Returning?
    decreases fuel, 6
  {
    var c := Eval(cx, callee, st, fuel);
    if !c.out.Ok? then c
    else
      var a := EvalArgs(cx, arguments, c.st, fuel);
      if !a.out.Ok? then Run(a.out.Propagate(), a.st)
      else CallValue(cx, paren, c.out.value, a.out.value, a.st, fuel)
  }

  function EvalArgs(cx: Context, arguments: seq<Expr>, st: State, fuel: nat): (r: Run<seq<Value>>)
    requires Valid(st)
    ensures Follows(st, r.st)
    ensures SameNames(st.env, r.st.env)
    ensures |r.st.env| == |st.env|
    ensures st.output <= r.st.output
    ensures !r.out.Returning?
    ensures r.out.Ok? ==> |r.out.value| == |arguments|
    decreases fuel, 1, |arguments|
  {
    if |arguments| == 0 then Run(Ok([]), st)
    else
      var h := Eval(cx, arguments[0], st, fuel);
      if !h.out.Ok? then Run(h.out.Propagate(), h.st)
      else
        var t := EvalArgs(cx, arguments[1..], h.st, fuel);
        if !t.out.Ok? then t else Run(Ok([h.out.value] + t.out.value), t.st)
  }

  /** `VisitCallExpr` after evaluation: the callee must be callable and the
      argument count must match its arity. */
  function CallValue(cx: Context, paren: Token, callee: Value, args: seq<Value>, st: State, fuel: nat): (r: Run<Value>)
    requires Valid(st)
    ensures Follows(st, r.st)
    ensures SameNames(st.env, r.st.env)
    ensures |r.st.env| == |st.env|
    ensures st.output <= r.st.output
    ensures !r.out.Returning?
    ensures !callee.Callable? ==> r == Run(Err(RuntimeError(paren, NotCallableMessage)), st)
    ensures callee.Callable? && |args| != Arity(callee.callable) ==>
              r == Run(Err(RuntimeError(paren, ArityMessage(Arity(callee.callable), |args|))), st)
    decreases fuel, 5
  {
    if !callee.Callable? then Run(Err(RuntimeError(paren, NotCallableMessage)), st)
    else if |args| != Arity(callee.callable) then
      Run(Err(RuntimeError(paren, ArityMessage(Arity(callee.callable), |args|))), st)
    else Invoke(cx, callee.callable, args, st, fuel)
  }

  /** `ILoxCallable.Call` on each implementation. */
  function Invoke(cx: Context, c: LoxCallable, args: seq<Value>, st: State, fuel: nat): (r: Run<Value>)
    requires Valid(st)
    requires |args| == Arity(c)
    ensures Follows(st, r.st)
    ensures SameNames(st.env, r.st.env)
    ensures c.Klass? ==> st.nextId < r.st.nextId
    ensures c.Klass? && r.out.Ok? ==> r.out.value == Instance(InstanceRef(st.nextId, c.klass)) && st.nextId !in st.heap
    ensures |r.st.env| == |st.env|
    ensures st.output <= r.st.output
    ensures !r.out.Returning?
    decreases fuel, 4
  {
    match c
    case Fn(fn) => CallFunction(cx, fn, args, st, fuel)
    case Klass(k) =>
      var instance := InstanceRef(st.nextId, k);
      var st1 := st.(heap := st.heap[st.nextId := map[]], nextId := st.nextId + 1);
      (match FindMethod(k, "init")
       case None => Run(Ok(Instance(instance)), st1)
       case Some(initializer) =>
         var bound := Bind(initializer, instance, st1.nextId);
         var r := CallFunction(cx, bound, args, st1.(nextId := st1.nextId + 1), fuel);
         if r.out.Ok? then Run(Ok(Instance(instance)), r.st) else r)
    case Clock => Run(Ok(Num(cx.clock)), st)
  }

  /** `LoxFunction.Call`: the parameters bound in a fresh scope whose parent
      is the globals, the body run as a block there, and a `return` caught.
      The caller's own local scopes are neither visible nor changed. */
  function CallFunction(cx: Context, fn: LoxFunction, args: seq<Value>, st: State, fuel: nat): (r: Run<Value>)
    requires Valid(st)
    requires |args| == |fn.declaration.params|
    ensures Follows(st, r.st)
    ensures SameNames(st.env, r.st.env)
    ensures |r.st.env| == |st.env|
    ensures r.st.env[..|st.env| - 1] == st.env[..|st.env| - 1]
    ensures st.output <= r.st.output
    ensures !r.out.Returning?
    decreases fuel, 3
  {
    var scope := BindParameters(fn.declaration.params, args);
    var r := ExecBlock(cx, fn.declaration.body, scope, |st.env| - 1, st, fuel);
    Run(CatchReturn(r.out), r.st)
  }

  /** How a call ends once its body has run: a `return` gives its value,
      completing gives `nil`, anything else passes through. */
  function CatchReturn(out: Outcome<()>): (r: Outcome<Value>)
    ensures !r.Returning?
  {
    match out
    case Returning(v) => Ok(v)
    case Ok(_) => Ok(Nil)
    case _ => out.Propagate()
  }

  function EvalGet(cx: Context, obj: Expr, name: Token, st: State, fuel: nat): (r: Run<Value>)
    requires Valid(st)
    ensures Follows(st, r.st)
    ensures SameNames(st.env, r.st.env)
    ensures |r.st.env| == |st.env|
    ensures st.output <= r.st.output
    ensures !r.out.Returning?
    decreases fuel, 6
  {
    var o := Eval(cx, obj, st, fuel);
    if !o.out.Ok? then o
    else if !o.out.value.Instance? then Run(Err(RuntimeError(name, "Only instances have properties.")), o.st)
    else
      var instance := o.out.value.instance;
      if instance.addr !in o.st.heap then Run(Unmodelled("dangling instance"), o.st)
      else
        match InstanceGet(instance, o.st.heap[instance.addr], name, o.st.nextId)
        case Success(v) => Run(Ok(v), o.st.(nextId := o.st.nextId + 1))
        case Failure(e) => Run(Err(e), o.st)
  }

  /** The object is checked to be an instance before the value is evaluated. */
  function EvalSet(cx: Context, obj: Expr, name: Token, value: Expr, st: State, fuel: nat): (r: Run<Value>)
    requires Valid(st)
    ensures Follows(st, r.st)
    ensures SameNames(st.env, r.st.env)
    ensures |r.st.env| == |st.env|
    ensures st.output <= r.st.output
    ensures !r.out.Returning?
    decreases fuel, 6
  {
    var o := Eval(cx, obj, st, fuel);
    if !o.out.Ok? then o
    else if !o.out.value.Instance? then Run(Err(RuntimeError(name, "Only instances have fields.")), o.st)
    else
      var instance := o.out.value.instance;
      var v := Eval(cx, value, o.st, fuel);
      if !v.out.Ok? then v
      else if instance.addr !in v.st.heap then Run(Unmodelled("dangling instance"), v.st)
      else
        var fields := InstanceSet(v.st.heap[instance.addr], name, v.out.value);
        Run(Ok(v.out.value), v.st.(heap := v.st.heap[instance.addr := fields]))
  }

  // ----- Statements -----

  /** `ExecuteBlock`: the statements run in the chain `scope` + the current
      chain from position `keep` on (a block keeps everything, a call only
      the globals). Whatever the outcome, the previous chain is restored
      afterwards, carrying the changes made through the shared scopes; the
      `keep` innermost scopes the block could not see are unchanged. */
  function ExecBlock(cx: Context, statements: seq<Stmt>, scope: Scope<Value>, keep: nat, st: State, fuel: nat): (r: Run<()>)
    requires Valid(st) && keep < |st.env|
    ensures Follows(st, r.st)
    ensures SameNames(st.env, r.st.env)
    ensures |r.st.env| == |st.env|
    ensures r.st.env[..keep] == st.env[..keep]
    ensures st.output <= r.st.output
    decreases fuel, 2
  {
    var inner := st.(env := [scope] + st.env[keep..]);
    var r := ExecStmts(cx, statements, inner, fuel);
    Run(r.out, r.st.(env := st.env[..keep] + r.st.env[1..]))
  }

  /** Statements in order, stopping at the first that does not complete
      normally. */
  function ExecStmts(cx: Context, statements: seq<Stmt>, st: State, fuel: nat): (r: Run<()>)
    requires Valid(st)
    ensures Follows(st, r.st)
    ensures SameNames(st.env[1..], r.st.env[1..]) && st.env[0].Keys <= r.st.env[0].Keys
    ensures |r.st.env| == |st.env|
    ensures st.output <= r.st.output
    decreases fuel, 1, |statements|
  {
    if |statements| == 0 then Run(Ok(()), st)
    else
      var h := Exec(cx, statements[0], st, fuel);
      if !h.out.Ok? then h else ExecStmts(cx, statements[1..], h.st, fuel)
  }

  function Exec(cx: Context, s: Stmt, st: State, fuel: nat): (r: Run<()>)
    requires Valid(st)
    ensures Follows(st, r.st)
    ensures SameNames(st.env[1..], r.st.env[1..]) && st.env[0].Keys <= r.st.env[0].Keys
    ensures |r.st.env| == |st.env|
    ensures st.output <= r.st.output
    decreases fuel, 0
  {
    if fuel == 0 then Run(NoFuel, st)
    else
      var f := fuel - 1;
      match s
      case Block(statements) => ExecBlock(cx, statements, map[], 0, st, f)
      case Class(name, methods) => ExecClass(name, methods, st)
      case Expression(e) =>
        var a := Eval(cx, e, st, f);
        if a.out.Ok? then Run(Ok(()), a.st) else Run(a.out.Propagate(), a.st)
      case Function(decl) =>
        var fn := LoxFunction(st.nextId, decl, None);
        Run(Ok(()), DefineHere(st.(nextId := st.nextId + 1), decl.name.lexeme, Callable(Fn(fn))))
      case If(condition, thenBranch, elseBranch) => ExecIf(cx, condition, thenBranch, elseBranch, st, f)
      case Print(e) =>
        var a := Eval(cx, e, st, f);
        if !a.out.Ok? then Run(a.out.Propagate(), a.st)
        else Run(Ok(()), a.st.(output := a.st.output + [Stringify(a.out.value, cx.show)]))
      case Return(_, value) =>
        (match value
         case None => Run(Returning(Nil), st)
         case Some(e) =>
           var a := Eval(cx, e, st, f);
           if a.out.Ok? then Run(Returning(a.out.value), a.st) else Run(a.out.Propagate(), a.st))
      case Var(name, initializer) =>
        (match initializer
         case None => Run(Ok(()), DefineHere(st, name.lexeme, Nil))
         case Some(e) =>
           var a := Eval(cx, e, st, f);
           if a.out.Ok? then Run(Ok(()), DefineHere(a.st, name.lexeme, a.out.value))
           else Run(a.out.Propagate(), a.st))
      case While(condition, body) => ExecWhile(cx, condition, body, st, f)
  }

  /** The condition, then the branch its truthiness selects, if any. */
  function ExecIf(cx: Context, condition: Expr, thenBranch: Stmt, elseBranch: Option<Stmt>, st: State, fuel: nat): (r: Run<()>)
    requires Valid(st)
    ensures |r.st.env| == |st.env|
    ensures Follows(st, r.st)
    ensures SameNames(st.env[1..], r.st.env[1..]) && st.env[0].Keys <= r.st.env[0].Keys
    ensures st.output <= r.st.output
    decreases fuel, 6
  {
    var c := Eval(cx, condition, st, fuel);
    if !c.out.Ok? then Run(c.out.Propagate(), c.st)
    else if IsTruthy(c.out.value) then Exec(cx, thenBranch, c.st, fuel)
    else
      match elseBranch
      case None => Run(Ok(()), c.st)
      case Some(e) => Exec(cx, e, c.st, fuel)
  }

  /** The condition; on a truthy one the body, and then the whole loop again. */
  function ExecWhile(cx: Context, condition: Expr, body: Stmt, st: State, fuel: nat): (r: Run<()>)
    requires Valid(st)
    ensures |r.st.env| == |st.env|
    ensures Follows(st, r.st)
    ensures SameNames(st.env[1..], r.st.env[1..]) && st.env[0].Keys <= r.st.env[0].Keys
    ensures st.output <= r.st.output
    decreases fuel, 6
  {
    var c := Eval(cx, condition, st, fuel);
    if !c.out.Ok? then Run(c.out.Propagate(), c.st)
    else if !IsTruthy(c.out.value) then Run(Ok(()), c.st)
    else
      var b := Exec(cx, body, c.st, fuel);
      if !b.out.Ok? then b else Exec(cx, While(condition, body), b.st, fuel)
  }

  /** `VisitClassStmt`: the name is first defined as `nil`, each method
      becomes a fresh function object, and the name is then assigned the
      finished class, in the current scope. */
  function ExecClass(name: Token, methods: seq<FunDecl>, st: State): (r: Run<()>)
    requires Valid(st)
    ensures Follows(st, r.st)
    ensures SameNames(st.env[1..], r.st.env[1..]) && st.env[0].Keys <= r.st.env[0].Keys
    ensures |r.st.env| == |st.env| && r.st.output == st.output
    ensures r.out.Ok?
    ensures r.st.env[1..] == st.env[1..]
    ensures name.lexeme in r.st.env[0]
    ensures r.st.env[0][name.lexeme] == ClassValue(name, methods, st.nextId)
  {
    var st1 := DefineHere(st, name.lexeme, Nil);
    var klass := ClassValue(name, methods, st1.nextId);
    var st2 := st1.(nextId := st1.nextId + |methods| + 1);
    assert name.lexeme in st2.env[0];
    match Environment.Assign(st2.env[0], name, klass)
    case Success(scope) =>
      assert scope[name.lexeme] == klass;
      Run(Ok(()), st2.(env := st2.env[0 := scope]))
    case Failure(e) => assert false; Run(Err(e), st2)
  }

  /** The class a declaration creates: its methods become functions with
      the ids from `firstId` on, and the class itself takes the next id. */
  function ClassValue(name: Token, methods: seq<FunDecl>, firstId: nat): Value
  {
    Callable(Klass(LoxClass(firstId + |methods|, name.lexeme, MethodTable(methods, firstId))))
  }

  /** `Interpret`: the statements at top level, stopping at the first runtime
      error (which the driver reports). A `return` that escapes to the top is
      not caught there, so it is a host-level failure. */
  function Interpret(cx: Context, statements: seq<Stmt>, st: State, fuel: nat): (r: Run<()>)
    requires Valid(st)
    ensures Follows(st, r.st)
    ensures SameNames(st.env[1..], r.st.env[1..]) && st.env[0].Keys <= r.st.env[0].Keys
    ensures |r.st.env| == |st.env|
    ensures st.output <= r.st.output
    ensures !r.out.Returning?
    ensures var b := ExecStmts(cx, statements, st, fuel);
            r.st == b.st
            && (b.out.Returning? ==> r.out.Unmodelled?)
            && (!b.out.Returning? ==> r.out == b.out)
  {
    var r := ExecStmts(cx, statements, st, fuel);
    if r.out.Returning? then Run(Unmodelled("uncaught return"), r.st) else r
  }
}
