/** Properties of the evaluator that relate several steps: evaluation order,
    short-circuiting, the call checks, scope restoration, and what a call can
    and cannot see. */
module InterpreterFacts {
  import opened Tokens
  import opened Wrappers
  import opened Errors
  import opened Ast
  import opened Values
  import opened Environment
  import opened Objects
  import opened Operators
  import opened Interpreter

  /** `or` with a truthy left operand and `and` with a falsy one yield the left
      value itself, and the state after the left operand: the right operand is
      never evaluated. Otherwise the result is exactly the right operand's. */
  lemma ShortCircuit(cx: Context, left: Expr, op: Token, right: Expr, st: State, fuel: nat)
    requires Valid(st)
    ensures var a := Eval(cx, left, st, fuel);
            (a.out.Ok? && ((op.kind == OR && IsTruthy(a.out.value)) || (op.kind == AND && !IsTruthy(a.out.value))))
              ==> Eval(cx, Logical(left, op, right), st, fuel + 1) == a
    ensures var a := Eval(cx, left, st, fuel);
            (a.out.Ok? && !((op.kind == OR && IsTruthy(a.out.value)) || (op.kind == AND && !IsTruthy(a.out.value))))
              ==> Eval(cx, Logical(left, op, right), st, fuel + 1) == Eval(cx, right, a.st, fuel)
    ensures var a := Eval(cx, left, st, fuel);
            !a.out.Ok? ==> Eval(cx, Logical(left, op, right), st, fuel + 1) == a
  {
  }

  /** The left operand is evaluated first, then the right one from the state
      the left one left behind, and only then is the operator's type check
      applied: a type error still carries the effects of both operands. */
  lemma BinaryEvaluationOrder(cx: Context, left: Expr, op: Token, right: Expr, st: State, fuel: nat)
    requires Valid(st)
    ensures var a := Eval(cx, left, st, fuel);
            !a.out.Ok? ==> Eval(cx, Binary(left, op, right), st, fuel + 1) == a
    ensures var a := Eval(cx, left, st, fuel);
            a.out.Ok? ==>
              var b := Eval(cx, right, a.st, fuel);
              (!b.out.Ok? ==> Eval(cx, Binary(left, op, right), st, fuel + 1) == b)
              && (b.out.Ok? ==> Eval(cx, Binary(left, op, right), st, fuel + 1) == Run(BinaryOp(op, a.out.value, b.out.value), b.st))
  {
  }

  /** A numeric operator on a non-number fails with "Operands must be
      numbers." after both operands have been evaluated. */
  lemma NumericOperatorTypeError(cx: Context, left: Expr, op: Token, right: Expr, st: State, fuel: nat)
    requires Valid(st)
    requires IsArithmeticOrComparison(op.kind)
    requires Eval(cx, left, st, fuel).out.Ok?
    requires Eval(cx, right, Eval(cx, left, st, fuel).st, fuel).out.Ok?
    ensures var a := Eval(cx, left, st, fuel);
            var b := Eval(cx, right, a.st, fuel);
            !(a.out.value.Num? && b.out.value.Num?) ==>
              Eval(cx, Binary(left, op, right), st, fuel + 1) == Run(Err(RuntimeError(op, NumbersMessage)), b.st)
  {
    BinaryEvaluationOrder(cx, left, op, right, st, fuel);
  }

  /** A call evaluates the callee, then all arguments; only then does it check
      that the callee is callable and that the argument count matches. */
  lemma CallChecks(cx: Context, callee: Expr, paren: Token, arguments: seq<Expr>, st: State, fuel: nat)
    requires Valid(st)
    requires Eval(cx, callee, st, fuel).out.Ok?
    requires EvalArgs(cx, arguments, Eval(cx, callee, st, fuel).st, fuel).out.Ok?
    ensures var c := Eval(cx, callee, st, fuel);
            var a := EvalArgs(cx, arguments, c.st, fuel);
            var r := Eval(cx, Call(callee, paren, arguments), st, fuel + 1);
            (!c.out.value.Callable? ==> r == Run(Err(RuntimeError(paren, NotCallableMessage)), a.st))
            && (c.out.value.Callable? && |arguments| != Arity(c.out.value.callable) ==>
                  r == Run(Err(RuntimeError(paren, ArityMessage(Arity(c.out.value.callable), |arguments|))), a.st))
            && (c.out.value.Callable? && |arguments| == Arity(c.out.value.callable) ==>
                  r == Invoke(cx, c.out.value.callable, a.out.value, a.st, fuel))
  {
    var c := Eval(cx, callee, st, fuel);
    var a := EvalArgs(cx, arguments, c.st, fuel);
    assert Eval(cx, Call(callee, paren, arguments), st, fuel + 1) == CallValue(cx, paren, c.out.value, a.out.value, a.st, fuel);
  }

  /** The states left-to-right argument evaluation passes through while the
      arguments succeed: entry 0 is the state the first argument starts from
      and entry i + 1 the state argument i leaves behind. */
  function ArgStates(cx: Context, arguments: seq<Expr>, st: State, fuel: nat): (states: seq<State>)
    requires Valid(st)
    ensures 0 < |states| <= |arguments| + 1 && states[0] == st
    ensures forall k :: 0 <= k < |states| ==> Valid(states[k])
    decreases |arguments|
  {
    if |arguments| == 0 then [st]
    else
      var h := Eval(cx, arguments[0], st, fuel);
      if !h.out.Ok? then [st] else [st] + ArgStates(cx, arguments[1..], h.st, fuel)
  }

  /** Arguments are evaluated left to right: when they all succeed, value i
      is what argument i gives from the state argument i - 1 left, and the
      call goes on from the state the last one left. */
  lemma {:induction false} ArgumentsLeftToRight(cx: Context, arguments: seq<Expr>, st: State, fuel: nat)
    requires Valid(st)
    requires EvalArgs(cx, arguments, st, fuel).out.Ok?
    ensures var r := EvalArgs(cx, arguments, st, fuel);
            var states := ArgStates(cx, arguments, st, fuel);
            |states| == |arguments| + 1 && states[|arguments|] == r.st
            && forall i :: 0 <= i < |arguments| ==>
                 Eval(cx, arguments[i], states[i], fuel) == Run(Ok(r.out.value[i]), states[i + 1])
    decreases |arguments|
  {
    if |arguments| > 0 {
      var h := Eval(cx, arguments[0], st, fuel);
      var t := EvalArgs(cx, arguments[1..], h.st, fuel);
      assert h.out.Ok? && t.out.Ok?;
      ArgumentsLeftToRight(cx, arguments[1..], h.st, fuel);
      var r := EvalArgs(cx, arguments, st, fuel);
      assert r == Run(Ok([h.out.value] + t.out.value), t.st);
      var states := ArgStates(cx, arguments, st, fuel);
      var rest := ArgStates(cx, arguments[1..], h.st, fuel);
      assert states == [st] + rest;
      forall i | 0 <= i < |arguments|
        ensures Eval(cx, arguments[i], states[i], fuel) == Run(Ok(r.out.value[i]), states[i + 1])
      {
        if i > 0 {
          assert arguments[i] == arguments[1..][i - 1];
          assert states[i] == rest[i - 1] && states[i + 1] == rest[i];
          assert r.out.value[i] == t.out.value[i - 1];
        }
      }
    }
  }

  /** A block runs its statements in a fresh innermost scope; afterwards that
      scope is gone and the outer chain carries whatever the statements did to
      it, on every outcome: normal completion, error, return or no fuel. */
  lemma BlockRestoresChain(cx: Context, statements: seq<Stmt>, st: State, fuel: nat)
    requires Valid(st)
    ensures var r := Exec(cx, Block(statements), st, fuel + 1);
            var inner := ExecStmts(cx, statements, st.(env := [map[]] + st.env), fuel);
            r.out == inner.out && r.st.env == inner.st.env[1..] && r.st.output == inner.st.output
  {
    assert st.env[0..] == st.env;
  }

  /** Declarations inside a block never leak: whatever the block runs (and
      however it ends), every scope of the enclosing chain binds exactly the
      names it bound before, even though assignments may change their
      values. A name the block declares shadows an outer one only inside. */
  lemma ShadowingIsLocal(cx: Context, statements: seq<Stmt>, st: State, fuel: nat)
    requires Valid(st)
    ensures var r := Exec(cx, Block(statements), st, fuel);
            |r.st.env| == |st.env| && forall i :: 0 <= i < |st.env| ==> r.st.env[i].Keys == st.env[i].Keys
  {
  }

  /** `var` without an initializer binds `nil`; with one, the initializer's
      value; in the innermost scope either way, leaving outer scopes alone. */
  lemma VarBindsInnermost(cx: Context, name: Token, initializer: Option<Expr>, st: State, fuel: nat)
    requires Valid(st)
    ensures initializer.None? ==>
              var r := Exec(cx, Var(name, None), st, fuel + 1);
              r.out.Ok? && r.st.env[0] == st.env[0][name.lexeme := Nil] && r.st.env[1..] == st.env[1..]
    ensures initializer.Some? && Eval(cx, initializer.value, st, fuel).out.Ok? ==>
              var a := Eval(cx, initializer.value, st, fuel);
              var r := Exec(cx, Var(name, initializer), st, fuel + 1);
              r.out.Ok? && r.st.env[0] == a.st.env[0][name.lexeme := a.out.value] && r.st.env[1..] == a.st.env[1..]
  {
  }

  /** A variable with a recorded distance is read at that depth of the chain,
      one without is read from the globals only. */
  lemma VariableReadPaths(cx: Context, id: nat, name: Token, st: State)
    requires Valid(st)
    ensures var r := Eval(cx, Variable(id, name), st, 1);
            r.st == st
            && (id in cx.locals && cx.locals[id] < |st.env| && name.lexeme in st.env[cx.locals[id]] ==>
                  r.out == Ok(st.env[cx.locals[id]][name.lexeme]))
            && (id !in cx.locals ==>
                  r.out == (if name.lexeme in Globals(st) then Ok(Globals(st)[name.lexeme]) else Err(UndefinedVariable(name))))
  {
  }

  /** A call to a function runs its body in a chain of just its parameter
      scope and the globals, so its outcome, and what it does to the globals,
      the heap and the output, do not depend on the caller's local scopes. */
  lemma CallIgnoresCallerLocals(cx: Context, fn: LoxFunction, args: seq<Value>, st1: State, st2: State, fuel: nat)
    requires Valid(st1) && Valid(st2)
    requires |args| == |fn.declaration.params|
    requires Globals(st1) == Globals(st2) && st1.heap == st2.heap
    requires st1.nextId == st2.nextId && st1.output == st2.output
    ensures var r1 := CallFunction(cx, fn, args, st1, fuel);
            var r2 := CallFunction(cx, fn, args, st2, fuel);
            r1.out == r2.out && Globals(r1.st) == Globals(r2.st)
            && r1.st.heap == r2.st.heap && r1.st.nextId == r2.st.nextId && r1.st.output == r2.st.output
  {
    var scope := BindParameters(fn.declaration.params, args);
    BlockIgnoresHiddenScopes(cx, fn.declaration.body, scope, st1, st2, fuel);
    CallCatchesReturn(cx, fn, args, st1, fuel);
    CallCatchesReturn(cx, fn, args, st2, fuel);
  }

  /** A block started above the globals alone sees only its own scope and the
      globals, whatever local scopes lie between. */
  lemma BlockIgnoresHiddenScopes(cx: Context, statements: seq<Stmt>, scope: Scope<Value>, st1: State, st2: State, fuel: nat)
    requires Valid(st1) && Valid(st2)
    requires Globals(st1) == Globals(st2) && st1.heap == st2.heap
    requires st1.nextId == st2.nextId && st1.output == st2.output
    ensures var b1 := ExecBlock(cx, statements, scope, |st1.env| - 1, st1, fuel);
            var b2 := ExecBlock(cx, statements, scope, |st2.env| - 1, st2, fuel);
            b1.out == b2.out && Globals(b1.st) == Globals(b2.st)
            && b1.st.heap == b2.st.heap && b1.st.nextId == b2.st.nextId && b1.st.output == b2.st.output
  {
    var inner1 := st1.(env := [scope] + st1.env[|st1.env| - 1..]);
    var inner2 := st2.(env := [scope] + st2.env[|st2.env| - 1..]);
    assert st1.env[|st1.env| - 1..] == [Globals(st1)];
    assert st2.env[|st2.env| - 1..] == [Globals(st2)];
    assert inner1 == inner2;
    var i := ExecStmts(cx, statements, inner1, fuel);
    assert |i.st.env| == 2;
    var b1 := ExecBlock(cx, statements, scope, |st1.env| - 1, st1, fuel);
    var b2 := ExecBlock(cx, statements, scope, |st2.env| - 1, st2, fuel);
    assert b1.st.env == st1.env[..|st1.env| - 1] + i.st.env[1..];
    assert b2.st.env == st2.env[..|st2.env| - 1] + i.st.env[1..];
    assert Globals(b1.st) == i.st.env[1];
    assert Globals(b2.st) == i.st.env[1];
  }

  /** The result of a call is the value a `return` carried out of the body,
      or `nil` when the body completes; errors pass through unchanged. */
  lemma CallCatchesReturn(cx: Context, fn: LoxFunction, args: seq<Value>, st: State, fuel: nat)
    requires Valid(st)
    requires |args| == |fn.declaration.params|
    ensures var b := ExecBlock(cx, fn.declaration.body, BindParameters(fn.declaration.params, args), |st.env| - 1, st, fuel);
            var r := CallFunction(cx, fn, args, st, fuel);
            r.st == b.st && r.out == CatchReturn(b.out)
            && (b.out.Returning? ==> r.out == Ok(b.out.returned))
            && (b.out.Ok? ==> r.out == Ok(Nil))
            && (b.out.Err? ==> r.out == Err(b.out.error))
  {
  }

  /** Calling a class always yields a new instance of that class at the next
      fresh address, whatever `init` returns. Without `init` nothing runs;
      with it, `init` bound to the new instance runs with the arguments, and
      its error, if any, is the call's error. */
  lemma ClassCallYieldsInstance(cx: Context, k: LoxClass, args: seq<Value>, st: State, fuel: nat)
    requires Valid(st)
    requires |args| == ClassArity(k)
    ensures var r := Invoke(cx, Klass(k), args, st, fuel);
            r.out.Ok? ==> r.out.value == Instance(InstanceRef(st.nextId, k))
    ensures var instance := InstanceRef(st.nextId, k);
            var st1 := st.(heap := st.heap[st.nextId := map[]], nextId := st.nextId + 1);
            "init" !in k.methods ==> Invoke(cx, Klass(k), args, st, fuel) == Run(Ok(Instance(instance)), st1)
    ensures var instance := InstanceRef(st.nextId, k);
            var st1 := st.(heap := st.heap[st.nextId := map[]], nextId := st.nextId + 1);
            "init" in k.methods ==>
              var c := CallFunction(cx, Bind(k.methods["init"], instance, st.nextId + 1), args, st1.(nextId := st.nextId + 2), fuel);
              var r := Invoke(cx, Klass(k), args, st, fuel);
              r.st == c.st && (r.out.Ok? <==> c.out.Ok?) && (c.out.Err? ==> r.out == c.out)
  {
    var instance := InstanceRef(st.nextId, k);
    var st1 := st.(heap := st.heap[st.nextId := map[]], nextId := st.nextId + 1);
    var r := Invoke(cx, Klass(k), args, st, fuel);
    if "init" in k.methods {
      var bound := Bind(k.methods["init"], instance, st.nextId + 1);
      assert FindMethod(k, "init") == Some(k.methods["init"]);
      var c := CallFunction(cx, bound, args, st1.(nextId := st.nextId + 2), fuel);
      assert r == (if c.out.Ok? then Run(Ok(Instance(instance)), c.st) else c);
    } else {
      assert FindMethod(k, "init") == None;
      assert r == Run(Ok(Instance(instance)), st1);
    }
  }

  /** A `while` whose condition is falsy stops with the condition's effects;
      a truthy one runs the body once and then is the same loop again. */
  lemma WhileUnrolls(cx: Context, condition: Expr, body: Stmt, st: State, fuel: nat)
    requires Valid(st)
    requires Eval(cx, condition, st, fuel).out.Ok?
    ensures var c := Eval(cx, condition, st, fuel);
            var r := Exec(cx, While(condition, body), st, fuel + 1);
            (!IsTruthy(c.out.value) ==> r == Run(Ok(()), c.st))
            && (IsTruthy(c.out.value) && Exec(cx, body, c.st, fuel).out.Ok? ==>
                  r == Exec(cx, While(condition, body), Exec(cx, body, c.st, fuel).st, fuel))
  {
  }

  /** `print` appends exactly one line, the value's printed form. */
  lemma PrintAppendsOneLine(cx: Context, e: Expr, st: State, fuel: nat)
    requires Valid(st)
    requires Eval(cx, e, st, fuel).out.Ok?
    ensures var a := Eval(cx, e, st, fuel);
            Exec(cx, Print(e), st, fuel + 1).st.output == a.st.output + [Stringify(a.out.value, cx.show)]
  {
  }

  /** `if` runs the then-branch on a truthy condition and the else-branch,
      if there is one, on a falsy one, from the state the condition left. */
  lemma IfBranches(cx: Context, condition: Expr, thenBranch: Stmt, elseBranch: Option<Stmt>, st: State, fuel: nat)
    requires Valid(st)
    requires Eval(cx, condition, st, fuel).out.Ok?
    ensures var c := Eval(cx, condition, st, fuel);
            var r := Exec(cx, If(condition, thenBranch, elseBranch), st, fuel + 1);
            (IsTruthy(c.out.value) ==> r == Exec(cx, thenBranch, c.st, fuel))
            && (!IsTruthy(c.out.value) && elseBranch.None? ==> r == Run(Ok(()), c.st))
            && (!IsTruthy(c.out.value) && elseBranch.Some? ==> r == Exec(cx, elseBranch.value, c.st, fuel))
  {
  }

  /** Property access on anything but an instance fails on the property's
      name; a `set` fails before its value is evaluated. */
  lemma PropertiesNeedAnInstance(cx: Context, obj: Expr, name: Token, value: Expr, st: State, fuel: nat)
    requires Valid(st)
    requires Eval(cx, obj, st, fuel).out.Ok? && !Eval(cx, obj, st, fuel).out.value.Instance?
    ensures var o := Eval(cx, obj, st, fuel);
            Eval(cx, Get(obj, name), st, fuel + 1) == Run(Err(RuntimeError(name, "Only instances have properties.")), o.st)
            && Eval(cx, Set(obj, name, value), st, fuel + 1) == Run(Err(RuntimeError(name, "Only instances have fields.")), o.st)
  {
  }

  /** `set` on an instance evaluates the value after the object, stores it
      in that instance's fields and yields it; reading the property back
      gives the stored value, and no other instance changes. */
  lemma SetThenGet(cx: Context, obj: Expr, name: Token, value: Expr, st: State, fuel: nat, boundId: nat)
    requires Valid(st)
    requires Eval(cx, obj, st, fuel).out.Ok? && Eval(cx, obj, st, fuel).out.value.Instance?
    requires Eval(cx, value, Eval(cx, obj, st, fuel).st, fuel).out.Ok?
    requires Eval(cx, obj, st, fuel).out.value.instance.addr in Eval(cx, value, Eval(cx, obj, st, fuel).st, fuel).st.heap
    ensures var instance := Eval(cx, obj, st, fuel).out.value.instance;
            var v := Eval(cx, value, Eval(cx, obj, st, fuel).st, fuel);
            var r := Eval(cx, Set(obj, name, value), st, fuel + 1);
            r.out == v.out && r.st.env == v.st.env && r.st.output == v.st.output
            && instance.addr in r.st.heap
            && InstanceGet(instance, r.st.heap[instance.addr], name, boundId) == Success(v.out.value)
            && forall a :: a in v.st.heap && a != instance.addr ==> a in r.st.heap && r.st.heap[a] == v.st.heap[a]
  {
    var instance := Eval(cx, obj, st, fuel).out.value.instance;
    var v := Eval(cx, value, Eval(cx, obj, st, fuel).st, fuel);
    var fields := InstanceSet(v.st.heap[instance.addr], name, v.out.value);
    assert Eval(cx, Set(obj, name, value), st, fuel + 1) == Run(Ok(v.out.value), v.st.(heap := v.st.heap[instance.addr := fields]));
  }
}
