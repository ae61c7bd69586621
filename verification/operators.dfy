/** The interpreter's value-level rules: truthiness, equality, the unary and
    binary operators with their runtime errors, and the printed form of a
    value. None of these evaluates anything; the evaluator applies them to
    operands it has already computed. */
module Operators {
  import opened Tokens
  import opened Extensions
  import opened Values
  import opened Objects

  /** `nil` and `false` are falsy; every other value, `0` and `""` included,
      is truthy. */
  predicate IsTruthy(v: Value): (b: bool)
    ensures !b <==> v == Nil || v == Bool(false)
  {
    match v
    case Nil => false
    case Bool(b) => b
    case _ => true
  }

  lemma TruthinessTable(v: Value)
    ensures v.Nil? ==> !IsTruthy(v)
    ensures v.Bool? ==> (IsTruthy(v) <==> v.b)
    ensures !v.Nil? && !v.Bool? ==> IsTruthy(v)
    ensures IsTruthy(Num(0.0)) && IsTruthy(Str(""))
    ensures !IsTruthy(v) <==> v == Nil || v == Bool(false)
  {
  }

  /** `IsEqual`: two `nil`s are equal, `nil` equals nothing else, and
      otherwise `Equals` decides: value equality for booleans, numbers and
      strings, identity for objects, and never across two different kinds. */
  predicate IsEqual(a: Value, b: Value): (eq: bool)
    ensures eq <==> a == b
  {
    if a.Nil? && b.Nil? then true
    else if a.Nil? then false
    else a == b
  }

  /** Equality is an equivalence that never converts between kinds. */
  lemma EqualityLaws(a: Value, b: Value, c: Value)
    ensures IsEqual(Nil, Nil)
    ensures a.Nil? != b.Nil? ==> !IsEqual(a, b)
    ensures IsEqual(a, a)
    ensures IsEqual(a, b) == IsEqual(b, a)
    ensures IsEqual(a, b) && IsEqual(b, c) ==> IsEqual(a, c)
    ensures IsEqual(a, b) ==> a.Nil? == b.Nil? && a.Bool? == b.Bool? && a.Num? == b.Num?
                              && a.Str? == b.Str? && a.Callable? == b.Callable? && a.Instance? == b.Instance?
  {
  }

  /** Objects compare by identity: two instances at different addresses, or
      two function objects with different ids, are never equal, even when
      their contents agree; a reference is equal to itself. */
  lemma ObjectEquality(a: InstanceRef, b: InstanceRef, f: LoxFunction, g: LoxFunction)
    ensures a.addr != b.addr ==> !IsEqual(Instance(a), Instance(b))
    ensures f.id != g.id ==> !IsEqual(Callable(Fn(f)), Callable(Fn(g)))
    ensures IsEqual(Instance(a), Instance(a)) && IsEqual(Callable(Fn(f)), Callable(Fn(f)))
  {
  }

  predicate IsArithmeticOrComparison(kind: TokenType)
  {
    kind in {GREATER, GREATER_EQUAL, LESS, LESS_EQUAL, MINUS, SLASH, STAR}
  }

  const NumbersMessage := "Operands must be numbers."
  const PlusMessage := "Operands must be two numbers or two strings."

  /** A binary operator applied to its two already-evaluated operands. */
  function BinaryOp(op: Token, left: Value, right: Value): (r: Outcome<Value>)
    ensures !r.Returning? && !r.NoFuel?
    ensures IsArithmeticOrComparison(op.kind) ==>
              (r.Err? <==> !(left.Num? && right.Num?))
              && (r.Err? ==> r.error == RuntimeError(op, NumbersMessage))
              && (r.Ok? && op.kind in {GREATER, GREATER_EQUAL, LESS, LESS_EQUAL} ==> r.value.Bool?)
              && (r.Ok? && op.kind in {MINUS, SLASH, STAR} ==> r.value.Num?)
              && (r.Unmodelled? <==> op.kind == SLASH && left.Num? && right.Num? && right.n == 0.0)
    ensures left.Num? && right.Num? ==>
              (op.kind == GREATER ==> r == Ok(Bool(left.n > right.n)))
              && (op.kind == GREATER_EQUAL ==> r == Ok(Bool(left.n >= right.n)))
              && (op.kind == LESS ==> r == Ok(Bool(left.n < right.n)))
              && (op.kind == LESS_EQUAL ==> r == Ok(Bool(left.n <= right.n)))
              && (op.kind == MINUS ==> r == Ok(Num(left.n - right.n)))
              && (op.kind == STAR ==> r == Ok(Num(left.n * right.n)))
              && (op.kind == SLASH && right.n != 0.0 ==> r == Ok(Num(left.n / right.n)))
    ensures op.kind == PLUS ==>
              (r.Ok? <==> (left.Num? && right.Num?) || (left.Str? && right.Str?))
              && (left.Num? && right.Num? ==> r.value == Num(left.n + right.n))
              && (left.Str? && right.Str? ==> r.value == Str(left.s + right.s))
              && (!r.Ok? ==> r == Err(RuntimeError(op, PlusMessage)))
    ensures op.kind == EQUAL_EQUAL ==> r == Ok(Bool(IsEqual(left, right)))
    ensures op.kind == BANG_EQUAL ==> r == Ok(Bool(!IsEqual(left, right)))
    ensures !IsArithmeticOrComparison(op.kind) && op.kind !in {PLUS, EQUAL_EQUAL, BANG_EQUAL} ==> r == Ok(Nil)
  {
    var bothNumbers := left.Num? && right.Num?;
    match op.kind
    case GREATER => if bothNumbers then Ok(Bool(left.n > right.n)) else Err(RuntimeError(op, NumbersMessage))
    case GREATER_EQUAL => if bothNumbers then Ok(Bool(left.n >= right.n)) else Err(RuntimeError(op, NumbersMessage))
    case LESS => if bothNumbers then Ok(Bool(left.n < right.n)) else Err(RuntimeError(op, NumbersMessage))
    case LESS_EQUAL => if bothNumbers then Ok(Bool(left.n <= right.n)) else Err(RuntimeError(op, NumbersMessage))
    case MINUS => if bothNumbers then Ok(Num(left.n - right.n)) else Err(RuntimeError(op, NumbersMessage))
    case PLUS =>
      if bothNumbers then Ok(Num(left.n + right.n))
      else if left.Str? && right.Str? then Ok(Str(left.s + right.s))
      else Err(RuntimeError(op, PlusMessage))
    case SLASH =>
      if !bothNumbers then Err(RuntimeError(op, NumbersMessage))
      else if right.n == 0.0 then Unmodelled("IEEE division by zero")
      else Ok(Num(left.n / right.n))
    case STAR => if bothNumbers then Ok(Num(left.n * right.n)) else Err(RuntimeError(op, NumbersMessage))
    case BANG_EQUAL => Ok(Bool(!IsEqual(left, right)))
    case EQUAL_EQUAL => Ok(Bool(IsEqual(left, right)))
    case _ => Ok(Nil)
  }

  /** `!=` is the exact negation of `==`, and `1 == "1"` is false. */
  lemma NotEqualNegatesEqual(bang: Token, eq: Token, left: Value, right: Value, x: real, s: string)
    requires bang.kind == BANG_EQUAL && eq.kind == EQUAL_EQUAL
    ensures BinaryOp(bang, left, right).Ok? && BinaryOp(eq, left, right).Ok?
    ensures BinaryOp(bang, left, right).value == Bool(!BinaryOp(eq, left, right).value.b)
    ensures BinaryOp(eq, Num(x), Str(s)) == Ok(Bool(false))
  {
  }

  /** A unary operator applied to its evaluated operand. `-` casts without a
      type check, so a non-number is a host cast failure, not a Lox error. */
  function UnaryOp(op: Token, right: Value): (r: Outcome<Value>)
    ensures !r.Err? && !r.Returning? && !r.NoFuel?
    ensures op.kind == MINUS ==> (r.Ok? <==> right.Num?) && (right.Num? ==> r.value == Num(-right.n))
    ensures op.kind == BANG ==> r == Ok(Bool(!IsTruthy(right)))
    ensures op.kind != MINUS && op.kind != BANG ==> r == Ok(Nil)
  {
    match op.kind
    case MINUS => if right.Num? then Ok(Num(-right.n)) else Unmodelled("invalid cast to double")
    case BANG => Ok(Bool(!IsTruthy(right)))
    case _ => Ok(Nil)
  }

  /** `Stringify`: the text `print` writes. `show` is the host's rendering of
      a double; a trailing ".0" is cut off it. Booleans print as .NET renders
      them. */
  function Stringify(v: Value, show: real -> string): (r: string)
    ensures v.Nil? ==> r == "nil"
    ensures v.Num? && EndsWith(show(v.n), ".0") ==> r + ".0" == show(v.n)
    ensures v.Num? && !EndsWith(show(v.n), ".0") ==> r == show(v.n)
    ensures v.Bool? ==> r == (if v.b then "True" else "False")
    ensures v.Str? ==> r == v.s
    ensures v.Callable? && v.callable.Fn? ==> r == "<fn " + v.callable.fn.declaration.name.lexeme + ">"
    ensures v.Callable? && v.callable.Klass? ==> r == v.callable.klass.name
    ensures v.Callable? && v.callable.Clock? ==> r == "Lox.LoxClock"
    ensures v.Instance? ==> r == v.instance.klass.name + " instance"
  {
    match v
    case Nil => "nil"
    case Num(n) =>
      var text := show(n);
      if EndsWith(text, ".0") then JavaStyleSubstring(text, 0, |text| - 2) else text
    case Bool(b) => if b then "True" else "False"
    case Str(s) => s
    case Callable(c) =>
      (match c
       case Fn(fn) => FunctionToString(fn)
       case Klass(k) => ClassToString(k)
       case Clock => "Lox.LoxClock")
    case Instance(i) => InstanceToString(i)
  }
}
