/** The callable object model: function objects, classes and instances.
    Everything here is pure; the interpreter owns the instance heap and the
    supply of fresh object ids. */
module Objects {
  import opened Tokens
  import opened Wrappers
  import opened Errors
  import opened Ast
  import opened Values
  import opened Environment

  // ----- LoxFunction -----

  /** A function expects one argument per declared parameter. */
  function FunctionArity(fn: LoxFunction): nat
  {
    |fn.declaration.params|
  }

  /** The scope a call starts from: each parameter defined, in order, to the
      argument at its position. Exactly the parameter names are bound, and a
      parameter is bound to its argument unless a later parameter of the same
      name replaced it. */
  function BindParameters(params: seq<Token>, args: seq<Value>): (scope: map<string, Value>)
    requires |args| == |params|
    ensures forall n :: n in scope <==> n in Lexemes(params)
    ensures forall i :: 0 <= i < |params| && params[i].lexeme !in Lexemes(params)[i + 1..] ==>
              scope[params[i].lexeme] == args[i]
  {
    DefineAllBindings(Lexemes(params), args);
    DefineAll(Lexemes(params), args)
  }

  /** `Bind`: a new function object with the same declaration, bound to the
      instance. It does not change the function it was made from. */
  function Bind(fn: LoxFunction, instance: InstanceRef, id: nat): (bound: LoxFunction)
    ensures bound.declaration == fn.declaration
    ensures bound.receiver == Some(instance)
    ensures bound.id == id
    ensures FunctionArity(bound) == FunctionArity(fn)
  {
    LoxFunction(id, fn.declaration, Some(instance))
  }

  /** `LoxFunction.ToString`. */
  function FunctionToString(fn: LoxFunction): string
  {
    "<fn " + fn.declaration.name.lexeme + ">"
  }

  // ----- LoxClass -----

  /** `FindMethod`: the function stored under the name in this class's own
      method table, or `None`; there is no superclass to search. */
  function FindMethod(klass: LoxClass, name: string): (r: Option<LoxFunction>)
    ensures r.Some? <==> name in klass.methods
    ensures r.Some? ==> r.value == klass.methods[name]
  {
    if name in klass.methods then Some(klass.methods[name]) else None
  }

  /** A class expects as many arguments as its `init` method, or none. */
  function ClassArity(klass: LoxClass): (n: nat)
    ensures "init" in klass.methods ==> n == FunctionArity(klass.methods["init"])
    ensures "init" !in klass.methods ==> n == 0
  {
    match FindMethod(klass, "init")
    case None => 0
    case Some(initializer) => FunctionArity(initializer)
  }

  /** `LoxClass.ToString`. */
  function ClassToString(klass: LoxClass): string
  {
    klass.name
  }

  function MethodNames(decls: seq<FunDecl>): (r: seq<string>)
    ensures |r| == |decls|
    ensures forall i :: 0 <= i < |decls| ==> r[i] == decls[i].name.lexeme
  {
    seq(|decls|, i requires 0 <= i < |decls| => decls[i].name.lexeme)
  }

  /** The method table a class declaration builds: one fresh, unbound function
      object per method declaration, with ids `firstId`, `firstId + 1`, ... in
      declaration order, each stored under its name. A later declaration of the
      same name replaces an earlier one. */
  function MethodTable(decls: seq<FunDecl>, firstId: nat): (table: map<string, LoxFunction>)
    ensures forall n :: n in table <==> n in MethodNames(decls)
    ensures forall i :: 0 <= i < |decls| && decls[i].name.lexeme !in MethodNames(decls)[i + 1..] ==>
              table[decls[i].name.lexeme] == LoxFunction(firstId + i, decls[i], None)
  {
    var functions := seq(|decls|, i requires 0 <= i < |decls| => LoxFunction(firstId + i, decls[i], None));
    DefineAllBindings(MethodNames(decls), functions);
    DefineAll(MethodNames(decls), functions)
  }

  // ----- LoxInstance -----

  /** `LoxInstance.Get`: a field wins over a method of the same name; failing a
      field, the class's method bound to this instance (as a fresh function
      object `boundId`); failing both, an undefined-property error. */
  function InstanceGet(instance: InstanceRef, fields: map<string, Value>, name: Token, boundId: nat): (r: Result<Value>)
    ensures name.lexeme in fields ==> r == Success(fields[name.lexeme])
    ensures name.lexeme !in fields && name.lexeme in instance.klass.methods ==>
              r == Success(Callable(Fn(Bind(instance.klass.methods[name.lexeme], instance, boundId))))
    ensures name.lexeme !in fields && name.lexeme !in instance.klass.methods ==>
              r == Failure(RuntimeError(name, "Undefined property '" + name.lexeme + "'."))
  {
    if name.lexeme in fields then Success(fields[name.lexeme])
    else match FindMethod(instance.klass, name.lexeme)
      case Some(m) => Success(Callable(Fn(Bind(m, instance, boundId))))
      case None => Failure(RuntimeError(name, "Undefined property '" + name.lexeme + "'."))
  }

  /** `LoxInstance.Set`: stores the value under the name, adding or replacing. */
  function InstanceSet(fields: map<string, Value>, name: Token, value: Value): (r: map<string, Value>)
    ensures r.Keys == fields.Keys + {name.lexeme}
    ensures r[name.lexeme] == value
    ensures forall n :: n in fields && n != name.lexeme ==> r[n] == fields[n]
  {
    fields[name.lexeme := value]
  }

  /** After `Set(n, v)`, `Get(n)` yields `v` even when the class has a method
      `n`; every other property reads as before. */
  lemma GetAfterSet(instance: InstanceRef, fields: map<string, Value>, n: Token, v: Value, name: Token, boundId: nat)
    ensures InstanceGet(instance, InstanceSet(fields, n, v), name, boundId) ==
      (if name.lexeme == n.lexeme then Success(v) else InstanceGet(instance, fields, name, boundId))
  {
  }

  /** `LoxInstance.ToString`. */
  function InstanceToString(instance: InstanceRef): string
  {
    instance.klass.name + " instance"
  }

  // ----- Any callable -----

  function Arity(c: LoxCallable): (n: nat)
    ensures c.Fn? ==> n == |c.fn.declaration.params|
    ensures c.Klass? ==> n == ClassArity(c.klass)
    ensures c.Clock? ==> n == 0
  {
    match c
    case Fn(fn) => FunctionArity(fn)
    case Klass(k) => ClassArity(k)
    case Clock => 0
  }
}
