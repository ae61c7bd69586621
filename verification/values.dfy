/** Runtime values and the outcome of evaluating or executing a node.

    Functions, classes and instances are objects with identity in the source.
    Each one made at run time takes a fresh `id` (an instance: a fresh heap
    address), so two values are `==` exactly when they are the same object. */
module Values {
  import opened Tokens
  import opened Wrappers
  import opened Ast

  datatype Value =
    | Nil
    | Bool(b: bool)
    | Num(n: real)
    | Str(s: string)
    | Callable(callable: LoxCallable)
    | Instance(instance: InstanceRef)

  /** The three implementations of the callable interface. */
  datatype LoxCallable =
    | Fn(fn: LoxFunction)
    | Klass(klass: LoxClass)
    | Clock

  /** A function object: its declaration and, once bound as a method, the
      instance it was bound to. */
  datatype LoxFunction = LoxFunction(id: nat, declaration: FunDecl, receiver: Option<InstanceRef>)

  datatype LoxClass = LoxClass(id: nat, name: string, methods: map<string, LoxFunction>)

  /** A reference to an instance: its heap address and its (fixed) class. */
  datatype InstanceRef = InstanceRef(addr: nat, klass: LoxClass)

  /** How evaluation or execution ended. `Returning` is the non-local exit a
      `return` statement raises; `NoFuel` means the step bound ran out;
      `Unmodelled` marks a host-level failure or IEEE behaviour this model
      does not describe. */
  datatype Outcome<+T> =
    | Ok(value: T)
    | Err(error: RuntimeError)
    | Returning(returned: Value)
    | NoFuel
    | Unmodelled(what: string)
  {
    /** Re-types an outcome that carries no normal result. */
    function Propagate<U>(): (r: Outcome<U>)
      requires !Ok?
      ensures !r.Ok?
      ensures Err? <==> r.Err?
      ensures Returning? <==> r.Returning?
    {
      match this
      case Err(e) => Err(e)
      case Returning(v) => Returning(v)
      case NoFuel => NoFuel
      case Unmodelled(w) => Unmodelled(w)
    }
  }

  /** The value a literal node denotes: the literal's own payload, never an
      object. */
  function FromLiteral(l: LiteralValue): (v: Value)
    ensures v.Nil? || v.Bool? || v.Num? || v.Str?
    ensures l.LitNil? <==> v.Nil?
    ensures l.LitBool? ==> v == Bool(l.b)
    ensures l.LitNum? ==> v == Num(l.n)
    ensures l.LitStr? ==> v == Str(l.s)
  {
    match l
    case LitNil => Nil
    case LitBool(b) => Bool(b)
    case LitNum(n) => Num(n)
    case LitStr(s) => Str(s)
  }
}
