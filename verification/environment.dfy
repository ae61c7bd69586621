/** One runtime scope: a flat map from names to values, with define, get and
    assign; and the scope chain the interpreter keeps, a sequence of such maps
    with the innermost first and the globals last. */
module Environment {
  import opened Tokens
  import opened Wrappers
  import opened Errors

  type Scope<V> = map<string, V>

  function UndefinedVariable(name: Token): RuntimeError
  {
    RuntimeError(name, "Undefined variable '" + name.lexeme + "'.")
  }

  /** `Define`: binds `name`, inserting it or overwriting an earlier binding.
      It never fails and leaves every other name as it was. */
  function Define<V>(values: Scope<V>, name: string, value: V): (r: Scope<V>)
    ensures name in r && r[name] == value
    ensures r.Keys == values.Keys + {name}
    ensures forall n :: n in values && n != name ==> r[n] == values[n]
  {
    values[name := value]
  }

  /** `Get`: the value bound to the token's lexeme, or an undefined-variable
      error when the name is not bound. */
  function Get<V>(values: Scope<V>, name: Token): (r: Result<V>)
    ensures r.Success? <==> name.lexeme in values
    ensures r.Success? ==> r.value == values[name.lexeme]
    ensures r.Failure? ==> r.error == UndefinedVariable(name)
  {
    if name.lexeme in values then Success(values[name.lexeme]) else Failure(UndefinedVariable(name))
  }

  /** `Assign`: rebinds a name that is already bound; it never creates a
      binding, and an absent name is an undefined-variable error. */
  function Assign<V>(values: Scope<V>, name: Token, value: V): (r: Result<Scope<V>>)
    ensures r.Success? <==> name.lexeme in values
    ensures r.Success? ==> r.value.Keys == values.Keys
    ensures r.Success? ==> r.value[name.lexeme] == value
    ensures r.Success? ==> forall n :: n in values && n != name.lexeme ==> r.value[n] == values[n]
    ensures r.Failure? ==> r.error == UndefinedVariable(name)
  {
    if name.lexeme in values then Success(values[name.lexeme := value]) else Failure(UndefinedVariable(name))
  }

  /** Reading a name back returns what the latest `Define` stored. */
  lemma GetAfterDefine<V>(values: Scope<V>, n: string, v: V, name: Token)
    ensures Get(Define(values, n, v), name) ==
      (if name.lexeme == n then Success(v) else Get(values, name))
  {
  }

  /** Reading a name back returns what the latest successful `Assign` stored,
      and an `Assign` to one name does not disturb reads of another. */
  lemma GetAfterAssign<V>(values: Scope<V>, target: Token, v: V, name: Token)
    requires Assign(values, target, v).Success?
    ensures Get(Assign(values, target, v).value, name) ==
      (if name.lexeme == target.lexeme then Success(v) else Get(values, name))
  {
  }

  /** `Assign` fails exactly where `Get` fails, with the same error. */
  lemma AssignFailsLikeGet<V>(values: Scope<V>, name: Token, v: V)
    ensures Assign(values, name, v).Failure? <==> Get(values, name).Failure?
    ensures Assign(values, name, v).Failure? ==> Assign(values, name, v).error == Get(values, name).error
  {
  }

  /** A fresh scope after defining each name to the value at its position,
      in order, so that a later definition of a name replaces an earlier one. */
  function DefineAll<V>(names: seq<string>, values: seq<V>): Scope<V>
    requires |names| == |values|
    decreases |names|
  {
    if |names| == 0 then map[]
    else
      var k := |names| - 1;
      Define(DefineAll(names[..k], values[..k]), names[k], values[k])
  }

  /** Exactly the listed names are bound, each to the value of its last
      definition. */
  lemma {:induction false} DefineAllBindings<V>(names: seq<string>, values: seq<V>)
    requires |names| == |values|
    ensures forall n :: n in DefineAll(names, values) <==> n in names
    ensures forall i :: 0 <= i < |names| && names[i] !in names[i + 1..] ==>
              DefineAll(names, values)[names[i]] == values[i]
    decreases |names|
  {
    if |names| > 0 {
      var k := |names| - 1;
      DefineAllBindings(names[..k], values[..k]);
      var r := DefineAll(names, values);
      forall n ensures n in r <==> n in names {
        assert n in names <==> n in names[..k] || n == names[k] by {
          assert names == names[..k] + [names[k]];
        }
      }
      forall i | 0 <= i < |names| && names[i] !in names[i + 1..]
        ensures r[names[i]] == values[i]
      {
        if i < k {
          assert names[k] in names[i + 1..] by { assert names[i + 1..][k - i - 1] == names[k]; }
          assert names[..k][i + 1..] == names[i + 1..k];
          assert names[i] !in names[..k][i + 1..];
        }
      }
    }
  }

  // ---------------------------------------------------------------------
  // The scope chain. Index 0 is the innermost scope, the last is globals.
  // `GetAt` and `AssignAt` walk exactly `distance` enclosing links and then
  // access that one scope; they do no search. When the chain is shorter than
  // `distance` or the scope there lacks the name, the host raises an
  // exception that is not a Lox runtime error: `None` here.
  // ---------------------------------------------------------------------

  /** Two chains of one length whose scopes bind the same names, position by
      position; the values bound may differ. */
  predicate SameNames<V>(a: seq<Scope<V>>, b: seq<Scope<V>>)
  {
    |a| == |b| && forall i :: 0 <= i < |a| ==> a[i].Keys == b[i].Keys
  }

  function GetAt<V>(chain: seq<Scope<V>>, distance: nat, name: string): (r: Option<V>)
    ensures r.Some? <==> distance < |chain| && name in chain[distance]
    ensures r.Some? ==> r.value == chain[distance][name]
  {
    if distance < |chain| && name in chain[distance] then Some(chain[distance][name]) else None
  }

  function AssignAt<V>(chain: seq<Scope<V>>, distance: nat, name: Token, value: V): (r: Option<seq<Scope<V>>>)
    ensures r.Some? <==> distance < |chain| && name.lexeme in chain[distance]
    ensures r.Some? ==> |r.value| == |chain|
    ensures r.Some? ==> forall i :: 0 <= i < |chain| && i != distance ==> r.value[i] == chain[i]
    ensures r.Some? ==> Assign(chain[distance], name, value) == Success(r.value[distance])
    ensures r.Some? ==> SameNames(chain, r.value)
  {
    if distance < |chain| then
      match Assign(chain[distance], name, value)
      case Success(scope) => Some(chain[distance := scope])
      case Failure(_) => None
    else None
  }
}
