/** The JavaScript values the recipe catalog handles: the fields of a recipe
    record as they come from the remote service, the draft of a modal form,
    and the payload it saves. A record is an object with string keys. */
module JsValues {

  /** A JavaScript number. Finite numbers are modelled as reals, so
      floating-point rounding is not modelled; -0 is not told apart from 0. */
  datatype Number = Finite(r: real) | NaN | Infinity(negative: bool)

  /** A JavaScript value. Objects and arrays nested in a record are opaque
      here: they are compared by identity, which `Ref` stands for. */
  datatype Value =
    | Undefined
    | Null
    | Bool(b: bool)
    | Num(n: Number)
    | Str(s: string)
    | Ref(address: nat)

  /** A plain object: its own enumerable properties. */
  type Record = map<string, Value>

  /** The result of running a JavaScript expression or handler: it either
      completes normally or throws. The only exception the core can raise
      is the TypeError of calling `trim` on a value that is not a string. */
  datatype Completion<T> = Normal(value: T) | TypeError

  /** Property access `o.k`: an absent property reads as undefined. */
  function Get(o: Record, k: string): Value
  {
    if k in o then o[k] else Undefined
  }

  /** ToBoolean (section 7.1.2 of ECMA-262): the falsy values are
      undefined, null, false, 0, NaN and the empty string. */
  predicate Truthy(v: Value)
  {
    match v
    case Undefined => false
    case Null => false
    case Bool(b) => b
    case Num(n) => n != NaN && n != Finite(0.0)
    case Str(s) => s != ""
    case Ref(_) => true
  }

  /** The logical OR `a || b`: `a` when it is truthy, otherwise `b`. */
  function Or(a: Value, b: Value): (v: Value)
    ensures Truthy(a) ==> v == a
    ensures !Truthy(a) ==> v == b
    ensures Truthy(v) <==> Truthy(a) || Truthy(b)
  {
    if Truthy(a) then a else b
  }

  /** The falsy values are exactly undefined, null, false, 0, NaN and `''`;
      so `undefined || ''`, the draft field of a recipe without that
      property, is `''`. */
  lemma FalsyValues(v: Value)
    ensures !Truthy(v) <==>
      || v == Undefined || v == Null || v == Bool(false)
      || v == Num(Finite(0.0)) || v == Num(NaN) || v == Str("")
    ensures Or(Undefined, Str("")) == Str("")
  {
  }

  /** Strict equality `a === b` on the values above: structural on
      primitives and identity on objects, except that NaN equals nothing. */
  predicate StrictEquals(a: Value, b: Value)
  {
    a == b && a != Num(NaN)
  }

  /** `===` is symmetric, implies equality of the values, is reflexive on
      every value but NaN, and NaN is `===` to nothing, not even itself. */
  lemma StrictEqualsProperties(a: Value, b: Value)
    ensures StrictEquals(a, b) <==> StrictEquals(b, a)
    ensures StrictEquals(a, b) ==> a == b
    ensures a != Num(NaN) ==> StrictEquals(a, a)
    ensures !StrictEquals(Num(NaN), b) && !StrictEquals(a, Num(NaN))
  {
  }

  /** The object spread `{ ...a, ...b }`: every property of `a`, then every
      property of `b`, a later property overriding an earlier one. */
  function Spread(a: Record, b: Record): (r: Record)
    ensures r.Keys == a.Keys + b.Keys
    ensures forall k :: Get(r, k) == if k in b then b[k] else Get(a, k)
  {
    a + b
  }

  /** A property of `b` always wins, and spreading the same object twice
      changes nothing more than spreading it once. */
  lemma SpreadIdempotent(a: Record, b: Record)
    ensures Spread(Spread(a, b), b) == Spread(a, b)
  {
    var once, twice := Spread(a, b), Spread(Spread(a, b), b);
    assert twice.Keys == once.Keys;
    forall k | k in once
      ensures twice[k] == once[k]
    {
      assert Get(twice, k) == Get(once, k);
    }
  }
}
