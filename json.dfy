/** The JSON-ish values the views receive from the backend, with JavaScript's
    notion of truthiness, property reads and the `||` operator. */
module Json {

  /** A value as JavaScript sees it after `response.json()`. `Undefined` is not
      JSON; it is what reading an absent property yields. Numbers are kept as
      reals. JSON text has no NaN. An exponent too large for a double, which
      `JSON.parse` turns into plus or minus Infinity, is not modelled; either
      infinity is truthy, as every non-zero real is here. */
  datatype Value =
    | Undefined
    | Null
    | Bool(b: bool)
    | Num(n: real)
    | Str(s: string)
    | Arr(elems: seq<Value>)
    | Obj(fields: map<string, Value>)

  /** JavaScript truthiness: `undefined`, `null`, `false`, `0` and `""` are
      falsy; every array and every object (even an empty one) is truthy. */
  predicate Truthy(v: Value)
    ensures Truthy(v) ==> !Nullish(v)
    ensures v.Arr? || v.Obj? ==> Truthy(v)
  {
    match v
    case Undefined => false
    case Null => false
    case Bool(b) => b
    case Num(n) => n != 0.0
    case Str(s) => s != ""
    case Arr(_) => true
    case Obj(_) => true
  }

  /** `null` and `undefined`: the values on which a property read throws. */
  predicate Nullish(v: Value)
  {
    v.Null? || v.Undefined?
  }

  /** `v.key` for a value that is not nullish: an object's own field, and
      `undefined` for every absent field and for primitives and arrays (none of
      the keys the views read is a property of strings, numbers or arrays). */
  function Field(v: Value, key: string): (r: Value)
    ensures v.Obj? && key in v.fields ==> r == v.fields[key]
    ensures !(v.Obj? && key in v.fields) ==> r == Undefined
  {
    if v.Obj? && key in v.fields then v.fields[key] else Undefined
  }

  /** `a || b`: the left operand when it is truthy, otherwise the right one. */
  function Or(a: Value, b: Value): (r: Value)
    ensures Truthy(r) <==> Truthy(a) || Truthy(b)
    ensures r == a || r == b
    ensures Truthy(a) ==> r == a
    ensures !Truthy(a) ==> r == b
  {
    if Truthy(a) then a else b
  }
}
