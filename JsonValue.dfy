/**
  The loosely-typed values the TypeScript code reads with optional chaining
  and `||`, and the three JavaScript operations on them it relies on:
  truthiness, `a || b` and the property read `v?.key`.
*/
module JsonValue {
  import opened Wrappers

  /** A JSON value. Numbers are integers here. */
  datatype Json =
    | JNull
    | JBool(b: bool)
    | JNum(n: int)
    | JStr(s: string)
    | JArr(items: seq<Json>)
    | JObj(fields: map<string, Json>)

  /** JavaScript truthiness; `None` is `undefined`. Arrays and objects are truthy even when empty. */
  predicate Truthy(v: Option<Json>) {
    match v
    case None => false
    case Some(JNull) => false
    case Some(JBool(b)) => b
    case Some(JNum(n)) => n != 0
    case Some(JStr(s)) => s != ""
    case Some(JArr(_)) => true
    case Some(JObj(_)) => true
  }

  /** `a || b`: the left operand when it is truthy, the right one otherwise. */
  function Or(a: Option<Json>, b: Option<Json>): (r: Option<Json>)
    ensures Truthy(r) <==> Truthy(a) || Truthy(b)
    ensures Truthy(a) ==> r == a
    ensures !Truthy(a) ==> r == b
  {
    if Truthy(a) then a else b
  }

  /** `a || d` where the default `d` is a literal. */
  function OrElse(a: Option<Json>, d: Json): (r: Json)
    ensures Truthy(a) ==> Some(r) == a
    ensures !Truthy(a) ==> r == d
  {
    if Truthy(a) then a.value else d
  }

  /**
    `v?.key`, and also `v.key` on a value known not to be null:
    `undefined` on `undefined` and `null`, the property on an object, and
    `undefined` on every other primitive and on arrays (none of the keys read
    here is a property of strings or arrays).
  */
  function Get(v: Option<Json>, key: string): (r: Option<Json>)
    ensures r.Some? <==> v.Some? && v.value.JObj? && key in v.value.fields
    ensures r.Some? ==> r.value == v.value.fields[key]
  {
    match v
    case Some(JObj(fields)) => if key in fields then Some(fields[key]) else None
    case _ => None
  }

  /** `v?.k1?.k2?. ... ?.kn`. */
  function Path(v: Option<Json>, keys: seq<string>): (r: Option<Json>)
    ensures keys == [] ==> r == v
    ensures v.None? ==> r.None?
    decreases |keys|
  {
    if keys == [] then v else Path(Get(v, keys[0]), keys[1..])
  }
}
