/**
 * JavaScript values as the dashboard sees them: JSON payloads from the
 * backend, form records, and the `undefined` that a missing property or a
 * missing route parameter yields. Numbers are integers (floating point is
 * not modelled).
 */
module Js {
  import opened Strings

  datatype Value =
    | Undefined
    | Null
    | Bool(b: bool)
    | Num(n: int)
    | Str(s: string)
    | Arr(items: seq<Value>)
    | Obj(fields: map<string, Value>)

  /** JavaScript truthiness: `undefined`, `null`, `false`, `0` and `""` are falsy. */
  predicate Truthy(v: Value) {
    match v
    case Undefined => false
    case Null => false
    case Bool(b) => b
    case Num(n) => n != 0
    case Str(s) => s != ""
    case Arr(_) => true
    case Obj(_) => true
  }

  /** `a || b`. */
  function Or(a: Value, b: Value): (r: Value)
    ensures r == a || r == b
    ensures Truthy(r) <==> Truthy(a) || Truthy(b)
    ensures Truthy(a) ==> r == a
  {
    if Truthy(a) then a else b
  }

  /** `v === null || v === undefined`: reading a property of `v` throws a TypeError. */
  predicate IsNullish(v: Value) {
    v == Undefined || v == Null
  }

  /**
   * `v?.[key]`: the property, or `undefined` when `v` is nullish, is not an
   * object, or has no such key. Arrays and strings expose `length`.
   */
  function Get(v: Value, key: string): (r: Value)
    ensures IsNullish(v) ==> r == Undefined
  {
    match v
    case Obj(m) => if key in m then m[key] else Undefined
    case Arr(xs) => if key == "length" then Num(|xs|) else Undefined
    case Str(s) => if key == "length" then Num(|s|) else Undefined
    case _ => Undefined
  }

  /** `{ ...v }`: the own enumerable properties of an object; other values contribute none. */
  function Spread(v: Value): map<string, Value> {
    if v.Obj? then v.fields else map[]
  }

  /** A one-key object literal `{ key: v }`. */
  function Single(key: string, v: Value): Value {
    Obj(map[key := v])
  }

  /** `String(v)`, which is also what a template literal `${v}` inserts. */
  function ToString(v: Value): string
    decreases v
  {
    match v
    case Undefined => "undefined"
    case Null => "null"
    case Bool(b) => if b then "true" else "false"
    case Num(n) => IntToString(n)
    case Str(s) => s
    case Arr(xs) => JoinItems(xs)
    case Obj(_) => "[object Object]"
  }

  /** `Array.prototype.join(",")`, where `null` and `undefined` items print as "". */
  function JoinItems(xs: seq<Value>): string
    decreases xs
  {
    if xs == [] then ""
    else
      var head := if IsNullish(xs[0]) then "" else ToString(xs[0]);
      if |xs| == 1 then head else head + "," + JoinItems(xs[1..])
  }
}
