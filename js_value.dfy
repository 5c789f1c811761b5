/**
 * Untyped JavaScript values, for the functions that take `unknown` and inspect it with
 * `typeof`, `in`, truthiness and property reads.
 */
module JsValue {

  /** A JavaScript value. Numbers are integers; `Obj` is a plain object or, when `isError`
      holds, an instance of `Error`, whose prototype supplies a `message` property. */
  datatype Value =
    | Undefined
    | Null
    | Bool(b: bool)
    | Num(n: int)
    | Str(s: string)
    | Arr(items: seq<Value>)
    | Obj(fields: map<string, Value>, isError: bool)

  /** JavaScript truthiness: `undefined`, `null`, `false`, `0` and `''` are falsy. */
  predicate Truthy(v: Value) {
    match v
    case Undefined => false
    case Null => false
    case Bool(b) => b
    case Num(n) => n != 0
    case Str(s) => s != ""
    case Arr(_) => true
    case Obj(_, _) => true
  }

  /** `typeof v === 'object'`: arrays, objects and `null`. */
  predicate TypeofObject(v: Value) {
    v.Null? || v.Arr? || v.Obj?
  }

  /** `key in v` for an object: an own property, or `message` on an `Error`. */
  predicate HasProperty(v: Value, key: string)
    requires v.Obj?
  {
    key in v.fields || (v.isError && key == "message")
  }

  /** `v[key]` on an object or array; own properties only, except an `Error`'s `message`,
      which defaults to the prototype's empty string. */
  function Get(v: Value, key: string): (r: Value)
    ensures v.Obj? && key in v.fields ==> r == v.fields[key]
    ensures !v.Obj? ==> r == Undefined
  {
    match v
    case Obj(fields, isError) =>
      if key in fields then fields[key]
      else if isError && key == "message" then Str("")
      else Undefined
    case _ => Undefined
  }

  /** `a || b`. */
  function Or(a: Value, b: Value): (r: Value)
    ensures Truthy(a) ==> r == a
    ensures !Truthy(a) ==> r == b
  {
    if Truthy(a) then a else b
  }
}
