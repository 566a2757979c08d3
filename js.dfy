/**
 * The few pieces of JavaScript value semantics the route handlers and the
 * session gate depend on: a field that may be `undefined`/`null`, and
 * truthiness as `if (v)` and `a || b` evaluate it.
 */
module Js {

  /** A field that is either absent (`undefined` or `null`) or holds a value. */
  datatype Option<+T> = None | Some(value: T)

  /** The values a session or request field can hold. Numbers are integers here. */
  datatype Value = Undefined | Null | Bool(b: bool) | Number(n: int) | Str(s: string)

  /** `if (v)`: `undefined`, `null`, `false`, `0` and `""` are falsy, everything else is truthy. */
  predicate Truthy(v: Value) {
    match v
    case Undefined => false
    case Null => false
    case Bool(b) => b
    case Number(n) => n != 0
    case Str(s) => s != ""
  }

  /** An optional string seen as a JavaScript value. */
  function OfString(o: Option<string>): Value {
    match o
    case None => Undefined
    case Some(s) => Str(s)
  }

  /** `a || b` on two optional strings. */
  function Or(a: Option<string>, b: Option<string>): (r: Option<string>)
    ensures Truthy(OfString(r)) <==> Truthy(OfString(a)) || Truthy(OfString(b))
    ensures Truthy(OfString(a)) ==> r == a
    ensures !Truthy(OfString(a)) ==> r == b
  {
    if Truthy(OfString(a)) then a else b
  }
}
