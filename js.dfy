/** The few pieces of JavaScript value semantics the controllers' guards depend on. */
module Js {
  import opened Options

  /** A JSON value as a request body delivers it to a handler. Arrays and objects are
      lumped together as `Composite`: the guards only ask whether they are truthy. */
  datatype Value =
    | Undefined
    | Null
    | Bool(b: bool)
    | Num(x: real)
    | NaN
    | Str(s: string)
    | Composite

  /** JavaScript truthiness: `!v` in a guard is `!Truthy(v)`. */
  predicate Truthy(v: Value) {
    match v
    case Undefined => false
    case Null => false
    case Bool(b) => b
    case Num(x) => x != 0.0
    case NaN => false
    case Str(s) => s != ""
    case Composite => true
  }

  /** `typeof v === "number"` (NaN is a number). */
  predicate IsNumber(v: Value) {
    v.Num? || v.NaN?
  }

  /** `v <= 0` on a number: every comparison with NaN is false. */
  predicate AtMostZero(v: Value)
    requires IsNumber(v)
  {
    v.Num? && v.x <= 0.0
  }

  /** Truthiness of a string field that may be absent: undefined, null and "" are falsy. */
  predicate Filled(s: Option<string>) {
    s.Some? && s.value != ""
  }
}
