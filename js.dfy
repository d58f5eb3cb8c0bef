/**
 * The JavaScript values that the spreadsheet importer, the deal grid and the
 * PATCH endpoint pass around untyped, with JavaScript's truthiness rule.
 */
module Js {

  /**
   * A JavaScript value. `DateObj` is a `Date` object: `ref` stands for its
   * identity (strict equality of objects compares references) and `day` for
   * the day number it denotes. NaN is not modelled.
   */
  datatype Value =
    | Undefined
    | Null
    | Bool(b: bool)
    | Num(n: real)
    | Str(s: string)
    | DateObj(ref: nat, day: int)

  /** `Boolean(v)`: false exactly for undefined, null, false, 0 and ''. */
  predicate Truthy(v: Value) {
    match v
    case Undefined => false
    case Null => false
    case Bool(b) => b
    case Num(n) => n != 0.0
    case Str(s) => s != ""
    case DateObj(_, _) => true
  }

  /**
   * `a === b`: primitives compare by value, `Date` objects by identity.
   */
  predicate StrictEq(a: Value, b: Value): (r: bool)
    ensures a == b ==> r
  {
    if a.DateObj? && b.DateObj? then a.ref == b.ref else a == b
  }

  /** `Math.round`: the nearest integer, halves rounded towards +infinity. */
  function Round(x: real): (r: int)
    ensures r as real - 0.5 <= x < r as real + 0.5
  {
    (x + 0.5).Floor
  }
}

/** `Math.min` and `Math.max` on numbers. */
module Math {

  function min(a: real, b: real): (r: real)
    ensures r <= a && r <= b && (r == a || r == b)
  {
    if a <= b then a else b
  }

  function max(a: real, b: real): (r: real)
    ensures r >= a && r >= b && (r == a || r == b)
  {
    if a >= b then a else b
  }
}
