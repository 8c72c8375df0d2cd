/**
 * JavaScript number semantics the renderer relies on, over exact reals.
 * Infinity and NaN are not reals: `Div` by zero yields 0 and every property
 * about a quotient is stated for a non-zero divisor.
 */
module JsNumber {
  import opened Wrappers

  /**
   * The transcendental part of `Math`, supplied from outside the model:
   * `sqrt`, `sin`, `cos`, `tan` and `PI` are left uninterpreted.
   */
  datatype MathLib = MathLib(sqrt: real -> real, sin: real -> real, cos: real -> real,
                             tan: real -> real, pi: real)

  /** The only fact about `Math` that the proofs need. */
  ghost predicate Lawful(m: MathLib) {
    forall x: real :: x > 0.0 ==> m.sqrt(x) > 0.0
  }

  /** `a / b`; a zero divisor (Infinity or NaN in the source) is outside the model and yields 0. */
  function Div(a: real, b: real): (q: real)
    ensures b != 0.0 ==> q * b == a
  {
    if b == 0.0 then 0.0 else a / b
  }

  /** Truncation toward zero, as `Math.trunc`. */
  function Trunc(x: real): (t: int)
    ensures x >= 0.0 ==> 0 <= t && t as real <= x < t as real + 1.0
    ensures x < 0.0 ==> t <= 0 && t as real - 1.0 < x <= t as real
  {
    if x >= 0.0 then x.Floor else -((-x).Floor)
  }

  /** `x % 360` on numbers: the remainder of truncating division by 360, with the sign of `x`. */
  function Rem360(x: real): (r: real)
    ensures -360.0 < r < 360.0
    ensures x >= 0.0 ==> r >= 0.0
    ensures x <= 0.0 ==> r <= 0.0
    ensures x == 360.0 * Trunc(x / 360.0) as real + r
  {
    x - 360.0 * Trunc(x / 360.0) as real
  }

  lemma ProductSign(a: real, b: real)
    requires a > 0.0
    ensures b > 0.0 ==> a * b > 0.0
    ensures b >= 0.0 ==> a * b >= 0.0
    ensures b <= 0.0 ==> a * b <= 0.0
  {
  }

  /** `Math.max` of two numbers. */
  function Max(a: real, b: real): (r: real)
    ensures r >= a && r >= b && (r == a || r == b)
  {
    if a >= b then a else b
  }

  /** `Math.floor` of a number that may be NaN (None). */
  function FloorOf(x: Option<real>): (r: Option<int>)
    ensures r.Some? <==> x.Some?
    ensures x.Some? ==> r.value as real <= x.value < r.value as real + 1.0
  {
    match x
    case None => None
    case Some(v) => Some(v.Floor)
  }

  /**
   * `v || d` for a number argument that may be `undefined` (None): 0 and `undefined` are falsy.
   * The result is the argument or the default, and it is never falsy when the default is not.
   */
  function OrDefault(v: Option<real>, d: real): (r: real)
    ensures r == d || v == Some(r)
    ensures d != 0.0 ==> r != 0.0
  {
    if v.Some? && v.value != 0.0 then v.value else d
  }
}
