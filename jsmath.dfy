/** A small optional-value type, standing in for JavaScript's `undefined` fields. */
module Wrappers {

  datatype Option<+T> = None | Some(value: T) {

    /** The value, or `default` when there is none (agrees with JavaScript's `v || 0` for the zero default used here). */
    function GetOr(default: T): T {
      match this
      case Some(v) => v
      case None => default
    }
  }
}

/**
 * The pieces of JavaScript's number model and `Math` object that the animation code uses.
 * Numbers are idealised as exact reals: there is no rounding, no NaN and no infinity.
 */
module JsMath {

  /** A value returned by `Math.random()`: uniformly drawn from [0, 1). */
  type Draw = r: real | 0.0 <= r < 1.0

  /** `Math.PI`, to the digits JavaScript prints. */
  const Pi: real := 3.141592653589793

  /** `Math.min` of two numbers. */
  function Min(a: real, b: real): (r: real)
    ensures r <= a && r <= b
    ensures r == a || r == b
  {
    if a <= b then a else b
  }

  /** `Math.max` of two numbers. */
  function Max(a: real, b: real): (r: real)
    ensures a <= r && b <= r
    ensures r == a || r == b
  {
    if a <= b then b else a
  }

  /** The idiom `Math.max(lo, Math.min(hi, v))`: `v` pulled into [lo, hi]. */
  function Clamp(lo: real, hi: real, v: real): (r: real)
    requires lo <= hi
    ensures lo <= r <= hi
    ensures lo <= v <= hi ==> r == v
    ensures v < lo ==> r == lo
    ensures hi < v ==> r == hi
  {
    Max(lo, Min(hi, v))
  }

  /** The quotient `q` with its fraction dropped, rounding toward zero. */
  function Trunc(q: real): (k: int)
    ensures 0.0 <= q ==> 0 <= k && k as real <= q < k as real + 1.0
    ensures q < 0.0 ==> k <= 0 && k as real - 1.0 < q <= k as real
  {
    if 0.0 <= q then q.Floor else -((-q).Floor)
  }

  /**
   * JavaScript's remainder `a % b`: what is left of `a` once the quotient,
   * truncated toward zero, is taken out, so the result has the sign of `a`.
   */
  function Rem(a: real, b: real): real
    requires b != 0.0
  {
    a - b * Trunc(a / b) as real
  }

  /**
   * `Math.sqrt`, `Math.sin` and `Math.cos`, which the model does not compute:
   * whoever uses the model supplies them, and a property that depends on
   * what they return says so in its requires clause.
   */
  datatype Transcendentals = Transcendentals(sqrt: real -> real, sin: real -> real, cos: real -> real)

  /** A sine that never leaves [-1, 1]. */
  ghost predicate SineBounded(sin: real -> real) {
    forall u :: -1.0 <= sin(u) <= 1.0
  }

  /** `sqrt` is the non-negative square root and `sin² + cos² = 1`. */
  ghost predicate Exact(m: Transcendentals) {
    (forall u :: 0.0 <= u ==> 0.0 <= m.sqrt(u) && m.sqrt(u) * m.sqrt(u) == u) &&
    (forall u :: m.sin(u) * m.sin(u) + m.cos(u) * m.cos(u) == 1.0)
  }
}
