/**
 * The parts of JavaScript's `Math` the edge detector uses.  `Math.PI` is the
 * real number written by its double literal; `Math.sqrt`, `Math.atan2` and
 * `Math.pow(Math.E, ·)` are not defined here: each operation that calls one
 * takes it as a function-typed parameter, and only the facts a property
 * needs about it are assumed, where that property is stated.
 */
module JsMath {

  /** `Math.PI`. */
  const PI: real := 3.141592653589793

  /** `Math.abs` on numbers. */
  function AbsReal(v: real): (a: real)
    ensures a >= 0.0 && (a == v || a == -v)
  {
    if v < 0.0 then -v else v
  }

  /** What the kernel needs of `t => Math.pow(Math.E, t)`: like `e^t`, it is positive. */
  ghost predicate ExpLike(powE: real -> real) {
    forall t :: powE(t) > 0.0
  }

  /** What the Sobel stage needs of `Math.sqrt`: on non-negative numbers it is the non-negative square root. */
  ghost predicate SqrtLike(sqrt: real -> real) {
    forall v :: v >= 0.0 ==> sqrt(v) >= 0.0 && sqrt(v) * sqrt(v) == v
  }

  /**
   * What the angle properties need of `Math.atan2(y, x)`: the quadrant of
   * `(x, y)` fixes the range of the result (bounds inclusive, since the
   * double result may round onto them), and on the axes the result is exact.
   */
  ghost predicate Atan2Like(atan2: (real, real) -> real) {
    forall y, x ::
      (y > 0.0 && x > 0.0 ==> 0.0 <= atan2(y, x) <= PI / 2.0)
      && (y > 0.0 && x < 0.0 ==> PI / 2.0 <= atan2(y, x) <= PI)
      && (y < 0.0 && x < 0.0 ==> -PI <= atan2(y, x) <= -PI / 2.0)
      && (y < 0.0 && x > 0.0 ==> -PI / 2.0 <= atan2(y, x) <= 0.0)
      && (y == 0.0 && x >= 0.0 ==> atan2(y, x) == 0.0)
      && (y == 0.0 && x < 0.0 ==> atan2(y, x) == PI)
      && (y > 0.0 && x == 0.0 ==> atan2(y, x) == PI / 2.0)
      && (y < 0.0 && x == 0.0 ==> atan2(y, x) == -PI / 2.0)
  }
}
