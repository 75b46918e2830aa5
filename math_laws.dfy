/** The transcendental functions the widget calls are kept uninterpreted: java.lang.Math's
    sqrt, tan and atan2 (composed with toRadians/toDegrees), and Math.pow(Math.E, x), which
    the model names exp. Each is an ordinary function value handed to the model, and the
    predicates below state the only facts about it that the proofs rely on. */
module MathLaws {

  /** exp is positive, strictly increasing, exp(0) = 1 and exp(-x) = 1/exp(x). */
  ghost predicate IsExp(exp: real -> real) {
    && exp(0.0) == 1.0
    && (forall x :: exp(x) > 0.0)
    && (forall x, y :: x < y ==> exp(x) < exp(y))
    && (forall x, y :: x + y == 0.0 ==> exp(x) * exp(y) == 1.0)
  }

  /** toDegrees(atan2(y, x)) lies in the half-open interval (-180, 180]. */
  ghost predicate IsAtan2Degrees(atan2: (real, real) -> real) {
    forall y, x :: -180.0 < atan2(y, x) <= 180.0
  }

  /** sqrt is strictly increasing on the non-negative reals. */
  ghost predicate IsSqrt(sqrt: real -> real) {
    forall x, y :: 0.0 <= x < y ==> sqrt(x) < sqrt(y)
  }

  /** Under IsSqrt, comparing square roots of non-negative numbers is comparing the numbers. */
  lemma SqrtLess(sqrt: real -> real, x: real, y: real)
    requires IsSqrt(sqrt) && 0.0 <= x && 0.0 <= y
    ensures sqrt(x) < sqrt(y) <==> x < y
  {
  }
}
