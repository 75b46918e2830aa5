/** The time interpolator of the car animation: a logistic curve centred at C with steepness A. */
module SigmoidInterpolator {
  import opened MathLaws

  /** Centre of the curve. */
  const C: real := 0.5
  /** Steepness of the curve. */
  const A: real := 10.0

  /** The eased progress 1 / (1 + e^(-A (input - C))); always strictly between 0 and 1. */
  function GetInterpolation(input: real, exp: real -> real): (r: real)
    requires IsExp(exp)
    ensures 0.0 < r < 1.0
  {
    var e := exp(-A * (input - C));
    assert 1.0 + e > 1.0;
    1.0 / (1.0 + e)
  }

  /** 1 / (1 + e) decreases strictly as the positive number e grows. */
  lemma ReciprocalDecreasing(e1: real, e2: real)
    requires 0.0 < e1 < e2
    ensures 1.0 / (1.0 + e2) < 1.0 / (1.0 + e1)
  {
  }

  /** The centre C is a fixed point: an input of 0.5 gives exactly 0.5. */
  lemma MidpointFixed(exp: real -> real)
    requires IsExp(exp)
    ensures GetInterpolation(C, exp) == 0.5
  {
  }

  /** Strictly increasing in its input, because A is positive. */
  lemma Increasing(exp: real -> real, t1: real, t2: real)
    requires IsExp(exp) && t1 < t2
    ensures GetInterpolation(t1, exp) < GetInterpolation(t2, exp)
  {
    var u1, u2 := -A * (t1 - C), -A * (t2 - C);
    assert u2 < u1;
    ReciprocalDecreasing(exp(u2), exp(u1));
  }

  /** Point symmetry about (C, 1/2): f(C + d) + f(C - d) = 1. */
  lemma Symmetric(exp: real -> real, d: real)
    requires IsExp(exp)
    ensures GetInterpolation(C + d, exp) + GetInterpolation(C - d, exp) == 1.0
  {
  }

  /** The endpoints are not fixed: f(0) lies strictly between 0 and 1/2, f(1) strictly between
      1/2 and 1, so an animation driven through this interpolator starts past time 0 and
      never reaches time 1. */
  lemma EndpointsNotFixed(exp: real -> real)
    requires IsExp(exp)
    ensures 0.0 < GetInterpolation(0.0, exp) < 0.5
    ensures 0.5 < GetInterpolation(1.0, exp) < 1.0
  {
  }
}
