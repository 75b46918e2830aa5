/** The path the car drives: a quadratic Bezier curve per axis, and the heading read off the
    curve's tangent. */
module CarPath {
  import opened MathLaws

  function Min3(a: real, b: real, c: real): real {
    if a <= b && a <= c then a else if b <= c then b else c
  }

  function Max3(a: real, b: real, c: real): real {
    if a >= b && a >= c then a else if b >= c then b else c
  }

  /** Position on one axis at `time` of the quadratic Bezier curve with start p0, control
      point p1 and end p2. */
  function CalcBezier(time: real, p0: real, p1: real, p2: real): real {
    (1.0 - time) * (1.0 - time) * p0 + 2.0 * (1.0 - time) * time * p1 + time * time * p2
  }

  /** The curve starts at p0 and ends at p2, whatever the control point. */
  lemma BezierEndpoints(p0: real, p1: real, p2: real)
    ensures CalcBezier(0.0, p0, p1, p2) == p0
    ensures CalcBezier(1.0, p0, p1, p2) == p2
  {
  }

  lemma MulNonNegative(a: real, b: real)
    requires 0.0 <= a && 0.0 <= b
    ensures 0.0 <= a * b
  {
  }

  /** The three Bernstein weights are non-negative on [0, 1] and always sum to 1. */
  lemma BernsteinWeights(time: real)
    requires 0.0 <= time <= 1.0
    ensures (1.0 - time) * (1.0 - time) >= 0.0
    ensures 2.0 * (1.0 - time) * time >= 0.0
    ensures time * time >= 0.0
    ensures (1.0 - time) * (1.0 - time) + 2.0 * (1.0 - time) * time + time * time == 1.0
  {
    var s := 1.0 - time;
    MulNonNegative(s, time);
    assert 2.0 * s * time == 2.0 * (s * time);
  }

  /** For time in [0, 1] the position is a convex combination of p0, p1 and p2, so it lies
      between the smallest and the largest of them. */
  lemma BezierInHull(time: real, p0: real, p1: real, p2: real)
    requires 0.0 <= time <= 1.0
    ensures Min3(p0, p1, p2) <= CalcBezier(time, p0, p1, p2) <= Max3(p0, p1, p2)
  {
    BernsteinWeights(time);
    var w0, w1, w2 := (1.0 - time) * (1.0 - time), 2.0 * (1.0 - time) * time, time * time;
    var lo, hi := Min3(p0, p1, p2), Max3(p0, p1, p2);
    var r := CalcBezier(time, p0, p1, p2);
    assert r == w0 * p0 + w1 * p1 + w2 * p2;
    assert r - lo == w0 * (p0 - lo) + w1 * (p1 - lo) + w2 * (p2 - lo);
    MulNonNegative(w0, p0 - lo);
    MulNonNegative(w1, p1 - lo);
    MulNonNegative(w2, p2 - lo);
    assert hi - r == w0 * (hi - p0) + w1 * (hi - p1) + w2 * (hi - p2);
    MulNonNegative(w0, hi - p0);
    MulNonNegative(w1, hi - p1);
    MulNonNegative(w2, hi - p2);
  }

  /** The curve reaches its end point before time 1 only in a degenerate configuration:
      for time != 1, CalcBezier equals p2 exactly when (1 - time) p0 + 2 time p1 = (1 + time) p2. */
  lemma BezierAtEnd(time: real, p0: real, p1: real, p2: real)
    requires time != 1.0
    ensures CalcBezier(time, p0, p1, p2) == p2
        <==> (1.0 - time) * p0 + 2.0 * time * p1 == (1.0 + time) * p2
  {
    var s := 1.0 - time;
    var q := s * p0 + 2.0 * time * p1 - (1.0 + time) * p2;
    assert CalcBezier(time, p0, p1, p2) - p2 == s * q;
    assert s != 0.0;
  }

  /** One axis of the direction the car faces at `time`: the difference of the two linear
      blends p0->p1 and p1->p2 that the Bezier construction interpolates between. */
  function Tangent(time: real, p0: real, p1: real, p2: real): real {
    var t := 1.0 - time;
    (t * p1 + time * p2) - (t * p0 + time * p1)
  }

  /** The tangent is the blend of the two segment directions. */
  lemma TangentForm(time: real, p0: real, p1: real, p2: real)
    ensures Tangent(time, p0, p1, p2) == (1.0 - time) * (p1 - p0) + time * (p2 - p1)
  {
  }

  /** The tangent is half the derivative of the curve: the exact difference over a step h is
      h * 2 * Tangent plus a term of order h^2. */
  lemma TangentIsDerivative(time: real, h: real, p0: real, p1: real, p2: real)
    ensures CalcBezier(time + h, p0, p1, p2) - CalcBezier(time, p0, p1, p2)
         == 2.0 * h * Tangent(time, p0, p1, p2) + h * h * (p0 - 2.0 * p1 + p2)
  {
  }

  /** The heading in degrees at `time`: toDegrees(atan2(dy, dx)) of the tangent, moved into
      [0, 360) by adding 360 to a negative angle. It differs from atan2's angle by 0 or by a
      full turn, so it names the same direction. */
  function CalcAngle(time: real, p0x: real, p0y: real, p1x: real, p1y: real, p2x: real, p2y: real,
                     atan2: (real, real) -> real): (theta: real)
    requires IsAtan2Degrees(atan2)
    ensures 0.0 <= theta < 360.0
    ensures var raw := atan2(Tangent(time, p0y, p1y, p2y), Tangent(time, p0x, p1x, p2x));
            theta == raw || theta == raw + 360.0
  {
    var dx := Tangent(time, p0x, p1x, p2x);
    var dy := Tangent(time, p0y, p1y, p2y);
    var theta := atan2(dy, dx);
    if theta < 0.0 then theta + 360.0 else theta
  }
}
