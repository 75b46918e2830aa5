/** The car widget's motion state: its pose, the pose at the start of the running animation,
    and the flags that guard initialisation and re-entrant taps. The animation clock is the
    caller: it invokes OnAnimationUpdate with each eased time and OnAnimationEnd once at the
    end. */
module CarView {
  import opened MathLaws
  import opened CarPath
  import opened ControlPoint
  import opened SigmoidInterpolator

  datatype Option<T> = None | Some(value: T)

  /** What a started animation keeps for its frames: the control point and the tapped target. */
  datatype Motion = Motion(cx: real, cy: real, toX: real, toY: real)

  /** Heading of a freshly created view, in degrees (the car looks up). */
  const InitialAngle: real := 90.0

  class CarView {
    var startCoordIsInit: bool
    var carX: real
    var tmpCarX: real
    var carY: real
    var tmpCarY: real
    var carAngle: real
    var carIsMove: bool

    /** Between animations the baseline (tmpCarX, tmpCarY) is the pose itself, and the
        heading is always normalised into [0, 360). */
    ghost predicate Valid()
      reads this
    {
      && (!carIsMove ==> tmpCarX == carX && tmpCarY == carY)
      && 0.0 <= carAngle < 360.0
    }

    /** The control point a tap would use now, in a view of the given size. Outside the
        headings 0 and 180 it lies on the line along the car's current heading. */
    function PlannedControlPoint(width: nat, height: nat, tanDeg: real -> real,
                                 sqrt: real -> real): (r: Point)
      reads this
      requires DivisorsDefined(carAngle, tanDeg(carAngle), tanDeg(90.0))
      ensures carAngle == 90.0 || carAngle == 270.0 || IsOpenQuadrant(carAngle)
              ==> OnHeadingLine(r, tanDeg(carAngle), Intercept(carX, carY, tanDeg(carAngle)))
    {
      GetControlPoint(carX, carY, carAngle, width as real, height as real,
                      tanDeg(carAngle), tanDeg(90.0), sqrt)
    }

    constructor ()
      ensures Valid()
      ensures !startCoordIsInit && !carIsMove
      ensures carX == 0.0 && carY == 0.0 && tmpCarX == 0.0 && tmpCarY == 0.0
      ensures carAngle == InitialAngle
    {
      startCoordIsInit := false;
      carX, tmpCarX := 0.0, 0.0;
      carY, tmpCarY := 0.0, 0.0;
      carAngle := InitialAngle;
      carIsMove := false;
    }

    /** The first measurement places the car horizontally centred, one sixth of the height
        above the bottom, and makes that the baseline; later measurements change nothing. */
    method OnMeasure(widthSize: nat, heightSize: nat)
      requires Valid()
      modifies this
      ensures Valid() && startCoordIsInit
      ensures old(startCoordIsInit) ==> unchanged(this)
      ensures !old(startCoordIsInit) ==>
        && carX == widthSize as real / 2.0
        && carY == heightSize as real - heightSize as real / 6.0
        && tmpCarX == carX && tmpCarY == carY
        && carAngle == old(carAngle) && carIsMove == old(carIsMove)
    {
      if !startCoordIsInit {
        carX := widthSize as real / 2.0;
        carY := heightSize as real - heightSize as real / 6.0;
        tmpCarX := carX;
        tmpCarY := carY;
        startCoordIsInit := true;
      }
    }

    /** A touch while the car moves is consumed (true) and changes nothing. A touch while it
        stands starts a move to the touched point and is reported as not consumed (false). */
    method OnTouchEvent(x: real, y: real, width: nat, height: nat,
                        tanDeg: real -> real, sqrt: real -> real)
      returns (consumed: bool, started: Option<Motion>)
      requires Valid()
      requires !carIsMove ==> DivisorsDefined(carAngle, tanDeg(carAngle), tanDeg(90.0))
      modifies this
      ensures Valid()
      ensures consumed <==> old(carIsMove)
      ensures old(carIsMove) ==> started == None && unchanged(this)
      ensures !old(carIsMove) ==>
        && carIsMove
        && started == Some(Motion(old(PlannedControlPoint(width, height, tanDeg, sqrt)).x,
                                  old(PlannedControlPoint(width, height, tanDeg, sqrt)).y, x, y))
        && carX == old(carX) && carY == old(carY) && carAngle == old(carAngle)
        && tmpCarX == old(tmpCarX) && tmpCarY == old(tmpCarY)
        && startCoordIsInit == old(startCoordIsInit)
    {
      if !carIsMove {
        var m := StartMove(x, y, width, height, tanDeg, sqrt);
        consumed, started := false, Some(m);
      } else {
        consumed, started := true, None;
      }
    }

    /** Marks the car as moving and plans the move to (toX, toY): the control point is taken
        from the current pose; the pose itself is untouched until the first frame. */
    method StartMove(toX: real, toY: real, width: nat, height: nat,
                     tanDeg: real -> real, sqrt: real -> real) returns (m: Motion)
      requires Valid()
      requires DivisorsDefined(carAngle, tanDeg(carAngle), tanDeg(90.0))
      modifies this`carIsMove
      ensures Valid() && carIsMove
      ensures m == Motion(PlannedControlPoint(width, height, tanDeg, sqrt).x,
                          PlannedControlPoint(width, height, tanDeg, sqrt).y, toX, toY)
    {
      carIsMove := true;
      var pairControl := PlannedControlPoint(width, height, tanDeg, sqrt);
      m := Motion(pairControl.x, pairControl.y, toX, toY);
    }

    /** One animation frame at eased time t: the pose moves to the point of the Bezier curve
        from the baseline through the control point to the target, and the heading follows
        the curve's tangent (computed with y negated, so that 90 degrees is up on screen). */
    method OnAnimationUpdate(m: Motion, t: real, atan2: (real, real) -> real)
      requires Valid() && carIsMove && IsAtan2Degrees(atan2)
      modifies this`carX, this`carY, this`carAngle
      ensures Valid()
      ensures carX == CalcBezier(t, tmpCarX, m.cx, m.toX)
      ensures carY == CalcBezier(t, tmpCarY, m.cy, m.toY)
      ensures carAngle == CalcAngle(t, tmpCarX, -tmpCarY, m.cx, -m.cy, m.toX, -m.toY, atan2)
    {
      carX := CalcBezier(t, tmpCarX, m.cx, m.toX);
      carY := CalcBezier(t, tmpCarY, m.cy, m.toY);
      carAngle := CalcAngle(t, tmpCarX, -tmpCarY, m.cx, -m.cy, m.toX, -m.toY, atan2);
    }

    /** The end of the animation: the car stands again and its current position becomes the
        baseline of the next move. */
    method OnAnimationEnd()
      requires Valid()
      modifies this`carIsMove, this`tmpCarX, this`tmpCarY
      ensures Valid() && !carIsMove
      ensures tmpCarX == carX && tmpCarY == carY
    {
      carIsMove := false;
      tmpCarX := carX;
      tmpCarY := carY;
    }
  }

  /** The last frame of an animation is drawn at eased time GetInterpolation(1) < 1, so the
      car reaches the tapped coordinate only in the degenerate alignment of BezierAtEnd: in
      general it stops short of the tapped point. */
  lemma FinalFrameStopsShort(exp: real -> real, p0: real, p1: real, p2: real)
    requires IsExp(exp)
    ensures var t := GetInterpolation(1.0, exp);
      && t < 1.0
      && (CalcBezier(t, p0, p1, p2) == p2 <==> (1.0 - t) * p0 + 2.0 * t * p1 == (1.0 + t) * p2)
  {
    EndpointsNotFixed(exp);
    BezierAtEnd(GetInterpolation(1.0, exp), p0, p1, p2);
  }

  /** A whole interaction as the platform drives it: layout, a tap, a re-entrant tap, the
      frames and the end of the animation. */
  method Interaction(width: nat, height: nat, toX: real, toY: real, frames: seq<real>,
                     tanDeg: real -> real, sqrt: real -> real, atan2: (real, real) -> real)
    returns (view: CarView, m: Motion)
    requires DivisorsDefined(InitialAngle, tanDeg(InitialAngle), tanDeg(90.0))
    requires IsAtan2Degrees(atan2) && frames != []
    ensures fresh(view) && view.Valid() && !view.carIsMove
    ensures m.cy == 0.0 && m.cx == width as real / 2.0 + (height as real - height as real / 6.0) / tanDeg(90.0)
    ensures m.toX == toX && m.toY == toY
    ensures view.tmpCarX == view.carX == CalcBezier(frames[|frames| - 1], width as real / 2.0, m.cx, toX)
    ensures view.tmpCarY == view.carY
         == CalcBezier(frames[|frames| - 1], height as real - height as real / 6.0, m.cy, toY)
  {
    view := new CarView();
    view.OnMeasure(width, height);
    var consumed, started := view.OnTouchEvent(toX, toY, width, height, tanDeg, sqrt);
    assert !consumed && started.Some?;
    m := started.value;
    var again, ignored := view.OnTouchEvent(0.0, 0.0, width, height, tanDeg, sqrt);
    assert again && ignored == None;
    var x0, y0 := view.tmpCarX, view.tmpCarY;
    assert x0 == width as real / 2.0 && y0 == height as real - height as real / 6.0;
    for i := 0 to |frames|
      invariant view.Valid() && view.carIsMove
      invariant view.tmpCarX == x0 && view.tmpCarY == y0
      invariant i > 0 ==> view.carX == CalcBezier(frames[i - 1], x0, m.cx, toX)
      invariant i > 0 ==> view.carY == CalcBezier(frames[i - 1], y0, m.cy, toY)
    {
      view.OnAnimationUpdate(m, frames[i], atan2);
    }
    view.OnAnimationEnd();
  }
}
