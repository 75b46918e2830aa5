# Car motion model

A Dafny model of the motion logic of the `CarView` Android widget and of its
`SigmoidInterpolator`. A car icon sits in the view; a tap makes it drive to the tapped point
along a quadratic Bezier curve. The curve's control point is where the line along the car's
heading meets a border of the view: one border for the four cardinal headings, the nearer of
two borders for a heading inside a quadrant. An animation clock feeds eased times to a
per-frame listener. The listener moves the car along the curve and turns it along the
curve's tangent. When the animation ends, the car's position becomes the start of the next
move. Taps that arrive while the car moves are swallowed.

The model works over `real`. `Math.sqrt`, `Math.tan(Math.toRadians(..))`,
`Math.toDegrees(Math.atan2(..))` and `Math.pow(Math.E, x)` (named `exp` in the model) are
function values passed in by the caller. The only facts used about them are the predicates
of `MathLaws`:

- exp is positive and strictly increasing, with exp(0) = 1 and exp(x)·exp(-x) = 1.
- atan2 in degrees lies in (-180, 180].
- sqrt is strictly increasing on the non-negative reals.

Modules:

- `MathLaws` (`math_laws.dfy`): those laws.
- `SigmoidInterpolator` (`sigmoid_interpolator.dfy`): the easing curve
  1/(1 + e^(-A(t - C))) with C = 0.5 and A = 10.
- `CarPath` (`car_path.dfy`): `calcBezier`, the tangent and `calcAngle`.
- `ControlPoint` (`control_point.dfy`): `getControlPoint`, `calculateDistance` and the
  border functions. It also has a border-by-border reference description (`Border`,
  `Crossing`) that the choice is proved against.
- `CarView` (`car_view.dfy`): the class with the widget's mutable fields and its
  `onMeasure`, `onTouchEvent`, `startMove`, update-listener and `onAnimationEnd` methods.
  The values the animation closure captures (control point and target) form a `Motion`
  value. The animator receives it and passes it back on every frame.

The class invariant `Valid()` says two things. Whenever the car stands, the baseline
(`tmpCarX`, `tmpCarY`) equals the position. The heading is always in [0, 360), because it
starts at 90 and every frame sets it from `CalcAngle`. So the negative-heading fall-through
of `getControlPoint`, which gives (0, 0), is modelled but cannot be reached from the class.

Two behaviours of the code are worth knowing:

- The car does not end exactly on the tapped point. The last frame is drawn at eased time
  `GetInterpolation(1)`, which is below 1, so the car reaches the tap only in a degenerate
  alignment (`FinalFrameStopsShort`).
- The heading-0 and heading-180 branches compute y as `k*cX - b`, not `-(k*cX + b)` as the
  quadrant branches do. The two agree only when `k*cX = 0`. They agree for heading 0, where
  `k` is exactly 0, and `HorizontalHeadings` proves the point for that case.

The default heading is 90 degrees.

## Model

| member | source | states |
|---|---|---|
| `SigmoidInterpolator.GetInterpolation` | app/src/main/java/com/ng/citimobiltestapp/SigmoidInterpolator.kt:14 | the eased value is strictly between 0 and 1 for every input |
| `SigmoidInterpolator.MidpointFixed` | app/src/main/java/com/ng/citimobiltestapp/SigmoidInterpolator.kt:11-14 | input C = 0.5 maps exactly to 0.5 |
| `SigmoidInterpolator.Increasing` | app/src/main/java/com/ng/citimobiltestapp/SigmoidInterpolator.kt:12-14 | strictly increasing in the input, since A = 10 > 0 |
| `SigmoidInterpolator.Symmetric` | app/src/main/java/com/ng/citimobiltestapp/SigmoidInterpolator.kt:14 | point symmetry about the centre: f(C + d) + f(C - d) = 1 |
| `SigmoidInterpolator.EndpointsNotFixed` | app/src/main/java/com/ng/citimobiltestapp/SigmoidInterpolator.kt:14 | 0 < f(0) < 1/2 < f(1) < 1: the eased time never reaches 0 or 1 |
| `SigmoidInterpolator.ReciprocalDecreasing` | app/src/main/java/com/ng/citimobiltestapp/SigmoidInterpolator.kt:14 | the step behind monotonicity: 1/(1 + e) falls strictly as the positive e grows |
| `CarPath.BezierEndpoints` | app/src/main/java/com/ng/citimobiltestapp/CarView.kt:252-256 | the curve is at p0 at time 0 and at p2 at time 1, for any control point |
| `CarPath.BernsteinWeights` | app/src/main/java/com/ng/citimobiltestapp/CarView.kt:252-256 | the weights (1-t)², 2(1-t)t and t² are non-negative on [0, 1] and sum to 1 |
| `CarPath.BezierInHull` | app/src/main/java/com/ng/citimobiltestapp/CarView.kt:252-256 | for time in [0, 1] the position lies between min(p0, p1, p2) and max(p0, p1, p2) |
| `CarPath.BezierAtEnd` | app/src/main/java/com/ng/citimobiltestapp/CarView.kt:252-256 | before time 1 the curve is at p2 exactly when (1-t)p0 + 2t·p1 = (1+t)p2 |
| `CarPath.TangentForm` | app/src/main/java/com/ng/citimobiltestapp/CarView.kt:272-274 | the tangent component is (1-t)(p1-p0) + t(p2-p1) |
| `CarPath.TangentIsDerivative` | app/src/main/java/com/ng/citimobiltestapp/CarView.kt:271-274 | the tangent is half the derivative of the Bezier position: the exact difference over a step h is 2h·tangent + h²(p0 - 2p1 + p2) |
| `CarPath.CalcAngle` | app/src/main/java/com/ng/citimobiltestapp/CarView.kt:271-279 | the heading is in [0, 360) and equals atan2 of the tangent or that plus a full turn |
| `MathLaws.SqrtLess` | app/src/main/java/com/ng/citimobiltestapp/CarView.kt:231-233 | comparing two distances compares their squared distances, in both directions |
| `ControlPoint.SquaredDistance` | app/src/main/java/com/ng/citimobiltestapp/CarView.kt:231-233 | the sum of squares under the square root is non-negative |
| `ControlPoint.CrossingOnLine` | app/src/main/java/com/ng/citimobiltestapp/CarView.kt:129-134 | the crossing ((-y0 - b)/k, y0) with a horizontal border lies on the heading line |
| `ControlPoint.TopCandidate` | app/src/main/java/com/ng/citimobiltestapp/CarView.kt:149-150 | the top candidate has y = 0 and lies on the heading line |
| `ControlPoint.BottomCandidate` | app/src/main/java/com/ng/citimobiltestapp/CarView.kt:185-186 | the bottom candidate has y = height and lies on the heading line |
| `ControlPoint.SideCrossing` | app/src/main/java/com/ng/citimobiltestapp/CarView.kt:151-154 | the left/right candidate is a true crossing: it lies both on the heading line and on the near-vertical border line y' = borderK·x + borderB |
| `ControlPoint.GetControlPoint` | app/src/main/java/com/ng/citimobiltestapp/CarView.kt:120-222 | heading 90 gives (carX + carY/k, 0), heading 270 gives (carX - (height - carY)/k, height), both on the heading line; every quadrant result is on the heading line; a negative heading gives (0, 0) |
| `ControlPoint.Crossing` | app/src/main/java/com/ng/citimobiltestapp/CarView.kt:147-219 | the crossing with each border lies on the heading line; the top one has y = 0, the bottom one y = height, and the right and left ones lie on the near-vertical lines through (width, carY) and (0, carY) |
| `ControlPoint.NearerCrossingChosen` | app/src/main/java/com/ng/citimobiltestapp/CarView.kt:147-219 | in each open quadrant the result is the left/right crossing exactly when its squared distance from the car is strictly smaller than that of the top/bottom crossing; ties go to top/bottom |
| `ControlPoint.HorizontalHeadings` | app/src/main/java/com/ng/citimobiltestapp/CarView.kt:135-146 | with k = 0, heading 0 gives (width, carY) and heading 180 gives (0, carY) |
| `CarPath.CalcBezier` | app/src/main/java/com/ng/citimobiltestapp/CarView.kt:252-256 | the per-axis quadratic Bezier position; specified by BezierEndpoints, BezierInHull and BezierAtEnd |
| `CarPath.Tangent` | app/src/main/java/com/ng/citimobiltestapp/CarView.kt:272-274 | one axis of the tangent, the difference of the two linear blends; specified by TangentForm and TangentIsDerivative |
| `ControlPoint.CalculateDistance` | app/src/main/java/com/ng/citimobiltestapp/CarView.kt:231-233 | sqrt of the squared distance to the car; compared only through SqrtLess, which makes NearerCrossingChosen a statement about squared distances |
| `ControlPoint.TopBorderFunY` | app/src/main/java/com/ng/citimobiltestapp/CarView.kt:235-237 | the top border is y = 0; TopCandidate and Crossing state that the top crossing has y = 0 |
| `ControlPoint.BottomBorderFunY` | app/src/main/java/com/ng/citimobiltestapp/CarView.kt:239-241 | the bottom border is y = height; BottomCandidate and Crossing state that the bottom crossing has y = height |
| `ControlPoint.Intercept` | app/src/main/java/com/ng/citimobiltestapp/CarView.kt:121-122 | b = -carY - k·carX puts the car itself on the heading line y = -(kx + b) |
| `ControlPoint.RightBorderB` | app/src/main/java/com/ng/citimobiltestapp/CarView.kt:137-138 | the right border stand-in, slope borderK, passes through (width, carY) |
| `ControlPoint.LeftBorderB` | app/src/main/java/com/ng/citimobiltestapp/CarView.kt:143-144 | the left border stand-in has intercept -carY, so it passes through (0, carY); Crossing states the left crossing lies on it |
| `CarView.CarView.PlannedControlPoint` | app/src/main/java/com/ng/citimobiltestapp/CarView.kt:78 | the control point of the current pose; outside headings 0 and 180 it lies on the car's heading line |
| `CarView.CarView.constructor` | app/src/main/java/com/ng/citimobiltestapp/CarView.kt:25-31 | a new view is uninitialised, standing at the origin, heading 90 |
| `CarView.CarView.OnMeasure` | app/src/main/java/com/ng/citimobiltestapp/CarView.kt:284-295 | the first call sets pose and baseline to (width/2, height - height/6); later calls change nothing |
| `CarView.CarView.OnTouchEvent` | app/src/main/java/com/ng/citimobiltestapp/CarView.kt:62-69 | while moving: returns true and changes nothing; while standing: returns false and starts a move to the touched point |
| `CarView.CarView.StartMove` | app/src/main/java/com/ng/citimobiltestapp/CarView.kt:76-80 | sets the moving flag, keeps the pose, and plans the motion with the control point of the current pose |
| `CarView.CarView.OnAnimationUpdate` | app/src/main/java/com/ng/citimobiltestapp/CarView.kt:85-90 | the pose becomes the Bezier point from the baseline through the control point to the target; the heading is the tangent angle in y-negated coordinates and stays in [0, 360) |
| `CarView.CarView.OnAnimationEnd` | app/src/main/java/com/ng/citimobiltestapp/CarView.kt:93-97 | the car stands again and its position becomes the baseline, restoring the invariant |
| `CarView.FinalFrameStopsShort` | app/src/main/java/com/ng/citimobiltestapp/CarView.kt:84-87 | the last frame's eased time is below 1, so the car reaches the tap only in the degenerate alignment |
| `CarView.Interaction` | app/src/main/java/com/ng/citimobiltestapp/CarView.kt:82-101 | after layout, a tap, a swallowed second tap, any frames and the end: the car stands, its position and baseline are the Bezier point of the last frame, and the control point at the initial heading is (width/2 + carY/tan 90, 0) |

## Left out

- Rendering is not modelled: `onDraw`, the `Matrix` rotation, bitmap loading and scaling in
  `initView`. This is platform drawing with no motion logic.
- The animator is not modelled: `ValueAnimator` scheduling, the 3000 ms duration and
  `postInvalidateOnAnimation`. The caller plays the animator, calling `OnAnimationUpdate`
  with eased times and then `OnAnimationEnd`.
- `extensions.kt` is not part of this model. It holds logging and resource lookup wrappers.
- Float/double rounding is not modelled: the `toFloat`/`toDouble` conversions and the
  float-typed intermediate values. The model computes over exact reals.
- The values of tan, atan2, exp and sqrt are not modelled. Only the laws listed above are
  assumed.
- Division by zero is not modelled. Under IEEE arithmetic it gives an infinite or NaN
  control point. `ControlPoint.GetControlPoint` requires every divisor of the branch it takes
  to be non-zero (`DivisorsDefined`): k for a top or bottom crossing, k - tan(90°) for a
  left or right one. The double value of tan is non-zero inside each quadrant and at 90 and
  270, and it differs from tan(90°) away from 90, so the requirement holds apart from
  denormal headings.
- `ControlPoint.SideCrossing`: does not state that the left and right crossings lie on
  x = 0 or x = width. That depends on tan(90°) being a huge finite double, and `borderK` stays
  opaque. The model proves that the crossing lies on both the heading line and the
  near-vertical line with slope `borderK` through (0, carY) or (width, carY).
- `ControlPoint.GetControlPoint`: for headings 0 and 180 nothing is stated when k is not
  exactly 0. `HorizontalHeadings` covers the case k = 0.
- The kind of `MotionEvent` (down, move, up) is not modelled. The code ignores it too:
  every event while standing starts a move.
- `OnTouchEvent` does not model the view's width and height being read from the laid-out
  view. They are parameters.
