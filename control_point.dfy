/** Choice of the Bezier control point: where the line along the car's current heading meets
    a border of the view. Coordinates are screen pixels (y grows downwards); the heading line
    is worked out in the frame with y negated, as y' = k x + b with k = tan(heading), so a
    point (x, y) of the screen is on it when y = -(k x + b). */
module ControlPoint {
  import opened MathLaws

  datatype Point = Point(x: real, y: real)

  /** The top border is the line y = 0. */
  function TopBorderFunY(): real {
    0.0
  }

  /** The bottom border is the line y = height. */
  function BottomBorderFunY(height: real): real {
    height
  }

  /** Intercept of the heading line through the car at (carX, carY) with slope k: the car
      itself lies on that line. */
  function Intercept(carX: real, carY: real, k: real): (b: real)
    ensures OnHeadingLine(Point(carX, carY), k, b)
  {
    -carY - k * carX
  }

  ghost predicate OnHeadingLine(p: Point, k: real, b: real) {
    p.y == -(k * p.x + b)
  }

  /** Euclidean distance from the car to (x, y). */
  function CalculateDistance(carX: real, carY: real, x: real, y: real, sqrt: real -> real): real {
    sqrt(SquaredDistance(carX, carY, x, y))
  }

  function SquaredDistance(carX: real, carY: real, x: real, y: real): (d: real)
    ensures d >= 0.0
  {
    (carX - x) * (carX - x) + (carY - y) * (carY - y)
  }

  /** Headings strictly inside one of the four quadrants (the last one is unbounded above). */
  predicate IsOpenQuadrant(carAngle: real) {
    || (0.0 < carAngle < 90.0)
    || (90.0 < carAngle < 180.0)
    || (180.0 < carAngle < 270.0)
    || carAngle > 270.0
  }

  /** The branch taken for `carAngle` divides only by non-zero numbers: by k for a top or
      bottom intersection, by k - borderK for a left or right one. */
  predicate DivisorsDefined(carAngle: real, k: real, borderK: real) {
    && (carAngle == 90.0 || carAngle == 270.0 || IsOpenQuadrant(carAngle) ==> k != 0.0)
    && (carAngle == 0.0 || carAngle == 180.0 || IsOpenQuadrant(carAngle) ==> k != borderK)
  }

  /** Intersection of the line y' = borderK x + borderB (standing for a vertical border,
      borderK being tan(90 degrees)) with the heading line, placed on the heading line. */
  function SideCrossing(k: real, b: real, borderK: real, borderB: real): (p: Point)
    requires k != borderK
    ensures OnHeadingLine(p, k, b)
    ensures -p.y == borderK * p.x + borderB
  {
    var x := (borderB - b) / (k - borderK);
    assert x * (k - borderK) == borderB - b;
    Point(x, -(k * x + b))
  }

  /** Intercept of the stand-in for the right border x = width: the near-vertical line with
      slope borderK through the point (width, carY). */
  function RightBorderB(carY: real, borderK: real, width: real): (borderB: real)
    ensures -carY == borderK * width + borderB
  {
    -carY - borderK * width
  }

  /** Intercept of the stand-in for the left border x = 0: the near-vertical line through the
      point (0, carY), whatever its slope. */
  function LeftBorderB(carY: real): real {
    -carY
  }

  /** The control point for the car at (carX, carY) heading carAngle degrees, in a view of
      the given size; k = tan(carAngle) and borderK = tan(90) are supplied by the caller.
      Cardinal headings use one border; each open quadrant compares the two borders the
      heading points at and keeps the nearer crossing, a tie going to the top or bottom one.
      A negative heading matches no case and gives (0, 0). */
  function GetControlPoint(carX: real, carY: real, carAngle: real, width: real, height: real,
                           k: real, borderK: real, sqrt: real -> real): (r: Point)
    requires DivisorsDefined(carAngle, k, borderK)
    ensures carAngle == 90.0 ==> r.y == 0.0 && r.x == carX + carY / k
    ensures carAngle == 270.0 ==> r.y == height && r.x == carX - (height - carY) / k
    ensures carAngle == 90.0 || carAngle == 270.0 || IsOpenQuadrant(carAngle)
            ==> OnHeadingLine(r, k, Intercept(carX, carY, k))
    ensures carAngle < 0.0 ==> r == Point(0.0, 0.0)
  {
    var b := Intercept(carX, carY, k);
    if carAngle == 90.0 then
      // only the top border
      TopCandidate(k, b)
    else if carAngle == 270.0 then
      // only the bottom border
      BottomCandidate(k, b, height)
    else if carAngle == 0.0 then
      // only the right border
      var borderB := RightBorderB(carY, borderK, width);
      var cX := (borderB - b) / (k - borderK);
      Point(cX, k * cX - b)
    else if carAngle == 180.0 then
      // only the left border
      var borderB := LeftBorderB(carY);
      var cX := (borderB - b) / (k - borderK);
      Point(cX, k * cX - b)
    else if carAngle < 90.0 && carAngle > 0.0 then
      // top and right borders
      var top := TopCandidate(k, b);
      var right := SideCrossing(k, b, borderK, RightBorderB(carY, borderK, width));
      if CalculateDistance(carX, carY, right.x, right.y, sqrt)
         < CalculateDistance(carX, carY, top.x, top.y, sqrt)
      then right else top
    else if carAngle > 90.0 && carAngle < 180.0 then
      // top and left borders
      var top := TopCandidate(k, b);
      var left := SideCrossing(k, b, borderK, LeftBorderB(carY));
      if CalculateDistance(carX, carY, left.x, left.y, sqrt)
         < CalculateDistance(carX, carY, top.x, top.y, sqrt)
      then left else top
    else if carAngle > 180.0 && carAngle < 270.0 then
      // left and bottom borders
      var bot := BottomCandidate(k, b, height);
      var left := SideCrossing(k, b, borderK, LeftBorderB(carY));
      if CalculateDistance(carX, carY, left.x, left.y, sqrt)
         < CalculateDistance(carX, carY, bot.x, bot.y, sqrt)
      then left else bot
    else if carAngle > 270.0 then
      // bottom and right borders
      var bot := BottomCandidate(k, b, height);
      var right := SideCrossing(k, b, borderK, RightBorderB(carY, borderK, width));
      if CalculateDistance(carX, carY, right.x, right.y, sqrt)
         < CalculateDistance(carX, carY, bot.x, bot.y, sqrt)
      then right else bot
    else
      Point(0.0, 0.0)
  }

  /** The crossing of the heading line with the horizontal border y = borderY. */
  lemma CrossingOnLine(k: real, b: real, borderY: real)
    requires k != 0.0
    ensures OnHeadingLine(Point((-borderY - b) / k, borderY), k, b)
  {
  }

  function TopCandidate(k: real, b: real): (p: Point)
    requires k != 0.0
    ensures p.y == 0.0 && OnHeadingLine(p, k, b)
  {
    CrossingOnLine(k, b, TopBorderFunY());
    Point(-b / k, TopBorderFunY())
  }

  function BottomCandidate(k: real, b: real, height: real): (p: Point)
    requires k != 0.0
    ensures p.y == height && OnHeadingLine(p, k, b)
  {
    CrossingOnLine(k, b, BottomBorderFunY(height));
    Point((-height - b) / k, BottomBorderFunY(height))
  }

  /** The four borders of the view. */
  datatype Border = Top | Bottom | Left | Right

  /** The left or right border a heading in an open quadrant points at. */
  function SideBorder(carAngle: real): Border {
    if carAngle < 90.0 || carAngle > 270.0 then Right else Left
  }

  /** The top or bottom border a heading in an open quadrant points at. */
  function EndBorder(carAngle: real): Border {
    if carAngle < 180.0 then Top else Bottom
  }

  /** Where the heading line meets `border`; top and bottom exactly, left and right through
      their near-vertical stand-ins. Every crossing lies on the heading line. */
  function Crossing(border: Border, carX: real, carY: real, k: real, borderK: real,
                    width: real, height: real): (p: Point)
    requires k != 0.0 && k != borderK
    ensures OnHeadingLine(p, k, Intercept(carX, carY, k))
    ensures border == Top ==> p.y == 0.0
    ensures border == Bottom ==> p.y == height
    ensures border == Right ==> -p.y == borderK * p.x + RightBorderB(carY, borderK, width)
    ensures border == Left ==> -p.y == borderK * p.x + LeftBorderB(carY)
  {
    var b := Intercept(carX, carY, k);
    match border
    case Top => TopCandidate(k, b)
    case Bottom => BottomCandidate(k, b, height)
    case Left => SideCrossing(k, b, borderK, LeftBorderB(carY))
    case Right => SideCrossing(k, b, borderK, RightBorderB(carY, borderK, width))
  }

  /** In an open quadrant the control point is the crossing with the side border when that
      crossing is strictly nearer to the car than the crossing with the top or bottom border,
      and the latter otherwise (ties included). Nearness is by squared distance, so the
      statement does not depend on sqrt beyond its being increasing. */
  lemma NearerCrossingChosen(carX: real, carY: real, carAngle: real, width: real, height: real,
                             k: real, borderK: real, sqrt: real -> real)
    requires IsOpenQuadrant(carAngle) && DivisorsDefined(carAngle, k, borderK) && IsSqrt(sqrt)
    ensures
      var side := Crossing(SideBorder(carAngle), carX, carY, k, borderK, width, height);
      var end := Crossing(EndBorder(carAngle), carX, carY, k, borderK, width, height);
      GetControlPoint(carX, carY, carAngle, width, height, k, borderK, sqrt)
        == if SquaredDistance(carX, carY, side.x, side.y) < SquaredDistance(carX, carY, end.x, end.y)
           then side else end
  {
  }

  /** With an exactly horizontal heading line (k = 0) the cardinal headings 0 and 180 give the
      point straight to the right of the car on x = width, and straight to its left on x = 0.
      For heading 0 this is the program's own case, as tan(0) is exactly 0. For heading 180 it
      is the idealised tan(180 degrees) = 0: the double the program computes there is about
      -1.2e-16, not 0. */
  lemma HorizontalHeadings(carX: real, carY: real, width: real, height: real,
                           borderK: real, sqrt: real -> real)
    requires borderK != 0.0
    ensures GetControlPoint(carX, carY, 0.0, width, height, 0.0, borderK, sqrt) == Point(width, carY)
    ensures GetControlPoint(carX, carY, 180.0, width, height, 0.0, borderK, sqrt) == Point(0.0, carY)
  {
  }
}
