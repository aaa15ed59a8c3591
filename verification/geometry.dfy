/** The geometry of `drawTriangle` and `drawUnitCircle` (components.js): each
    drawing is modelled as the record of points, arcs and label anchors it
    paints, in canvas pixels (origin top-left, y growing downward). Colours,
    fonts, strokes and label rotations are not part of the record. */
module Geometry {
  import opened JsArith
  import opened AngleMath
  import opened Trig
  import opened Wrappers

  datatype Point = Point(x: real, y: real)

  /** A canvas's `width` and `height`. */
  datatype Size = Size(width: real, height: real)

  /** The (cos, sin) pair Math.cos and Math.sin returned for some radian
      measure. */
  datatype Direction = Direction(cos: real, sin: real)

  predicate OnUnitCircle(d: Direction) {
    d.cos * d.cos + d.sin * d.sin == 1.0
  }

  datatype Label = Label(text: string, at: Point)

  /** A text anchor whose text is built from the angle in degrees
      (the number-to-text formatting is not modelled). */
  datatype AngleText = AngleText(angleDeg: real, at: Point)

  /** A circular arc from `fromDeg` to `toDeg` degrees; the canvas call
      receives the same angles in radians and `anticlockwise = false`, so on
      screen (y growing downward) the arc is swept CLOCKWISE, from the
      positive x direction toward +y, i.e. downward for positive angles. */
  datatype Arc = Arc(center: Point, radius: real, fromDeg: real, toDeg: real)

  /** Where an arc ending at the angle of `dir` ends on screen: canvas
      angles are measured toward +y, so the sine is added, not subtracted. */
  function ArcEnd(arc: Arc, dir: Direction): Point {
    Point(arc.center.x + arc.radius * dir.cos, arc.center.y + arc.radius * dir.sin)
  }

  datatype Segment = Segment(from: Point, to: Point)

  function SquaredDistance(p: Point, q: Point): real {
    (p.x - q.x) * (p.x - q.x) + (p.y - q.y) * (p.y - q.y)
  }

  function ShiftDown(p: Point, dy: real): Point {
    Point(p.x, p.y + dy)
  }

  // ---------------------------------------------------------------------
  // Right triangle
  // ---------------------------------------------------------------------

  const TrianglePadding: real := 40.0
  const RightAngleTick: real := 15.0
  const ThetaArcRadius: real := 30.0

  /** What `drawTriangle` paints: the vertices B (right angle), C and A, the
      right-angle tick, the three side labels, the angle arc at B with its
      theta label, the vertex letters and the angle caption. */
  datatype TriangleScene = TriangleScene(
    b: Point, c: Point, a: Point,
    tick: seq<Point>,
    opposite: Label, adjacent: Label, hypotenuse: Label,
    arc: Arc, theta: Label,
    vertexA: Label, vertexB: Label, vertexC: Label,
    caption: AngleText)

  /** Every anchored point of a triangle scene, in a fixed order. */
  function TrianglePoints(s: TriangleScene): seq<Point> {
    [s.b, s.c, s.a] + s.tick
    + [s.opposite.at, s.adjacent.at, s.hypotenuse.at, s.arc.center, s.theta.at,
       s.vertexA.at, s.vertexB.at, s.vertexC.at, s.caption.at]
  }

  /** The scene `drawTriangle` paints on a canvas of the given size, for an
      angle whose direction is `dir` and whose half-angle direction is
      `half`. Both legs scale with the canvas width only; the height only
      decides where the bottom edge, and so B, sits. */
  function TriangleGeometry(size: Size, angleDeg: real, dir: Direction, half: Direction): (s: TriangleScene)
    ensures s.b == Point(TrianglePadding, size.height - TrianglePadding)
    ensures s.c.y == s.b.y && s.a.x == s.b.x
    ensures s.c.x - s.b.x == dir.cos * (size.width - 2.0 * TrianglePadding)
    ensures s.b.y - s.a.y == dir.sin * (size.width - 2.0 * TrianglePadding)
    ensures s.tick == [Point(s.b.x, s.b.y - RightAngleTick), s.b, Point(s.b.x + RightAngleTick, s.b.y)]
    ensures s.opposite == Label("depan", Point(s.b.x + 10.0, (s.a.y + s.b.y) / 2.0))
    ensures s.adjacent == Label("samping", Point((s.b.x + s.c.x) / 2.0, s.b.y + 15.0))
    ensures s.hypotenuse == Label("miring", Point((s.a.x + s.c.x) / 2.0, (s.a.y + s.c.y) / 2.0 - 15.0))
    ensures s.arc == Arc(s.b, ThetaArcRadius, 0.0, angleDeg)
    ensures s.theta.text == "θ"
    ensures s.theta.at.x - s.b.x == ThetaArcRadius * half.cos
    ensures s.b.y - (s.theta.at.y + 5.0) == ThetaArcRadius * half.sin
    ensures s.vertexA == Label("A", Point(s.a.x - 15.0, s.a.y - 10.0))
    ensures s.vertexB == Label("B", Point(s.b.x - 20.0, s.b.y + 20.0))
    ensures s.vertexC == Label("C", Point(s.c.x + 10.0, s.c.y + 20.0))
    ensures s.caption == AngleText(angleDeg, Point(size.width - TrianglePadding, size.height - TrianglePadding))
  {
    var padding := TrianglePadding;
    var triangleHeight := dir.sin * (size.width - padding * 2.0);
    var triangleBase := dir.cos * (size.width - padding * 2.0);
    var startX := padding;
    var startY := size.height - padding;
    var b := Point(startX, startY);
    var c := Point(startX + triangleBase, startY);
    var a := Point(startX, startY - triangleHeight);
    TriangleScene(
      b, c, a,
      [Point(startX, startY - RightAngleTick), Point(startX, startY), Point(startX + RightAngleTick, startY)],
      Label("depan", Point(startX + 10.0, startY - triangleHeight / 2.0)),
      Label("samping", Point(startX + triangleBase / 2.0, startY + 15.0)),
      Label("miring", Point(startX + triangleBase / 2.0, startY - triangleHeight / 2.0 - 15.0)),
      Arc(b, ThetaArcRadius, 0.0, angleDeg),
      Label("θ", Point(startX + ThetaArcRadius * half.cos, startY - ThetaArcRadius * half.sin - 5.0)),
      Label("A", Point(a.x - 15.0, a.y - 10.0)),
      Label("B", Point(b.x - 20.0, b.y + 20.0)),
      Label("C", Point(c.x + 10.0, c.y + 20.0)),
      AngleText(angleDeg, Point(size.width - padding, size.height - padding)))
  }

  /** `drawTriangle(canvasId, angleDeg)`: nothing is drawn when the canvas
      does not exist. */
  function DrawTriangle(canvas: Option<Size>, angleDeg: real, dir: Direction, half: Direction): (r: Option<TriangleScene>)
    ensures r.Some? <==> canvas.Some?
    ensures canvas.Some? ==> r.value == TriangleGeometry(canvas.value, angleDeg, dir, half)
  {
    match canvas
    case None => None
    case Some(size) => Some(TriangleGeometry(size, angleDeg, dir, half))
  }

  /** The legs BA and BC are perpendicular, and when (cos, sin) lies on the
      unit circle the hypotenuse AC is exactly the usable width W - 80. */
  lemma TriangleRightAngleAtB(size: Size, angleDeg: real, dir: Direction, half: Direction)
    ensures var s := TriangleGeometry(size, angleDeg, dir, half);
            (s.c.x - s.b.x) * (s.a.x - s.b.x) + (s.c.y - s.b.y) * (s.a.y - s.b.y) == 0.0
    ensures var s := TriangleGeometry(size, angleDeg, dir, half);
            var w := size.width - 2.0 * TrianglePadding;
            OnUnitCircle(dir) ==> SquaredDistance(s.a, s.c) == w * w
  {
    var s := TriangleGeometry(size, angleDeg, dir, half);
    var w := size.width - 2.0 * TrianglePadding;
    if OnUnitCircle(dir) {
      assert s.a.x - s.c.x == -(dir.cos * w);
      assert s.a.y - s.c.y == -(dir.sin * w);
      ScaledUnitLength(dir, w);
    }
  }

  /** (w cos)^2 + (w sin)^2 = w^2 on the unit circle. */
  lemma ScaledUnitLength(dir: Direction, w: real)
    requires OnUnitCircle(dir)
    ensures (-(dir.cos * w)) * (-(dir.cos * w)) + (-(dir.sin * w)) * (-(dir.sin * w)) == w * w
    ensures (dir.cos * w) * (dir.cos * w) + (dir.sin * w) * (dir.sin * w) == w * w
  {
    assert (dir.cos * w) * (dir.cos * w) == (dir.cos * dir.cos) * (w * w);
    assert (dir.sin * w) * (dir.sin * w) == (dir.sin * dir.sin) * (w * w);
    assert (dir.cos * dir.cos) * (w * w) + (dir.sin * dir.sin) * (w * w)
        == (dir.cos * dir.cos + dir.sin * dir.sin) * (w * w);
  }

  /** The theta label, lowered 5 pixels, lies on the radius-30 circle around
      B, on the ray at half the angle measured UPWARD (the y flip). The
      painted arc is on the same circle but swept downward: see
      `TriangleArcMirrorsTheta`. */
  lemma ThetaLabelOnCircleAroundB(size: Size, angleDeg: real, dir: Direction, half: Direction)
    requires OnUnitCircle(half)
    ensures var s := TriangleGeometry(size, angleDeg, dir, half);
            SquaredDistance(Point(s.theta.at.x, s.theta.at.y + 5.0), s.b) == ThetaArcRadius * ThetaArcRadius
  {
    var s := TriangleGeometry(size, angleDeg, dir, half);
    OnCircleAround(s.b, ThetaArcRadius, half, Point(s.theta.at.x, s.theta.at.y + 5.0));
  }

  /** The painted angle arc is the mirror image of the angle it marks: for
      an angle with positive sine on a canvas wider than 80 pixels, the apex
      A and the theta label lie above B's row, while the arc ends below it. */
  lemma TriangleArcMirrorsTheta(size: Size, angleDeg: real, dir: Direction, half: Direction)
    requires dir.sin > 0.0 && size.width > 2.0 * TrianglePadding && half.sin >= 0.0
    ensures var s := TriangleGeometry(size, angleDeg, dir, half);
            ArcEnd(s.arc, dir).y > s.b.y && s.a.y < s.b.y && s.theta.at.y < s.b.y
  {
    var s := TriangleGeometry(size, angleDeg, dir, half);
    SignOfProduct(size.width - 2.0 * TrianglePadding, dir.sin);
  }

  /** The angle whose sine and cosine size the legs sits at C, not at the
      marked vertex B: the side labelled "depan" (AB) is sin * w and the side
      labelled "samping" (BC) is cos * w, so AB / BC is the tangent. */
  lemma ThetaIsAtC(size: Size, angleDeg: real, dir: Direction, half: Direction)
    ensures var s := TriangleGeometry(size, angleDeg, dir, half);
            (s.b.y - s.a.y) * dir.cos == (s.c.x - s.b.x) * dir.sin
  {
    var s := TriangleGeometry(size, angleDeg, dir, half);
    var w := size.width - 2.0 * TrianglePadding;
    assert (dir.sin * w) * dir.cos == (dir.cos * w) * dir.sin;
  }

  /** The canvas height never changes the triangle: on a canvas of the same
      width but another height, every point of the scene is the same point
      moved down by the difference in height. */
  lemma TriangleIgnoresHeight(w: real, h1: real, h2: real, angleDeg: real, dir: Direction, half: Direction)
    ensures var p1 := TrianglePoints(TriangleGeometry(Size(w, h1), angleDeg, dir, half));
            var p2 := TrianglePoints(TriangleGeometry(Size(w, h2), angleDeg, dir, half));
            |p1| == |p2| && forall i :: 0 <= i < |p1| ==> p2[i] == ShiftDown(p1[i], h2 - h1)
  {
  }

  /** The apex A is not cut off at the top edge exactly when the opposite
      leg sin * (W - 80) fits in the H - 40 pixels above B, and not cut off
      at the bottom edge exactly when a downward leg (negative sine) fits in
      the 40 pixels below B. On the 400 x 300 canvas the sizing rule
      produces, the apex's row is on the canvas exactly for
      -0.125 <= sin <= 0.8125, so from about 54.3 degrees up the apex is cut
      off at the top. */
  lemma ApexOnCanvasIff(size: Size, angleDeg: real, dir: Direction, half: Direction)
    ensures var s := TriangleGeometry(size, angleDeg, dir, half);
            0.0 <= s.a.y <==> dir.sin * (size.width - 2.0 * TrianglePadding) <= size.height - TrianglePadding
    ensures var s := TriangleGeometry(size, angleDeg, dir, half);
            0.0 <= s.a.y <= size.height
            <==> -TrianglePadding <= dir.sin * (size.width - 2.0 * TrianglePadding) <= size.height - TrianglePadding
    ensures var s := TriangleGeometry(Size(400.0, 300.0), angleDeg, dir, half);
            0.0 <= s.a.y <==> dir.sin <= 0.8125
    ensures var s := TriangleGeometry(Size(400.0, 300.0), angleDeg, dir, half);
            0.0 <= s.a.y <= 300.0 <==> -0.125 <= dir.sin <= 0.8125
  {
  }

  // ---------------------------------------------------------------------
  // Unit circle
  // ---------------------------------------------------------------------

  const CircleMargin: real := 20.0
  const AxisOverhang: real := 10.0
  const PointMarkerRadius: real := 5.0

  /** Rounded (cos, sin) shown next to the point on the circle. */
  datatype CoordinateLabel = CoordinateLabel(cos: JsValue, sin: JsValue, at: Point)

  /** What `drawUnitCircle` paints: the circle, both axes, the radius to the
      angle's point and its marker, the swept-angle arc, the triangle
      point -> foot -> centre, the cos/sin labels, the coordinate readout,
      the angle caption and the five axis labels. */
  datatype CircleScene = CircleScene(
    center: Point, radius: real,
    xAxis: Segment, yAxis: Segment,
    point: Point, markerRadius: real,
    arc: Arc,
    overlay: seq<Point>,
    cosLabel: Label, sinLabel: Label,
    coords: CoordinateLabel,
    angleLabel: AngleText,
    axisLabels: seq<Label>)

  /** The circle itself and the angle's point on it. The point is the
      centre moved by radius * cos to the right and by radius * sin UP: the
      y component is flipped because canvas y grows downward. */
  datatype Frame = Frame(center: Point, radius: real, point: Point)

  function CircleFrame(size: Size, dir: Direction): (f: Frame)
    ensures f.center == Point(size.width / 2.0, size.height / 2.0)
    ensures f.radius == Min(size.width / 2.0, size.height / 2.0) - CircleMargin
    ensures f.point.x - f.center.x == f.radius * dir.cos
    ensures f.center.y - f.point.y == f.radius * dir.sin
  {
    var centerX := size.width / 2.0;
    var centerY := size.height / 2.0;
    var radius := Min(centerX, centerY) - CircleMargin;
    Frame(Point(centerX, centerY), radius, Point(centerX + radius * dir.cos, centerY - radius * dir.sin))
  }

  /** The angle caption: on the ray at half the angle, 1.2 times the arc
      radius from the centre. */
  function AngleCaption(center: Point, arcRadius: real, angleDeg: real, half: Direction): (t: AngleText)
    ensures t.angleDeg == angleDeg
    ensures t.at.x - center.x == arcRadius * half.cos * 1.2
    ensures center.y - t.at.y == arcRadius * half.sin * 1.2
  {
    AngleText(angleDeg, Point(center.x + arcRadius * half.cos * 1.2, center.y - arcRadius * half.sin * 1.2))
  }

  /** For a unit half-angle direction the caption is exactly 1.2 arc radii
      from the centre, on the half-angle ray measured upward. */
  lemma AngleCaptionOnHalfAngleRay(center: Point, arcRadius: real, angleDeg: real, half: Direction)
    requires OnUnitCircle(half)
    ensures var t := AngleCaption(center, arcRadius, angleDeg, half);
            SquaredDistance(t.at, center) == (1.2 * arcRadius) * (1.2 * arcRadius)
  {
    var t := AngleCaption(center, arcRadius, angleDeg, half);
    assert t.at.x - center.x == (1.2 * arcRadius) * half.cos;
    assert center.y - t.at.y == (1.2 * arcRadius) * half.sin;
    OnCircleAround(center, 1.2 * arcRadius, half, t.at);
  }

  /** The rounded (cos, sin) readout, 15 pixels above the point. */
  function Readout(dir: Direction, point: Point): CoordinateLabel {
    CoordinateLabel(RoundValue(Num(Finite(dir.cos))), RoundValue(Num(Finite(dir.sin))), Point(point.x, point.y - 15.0))
  }

  /** The scene `drawUnitCircle` paints on a canvas of the given size: the
      frame's circle and point, plus the axes, arc, overlay and labels laid
      out around them. */
  function CircleGeometry(size: Size, angleDeg: real, dir: Direction, half: Direction): (s: CircleScene)
    ensures var f := CircleFrame(size, dir);
            s.center == f.center && s.radius == f.radius && s.point == f.point
    ensures s.markerRadius == PointMarkerRadius
    ensures s.xAxis == Segment(Point(s.center.x - s.radius - AxisOverhang, s.center.y),
                               Point(s.center.x + s.radius + AxisOverhang, s.center.y))
    ensures s.yAxis == Segment(Point(s.center.x, s.center.y - s.radius - AxisOverhang),
                               Point(s.center.x, s.center.y + s.radius + AxisOverhang))
    ensures s.arc == Arc(s.center, s.radius * 0.3, 0.0, angleDeg)
    ensures s.overlay == [s.point, Point(s.point.x, s.center.y), s.center]
    ensures s.cosLabel == Label("cos θ", Point((s.center.x + s.point.x) / 2.0, s.center.y + 15.0))
    ensures s.sinLabel == Label("sin θ", Point(s.point.x + 15.0, (s.center.y + s.point.y) / 2.0))
    ensures s.coords == Readout(dir, s.point)
    ensures s.angleLabel == AngleCaption(s.center, s.arc.radius, angleDeg, half)
    ensures s.axisLabels == [
              Label("1", Point(s.xAxis.to.x + 5.0, s.center.y + 5.0)),
              Label("-1", Point(s.xAxis.from.x - 10.0, s.center.y + 5.0)),
              Label("1", Point(s.center.x - 5.0, s.yAxis.from.y)),
              Label("-1", Point(s.center.x - 10.0, s.yAxis.to.y + 10.0)),
              Label("0", Point(s.center.x + 5.0, s.center.y + 15.0))]
  {
    var f := CircleFrame(size, dir);
    var centerX := f.center.x;
    var centerY := f.center.y;
    var radius := f.radius;
    var pointX := f.point.x;
    var pointY := f.point.y;
    var arcRadius := radius * 0.3;
    CircleScene(
      f.center, radius,
      Segment(Point(centerX - radius - AxisOverhang, centerY), Point(centerX + radius + AxisOverhang, centerY)),
      Segment(Point(centerX, centerY - radius - AxisOverhang), Point(centerX, centerY + radius + AxisOverhang)),
      f.point, PointMarkerRadius,
      Arc(f.center, arcRadius, 0.0, angleDeg),
      [f.point, Point(pointX, centerY), f.center],
      Label("cos θ", Point((centerX + pointX) / 2.0, centerY + 15.0)),
      Label("sin θ", Point(pointX + 15.0, (centerY + pointY) / 2.0)),
      Readout(dir, f.point),
      AngleCaption(f.center, arcRadius, angleDeg, half),
      [Label("1", Point(centerX + radius + 15.0, centerY + 5.0)),
       Label("-1", Point(centerX - radius - 20.0, centerY + 5.0)),
       Label("1", Point(centerX - 5.0, centerY - radius - 10.0)),
       Label("-1", Point(centerX - 10.0, centerY + radius + 20.0)),
       Label("0", Point(centerX + 5.0, centerY + 15.0))])
  }

  /** `drawUnitCircle(canvasId, angleDeg)`: nothing is drawn when the canvas
      does not exist. */
  function DrawUnitCircle(canvas: Option<Size>, angleDeg: real, dir: Direction, half: Direction): (r: Option<CircleScene>)
    ensures r.Some? <==> canvas.Some?
    ensures canvas.Some? ==> r.value == CircleGeometry(canvas.value, angleDeg, dir, half)
  {
    match canvas
    case None => None
    case Some(size) => Some(CircleGeometry(size, angleDeg, dir, half))
  }

  /** When (cos, sin) lies on the unit circle, so does the drawn point: it is
      exactly `radius` away from the centre. */
  lemma PointOnCircle(size: Size, dir: Direction)
    requires OnUnitCircle(dir)
    ensures var f := CircleFrame(size, dir);
            SquaredDistance(f.point, f.center) == f.radius * f.radius
  {
    var f := CircleFrame(size, dir);
    OnCircleAround(f.center, f.radius, dir, f.point);
  }

  /** A point offset from `center` by (r cos, -r sin) is r away from it. */
  lemma OnCircleAround(center: Point, r: real, dir: Direction, p: Point)
    requires OnUnitCircle(dir)
    requires p.x - center.x == r * dir.cos && center.y - p.y == r * dir.sin
    ensures SquaredDistance(p, center) == r * r
  {
    assert p.y - center.y == -(r * dir.sin);
    ScaledUnitLength(dir, r);
  }

  /** As in the triangle, the painted angle arc mirrors the angle: with a
      positive radius and positive sine the point is above the centre while
      the arc ends below the x axis. */
  lemma CircleArcMirrorsPoint(size: Size, angleDeg: real, dir: Direction, half: Direction)
    requires CircleFrame(size, dir).radius > 0.0 && dir.sin > 0.0
    ensures var s := CircleGeometry(size, angleDeg, dir, half);
            ArcEnd(s.arc, dir).y > s.center.y && s.point.y < s.center.y
  {
    var s := CircleGeometry(size, angleDeg, dir, half);
    SignOfProduct(s.radius, dir.sin);
    SignOfProduct(s.radius * 0.3, dir.sin);
  }

  /** The y flip: for a circle of positive radius the point is above the
      centre exactly when the sine is positive, and below exactly when it is
      negative. */
  lemma PointAboveCentreIffSinePositive(size: Size, dir: Direction)
    requires CircleFrame(size, dir).radius > 0.0
    ensures var f := CircleFrame(size, dir);
            (f.point.y < f.center.y <==> dir.sin > 0.0) && (f.point.y > f.center.y <==> dir.sin < 0.0)
  {
    var f := CircleFrame(size, dir);
    SignOfProduct(f.radius, dir.sin);
  }

  lemma SignOfProduct(r: real, x: real)
    requires r > 0.0
    ensures r * x > 0.0 <==> x > 0.0
    ensures r * x < 0.0 <==> x < 0.0
  {
    if x > 0.0 {
      assert r * x > 0.0;
    } else if x < 0.0 {
      assert r * x < 0.0;
    } else {
      assert r * x == 0.0;
    }
  }

  /** The radius is never negative once both sides are at least 40 pixels,
      and then the circle and both axes stay inside the canvas. */
  lemma CircleFitsCanvas(size: Size, angleDeg: real, dir: Direction, half: Direction)
    ensures var s := CircleGeometry(size, angleDeg, dir, half);
            s.radius >= 0.0 <==> size.width >= 40.0 && size.height >= 40.0
    ensures var s := CircleGeometry(size, angleDeg, dir, half);
            s.radius >= 0.0 ==>
              0.0 <= s.xAxis.from.x && s.xAxis.to.x <= size.width
              && 0.0 <= s.yAxis.from.y && s.yAxis.to.y <= size.height
  {
  }

  /** The readout next to the point shows the same rounded cosine and sine
      as the calculator's `calculateTrigValues` for the same angle. */
  lemma CoordinatesMatchCalculator(size: Size, angleDeg: real, dir: Direction, half: Direction, tan: real)
    ensures var s := CircleGeometry(size, angleDeg, dir, half);
            var v := CalculateTrigValues(angleDeg, Sample(dir.sin, dir.cos, tan));
            s.coords.cos == v.cos && s.coords.sin == v.sin
  {
  }

  /** 0 degrees on the 350 x 350 canvas: the centre is (175, 175), the
      radius 155, and the point sits on the positive x axis at (330, 175). */
  lemma ZeroDegreesOnSquareCanvas(half: Direction)
    ensures var s := CircleGeometry(Size(350.0, 350.0), 0.0, Direction(1.0, 0.0), half);
            s.center == Point(175.0, 175.0) && s.radius == 155.0 && s.point == Point(330.0, 175.0)
  {
  }
}
