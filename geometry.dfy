/** Points, shapes and the point lists synthesised for the parametric
    drawing modes (`createShapePoints` in main.go). */
module Geometry {

  /** A position in canvas coordinates. The source uses float64; the model
      uses mathematical reals (line and rect only rearrange coordinates). */
  datatype Point = Point(x: real, y: real)

  /** One stroke: its polyline, its colour token and its stroke width. */
  datatype Shape = Shape(points: seq<Point>, color: string, width: real)

  /** Number of angular steps of the circle tessellation. */
  const Steps: nat := 50

  function Abs(v: real): (r: real)
    ensures r >= 0.0 && (r == v || r == -v)
  {
    if v < 0.0 then -v else v
  }

  /** Centre of the ellipse inscribed in the box with corners `start` and `end`. */
  function Center(start: Point, end: Point): Point
  {
    Point((start.x + end.x) / 2.0, (start.y + end.y) / 2.0)
  }

  /** Half the extent of the box along each axis. */
  function Radii(start: Point, end: Point): Point
  {
    Point(Abs(end.x - start.x) / 2.0, Abs(end.y - start.y) / 2.0)
  }

  /** The sample of the ellipse at unit-circle point `u` = (cos a, sin a). */
  function EllipsePoint(start: Point, end: Point, u: Point): Point
  {
    var c, rad := Center(start, end), Radii(start, end);
    Point(c.x + rad.x * u.x, c.y + rad.y * u.y)
  }

  /** The Steps + 1 samples of the ellipse; `trig(i)` stands for the host's
      (cos, sin) at angle i * 2 * pi / Steps. */
  function CircleSamples(start: Point, end: Point, trig: nat -> Point): (r: seq<Point>)
    ensures |r| == Steps + 1
    ensures forall i :: 0 <= i < |r| ==> r[i] == EllipsePoint(start, end, trig(i))
  {
    seq(Steps + 1, i requires 0 <= i <= Steps => EllipsePoint(start, end, trig(i)))
  }

  /** True for the closed, axis-parallel rectangle outline from `start` to the
      opposite corner `end`, going horizontally first. */
  ghost predicate IsRectOutline(r: seq<Point>, start: Point, end: Point)
  {
    && |r| == 5
    && r[0] == start && r[4] == start && r[2] == end
    && r[1] == Point(end.x, start.y) && r[3] == Point(start.x, end.y)
    && (forall k :: 0 <= k < 4 ==> r[k].x == r[k + 1].x || r[k].y == r[k + 1].y)
    && (forall k :: 0 <= k < 5 ==> (r[k].x == start.x || r[k].x == end.x) && (r[k].y == start.y || r[k].y == end.y))
  }

  /** The point list of a parametric shape dragged from `start` to `end`.
      Any mode other than rect and circle (line included) gives the segment. */
  function ShapePoints(mode: string, start: Point, end: Point, trig: nat -> Point): (r: seq<Point>)
    ensures mode != "rect" && mode != "circle" ==> |r| == 2 && r[0] == start && r[1] == end
    ensures mode == "rect" ==> IsRectOutline(r, start, end)
    ensures mode == "circle" ==> |r| == Steps + 1
    ensures mode == "circle" ==> forall i :: 0 <= i < |r| ==> r[i] == EllipsePoint(start, end, trig(i))
    ensures mode == "circle" && trig(0) == trig(Steps) ==> r[0] == r[|r| - 1]
  {
    match mode
    case "line" => [start, end]
    case "rect" => [start, Point(end.x, start.y), end, Point(start.x, end.y), start]
    case "circle" => CircleSamples(start, end, trig)
    case _ => [start, end]
  }

  /** `p` satisfies the equation of the axis-parallel ellipse with centre `c`
      and radii `rad`, written without division so that it also covers
      degenerate (zero) radii: dx^2 ry^2 + dy^2 rx^2 = rx^2 ry^2. */
  ghost predicate OnEllipse(p: Point, c: Point, rad: Point)
  {
    (p.x - c.x) * (p.x - c.x) * rad.y * rad.y + (p.y - c.y) * (p.y - c.y) * rad.x * rad.x
      == rad.x * rad.x * rad.y * rad.y
  }

  /** Every circle sample lies on the ellipse with the box's centre and radii,
      given that its trigonometric sample lies on the unit circle. */
  lemma CircleOnEllipse(start: Point, end: Point, trig: nat -> Point, i: nat)
    requires i <= Steps
    requires trig(i).x * trig(i).x + trig(i).y * trig(i).y == 1.0
    ensures OnEllipse(ShapePoints("circle", start, end, trig)[i], Center(start, end), Radii(start, end))
  {
    assert ShapePoints("circle", start, end, trig)[i] == EllipsePoint(start, end, trig(i));
    EllipsePointOnEllipse(start, end, trig(i));
  }

  /** The ellipse sample at a point of the unit circle lies on the ellipse. */
  lemma EllipsePointOnEllipse(start: Point, end: Point, u: Point)
    requires u.x * u.x + u.y * u.y == 1.0
    ensures OnEllipse(EllipsePoint(start, end, u), Center(start, end), Radii(start, end))
  {
    var p, c, rad := EllipsePoint(start, end, u), Center(start, end), Radii(start, end);
    assert p.x - c.x == rad.x * u.x && p.y - c.y == rad.y * u.y by {
      assert p == Point(c.x + rad.x * u.x, c.y + rad.y * u.y);
    }
    EllipseEquation(rad.x, rad.y, u.x, u.y, p.x - c.x, p.y - c.y);
  }

  /** With dx = a cos t and dy = b sin t: dx^2 b^2 + dy^2 a^2 = a^2 b^2. */
  lemma EllipseEquation(a: real, b: real, cos: real, sin: real, dx: real, dy: real)
    requires cos * cos + sin * sin == 1.0
    requires dx == a * cos && dy == b * sin
    ensures dx * dx * b * b + dy * dy * a * a == a * a * b * b
  {
    var k := a * a * b * b;
    assert dx * dx * b * b == k * (cos * cos);
    assert dy * dy * a * a == k * (sin * sin);
    assert k * (cos * cos) + k * (sin * sin) == k * (cos * cos + sin * sin);
  }
}
