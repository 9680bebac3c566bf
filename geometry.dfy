/** Points on the canvas and the rule that derives a connector's two control
    points from its end points. Coordinates are reals: the single-precision
    rounding of the page's Vector2 fields is not modelled. */
module Geometry {

  /** A canvas position: one of the page's single-precision Vector2 fields. */
  datatype Point = Point(x: real, y: real)

  /** Vector2.Zero: the value every point field holds after a reset. */
  const Origin := Point(0.0, 0.0)

  function Add(p: Point, q: Point): (r: Point)
  {
    Point(p.x + q.x, p.y + q.y)
  }

  function Sub(p: Point, q: Point): (r: Point)
  {
    Point(p.x - q.x, p.y - q.y)
  }

  function Abs(r: real): (a: real)
    ensures a >= 0.0
    ensures a == r || a == -r
  {
    if r < 0.0 then -r else r
  }

  /** Half the horizontal span of a drag: how far each control point is
      pushed horizontally away from its end point. */
  function ControlDistance(start: Point, end: Point): (d: real)
    ensures d >= 0.0
    ensures d + d == Abs(start.x - end.x)
  {
    Abs(start.x - end.x) / 2.0
  }

  /** The two control points of the connector from `start` to `end`: the
      first sits right of `start`, the second left of `end`, both at the
      height of their end point, so the curve leaves and enters horizontally. */
  function ControlPoints(start: Point, end: Point): (cps: (Point, Point))
    ensures cps.0.y == start.y && cps.1.y == end.y
    ensures cps.0.x - start.x == end.x - cps.1.x >= 0.0
    ensures 2.0 * (cps.0.x - start.x) == Abs(start.x - end.x)
  {
    var offset := Point(ControlDistance(start, end), 0.0);
    (Add(start, offset), Sub(end, offset))
  }

  /** For a left-to-right drag both control points meet at the horizontal
      midpoint; for a right-to-left drag they overshoot both end points. */
  lemma ControlPointsShape(start: Point, end: Point)
    ensures var (c1, c2) := ControlPoints(start, end);
      (start.x <= end.x ==> c1.x == c2.x == (start.x + end.x) / 2.0)
      && (start.x > end.x ==> c2.x < end.x < start.x < c1.x)
  {
  }

  /** Moving both end points by the same vector moves both control points by
      that vector: the rule depends only on the relative position. */
  lemma ControlPointsTranslate(start: Point, end: Point, v: Point)
    ensures var (c1, c2) := ControlPoints(start, end);
      ControlPoints(Add(start, v), Add(end, v)) == (Add(c1, v), Add(c2, v))
  {
  }

  /** A drag from (10, 10) to (50, 10) puts both control points at (30, 10). */
  lemma ControlPointsOfLevelDrag()
    ensures ControlPoints(Point(10.0, 10.0), Point(50.0, 10.0)) == (Point(30.0, 10.0), Point(30.0, 10.0))
  {
    assert ControlDistance(Point(10.0, 10.0), Point(50.0, 10.0)) == 20.0;
  }

  /** A drag that does not move horizontally puts each control point on its
      own end point. */
  lemma ControlPointsVertical(start: Point, end: Point)
    requires start.x == end.x
    ensures ControlPoints(start, end) == (start, end)
  {
  }
}
