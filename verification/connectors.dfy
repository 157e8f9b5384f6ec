/**
  The elbow connector of `connectors.py`: a path from a start point to an
  end point with axis-aligned segments and one bend, or a straight segment
  when the two points already share an axis.
 */
module Connectors {
  import opened Trace
  import Tiling

  /** Which way the first segment of a bent connector runs. */
  datatype Orientation = Horizontal | Vertical

  datatype ElbowConnector = ElbowConnector(color: Rgba := DefaultColor, lineWidth: real := 1.0,
                                           orientation: Orientation := Horizontal, elbowAt: real := 0.5)

  /** Two points on a common horizontal or vertical line. */
  predicate Aligned(a: Point, b: Point) {
    a.x == b.x || a.y == b.y
  }

  /** The coordinate at fraction `f` of the way from `a` to `b`. */
  function Bend(a: real, b: real, f: real): real {
    a + (b - a) * f
  }

  /** The points the connector's path visits, in order. */
  function ElbowPoints(o: Orientation, elbowAt: real, start: Point, end: Point): (ps: seq<Point>)
    ensures |ps| == 2 || |ps| == 4
    ensures ps[0] == start && ps[|ps| - 1] == end
    ensures |ps| == 2 <==> Aligned(start, end)
    ensures forall i :: 0 <= i < |ps| - 1 ==> Aligned(ps[i], ps[i + 1])
  {
    if start.x == end.x || start.y == end.y then
      [start, end]
    else
      match o
      case Horizontal =>
        var bendX := Bend(start.x, end.x, elbowAt);
        [start, Point(bendX, start.y), Point(bendX, end.y), end]
      case Vertical =>
        var bendY := Bend(start.y, end.y, elbowAt);
        [start, Point(start.x, bendY), Point(end.x, bendY), end]
  }

  /** `ElbowConnector.draw`: save, colour, width, the polyline through the
      elbow points, one stroke, restore. */
  function DrawElbow(c: ElbowConnector, start: Point, end: Point): (t: seq<Command>)
    ensures Scoped(t) && NoDash(t)
    ensures t[1] == SetSourceRgba(c.color) && t[2] == SetLineWidth(c.lineWidth)
    ensures t[3..|t| - 2] == Polyline(ElbowPoints(c.orientation, c.elbowAt, start, end))
  {
    var path := Polyline(ElbowPoints(c.orientation, c.elbowAt, start, end));
    PlainStamp(c.color, c.lineWidth, path);
    Stamp(PlainStyle(c.color, c.lineWidth), path)
  }

  /** The drawn path starts with `move_to(start)` and its last call is
      `line_to(end)`; it has one segment exactly when the endpoints share an
      axis and three otherwise. */
  lemma ElbowTraceEnds(c: ElbowConnector, start: Point, end: Point)
    ensures var t := DrawElbow(c, start, end);
            && |t| >= 7
            && t[3] == MoveTo(start.x, start.y)
            && t[|t| - 3] == LineTo(end.x, end.y)
            && (|t| == 7 <==> Aligned(start, end))
  {
    var t := DrawElbow(c, start, end);
    var ps := ElbowPoints(c.orientation, c.elbowAt, start, end);
    var path := Polyline(ps);
    var body := t[3..|t| - 2];
    assert body == path;
    assert body[0] == t[3];
    assert body[|ps| - 1] == t[|t| - 3];
  }

  /** When the endpoints share an axis the connector is the straight
      segment between them, whatever its orientation. */
  lemma StraightWhenAligned(o: Orientation, elbowAt: real, start: Point, end: Point)
    requires Aligned(start, end)
    ensures ElbowPoints(o, elbowAt, start, end) == [start, end]
  {
  }

  /** Horizontal first: along `start.y` to the bend at fraction `elbowAt`
      of the horizontal distance, down or up to `end.y`, then along
      `end.y` to the end. */
  lemma HorizontalShape(elbowAt: real, start: Point, end: Point)
    requires !Aligned(start, end)
    ensures var ps := ElbowPoints(Horizontal, elbowAt, start, end);
            && |ps| == 4
            && ps[1].y == start.y && ps[2].y == end.y
            && ps[1].x == ps[2].x
            && ps[1].x - start.x == (end.x - start.x) * elbowAt
  {
  }

  /** Vertical first: the same with the roles of x and y exchanged. */
  lemma VerticalShape(elbowAt: real, start: Point, end: Point)
    requires !Aligned(start, end)
    ensures var ps := ElbowPoints(Vertical, elbowAt, start, end);
            && |ps| == 4
            && ps[1].x == start.x && ps[2].x == end.x
            && ps[1].y == ps[2].y
            && ps[1].y - start.y == (end.y - start.y) * elbowAt
  {
  }

  /** With `elbowAt` in `[0, 1]` the bend lies between the start and end
      coordinates. */
  lemma BendBetween(a: real, b: real, f: real)
    requires 0.0 <= f <= 1.0
    ensures a <= b ==> a <= Bend(a, b, f) <= b
    ensures b <= a ==> b <= Bend(a, b, f) <= a
  {
    var d := b - a;
    assert Bend(a, b, f) - a == d * f;
    assert b - Bend(a, b, f) == d * (1.0 - f);
    if f == 0.0 || f == 1.0 {
    } else if a <= b {
      Tiling.ScaleOrder(0.0, d, f);
      assert 0.0 <= d * f;
      Tiling.ScaleOrder(0.0, d, 1.0 - f);
      assert 0.0 <= d * (1.0 - f);
    } else {
      Tiling.ScaleOrder(d, 0.0, f);
      assert d * f <= 0.0;
      Tiling.ScaleOrder(d, 0.0, 1.0 - f);
      assert d * (1.0 - f) <= 0.0;
    }
  }

  /** The point to point example: from (0, 0) to (100, 40), horizontal
      first, bending half way, visits (50, 0) and (50, 40). */
  lemma ElbowExample()
    ensures ElbowPoints(Horizontal, 0.5, Point(0.0, 0.0), Point(100.0, 40.0))
            == [Point(0.0, 0.0), Point(50.0, 0.0), Point(50.0, 40.0), Point(100.0, 40.0)]
  {
  }

  /** Drawing the connector backwards, with the bend at the complementary
      fraction, visits the same points in reverse order. */
  lemma ElbowReversed(o: Orientation, elbowAt: real, start: Point, end: Point)
    ensures var ps := ElbowPoints(o, elbowAt, start, end);
            var qs := ElbowPoints(o, 1.0 - elbowAt, end, start);
            |qs| == |ps| && forall i :: 0 <= i < |ps| ==> qs[i] == ps[|ps| - 1 - i]
  {
    BendReversed(start.x, end.x, elbowAt);
    BendReversed(start.y, end.y, elbowAt);
  }

  lemma BendReversed(a: real, b: real, f: real)
    ensures Bend(b, a, 1.0 - f) == Bend(a, b, f)
  {
    assert (a - b) * (1.0 - f) == (a - b) - (a - b) * f;
    assert (a - b) * f == -((b - a) * f);
  }

  /** A point with its coordinates exchanged: reflection in the diagonal. */
  function Transpose(p: Point): Point {
    Point(p.y, p.x)
  }

  /** Vertical first is horizontal first seen in the mirror of the
      diagonal. */
  lemma VerticalIsTransposedHorizontal(elbowAt: real, start: Point, end: Point)
    ensures var vs := ElbowPoints(Vertical, elbowAt, start, end);
            var hs := ElbowPoints(Horizontal, elbowAt, Transpose(start), Transpose(end));
            |vs| == |hs| && forall i :: 0 <= i < |vs| ==> vs[i] == Transpose(hs[i])
  {
  }

  /** Taxicab length of a polyline. */
  function PathLength(ps: seq<Point>): (n: real)
    ensures n >= 0.0
  {
    if |ps| < 2 then 0.0 else Dist(ps[0], ps[1]) + PathLength(ps[1..])
  }

  function Abs(a: real): (r: real)
    ensures r >= 0.0 && (r == a || r == -a)
  {
    if a < 0.0 then -a else a
  }

  function Dist(a: Point, b: Point): real {
    Abs(b.x - a.x) + Abs(b.y - a.y)
  }

  lemma PathLengthOfFour(ps: seq<Point>)
    requires |ps| == 4
    ensures PathLength(ps) == Dist(ps[0], ps[1]) + Dist(ps[1], ps[2]) + Dist(ps[2], ps[3])
  {
    assert PathLength(ps[3..]) == 0.0;
    assert PathLength(ps[2..]) == Dist(ps[2], ps[3]) + PathLength(ps[3..]) by {
      assert ps[2..][1..] == ps[3..];
    }
    assert PathLength(ps[1..]) == Dist(ps[1], ps[2]) + PathLength(ps[2..]) by {
      assert ps[1..][1..] == ps[2..];
    }
  }

  /** Going from `a` to `b` by way of a point `m` between them covers the
      distance from `a` to `b` once. */
  lemma AbsSplit(a: real, m: real, b: real)
    requires a <= m <= b || b <= m <= a
    ensures Abs(m - a) + Abs(b - m) == Abs(b - a)
  {
  }

  /** With the bend between the endpoints the connector never doubles
      back: its taxicab length is the taxicab distance from start to end. */
  lemma ElbowShortest(o: Orientation, elbowAt: real, start: Point, end: Point)
    requires 0.0 <= elbowAt <= 1.0
    ensures PathLength(ElbowPoints(o, elbowAt, start, end)) == Dist(start, end)
  {
    var ps := ElbowPoints(o, elbowAt, start, end);
    if |ps| == 4 {
      PathLengthOfFour(ps);
      if o.Horizontal? {
        BendBetween(start.x, end.x, elbowAt);
        AbsSplit(start.x, ps[1].x, end.x);
      } else {
        BendBetween(start.y, end.y, elbowAt);
        AbsSplit(start.y, ps[1].y, end.y);
      }
    } else {
      assert ps[1..] == [end];
    }
  }
}
