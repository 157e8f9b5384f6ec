/**
  One tile of the hexagonal grid stamp.

  The source computes the tile from `cos` and `sin` of the six angles
  300, 0, 60, 120, 180 and 240 degrees. Their cosines are the exact
  rationals 1/2, 1, 1/2, -1/2, -1, -1/2; their sines are 0 or plus or minus
  sin 60 degrees, which is irrational. The model does not compute it: every
  member that needs it takes it as the parameter `sin60`, constrained by
  `IsSin60` to be the unique positive real whose square is 3/4.
 */
module Hexagons {
  import opened Trace

  /** The cosines of the six vertex angles, in the source's order. */
  const VertexCos: seq<real> := [0.5, 1.0, 0.5, -0.5, -1.0, -0.5]

  /** The sines of the six vertex angles, in units of sin 60 degrees. */
  const VertexSin: seq<real> := [-1.0, 0.0, 1.0, 1.0, 0.0, -1.0]

  /** `s` is sin 60 degrees (and so also sin 120 degrees). */
  predicate IsSin60(s: real) {
    s > 0.0 && s * s == 0.75
  }

  /** `line_length`: `cos(60) * r/2 - cos(120) * r/2`. */
  function LineLength(radius: real): real {
    0.5 * (radius / 2.0) - (-0.5) * (radius / 2.0)
  }

  /** Distance between the origins of horizontally adjacent tiles. */
  function HorizontalSpacing(radius: real): real {
    radius + LineLength(radius)
  }

  /** Distance between the origins of vertically adjacent tiles:
      `sin(120) * radius`. */
  function VerticalSpacing(radius: real, sin60: real): real {
    sin60 * radius
  }

  /** The i-th vertex of the tile whose origin is (cx, cy). */
  function Vertex(cx: real, cy: real, radius: real, sin60: real, i: nat): Point
    requires i < 6
  {
    Point(VertexCos[i] * (radius / 2.0) + cx, VertexSin[i] * sin60 * (radius / 2.0) + cy)
  }

  function Vertices(cx: real, cy: real, radius: real, sin60: real): (vs: seq<Point>)
    ensures |vs| == 6
    ensures forall i :: 0 <= i < 6 ==> vs[i] == Vertex(cx, cy, radius, sin60, i)
  {
    [ Vertex(cx, cy, radius, sin60, 0), Vertex(cx, cy, radius, sin60, 1),
      Vertex(cx, cy, radius, sin60, 2), Vertex(cx, cy, radius, sin60, 3),
      Vertex(cx, cy, radius, sin60, 4), Vertex(cx, cy, radius, sin60, 5) ]
  }

  /** The eight commands one tile emits: the open outline through the six
      vertices, then the stub of length `line_length` going right from
      the second vertex. */
  function Cell(cx: real, cy: real, radius: real, sin60: real): (cs: seq<Command>)
    ensures |cs| == 8 && PathOnly(cs)
  {
    var v0, v1, v2 := Vertex(cx, cy, radius, sin60, 0), Vertex(cx, cy, radius, sin60, 1), Vertex(cx, cy, radius, sin60, 2);
    var v3, v4, v5 := Vertex(cx, cy, radius, sin60, 3), Vertex(cx, cy, radius, sin60, 4), Vertex(cx, cy, radius, sin60, 5);
    [ MoveTo(v0.x, v0.y), LineTo(v1.x, v1.y), LineTo(v2.x, v2.y), LineTo(v3.x, v3.y), LineTo(v4.x, v4.y), LineTo(v5.x, v5.y),
      MoveTo(v1.x, v1.y), LineTo(v1.x + LineLength(radius), v1.y) ]
  }

  function Sq(a: real): real {
    a * a
  }

  /** The squared length of an offset `(c*h, u*sin60*h)`. */
  lemma OffsetLength(c: real, u: real, h: real, sin60: real)
    requires IsSin60(sin60)
    ensures Sq(c * h) + Sq(u * (sin60 * h)) == (Sq(c) + 0.75 * Sq(u)) * Sq(h)
  {
    var sh := sin60 * h;
    assert Sq(sh) == (sin60 * sin60) * (h * h);
    assert Sq(sh) == 0.75 * Sq(h);
    assert Sq(c * h) == Sq(c) * Sq(h);
    assert Sq(u * sh) == Sq(u) * Sq(sh);
  }

  /** The hexagon is regular: all six vertices lie on the circle of radius
      `radius/2` around the tile origin. */
  lemma VerticesOnCircle(cx: real, cy: real, radius: real, sin60: real, i: nat)
    requires IsSin60(sin60)
    requires i < 6
    ensures var v := Vertex(cx, cy, radius, sin60, i);
            Sq(v.x - cx) + Sq(v.y - cy) == Sq(radius / 2.0)
  {
    var h := radius / 2.0;
    var v := Vertex(cx, cy, radius, sin60, i);
    var c, u := VertexCos[i], VertexSin[i];
    assert v.x - cx == c * h;
    assert v.y - cy == u * (sin60 * h);
    OffsetLength(c, u, h, sin60);
    assert Sq(c) + 0.75 * Sq(u) == 1.0;
  }

  /** Each drawn side of the outline, and the side it leaves out, is as
      long as the circumradius `radius/2`. */
  lemma SidesEqual(cx: real, cy: real, radius: real, sin60: real, i: nat)
    requires IsSin60(sin60)
    requires i < 6
    ensures var a := Vertex(cx, cy, radius, sin60, i);
            var b := Vertex(cx, cy, radius, sin60, (i + 1) % 6);
            Sq(b.x - a.x) + Sq(b.y - a.y) == Sq(radius / 2.0)
  {
    var h := radius / 2.0;
    var j := (i + 1) % 6;
    var a := Vertex(cx, cy, radius, sin60, i);
    var b := Vertex(cx, cy, radius, sin60, j);
    var c := VertexCos[j] - VertexCos[i];
    var u := VertexSin[j] - VertexSin[i];
    assert b.x - a.x == c * h;
    assert b.y - a.y == u * (sin60 * h);
    OffsetLength(c, u, h, sin60);
    assert Sq(c) + 0.75 * Sq(u) == 1.0;
  }

  /** The stub is a horizontal segment exactly one side long, and it ends
      on the fifth vertex of the next tile to the right, so the stubs join
      the tiles of a row into one tiling. */
  lemma StubJoinsNextTile(cx: real, cy: real, radius: real, sin60: real)
    ensures LineLength(radius) == radius / 2.0
    ensures var v1 := Vertex(cx, cy, radius, sin60, 1);
            Point(v1.x + LineLength(radius), v1.y)
              == Vertex(cx + HorizontalSpacing(radius), cy, radius, sin60, 4)
  {
  }

  /** A tile's lower edge (third to fourth vertex) is the upper edge (first
      and sixth vertex) of the tile one vertical spacing further down. */
  lemma VerticalNeighbourSharesEdge(cx: real, cy: real, radius: real, sin60: real)
    ensures Vertex(cx, cy, radius, sin60, 2)
              == Vertex(cx, cy + VerticalSpacing(radius, sin60), radius, sin60, 0)
    ensures Vertex(cx, cy, radius, sin60, 3)
              == Vertex(cx, cy + VerticalSpacing(radius, sin60), radius, sin60, 5)
  {
    var h := radius / 2.0;
    assert sin60 * h + sin60 * h == sin60 * radius;
  }

  /** The tile's commands: the outline is drawn through the six vertices in
      order and is not closed (nothing leads back to the first vertex), and
      the stub starts again at the second vertex. */
  lemma CellShape(cx: real, cy: real, radius: real, sin60: real)
    requires radius > 0.0 && IsSin60(sin60)
    ensures var cs := Cell(cx, cy, radius, sin60);
            var v := Vertices(cx, cy, radius, sin60);
            && cs[0] == MoveTo(v[0].x, v[0].y)
            && (forall i :: 1 <= i < 6 ==> cs[i] == LineTo(v[i].x, v[i].y))
            && cs[6] == MoveTo(v[1].x, v[1].y)
            && cs[7] == LineTo(v[1].x + radius / 2.0, v[1].y)
            && (forall i :: 0 <= i < 8 ==> cs[i] != LineTo(v[0].x, v[0].y))
  {
    var cs := Cell(cx, cy, radius, sin60);
    var v := Vertices(cx, cy, radius, sin60);
    assert sin60 * (radius / 2.0) > 0.0;
    forall i | 0 <= i < 8
      ensures cs[i] != LineTo(v[0].x, v[0].y)
    {
      if 1 <= i < 6 {
        assert cs[i] == LineTo(v[i].x, v[i].y);
      }
    }
  }
}
