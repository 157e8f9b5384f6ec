/**
  The geometry of the stamps: the path commands each `draw` issues between
  setting its style and stroking. Both generations of the grids module
  (`grids.py` and `grid.py`) compute the same paths; they differ only in how
  they are configured and in which style calls they make around the path.
 */
module Paths {
  import opened Trace
  import opened Tiling
  import Hexagons

  /** What one turn of a line or ring loop emits, as a function of the
      loop variable `cur`: always two commands. */
  datatype Turn =
    | VerticalRule(y: real, height: real)   // move_to(cur, y); line_to(cur, y + height)
    | HorizontalRule(x: real, width: real)  // move_to(x, cur); line_to(x + width, cur)
    | Ring(xc: real, yc: real)              // new_sub_path(); arc(xc, yc, cur, 0, 2 pi)

  /** The commands of one turn with loop variable `cur`. */
  function Emitted(t: Turn, cur: real): (cs: seq<Command>)
    ensures |cs| == 2
  {
    match t
    case VerticalRule(y, height) => [MoveTo(cur, y), LineTo(cur, y + height)]
    case HorizontalRule(x, width) => [MoveTo(x, cur), LineTo(x + width, cur)]
    case Ring(xc, yc) => [NewSubPath, Arc(xc, yc, cur)]
  }

  /** The commands of a whole loop whose variable runs through `ps`. */
  function Emit(ps: seq<real>, t: Turn): (cs: seq<Command>)
    ensures |cs| == 2 * |ps|
  {
    if |ps| == 0 then [] else Emitted(t, ps[0]) + Emit(ps[1..], t)
  }

  /** A loop of turns issues path commands only. */
  lemma {:induction false} EmitPathOnly(ps: seq<real>, t: Turn)
    ensures PathOnly(Emit(ps, t))
  {
    if |ps| > 0 {
      EmitPathOnly(ps[1..], t);
      ConcatPathOnly(Emitted(t, ps[0]), Emit(ps[1..], t));
    }
  }

  /** Turn k's two commands sit at 2k and 2k+1. */
  lemma {:induction false} PairAt(ps: seq<real>, t: Turn, k: nat)
    requires k < |ps|
    ensures Emit(ps, t)[2 * k] == Emitted(t, ps[k])[0]
    ensures Emit(ps, t)[2 * k + 1] == Emitted(t, ps[k])[1]
    decreases k
  {
    var first := Emitted(t, ps[0]);
    var rest := Emit(ps[1..], t);
    assert Emit(ps, t) == first + rest;
    if k > 0 {
      PairAt(ps[1..], t, k - 1);
      assert ps[k] == ps[1..][k - 1];
      ConcatPairAt(first, rest, Emit(ps, t), 2 * (k - 1));
    }
  }

  /** Turn k of a tiling loop emits the two commands for `start + k*step`. */
  lemma TurnAt(start: real, bound: Bound, step: real, t: Turn, k: nat)
    requires step > 0.0
    requires k < Count(start, bound, step)
    ensures 2 * k + 1 < |Emit(Positions(start, bound, step), t)|
    ensures Emit(Positions(start, bound, step), t)[2 * k] == Emitted(t, Position(start, step, k))[0]
    ensures Emit(Positions(start, bound, step), t)[2 * k + 1] == Emitted(t, Position(start, step, k))[1]
  {
    PairAt(Positions(start, bound, step), t, k);
  }

  // ---------------------------------------------------------------------
  // Grid

  /** `Grid.draw`'s path as evidently intended: vertical rules while
      `cur_x < x + width`, then horizontal rules while `cur_y < y + height`.
      The source bounds the second loop by `x + height` instead; that path is
      `GridPathAsWritten`, which the draws use, and `GridRowsEscape` shows
      where the two part. */
  function GridPath(x: real, y: real, width: real, height: real, spacing: real): (p: seq<Command>)
    requires spacing > 0.0
    ensures PathOnly(p)
  {
    var xs := Positions(x, Below(x + width), spacing);
    var ys := Positions(y, Below(y + height), spacing);
    EmitPathOnly(xs, VerticalRule(y, height));
    EmitPathOnly(ys, HorizontalRule(x, width));
    ConcatPathOnly(Emit(xs, VerticalRule(y, height)), Emit(ys, HorizontalRule(x, width)));
    Emit(xs, VerticalRule(y, height)) + Emit(ys, HorizontalRule(x, width))
  }

  /** A loop of vertical rules over `xs`, followed by anything: rule k is
      the pair at 2k. */
  lemma VerticalRules(xs: seq<real>, y: real, height: real, after: seq<Command>, p: seq<Command>)
    requires p == Emit(xs, VerticalRule(y, height)) + after
    ensures |p| == 2 * |xs| + |after|
    ensures forall k :: 0 <= k < |xs| ==>
              p[2 * k] == MoveTo(xs[k], y) && p[2 * k + 1] == LineTo(xs[k], y + height)
  {
    forall k | 0 <= k < |xs|
      ensures p[2 * k] == MoveTo(xs[k], y) && p[2 * k + 1] == LineTo(xs[k], y + height)
    {
      VerticalAt(xs, y, height, after, p, k);
    }
  }

  lemma VerticalAt(xs: seq<real>, y: real, height: real, after: seq<Command>, p: seq<Command>, k: nat)
    requires p == Emit(xs, VerticalRule(y, height)) + after
    requires k < |xs|
    ensures p[2 * k] == MoveTo(xs[k], y) && p[2 * k + 1] == LineTo(xs[k], y + height)
  {
    var e := Emit(xs, VerticalRule(y, height));
    assert e[2 * k] == MoveTo(xs[k], y) && e[2 * k + 1] == LineTo(xs[k], y + height) by {
      PairAt(xs, VerticalRule(y, height), k);
    }
  }

  /** A loop of horizontal rules over `ys` after `n` other commands: rule k
      is the pair at `n + 2k`. */
  lemma HorizontalRules(before: seq<Command>, ys: seq<real>, x: real, width: real, n: nat, p: seq<Command>)
    requires |before| == n && p == before + Emit(ys, HorizontalRule(x, width))
    ensures |p| == n + 2 * |ys|
    ensures forall k :: 0 <= k < |ys| ==>
              p[n + 2 * k] == MoveTo(x, ys[k]) && p[n + 2 * k + 1] == LineTo(x + width, ys[k])
  {
    forall k | 0 <= k < |ys|
      ensures p[n + 2 * k] == MoveTo(x, ys[k]) && p[n + 2 * k + 1] == LineTo(x + width, ys[k])
    {
      HorizontalAt(before, ys, x, width, n, p, k);
    }
  }

  /** Turn k of a horizontal loop that follows `n` other commands. */
  lemma HorizontalAt(before: seq<Command>, ys: seq<real>, x: real, width: real, n: nat, p: seq<Command>, k: nat)
    requires |before| == n && p == before + Emit(ys, HorizontalRule(x, width))
    requires k < |ys|
    ensures n + 2 * k + 1 < |p|
    ensures p[n + 2 * k] == MoveTo(x, ys[k]) && p[n + 2 * k + 1] == LineTo(x + width, ys[k])
  {
    HorizontalPair(ys, x, width, k);
    ShiftedPair(before, Emit(ys, HorizontalRule(x, width)), p, 2 * k, MoveTo(x, ys[k]), LineTo(x + width, ys[k]));
  }

  /** A known pair of a suffix `e`, seen in `before + e`. */
  lemma ShiftedPair(before: seq<Command>, e: seq<Command>, p: seq<Command>, j: nat, a: Command, b: Command)
    requires p == before + e && j + 1 < |e| && e[j] == a && e[j + 1] == b
    ensures |before| + j + 1 < |p| && p[|before| + j] == a && p[|before| + j + 1] == b
  {
    ConcatPairAt(before, e, p, j);
  }

  /** Turn k of a horizontal loop on its own. */
  lemma HorizontalPair(ys: seq<real>, x: real, width: real, k: nat)
    requires k < |ys|
    ensures 2 * k + 1 < |Emit(ys, HorizontalRule(x, width))|
    ensures Emit(ys, HorizontalRule(x, width))[2 * k] == MoveTo(x, ys[k])
    ensures Emit(ys, HorizontalRule(x, width))[2 * k + 1] == LineTo(x + width, ys[k])
  {
    PairAt(ys, HorizontalRule(x, width), k);
  }

  /** The pair at j of a suffix `e` is the pair at `|before| + j` of
      `before + e`. */
  lemma ConcatPairAt(before: seq<Command>, e: seq<Command>, p: seq<Command>, j: nat)
    requires p == before + e && j + 1 < |e|
    ensures p[|before| + j] == e[j] && p[|before| + j + 1] == e[j + 1]
  {
  }

  /** The grid's vertical lines are at `x + k*spacing` for exactly the k
      with `x + k*spacing < x + width` (see `Count`), each from `y` to
      `y + height`; its horizontal lines follow, at `y + k*spacing` for
      exactly the k with `y + k*spacing < y + height`, each from `x` to
      `x + width`. */
  lemma GridLines(x: real, y: real, width: real, height: real, spacing: real)
    requires spacing > 0.0
    ensures var p := GridPath(x, y, width, height, spacing);
            var nv := Count(x, Below(x + width), spacing);
            var nh := Count(y, Below(y + height), spacing);
            && |p| == 2 * nv + 2 * nh
            && (forall k :: 0 <= k < nv ==>
                  && p[2 * k] == MoveTo(Position(x, spacing, k), y)
                  && p[2 * k + 1] == LineTo(Position(x, spacing, k), y + height))
            && (forall k :: 0 <= k < nh ==>
                  && p[2 * nv + 2 * k] == MoveTo(x, Position(y, spacing, k))
                  && p[2 * nv + 2 * k + 1] == LineTo(x + width, Position(y, spacing, k)))
  {
    var xs := Positions(x, Below(x + width), spacing);
    var ys := Positions(y, Below(y + height), spacing);
    var p := GridPath(x, y, width, height, spacing);
    VerticalRules(xs, y, height, Emit(ys, HorizontalRule(x, width)), p);
    HorizontalRules(Emit(xs, VerticalRule(y, height)), ys, x, width, 2 * |xs|, p);
  }

  /** A 45 by 25 grid at the origin with spacing 20 has vertical lines at
      x = 0, 20, 40 and horizontal lines at y = 0, 20: ten commands. */
  lemma GridExample()
    ensures |GridPathAsWritten(0.0, 0.0, 45.0, 25.0, 20.0)| == 10
    ensures Positions(0.0, Below(0.0 + 45.0), 20.0) == [0.0, 20.0, 40.0]
    ensures Positions(0.0, Below(0.0 + 25.0), 20.0) == [0.0, 20.0]
  {
    var xs := Positions(0.0, Below(45.0), 20.0);
    assert Position(0.0, 20.0, 2) == 40.0;
    assert Position(0.0, 20.0, 3) == 60.0;
    assert |xs| == 3;
    assert xs[1] == Position(0.0, 20.0, 1);
    var ys := Positions(0.0, Below(25.0), 20.0);
    assert Position(0.0, 20.0, 1) == 20.0;
    assert Position(0.0, 20.0, 2) == 40.0;
    assert |ys| == 2;
  }

  /** Every horizontal rule of the grid lies inside the rectangle's
      vertical extent `[y, y + height)`. */
  lemma GridRowsInside(x: real, y: real, width: real, height: real, spacing: real, k: nat)
    requires spacing > 0.0
    requires k < Count(y, Below(y + height), spacing)
    ensures var p := GridPath(x, y, width, height, spacing);
            var nv := Count(x, Below(x + width), spacing);
            && 2 * nv + 2 * k + 1 < |p|
            && p[2 * nv + 2 * k].MoveTo?
            && y <= p[2 * nv + 2 * k].y < y + height
  {
    var ys := Positions(y, Below(y + height), spacing);
    var xs := Positions(x, Below(x + width), spacing);
    HorizontalAt(Emit(xs, VerticalRule(y, height)), ys, x, width, 2 * |xs|, GridPath(x, y, width, height, spacing), k);
    assert ys[k] == Position(y, spacing, k);
    PositionAtLeastStart(y, spacing, k);
  }

  /** `Grid.draw`'s path exactly as the source computes it: the horizontal
      loop runs while `cur_y < x + height`. */
  function GridPathAsWritten(x: real, y: real, width: real, height: real, spacing: real): (p: seq<Command>)
    requires spacing > 0.0
    ensures PathOnly(p)
    ensures |p| == 2 * Count(x, Below(x + width), spacing) + 2 * Count(y, Below(x + height), spacing)
  {
    var xs := Positions(x, Below(x + width), spacing);
    var ys := Positions(y, Below(x + height), spacing);
    EmitPathOnly(xs, VerticalRule(y, height));
    EmitPathOnly(ys, HorizontalRule(x, width));
    ConcatPathOnly(Emit(xs, VerticalRule(y, height)), Emit(ys, HorizontalRule(x, width)));
    Emit(xs, VerticalRule(y, height)) + Emit(ys, HorizontalRule(x, width))
  }

  /** The two bounds agree when the rectangle sits on the diagonal
      (`x == y`), as it does at the origin, where the slip goes unseen. */
  lemma GridAsWrittenMatchesOnDiagonal(x: real, width: real, height: real, spacing: real)
    requires spacing > 0.0
    ensures GridPathAsWritten(x, x, width, height, spacing) == GridPath(x, x, width, height, spacing)
  {
  }

  /** As written, the grid's horizontal loop can leave the rectangle: every
      turn k with `y + height <= y + k*spacing < x + height` draws a
      horizontal rule at or below the rectangle's bottom edge. */
  lemma GridRowsEscape(x: real, y: real, width: real, height: real, spacing: real, k: nat)
    requires spacing > 0.0
    requires y + height <= Position(y, spacing, k) < x + height
    ensures var p := GridPathAsWritten(x, y, width, height, spacing);
            var nv := Count(x, Below(x + width), spacing);
            && 2 * nv + 2 * k < |p|
            && p[2 * nv + 2 * k] == MoveTo(x, Position(y, spacing, k))
            && p[2 * nv + 2 * k].y >= y + height
  {
    var xs := Positions(x, Below(x + width), spacing);
    var ys := Positions(y, Below(x + height), spacing);
    assert k < |ys|;
    HorizontalAt(Emit(xs, VerticalRule(y, height)), ys, x, width, 2 * |xs|, GridPathAsWritten(x, y, width, height, spacing), k);
  }

  /** The as-written grid, turn by turn: vertical rule k at `x + k*spacing`
      spans the rectangle's height, and horizontal rule k at `y + k*spacing`
      spans its width, for exactly the k with `y + k*spacing < x + height`. */
  lemma GridLinesAsWritten(x: real, y: real, width: real, height: real, spacing: real)
    requires spacing > 0.0
    ensures var p := GridPathAsWritten(x, y, width, height, spacing);
            var nv := Count(x, Below(x + width), spacing);
            var nh := Count(y, Below(x + height), spacing);
            && |p| == 2 * nv + 2 * nh
            && (forall k :: 0 <= k < nv ==>
                  && p[2 * k] == MoveTo(Position(x, spacing, k), y)
                  && p[2 * k + 1] == LineTo(Position(x, spacing, k), y + height))
            && (forall k :: 0 <= k < nh ==>
                  && p[2 * nv + 2 * k] == MoveTo(x, Position(y, spacing, k))
                  && p[2 * nv + 2 * k + 1] == LineTo(x + width, Position(y, spacing, k)))
  {
    var xs := Positions(x, Below(x + width), spacing);
    var ys := Positions(y, Below(x + height), spacing);
    var p := GridPathAsWritten(x, y, width, height, spacing);
    VerticalRules(xs, y, height, Emit(ys, HorizontalRule(x, width)), p);
    HorizontalRules(Emit(xs, VerticalRule(y, height)), ys, x, width, 2 * |xs|, p);
  }

  /** An input that shows it: the 10 by 10 rectangle at (100, 0) with
      spacing 5 has two vertical rules, so command 2*2 + 2*21 = 46 is the
      `move_to` of horizontal turn 21, at y = 105, far below the bottom edge
      y = 10. */
  lemma GridRowsEscapeExample()
    ensures Count(100.0, Below(100.0 + 10.0), 5.0) == 2
    ensures 0.0 + 10.0 <= Position(0.0, 5.0, 21) == 105.0 < 100.0 + 10.0
  {
    assert Position(100.0, 5.0, 1) == 105.0;
    assert Position(100.0, 5.0, 2) == 110.0;
  }

  // ---------------------------------------------------------------------
  // Lines and Dots

  /** `Lines.draw`'s path: horizontal lines while `cur_y < y + height`. */
  function LinesPath(x: real, y: real, width: real, height: real, spacing: real): (p: seq<Command>)
    requires spacing > 0.0
    ensures PathOnly(p)
  {
    EmitPathOnly(Positions(y, Below(y + height), spacing), HorizontalRule(x, width));
    Emit(Positions(y, Below(y + height), spacing), HorizontalRule(x, width))
  }

  /** Lines are only horizontal: the k-th runs from `x` to `x + width` at
      `y + k*spacing`, for exactly the k with `y + k*spacing < y + height`. */
  lemma LinesRows(x: real, y: real, width: real, height: real, spacing: real)
    requires spacing > 0.0
    ensures var p := LinesPath(x, y, width, height, spacing);
            var n := Count(y, Below(y + height), spacing);
            && |p| == 2 * n
            && (forall k :: 0 <= k < n ==>
                  && p[2 * k] == MoveTo(x, Position(y, spacing, k))
                  && p[2 * k + 1] == LineTo(x + width, Position(y, spacing, k)))
  {
    forall k | 0 <= k < Count(y, Below(y + height), spacing)
      ensures var p := LinesPath(x, y, width, height, spacing);
              && p[2 * k] == MoveTo(x, Position(y, spacing, k))
              && p[2 * k + 1] == LineTo(x + width, Position(y, spacing, k))
    {
      LineAt(x, y, width, height, spacing, k);
    }
  }

  lemma LineAt(x: real, y: real, width: real, height: real, spacing: real, k: nat)
    requires spacing > 0.0
    requires k < Count(y, Below(y + height), spacing)
    ensures var p := LinesPath(x, y, width, height, spacing);
            && 2 * k + 1 < |p|
            && p[2 * k] == MoveTo(x, Position(y, spacing, k))
            && p[2 * k + 1] == LineTo(x + width, Position(y, spacing, k))
  {
    TurnAt(y, Below(y + height), spacing, HorizontalRule(x, width), k);
  }

  /** Every `line_to` of the lines path is the second command of its
      turn: the `move_to` just before it is at the same height, from `x`,
      and the line ends at `x + width`. */
  lemma LinesPathLineTo(x: real, y: real, width: real, height: real, spacing: real, j: nat)
    requires spacing > 0.0
    requires j < |LinesPath(x, y, width, height, spacing)|
    requires LinesPath(x, y, width, height, spacing)[j].LineTo?
    ensures var p := LinesPath(x, y, width, height, spacing);
            && j >= 1 && p[j - 1] == MoveTo(x, p[j].y) && p[j].x == x + width
  {
    var k := j / 2;
    assert |Positions(y, Below(y + height), spacing)| == Count(y, Below(y + height), spacing);
    assert k < Count(y, Below(y + height), spacing);
    LineAt(x, y, width, height, spacing, k);
    assert j == 2 * k + 1;
  }

  /** `Dots.draw`'s path: one horizontal line per row of dots, starting
      half a dot below `y`, while `cur_y < y + height`. */
  function DotsPath(x: real, y: real, width: real, height: real, dotSize: real, spacing: real): (p: seq<Command>)
    requires spacing > 0.0
    ensures PathOnly(p)
  {
    EmitPathOnly(Positions(y + dotSize / 2.0, Below(y + height), spacing), HorizontalRule(x, width));
    Emit(Positions(y + dotSize / 2.0, Below(y + height), spacing), HorizontalRule(x, width))
  }

  /** The dash pattern of `Dots.draw`: on for one dot's length, then off
      for the rest of the spacing, so that one period of the pattern is
      exactly one spacing. */
  function DotDash(dotSize: real, spacing: real): (ds: seq<real>)
    ensures |ds| == 2 && ds[0] == dotSize && ds[0] + ds[1] == spacing
  {
    [dotSize, spacing - dotSize]
  }

  /** The style calls of `Dots.draw`: the colour, the dot dash pattern, then
      a line as wide as a dot. */
  function DotStyle(color: Rgba, dotSize: real, spacing: real): (s: seq<Command>)
    ensures StyleOnly(s) && |s| == 3
  {
    [SetSourceRgba(color), SetDash(DotDash(dotSize, spacing)), SetLineWidth(dotSize)]
  }

  /** Row k of dots runs from `x` to `x + width` at
      `y + dotSize/2 + k*spacing`, for exactly the k where that is below
      `y + height`. */
  lemma DotsRows(x: real, y: real, width: real, height: real, dotSize: real, spacing: real)
    requires spacing > 0.0
    ensures var p := DotsPath(x, y, width, height, dotSize, spacing);
            var top := y + dotSize / 2.0;
            var n := Count(top, Below(y + height), spacing);
            && |p| == 2 * n
            && (forall k :: 0 <= k < n ==>
                  && p[2 * k] == MoveTo(x, Position(top, spacing, k))
                  && p[2 * k + 1] == LineTo(x + width, Position(top, spacing, k)))
  {
    var top := y + dotSize / 2.0;
    forall k | 0 <= k < Count(top, Below(y + height), spacing)
      ensures var p := DotsPath(x, y, width, height, dotSize, spacing);
              && p[2 * k] == MoveTo(x, Position(top, spacing, k))
              && p[2 * k + 1] == LineTo(x + width, Position(top, spacing, k))
    {
      DotRowAt(x, y, width, height, dotSize, spacing, k);
    }
  }

  lemma DotRowAt(x: real, y: real, width: real, height: real, dotSize: real, spacing: real, k: nat)
    requires spacing > 0.0
    requires k < Count(y + dotSize / 2.0, Below(y + height), spacing)
    ensures var p := DotsPath(x, y, width, height, dotSize, spacing);
            && 2 * k + 1 < |p|
            && p[2 * k] == MoveTo(x, Position(y + dotSize / 2.0, spacing, k))
            && p[2 * k + 1] == LineTo(x + width, Position(y + dotSize / 2.0, spacing, k))
  {
    TurnAt(y + dotSize / 2.0, Below(y + height), spacing, HorizontalRule(x, width), k);
  }

  // ---------------------------------------------------------------------
  // Cartesian coordinates

  /** `CartesianCoordinates.draw`'s path: exactly two segments, the
      horizontal axis across the full width at mid height, then the
      vertical axis across the full height at mid width. */
  function CartesianPath(x: real, y: real, width: real, height: real): (p: seq<Command>)
    ensures PathOnly(p) && |p| == 4
    ensures p[0].MoveTo? && p[1].LineTo? && p[2].MoveTo? && p[3].LineTo?
    ensures p[0].y == p[1].y == y + height / 2.0
    ensures p[0].x == x && p[1].x == x + width
    ensures p[2].x == p[3].x == x + width / 2.0
    ensures p[2].y == y && p[3].y == y + height
  {
    [ MoveTo(x, height / 2.0 + y), LineTo(width + x, height / 2.0 + y),
      MoveTo(width / 2.0 + x, y), LineTo(width / 2.0 + x, y + height) ]
  }

  /** The two axes cross at the rectangle's centre, the point the bullseye's
      rings are drawn about, and each axis is halved there. */
  lemma AxesCrossAtCentre(x: real, y: real, width: real, height: real)
    ensures var p := CartesianPath(x, y, width, height);
            var c := Centre(x, y, width, height);
            && p[0].y == p[1].y == c.y && (p[0].x + p[1].x) / 2.0 == c.x
            && p[2].x == p[3].x == c.x && (p[2].y + p[3].y) / 2.0 == c.y
  {
  }

  // ---------------------------------------------------------------------
  // Bullseye

  /** `hypot` is `sqrt(a*a + b*b)`: the non-negative real whose square is
      `a*a + b*b`. */
  predicate IsHypot(hypot: real, a: real, b: real) {
    hypot >= 0.0 && hypot * hypot == a * a + b * b
  }

  /** The rectangle's centre, `(width/2 + x, height/2 + y)`. */
  function Centre(x: real, y: real, width: real, height: real): Point {
    Point(width / 2.0 + x, height / 2.0 + y)
  }

  /** `max_radius`: the half diagonal when overflowing, otherwise the
      smaller half extent (the radius of the inscribed circle). The square
      root is supplied as `hypot`. */
  function MaxRadius(overflow: bool, width: real, height: real, hypot: real): (m: real)
    requires IsHypot(hypot, width / 2.0, height / 2.0)
    ensures overflow ==> IsHypot(m, width / 2.0, height / 2.0)
    ensures !overflow ==> m <= width / 2.0 && m <= height / 2.0
    ensures !overflow ==> m == width / 2.0 || m == height / 2.0
  {
    if overflow then hypot
    else if width / 2.0 < height / 2.0 then width / 2.0 else height / 2.0
  }

  /** When overflowing, a ring of radius r >= 0 fits exactly when
      `r*r <= (width/2)^2 + (height/2)^2`. */
  lemma OverflowRingFits(width: real, height: real, hypot: real, r: real)
    requires IsHypot(hypot, width / 2.0, height / 2.0)
    requires r >= 0.0
    ensures var fits := UpTo(MaxRadius(true, width, height, hypot)).Admits(r);
            fits <==> r * r <= (width / 2.0) * (width / 2.0) + (height / 2.0) * (height / 2.0)
  {
    SquareOrder(r, hypot);
  }

  /** For non-negative reals, comparing squares is comparing the reals. */
  lemma SquareOrder(a: real, b: real)
    requires a >= 0.0 && b >= 0.0
    ensures a <= b <==> a * a <= b * b
  {
    assert b * b - a * a == (b - a) * (b + a);
    if a < b {
      ScaleOrder(0.0, b - a, b + a);
    } else if b < a {
      ScaleOrder(0.0, a - b, a + b);
    }
  }

  /** Without overflow, a ring fits exactly when it fits inside both half
      extents. */
  lemma InscribedRingFits(width: real, height: real, hypot: real, r: real)
    requires IsHypot(hypot, width / 2.0, height / 2.0)
    ensures var fits := UpTo(MaxRadius(false, width, height, hypot)).Admits(r);
            fits <==> r <= width / 2.0 && r <= height / 2.0
  {
  }

  /** `Bullseye.draw`'s path: a new sub-path and a full circle around the
      centre for radius = spacing, 2*spacing, ... while
      `radius <= max_radius`. */
  function RingsPath(xc: real, yc: real, maxRadius: real, spacing: real): (p: seq<Command>)
    requires spacing > 0.0
    ensures PathOnly(p)
    ensures |p| == 2 * Count(spacing, UpTo(maxRadius), spacing)
  {
    EmitPathOnly(Positions(spacing, UpTo(maxRadius), spacing), Ring(xc, yc));
    Emit(Positions(spacing, UpTo(maxRadius), spacing), Ring(xc, yc))
  }

  /** Ring k is its own sub-path, of radius `(k+1)*spacing`, for exactly
      the k where that is at most `maxRadius`. */
  lemma RingsRadii(xc: real, yc: real, maxRadius: real, spacing: real)
    requires spacing > 0.0
    ensures var p := RingsPath(xc, yc, maxRadius, spacing);
            var n := Count(spacing, UpTo(maxRadius), spacing);
            && |p| == 2 * n
            && (forall k: nat :: Position(spacing, spacing, k) == (k + 1) as real * spacing)
            && (forall k: nat :: k < n <==> Position(spacing, spacing, k) <= maxRadius)
            && (forall k :: 0 <= k < n ==>
                  && p[2 * k] == NewSubPath
                  && p[2 * k + 1] == Arc(xc, yc, Position(spacing, spacing, k)))
  {
    forall k: nat
      ensures Position(spacing, spacing, k) == (k + 1) as real * spacing
    {
      RingRadius(spacing, k);
    }
    forall k | 0 <= k < Count(spacing, UpTo(maxRadius), spacing)
      ensures var p := RingsPath(xc, yc, maxRadius, spacing);
              && p[2 * k] == NewSubPath
              && p[2 * k + 1] == Arc(xc, yc, Position(spacing, spacing, k))
    {
      RingAt(xc, yc, maxRadius, spacing, k);
    }
  }

  lemma RingRadius(spacing: real, k: nat)
    ensures Position(spacing, spacing, k) == (k + 1) as real * spacing
  {
    assert (k + 1) as real * spacing == k as real * spacing + 1.0 * spacing;
  }

  lemma RingAt(xc: real, yc: real, maxRadius: real, spacing: real, k: nat)
    requires spacing > 0.0
    requires k < Count(spacing, UpTo(maxRadius), spacing)
    ensures var p := RingsPath(xc, yc, maxRadius, spacing);
            && 2 * k + 1 < |p|
            && p[2 * k] == NewSubPath
            && p[2 * k + 1] == Arc(xc, yc, Position(spacing, spacing, k))
  {
    TurnAt(spacing, UpTo(maxRadius), spacing, Ring(xc, yc), k);
  }

  /** A 100 by 100 rectangle with spacing 30: with overflow the bound is
      the half diagonal, about 70.71, and the rings are 30 and 60; without
      it the bound is 50 and the only ring is 30. */
  lemma BullseyeExample(hypot: real)
    requires IsHypot(hypot, 100.0 / 2.0, 100.0 / 2.0)
    ensures Positions(30.0, UpTo(MaxRadius(true, 100.0, 100.0, hypot)), 30.0) == [30.0, 60.0]
    ensures Positions(30.0, UpTo(MaxRadius(false, 100.0, 100.0, hypot)), 30.0) == [30.0]
  {
    var m := MaxRadius(true, 100.0, 100.0, hypot);
    OverflowRingFits(100.0, 100.0, hypot, 60.0);
    OverflowRingFits(100.0, 100.0, hypot, 90.0);
    assert 60.0 <= m < 90.0;
    var rs := Positions(30.0, UpTo(m), 30.0);
    assert Position(30.0, 30.0, 1) == 60.0;
    assert Position(30.0, 30.0, 2) == 90.0;
    assert |rs| == 2;
    assert rs[0] == Position(30.0, 30.0, 0);
    var inscribed := Positions(30.0, UpTo(50.0), 30.0);
    assert MaxRadius(false, 100.0, 100.0, hypot) == 50.0;
    assert |inscribed| == 1;
    assert inscribed[0] == Position(30.0, 30.0, 0);
  }

  // ---------------------------------------------------------------------
  // Hexagonal grid

  /** `a * b` by repeated addition (`MulIsProduct`). The source has no such
      function: it only keeps the tile-index arithmetic of the nested loop
      linear, so the index lemmas below verify cheaply. */
  function Mul(a: nat, b: nat): nat {
    if b == 0 then 0 else Mul(a, b - 1) + a
  }

  lemma {:induction false} MulIsProduct(a: nat, b: nat)
    ensures Mul(a, b) == a * b
  {
    if b > 0 {
      MulIsProduct(a, b - 1);
      assert a * (b - 1) + a == a * b;
    }
  }

  /** The origins of one row of tiles: `(cur_x, cy)` for each `cur_x` of
      `xs`, left to right. */
  function RowOrigins(xs: seq<real>, cy: real): (os: seq<Point>)
    ensures |os| == |xs|
    ensures forall i :: 0 <= i < |xs| ==> os[i] == Point(xs[i], cy)
  {
    if |xs| == 0 then [] else [Point(xs[0], cy)] + RowOrigins(xs[1..], cy)
  }

  /** The tile origins in the order the nested loop visits them: the
      outer loop runs over the rows `ys`, the inner one over `xs`. */
  function Origins(xs: seq<real>, ys: seq<real>): (os: seq<Point>)
    ensures |os| == Mul(|xs|, |ys|)
  {
    if |ys| == 0 then [] else RowOrigins(xs, ys[0]) + Origins(xs, ys[1..])
  }

  /** Origin (i, j) is visited at turn `|xs|*j + i` of the nested loop. */
  lemma {:induction false} OriginAt(xs: seq<real>, ys: seq<real>, i: nat, j: nat)
    requires i < |xs| && j < |ys|
    ensures Mul(|xs|, j) + i < |Origins(xs, ys)|
    ensures Origins(xs, ys)[Mul(|xs|, j) + i] == Point(xs[i], ys[j])
    decreases j
  {
    var row := RowOrigins(xs, ys[0]);
    assert Origins(xs, ys) == row + Origins(xs, ys[1..]);
    if j > 0 {
      OriginAt(xs, ys[1..], i, j - 1);
      assert ys[j] == ys[1..][j - 1];
    }
  }

  /** The commands of the tiles at origins `os`, in turn. */
  function Tiles(os: seq<Point>, radius: real, sin60: real): (p: seq<Command>)
    ensures |p| == 8 * |os|
  {
    if |os| == 0 then [] else Hexagons.Cell(os[0].x, os[0].y, radius, sin60) + Tiles(os[1..], radius, sin60)
  }

  /** Tiles are made of path commands only. */
  lemma {:induction false} TilesPathOnly(os: seq<Point>, radius: real, sin60: real)
    ensures PathOnly(Tiles(os, radius, sin60))
  {
    if |os| > 0 {
      TilesPathOnly(os[1..], radius, sin60);
      ConcatPathOnly(Hexagons.Cell(os[0].x, os[0].y, radius, sin60), Tiles(os[1..], radius, sin60));
    }
  }

  lemma ConcatPathOnly(a: seq<Command>, b: seq<Command>)
    requires PathOnly(a) && PathOnly(b)
    ensures PathOnly(a + b)
  {
    forall k | 0 <= k < |a + b|
      ensures IsPath((a + b)[k])
    {
      ConcatPathAt(a, b, k);
    }
  }

  lemma ConcatPathAt(a: seq<Command>, b: seq<Command>, k: nat)
    requires PathOnly(a) && PathOnly(b) && k < |a + b|
    ensures IsPath((a + b)[k])
  {
    if k >= |a| {
      assert (a + b)[k] == b[k - |a|];
    }
  }

  /** The tile at turn q of the loop holds commands `8*q .. 8*q + 8`. */
  lemma {:induction false} TileAt(os: seq<Point>, radius: real, sin60: real, q: nat, m: nat)
    requires q < |os| && m < 8
    ensures 8 * q + m < |Tiles(os, radius, sin60)|
    ensures Tiles(os, radius, sin60)[8 * q + m] == Hexagons.Cell(os[q].x, os[q].y, radius, sin60)[m]
    decreases q
  {
    var first := Hexagons.Cell(os[0].x, os[0].y, radius, sin60);
    var rest := Tiles(os[1..], radius, sin60);
    assert Tiles(os, radius, sin60) == first + rest;
    if q == 0 {
      assert (first + rest)[m] == first[m];
    } else {
      TileAt(os[1..], radius, sin60, q - 1, m);
      assert os[q] == os[1..][q - 1];
      assert (first + rest)[8 * q + m] == rest[8 * (q - 1) + m];
    }
  }

  /** `HexagonalGrid.draw`'s path: rows at `cur_y` from `y` while
      `cur_y < y + height + vertical_spacing`, and in each row tiles at
      `cur_x` from `x` while `cur_x < x + width + horizontal_spacing`. */
  function HexPath(x: real, y: real, width: real, height: real, radius: real, sin60: real): (p: seq<Command>)
    requires radius > 0.0 && Hexagons.IsSin60(sin60)
    ensures PathOnly(p)
  {
    var hs := Hexagons.HorizontalSpacing(radius);
    var vs := Hexagons.VerticalSpacing(radius, sin60);
    var xs := Positions(x, Below(x + width + hs), hs);
    var ys := Positions(y, Below(y + height + vs), vs);
    TilesPathOnly(Origins(xs, ys), radius, sin60);
    Tiles(Origins(xs, ys), radius, sin60)
  }

  /** Where the m-th command of tile (i, j) sits in a row-by-row loop with
      n tiles a row: `8*(n*j + i) + m` (see `TileIndexClosed`). */
  function TileIndex(n: nat, i: nat, j: nat, m: nat): nat {
    8 * (Mul(n, j) + i) + m
  }

  lemma TileIndexClosed(n: nat, i: nat, j: nat, m: nat)
    ensures TileIndex(n, i, j, m) == 8 * (n * j + i) + m
  {
    MulIsProduct(n, j);
  }

  /** Tile (i, j) of a row-by-row hexagon loop over `ys` and `xs`. */
  lemma HexRowsAt(xs: seq<real>, ys: seq<real>, radius: real, sin60: real, i: nat, j: nat, m: nat)
    requires i < |xs| && j < |ys| && m < 8
    ensures TileIndex(|xs|, i, j, m) < |Tiles(Origins(xs, ys), radius, sin60)|
    ensures Tiles(Origins(xs, ys), radius, sin60)[TileIndex(|xs|, i, j, m)]
              == Hexagons.Cell(xs[i], ys[j], radius, sin60)[m]
  {
    OriginAt(xs, ys, i, j);
    TileAt(Origins(xs, ys), radius, sin60, Mul(|xs|, j) + i, m);
  }

  /** The tiles are laid out row by row: tile (i, j), with origin
      `(x + i*hs, y + j*vs)`, occupies the eight commands from
      `TileIndex(nx, i, j, 0)`, where `nx` and `ny` count the origins inside
      `[x, x + width + hs)` and `[y, y + height + vs)`; there are
      `nx * ny` tiles in all. */
  lemma HexTiles(x: real, y: real, width: real, height: real, radius: real, sin60: real)
    requires radius > 0.0 && Hexagons.IsSin60(sin60)
    ensures var hs := Hexagons.HorizontalSpacing(radius);
            var vs := Hexagons.VerticalSpacing(radius, sin60);
            var nx := Count(x, Below(x + width + hs), hs);
            var ny := Count(y, Below(y + height + vs), vs);
            var p := HexPath(x, y, width, height, radius, sin60);
            && |p| == 8 * (nx * ny)
            && (forall i, j, m :: 0 <= i < nx && 0 <= j < ny && 0 <= m < 8 ==>
                  && TileIndex(nx, i, j, m) < |p|
                  && p[TileIndex(nx, i, j, m)]
                       == Hexagons.Cell(Position(x, hs, i), Position(y, vs, j), radius, sin60)[m])
  {
    var hs := Hexagons.HorizontalSpacing(radius);
    var vs := Hexagons.VerticalSpacing(radius, sin60);
    var xs := Positions(x, Below(x + width + hs), hs);
    var ys := Positions(y, Below(y + height + vs), vs);
    MulIsProduct(|xs|, |ys|);
    forall i, j, m | 0 <= i < |xs| && 0 <= j < |ys| && 0 <= m < 8
      ensures TileIndex(|xs|, i, j, m) < |Tiles(Origins(xs, ys), radius, sin60)|
      ensures Tiles(Origins(xs, ys), radius, sin60)[TileIndex(|xs|, i, j, m)]
                == Hexagons.Cell(Position(x, hs, i), Position(y, vs, j), radius, sin60)[m]
    {
      HexRowsAt(xs, ys, radius, sin60, i, j, m);
      assert xs[i] == Position(x, hs, i) && ys[j] == Position(y, vs, j);
    }
  }
}
