/**
  The stamps of `grid.py`, the generation configured by style alone and
  given the rectangle `(x, y, width, height)` on every `draw`.

  Constructor defaults become datatype constructor defaults. No stamp of
  this generation but `Dots` sets a dash pattern, so every other trace is
  `save`, colour, width, path, `stroke`, `restore`. The paths are those of
  `Paths`, shared with the `grids.py` generation.
 */
module PositionalGrids {
  import opened Trace
  import opened Tiling
  import opened Paths
  import Hexagons
  import Grids

  // ---------------------------------------------------------------------
  // Grid

  datatype Grid = Grid(color: Rgba := DefaultColor, lineWidth: real := 1.0, spacing: real := 20.0)

  /** `Grid.draw(c, x, y, width, height)`: the grid's rules as the source
      computes them, with the horizontal loop bounded by `x + height` (see
      `GridPathAsWritten`). */
  function DrawGrid(g: Grid, x: real, y: real, width: real, height: real): (t: seq<Command>)
    requires g.spacing > 0.0
    ensures Scoped(t) && NoDash(t)
    ensures t[1] == SetSourceRgba(g.color) && t[2] == SetLineWidth(g.lineWidth)
    ensures t[3..|t| - 2] == GridPathAsWritten(x, y, width, height, g.spacing)
  {
    var path := GridPathAsWritten(x, y, width, height, g.spacing);
    PlainStamp(g.color, g.lineWidth, path);
    Stamp(PlainStyle(g.color, g.lineWidth), path)
  }

  // ---------------------------------------------------------------------
  // Lines

  datatype Lines = Lines(color: Rgba := DefaultColor, lineWidth: real := 1.0, spacing: real := 20.0)

  function DrawLines(l: Lines, x: real, y: real, width: real, height: real): (t: seq<Command>)
    requires l.spacing > 0.0
    ensures Scoped(t) && NoDash(t)
    ensures t[1] == SetSourceRgba(l.color) && t[2] == SetLineWidth(l.lineWidth)
    ensures t[3..|t| - 2] == LinesPath(x, y, width, height, l.spacing)
  {
    var path := LinesPath(x, y, width, height, l.spacing);
    PlainStamp(l.color, l.lineWidth, path);
    Stamp(PlainStyle(l.color, l.lineWidth), path)
  }

  // ---------------------------------------------------------------------
  // Hexagonal grid

  datatype HexagonalGrid = HexagonalGrid(color: Rgba := DefaultColor, lineWidth: real := 1.0, radius: real := 100.0)

  /** `HexagonalGrid.draw`, with sin 60 degrees supplied as `sin60`. */
  function DrawHexagonalGrid(h: HexagonalGrid, x: real, y: real, width: real, height: real, sin60: real): (t: seq<Command>)
    requires h.radius > 0.0 && Hexagons.IsSin60(sin60)
    ensures Scoped(t) && NoDash(t)
    ensures t[1] == SetSourceRgba(h.color) && t[2] == SetLineWidth(h.lineWidth)
    ensures t[3..|t| - 2] == HexPath(x, y, width, height, h.radius, sin60)
  {
    var path := HexPath(x, y, width, height, h.radius, sin60);
    PlainStamp(h.color, h.lineWidth, path);
    Stamp(PlainStyle(h.color, h.lineWidth), path)
  }

  // ---------------------------------------------------------------------
  // Cartesian coordinates

  datatype CartesianCoordinates = CartesianCoordinates(color: Rgba := DefaultColor, lineWidth: real := 1.0)

  /** `CartesianCoordinates.draw`: nine calls, the two axes between the
      style and the stroke. */
  function DrawCartesianCoordinates(c: CartesianCoordinates, x: real, y: real, width: real, height: real): (t: seq<Command>)
    ensures Scoped(t) && NoDash(t) && |t| == 9
    ensures t[1] == SetSourceRgba(c.color) && t[2] == SetLineWidth(c.lineWidth)
    ensures t[3..7] == CartesianPath(x, y, width, height)
  {
    var path := CartesianPath(x, y, width, height);
    PlainStamp(c.color, c.lineWidth, path);
    Stamp(PlainStyle(c.color, c.lineWidth), path)
  }

  // ---------------------------------------------------------------------
  // Bullseye

  datatype Bullseye = Bullseye(color: Rgba := DefaultColor, lineWidth: real := 1.0, spacing: real := 20.0,
                               overflow: bool := false)

  /** `Bullseye.draw`, with `sqrt((width/2)**2 + (height/2)**2)` supplied
      as `hypot`. */
  function DrawBullseye(b: Bullseye, x: real, y: real, width: real, height: real, hypot: real): (t: seq<Command>)
    requires b.spacing > 0.0
    requires IsHypot(hypot, width / 2.0, height / 2.0)
    ensures Scoped(t) && NoDash(t)
    ensures t[1] == SetSourceRgba(b.color) && t[2] == SetLineWidth(b.lineWidth)
    ensures var c := Centre(x, y, width, height);
            t[3..|t| - 2] == RingsPath(c.x, c.y, MaxRadius(b.overflow, width, height, hypot), b.spacing)
  {
    var c := Centre(x, y, width, height);
    var path := RingsPath(c.x, c.y, MaxRadius(b.overflow, width, height, hypot), b.spacing);
    PlainStamp(b.color, b.lineWidth, path);
    Stamp(PlainStyle(b.color, b.lineWidth), path)
  }

  // ---------------------------------------------------------------------
  // Polar coordinates

  /** A `PolarCoordinates` holds a Cartesian stamp and a bullseye that
      share its colour and line width. */
  datatype PolarCoordinates = PolarCoordinates(cartesian: CartesianCoordinates, bullseye: Bullseye)

  function MakePolarCoordinates(color: Rgba := DefaultColor, lineWidth: real := 1.0, spacing: real := 20.0,
                                overflow: bool := false): (p: PolarCoordinates)
    ensures p.cartesian.color == p.bullseye.color == color
    ensures p.cartesian.lineWidth == p.bullseye.lineWidth == lineWidth
    ensures p.bullseye.spacing == spacing && p.bullseye.overflow == overflow
  {
    PolarCoordinates(CartesianCoordinates(color, lineWidth), Bullseye(color, lineWidth, spacing, overflow))
  }

  /** `PolarCoordinates.draw`: the Cartesian stamp's trace, then the
      bullseye's, for the same rectangle. */
  function DrawPolarCoordinates(p: PolarCoordinates, x: real, y: real, width: real, height: real, hypot: real): (t: seq<Command>)
    requires p.bullseye.spacing > 0.0
    requires IsHypot(hypot, width / 2.0, height / 2.0)
    ensures |t| >= 14 && NoDash(t)
    ensures Scoped(t[..9]) && Scoped(t[9..])
    ensures t[1] == SetSourceRgba(p.cartesian.color) && t[2] == SetLineWidth(p.cartesian.lineWidth)
    ensures t[10] == SetSourceRgba(p.bullseye.color) && t[11] == SetLineWidth(p.bullseye.lineWidth)
    ensures t[3..7] == CartesianPath(x, y, width, height)
    ensures var c := Centre(x, y, width, height);
            t[12..|t| - 2] == RingsPath(c.x, c.y, MaxRadius(p.bullseye.overflow, width, height, hypot), p.bullseye.spacing)
    ensures multiset(t)[Save] == 2 && multiset(t)[Stroke] == 2 && multiset(t)[Restore] == 2
  {
    var axes := DrawCartesianCoordinates(p.cartesian, x, y, width, height);
    var rings := DrawBullseye(p.bullseye, x, y, width, height, hypot);
    PolarHalves(axes, rings);
    axes + rings
  }

  /** Two traces one after the other: each half keeps its calls, and the
      counts of `save`, `stroke` and `restore` add up. */
  lemma PolarHalves(axes: seq<Command>, rings: seq<Command>)
    requires |axes| == 9 && Scoped(axes) && Scoped(rings) && NoDash(axes) && NoDash(rings)
    ensures (axes + rings)[..9] == axes && (axes + rings)[9..] == rings
    ensures (axes + rings)[3..7] == axes[3..7]
    ensures |rings| >= 5 ==> (axes + rings)[12..|axes + rings| - 2] == rings[3..|rings| - 2]
    ensures NoDash(axes + rings)
    ensures multiset(axes + rings)[Save] == 2 && multiset(axes + rings)[Stroke] == 2
    ensures multiset(axes + rings)[Restore] == 2
  {
    var t := axes + rings;
    assert t[..9] == axes;
    assert t[9..] == rings;
    assert multiset(t) == multiset(axes) + multiset(rings);
    forall i | 0 <= i < |t|
      ensures !t[i].SetDash?
    {
      if i >= 9 {
        assert t[i] == rings[i - 9];
      }
    }
  }

  // ---------------------------------------------------------------------
  // Dots

  /** `Dots`: in this generation the dot size is the field `size`. */
  datatype Dots = Dots(color: Rgba := DefaultColor, size: real := 1.0, spacing: real := 20.0)

  /** `Dots.draw(c, x, y, width, height)`: the only stamp of this
      generation that sets a dash pattern. */
  function DrawDots(d: Dots, x: real, y: real, width: real, height: real): (t: seq<Command>)
    requires d.spacing > 0.0
    ensures Scoped(t)
    ensures t[1] == SetSourceRgba(d.color)
    ensures t[2] == SetDash(DotDash(d.size, d.spacing))
    ensures t[3] == SetLineWidth(d.size)
    ensures t[4..|t| - 2] == DotsPath(x, y, width, height, d.size, d.spacing)
  {
    var path := DotsPath(x, y, width, height, d.size, d.spacing);
    StyledStamp(DotStyle(d.color, d.size, d.spacing), path);
    Stamp(DotStyle(d.color, d.size, d.spacing), path)
  }

  // ---------------------------------------------------------------------
  // The two generations side by side

  /** A `grids.py` stamp's trace is the `grid.py` trace for the same
      rectangle with one `set_dash` call inserted after the line width. */
  lemma DashInserted(color: Rgba, lineWidth: real, dash: seq<real>, path: seq<Command>)
    ensures var plain := Stamp(PlainStyle(color, lineWidth), path);
            Stamp(Grids.LineStyle(color, lineWidth, dash), path) == plain[..3] + [SetDash(dash)] + plain[3..]
  {
    var plain := Stamp(PlainStyle(color, lineWidth), path);
    assert plain[..3] == [Save, SetSourceRgba(color), SetLineWidth(lineWidth)];
    assert plain[3..] == path + [Stroke, Restore];
  }

  /** The grid of both generations, configured alike, differs only by the
      `set_dash` call. */
  lemma GridGenerations(g: Grids.Grid)
    requires g.spacing > 0.0
    ensures var plain := DrawGrid(Grid(g.color, g.lineWidth, g.spacing), g.position.x, g.position.y, g.size.width, g.size.height);
            Grids.DrawGrid(g) == plain[..3] + [SetDash(g.dash)] + plain[3..]
  {
    DashInserted(g.color, g.lineWidth, g.dash, GridPathAsWritten(g.position.x, g.position.y, g.size.width, g.size.height, g.spacing));
  }

  lemma LinesGenerations(l: Grids.Lines)
    requires l.spacing > 0.0
    ensures var plain := DrawLines(Lines(l.color, l.lineWidth, l.spacing), l.position.x, l.position.y, l.size.width, l.size.height);
            Grids.DrawLines(l) == plain[..3] + [SetDash(l.dash)] + plain[3..]
  {
    DashInserted(l.color, l.lineWidth, l.dash, LinesPath(l.position.x, l.position.y, l.size.width, l.size.height, l.spacing));
  }

  lemma HexagonalGridGenerations(h: Grids.HexagonalGrid, sin60: real)
    requires h.radius > 0.0 && Hexagons.IsSin60(sin60)
    ensures var plain := DrawHexagonalGrid(HexagonalGrid(h.color, h.lineWidth, h.radius),
                                           h.position.x, h.position.y, h.size.width, h.size.height, sin60);
            Grids.DrawHexagonalGrid(h, sin60) == plain[..3] + [SetDash(h.dash)] + plain[3..]
  {
    DashInserted(h.color, h.lineWidth, h.dash, HexPath(h.position.x, h.position.y, h.size.width, h.size.height, h.radius, sin60));
  }

  lemma CartesianGenerations(c: Grids.CartesianCoordinates)
    ensures var plain := DrawCartesianCoordinates(CartesianCoordinates(c.color, c.lineWidth),
                                                  c.position.x, c.position.y, c.size.width, c.size.height);
            Grids.DrawCartesianCoordinates(c) == plain[..3] + [SetDash(c.dash)] + plain[3..]
  {
    DashInserted(c.color, c.lineWidth, c.dash, CartesianPath(c.position.x, c.position.y, c.size.width, c.size.height));
  }

  lemma BullseyeGenerations(b: Grids.Bullseye, hypot: real)
    requires b.spacing > 0.0
    requires IsHypot(hypot, b.size.width / 2.0, b.size.height / 2.0)
    ensures var plain := DrawBullseye(Bullseye(b.color, b.lineWidth, b.spacing, b.overflow),
                                      b.position.x, b.position.y, b.size.width, b.size.height, hypot);
            Grids.DrawBullseye(b, hypot) == plain[..3] + [SetDash(b.dash)] + plain[3..]
  {
    var c := Centre(b.position.x, b.position.y, b.size.width, b.size.height);
    var m := MaxRadius(b.overflow, b.size.width, b.size.height, hypot);
    DashInserted(b.color, b.lineWidth, b.dash, RingsPath(c.x, c.y, m, b.spacing));
  }

  /** The dots of both generations draw the same trace, `size` standing
      for `dot_size`. */
  lemma DotsGenerations(d: Grids.Dots)
    requires d.spacing > 0.0
    ensures DrawDots(Dots(d.color, d.dotSize, d.spacing), d.position.x, d.position.y, d.size.width, d.size.height)
            == Grids.DrawDots(d)
  {
  }
}
