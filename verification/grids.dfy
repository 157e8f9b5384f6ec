/**
  The stamps of `grids.py`, the generation configured by a position, a
  size and an optional dash pattern at construction time.

  Each class becomes a datatype holding its configuration, a `Make…`
  function holding the constructor's defaults and `dash or []`, and a
  `Draw…` function giving the trace of calls `draw` makes on the context.
  The paths themselves are those of `Paths` and `Hexagons`.
 */
module Grids {
  import opened Trace
  import opened Tiling
  import opened Paths
  import Hexagons

  /** The `size` pair `(width, height)`. */
  datatype Size = Size(width: real, height: real)

  /** The style calls every stamp but `Dots` makes after `save`. */
  function LineStyle(color: Rgba, lineWidth: real, dash: seq<real>): (s: seq<Command>)
    ensures StyleOnly(s) && |s| == 3
  {
    [SetSourceRgba(color), SetLineWidth(lineWidth), SetDash(dash)]
  }

  // ---------------------------------------------------------------------
  // Grid

  datatype Grid = Grid(position: Point, size: Size, color: Rgba, lineWidth: real, dash: seq<real>, spacing: real)

  /** `Grid(...)`: a missing dash, like an empty one, is stored as `[]`. */
  function MakeGrid(position: Point, size: Size, color: Rgba := DefaultColor, lineWidth: real := 1.0,
                    dash: Option<seq<real>> := None, spacing: real := 20.0): (g: Grid)
    ensures g.dash == [] <==> dash == None || dash == Some([])
    ensures dash.Some? ==> g.dash == dash.value
    ensures g.position == position && g.size == size && g.color == color
    ensures g.lineWidth == lineWidth && g.spacing == spacing
  {
    Grid(position, size, color, lineWidth, DashOrEmpty(dash), spacing)
  }

  /** `Grid.draw`: save, colour, width, dash, the grid's rules as the
      source computes them (the horizontal loop bounded by `x + height`, see
      `GridPathAsWritten`), one stroke, restore. */
  function DrawGrid(g: Grid): (t: seq<Command>)
    requires g.spacing > 0.0
    ensures Scoped(t)
    ensures t[1] == SetSourceRgba(g.color) && t[2] == SetLineWidth(g.lineWidth) && t[3] == SetDash(g.dash)
    ensures t[4..|t| - 2] == GridPathAsWritten(g.position.x, g.position.y, g.size.width, g.size.height, g.spacing)
  {
    var path := GridPathAsWritten(g.position.x, g.position.y, g.size.width, g.size.height, g.spacing);
    StyledStamp(LineStyle(g.color, g.lineWidth, g.dash), path);
    Stamp(LineStyle(g.color, g.lineWidth, g.dash), path)
  }

  /** With every default taken, the grid is solid (an empty dash list),
      one unit wide, half-transparent grey, with rules 20 apart. */
  lemma GridDefaults(position: Point, size: Size)
    ensures var t := DrawGrid(MakeGrid(position, size));
            && t[1] == SetSourceRgba(Rgba(0.5, 0.5, 0.5, 0.5))
            && t[2] == SetLineWidth(1.0)
            && t[3] == SetDash([])
            && t[4..|t| - 2] == GridPathAsWritten(position.x, position.y, size.width, size.height, 20.0)
  {
  }

  // ---------------------------------------------------------------------
  // Lines

  datatype Lines = Lines(position: Point, size: Size, color: Rgba, lineWidth: real, dash: seq<real>, spacing: real)

  function MakeLines(position: Point, size: Size, color: Rgba := DefaultColor, lineWidth: real := 1.0,
                     dash: Option<seq<real>> := None, spacing: real := 20.0): (l: Lines)
    ensures l.dash == [] <==> dash == None || dash == Some([])
    ensures dash.Some? ==> l.dash == dash.value
    ensures l.position == position && l.size == size && l.color == color
    ensures l.lineWidth == lineWidth && l.spacing == spacing
  {
    Lines(position, size, color, lineWidth, DashOrEmpty(dash), spacing)
  }

  function DrawLines(l: Lines): (t: seq<Command>)
    requires l.spacing > 0.0
    ensures Scoped(t)
    ensures t[1] == SetSourceRgba(l.color) && t[2] == SetLineWidth(l.lineWidth) && t[3] == SetDash(l.dash)
    ensures t[4..|t| - 2] == LinesPath(l.position.x, l.position.y, l.size.width, l.size.height, l.spacing)
  {
    var path := LinesPath(l.position.x, l.position.y, l.size.width, l.size.height, l.spacing);
    StyledStamp(LineStyle(l.color, l.lineWidth, l.dash), path);
    Stamp(LineStyle(l.color, l.lineWidth, l.dash), path)
  }

  /** Lines draws no vertical segment: every `line_to` of its trace stays at
      the height of the `move_to` just before it. */
  lemma LinesOnlyHorizontal(l: Lines, i: nat)
    requires l.spacing > 0.0
    requires 4 <= i < |DrawLines(l)| - 2 && DrawLines(l)[i].LineTo?
    ensures DrawLines(l)[i - 1].MoveTo? && DrawLines(l)[i - 1].y == DrawLines(l)[i].y
    ensures DrawLines(l)[i - 1].x == l.position.x && DrawLines(l)[i].x == l.position.x + l.size.width
  {
    var t := DrawLines(l);
    var p := LinesPath(l.position.x, l.position.y, l.size.width, l.size.height, l.spacing);
    var j := i - 4;
    var style := LineStyle(l.color, l.lineWidth, l.dash);
    assert t == Stamp(style, p);
    StampPathAt(style, p, i);
    LinesPathLineTo(l.position.x, l.position.y, l.size.width, l.size.height, l.spacing, j);
    StampPathAt(style, p, i - 1);
  }

  // ---------------------------------------------------------------------
  // Hexagonal grid

  datatype HexagonalGrid = HexagonalGrid(position: Point, size: Size, color: Rgba, lineWidth: real, dash: seq<real>, radius: real)

  function MakeHexagonalGrid(position: Point, size: Size, color: Rgba := DefaultColor, lineWidth: real := 1.0,
                             dash: Option<seq<real>> := None, radius: real := 100.0): (h: HexagonalGrid)
    ensures h.dash == [] <==> dash == None || dash == Some([])
    ensures dash.Some? ==> h.dash == dash.value
    ensures h.position == position && h.size == size && h.color == color
    ensures h.lineWidth == lineWidth && h.radius == radius
  {
    HexagonalGrid(position, size, color, lineWidth, DashOrEmpty(dash), radius)
  }

  /** `HexagonalGrid.draw`, with sin 60 degrees supplied as `sin60`. */
  function DrawHexagonalGrid(h: HexagonalGrid, sin60: real): (t: seq<Command>)
    requires h.radius > 0.0 && Hexagons.IsSin60(sin60)
    ensures Scoped(t)
    ensures t[1] == SetSourceRgba(h.color) && t[2] == SetLineWidth(h.lineWidth) && t[3] == SetDash(h.dash)
    ensures t[4..|t| - 2] == HexPath(h.position.x, h.position.y, h.size.width, h.size.height, h.radius, sin60)
  {
    var path := HexPath(h.position.x, h.position.y, h.size.width, h.size.height, h.radius, sin60);
    StyledStamp(LineStyle(h.color, h.lineWidth, h.dash), path);
    Stamp(LineStyle(h.color, h.lineWidth, h.dash), path)
  }

  // ---------------------------------------------------------------------
  // Cartesian coordinates

  datatype CartesianCoordinates = CartesianCoordinates(position: Point, size: Size, color: Rgba, lineWidth: real, dash: seq<real>)

  function MakeCartesianCoordinates(position: Point, size: Size, color: Rgba := DefaultColor, lineWidth: real := 1.0,
                                    dash: Option<seq<real>> := None): (c: CartesianCoordinates)
    ensures c.dash == [] <==> dash == None || dash == Some([])
    ensures dash.Some? ==> c.dash == dash.value
    ensures c.position == position && c.size == size && c.color == color && c.lineWidth == lineWidth
  {
    CartesianCoordinates(position, size, color, lineWidth, DashOrEmpty(dash))
  }

  /** `CartesianCoordinates.draw`: ten calls, the two axes between the
      style and the stroke. */
  function DrawCartesianCoordinates(c: CartesianCoordinates): (t: seq<Command>)
    ensures Scoped(t) && |t| == 10
    ensures t[1] == SetSourceRgba(c.color) && t[2] == SetLineWidth(c.lineWidth) && t[3] == SetDash(c.dash)
    ensures t[4..8] == CartesianPath(c.position.x, c.position.y, c.size.width, c.size.height)
  {
    var path := CartesianPath(c.position.x, c.position.y, c.size.width, c.size.height);
    StyledStamp(LineStyle(c.color, c.lineWidth, c.dash), path);
    Stamp(LineStyle(c.color, c.lineWidth, c.dash), path)
  }

  // ---------------------------------------------------------------------
  // Bullseye

  datatype Bullseye = Bullseye(position: Point, size: Size, color: Rgba, lineWidth: real, dash: seq<real>,
                               spacing: real, overflow: bool)

  function MakeBullseye(position: Point, size: Size, color: Rgba := DefaultColor, lineWidth: real := 1.0,
                        dash: Option<seq<real>> := None, spacing: real := 20.0, overflow: bool := false): (b: Bullseye)
    ensures b.dash == [] <==> dash == None || dash == Some([])
    ensures dash.Some? ==> b.dash == dash.value
    ensures b.position == position && b.size == size && b.color == color
    ensures b.lineWidth == lineWidth && b.spacing == spacing && b.overflow == overflow
  {
    Bullseye(position, size, color, lineWidth, DashOrEmpty(dash), spacing, overflow)
  }

  /** `Bullseye.draw`, with `sqrt((width/2)**2 + (height/2)**2)` supplied
      as `hypot`. The centre and the bound are computed after `save` but
      issue no call, so the trace has the usual shape; its rings are
      centred on the rectangle's centre. */
  function DrawBullseye(b: Bullseye, hypot: real): (t: seq<Command>)
    requires b.spacing > 0.0
    requires IsHypot(hypot, b.size.width / 2.0, b.size.height / 2.0)
    ensures Scoped(t)
    ensures t[1] == SetSourceRgba(b.color) && t[2] == SetLineWidth(b.lineWidth) && t[3] == SetDash(b.dash)
    ensures var c := Centre(b.position.x, b.position.y, b.size.width, b.size.height);
            var m := MaxRadius(b.overflow, b.size.width, b.size.height, hypot);
            t[4..|t| - 2] == RingsPath(c.x, c.y, m, b.spacing)
  {
    var c := Centre(b.position.x, b.position.y, b.size.width, b.size.height);
    var m := MaxRadius(b.overflow, b.size.width, b.size.height, hypot);
    var path := RingsPath(c.x, c.y, m, b.spacing);
    StyledStamp(LineStyle(b.color, b.lineWidth, b.dash), path);
    Stamp(LineStyle(b.color, b.lineWidth, b.dash), path)
  }

  // ---------------------------------------------------------------------
  // Dots

  datatype Dots = Dots(position: Point, size: Size, color: Rgba, dotSize: real, spacing: real)

  function MakeDots(position: Point, size: Size, color: Rgba := DefaultColor, dotSize: real := 1.0,
                    spacing: real := 20.0): (d: Dots)
    ensures d.position == position && d.size == size && d.color == color
    ensures d.dotSize == dotSize && d.spacing == spacing
  {
    Dots(position, size, color, dotSize, spacing)
  }

  /** `Dots.draw`: the dot style, then one dashed horizontal line per row
      of dots. */
  function DrawDots(d: Dots): (t: seq<Command>)
    requires d.spacing > 0.0
    ensures Scoped(t)
    ensures t[1] == SetSourceRgba(d.color)
    ensures t[2] == SetDash(DotDash(d.dotSize, d.spacing))
    ensures t[3] == SetLineWidth(d.dotSize)
    ensures t[4..|t| - 2] == DotsPath(d.position.x, d.position.y, d.size.width, d.size.height, d.dotSize, d.spacing)
  {
    var path := DotsPath(d.position.x, d.position.y, d.size.width, d.size.height, d.dotSize, d.spacing);
    StyledStamp(DotStyle(d.color, d.dotSize, d.spacing), path);
    Stamp(DotStyle(d.color, d.dotSize, d.spacing), path)
  }
}
