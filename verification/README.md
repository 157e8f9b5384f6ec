# rubberstamps: grids and connectors in Dafny

`rubberstamps` draws reusable decorations ("stamps") on a cairo drawing
context. This project models the library's grid stamps and its elbow
connector. It covers both generations of the grid module:

- `grids.py` configures each stamp with a position, a size and an optional
  dash pattern when it is constructed.
- `grid.py` configures each stamp by style alone and passes the rectangle
  `(x, y, width, height)` to every `draw`.

A cairo context is modelled as the sequence of calls made on it. Each
`draw` becomes a pure function from a configuration and a geometry to a
trace of `Trace.Command` values: `save`, `set_source_rgba`,
`set_line_width`, `set_dash`, `new_sub_path`, `move_to`, `line_to`, a
full-circle `arc`, `stroke` and `restore`.

Modules:

- `Trace` (trace.dfy): the commands, the stamp shape `save; style; path;
  stroke; restore`, and the predicates `Scoped` and `NoDash`.
- `Tiling` (tiling.dfy): the loop `cur = start; while cur < bound: emit(cur);
  cur += step`, which every repeating stamp uses. `Positions` follows the
  loop turn by turn. `Position` and `Count` are its closed form: turn k
  visits `start + k*step`, and `Count` says exactly how many turns the loop makes.
- `Hexagons` (hexagons.dfy): one tile of the hexagonal grid.
- `Paths` (paths.dfy): the path each stamp builds. Both generations share
  these paths.
- `Grids` (grids.dfy): the `grids.py` stamps.
- `PositionalGrids` (positional_grids.dfy): the `grid.py` stamps, with
  lemmas relating each one to its `grids.py` counterpart.
- `Connectors` (connectors.dfy): `Orientation` and `ElbowConnector`.

Inputs the model does not compute:

- sin 60 degrees is the parameter `sin60`, constrained by
  `Hexagons.IsSin60`: it is positive and its square is 3/4.
- The bullseye's `sqrt((width/2)**2 + (height/2)**2)` is the parameter
  `hypot`, constrained by `Paths.IsHypot`.

The other cosines and sines of the hexagon's angles are exact rationals,
and the model uses those values exactly.

## Model

| member | source | states |
|---|---|---|
| Trace.DashOrEmpty | rubberstamps/grids.py:19 | `dash or []`: the stored dash list is empty exactly when the argument is `None` or empty; a given list is kept as is |
| Trace.StampScoped | rubberstamps/grids.py:26-44 | save, style calls, path calls, stroke, restore is a scoped trace: it opens with `save`, ends with `stroke` then `restore`, and has exactly one of each; style and path can be read back from their positions |
| Trace.PlainStamp | rubberstamps/grid.py:13-29 | a trace with colour and width and no dash call is scoped, never changes the dash pattern, has the colour at 1 and the width at 2, and holds exactly the path between the style and the stroke |
| Trace.PlainStyle | rubberstamps/grid.py:14-15 | the style of the positional stamps is two style calls, colour then width, and neither is `set_dash` |
| Trace.Polyline | rubberstamps/connectors.py:27-41 | a polyline through n points (n at least 1) is n path commands: `move_to` the first point, then `line_to` each later point in order |
| Tiling.Count | rubberstamps/grids.py:31-35 | the loop makes turn k exactly when its bound admits `start + k*step` |
| Tiling.Positions | rubberstamps/grids.py:70-74 | the loop variable takes `Count` values, and value k is `start + k*step` |
| Tiling.CountShift | rubberstamps/grids.py:70-74 | one turn of the loop, from an admitted start, uses up exactly one of the remaining turns |
| Tiling.PositionsExact | rubberstamps/grids.py:70-74 | the loop visits a value exactly when it is `start + k*step` for some k and the bound admits it; the first refused value ends the loop |
| Tiling.PositionsIncreasing | rubberstamps/grids.py:31-35 | with a positive spacing, later turns have strictly larger values, so no rule is drawn twice |
| Tiling.NoProgressWithoutStep | rubberstamps/grids.py:70-74 | with spacing zero or negative, a loop whose bound admits the start admits every later turn too, so it never ends |
| Paths.EmitPathOnly | rubberstamps/grids.py:31-41 | the body of a rule or ring loop issues path commands only |
| Paths.PairAt | rubberstamps/grids.py:70-74 | turn k of a rule or ring loop issues its two commands at positions 2k and 2k+1 |
| Paths.GridPathAsWritten | rubberstamps/grids.py:31-41 | the grid's path as the source computes it is made of path commands only, two per turn of each loop, the horizontal loop bounded by `x + height` |
| Paths.GridLinesAsWritten | rubberstamps/grids.py:31-41 | as written, the grid's vertical rules are at `x + k*spacing` for exactly the k inside `x + width`, each from `y` to `y + height`; the horizontal rules follow, at `y + k*spacing` for exactly the k with `y + k*spacing < x + height`, each from `x` to `x + width` |
| Paths.GridLines | rubberstamps/grids.py:31-41 | corrected half of the finding below: with the horizontal bound `y + height`, the vertical rules are as written and the horizontal rules are at `y + k*spacing` for exactly the k inside `y + height`, each from `x` to `x + width` |
| Paths.GridExample | rubberstamps/grids.py:31-41 | a 45 by 25 grid at the origin with spacing 20 has rules at x = 0, 20, 40 and at y = 0, 20 |
| Paths.GridRowsInside | rubberstamps/grids.py:37-41 | corrected half of the finding below: with the bound `y + height`, every horizontal rule lies in `[y, y + height)` |
| Paths.GridAsWrittenMatchesOnDiagonal | rubberstamps/grids.py:38 | the bounds `x + height` and `y + height` give the same path when `x == y` |
| Paths.GridRowsEscape | rubberstamps/grids.py:37-41 | with the bound `x + height`, each turn whose `y + k*spacing` lies in `[y + height, x + height)` draws a horizontal rule at or below the rectangle's bottom edge |
| Paths.GridRowsEscapeExample | rubberstamps/grid.py:22-26 | the 10 by 10 rectangle at (100, 0) with spacing 5 has 2 vertical rules, and its horizontal turn 21, at y = 105, is still admitted by the bound `x + height` = 110 |
| Paths.LinesPath | rubberstamps/grids.py:70-74 | the lines loop issues path commands only (its rows are stated by `Paths.LinesRows`) |
| Paths.LinesRows | rubberstamps/grids.py:70-74 | `Lines` draws rule k from `x` to `x + width` at `y + k*spacing` for exactly the k inside `y + height`, and nothing else |
| Paths.LinesPathLineTo | rubberstamps/grids.py:72-73 | every `line_to` of the lines path ends at `x + width`, and the command before it is a `move_to` from `x` at the same height |
| Paths.DotsPath | rubberstamps/grids.py:257-261 | the dots loop issues path commands only (its rows are stated by `Paths.DotsRows`) |
| Paths.DotDash | rubberstamps/grids.py:254 | the dot dash pattern is on for one dot's length, and one period of it is exactly one spacing |
| Paths.DotStyle | rubberstamps/grids.py:253-255 | the dot style is three style calls and no path call (their order is stated by `Grids.DrawDots`) |
| Paths.DotsRows | rubberstamps/grids.py:257-261 | dot row k runs from `x` to `x + width` at `y + dot_size/2 + k*spacing`, for exactly the k whose row is above `y + height` |
| Paths.CartesianPath | rubberstamps/grids.py:150-154 | the axes are two segments: one across the full width at mid height, then one across the full height at mid width |
| Paths.AxesCrossAtCentre | rubberstamps/grids.py:150-154 | the two axes cross at the rectangle's centre, the point the bullseye's rings are drawn about, and each axis is halved there |
| Paths.MaxRadius | rubberstamps/grids.py:216-219 | with overflow the bound is the half diagonal; without it the bound is whichever half extent is smaller |
| Paths.OverflowRingFits | rubberstamps/grids.py:216-226 | with overflow, a ring of radius r fits exactly when r squared is at most `(width/2)^2 + (height/2)^2` |
| Paths.InscribedRingFits | rubberstamps/grids.py:218-226 | without overflow, a ring fits exactly when it fits within both half extents |
| Paths.RingsPath | rubberstamps/grids.py:225-229 | the rings loop issues path commands only, two per admitted radius |
| Paths.RingsRadii | rubberstamps/grids.py:225-229 | ring k is its own sub-path and a full circle about the centre of radius `(k+1)*spacing`, for exactly the k whose radius is at most the bound |
| Paths.BullseyeExample | rubberstamps/grids.py:214-229 | on a 100 by 100 square with spacing 30 the rings are 30 and 60 with overflow, and only 30 without |
| Paths.OriginAt | rubberstamps/grids.py:108-112 | the nested hexagon loop visits tile origin (i, j) at turn `nx*j + i` (`nx` tiles a row), outer loop over rows, inner over columns |
| Paths.TileAt | rubberstamps/grids.py:113-123 | the tile of turn q holds commands `8q` to `8q + 7` |
| Paths.HexPath | rubberstamps/grids.py:108-124 | the two nested tile loops issue path commands only (their layout is stated by `Paths.HexTiles`) |
| Paths.HexTiles | rubberstamps/grids.py:108-124 | the hexagonal grid draws `nx * ny` tiles row by row; tile (i, j) has origin `(x + i*hs, y + j*vs)` and occupies eight consecutive commands |
| Hexagons.Cell | rubberstamps/grids.py:113-122 | one tile is eight path commands (its shape is stated by `Hexagons.CellShape`) |
| Hexagons.CellShape | rubberstamps/grids.py:113-122 | a tile is an open outline through its six vertices in order, never closed back to the first vertex, then a stub from the second vertex `radius/2` to the right |
| Hexagons.Vertices | rubberstamps/grids.py:113-116 | a tile has six vertices, the i-th at the i-th angle of `angles` (grids.py:106) about the origin |
| Hexagons.VerticesOnCircle | rubberstamps/grids.py:113-116 | the six vertices lie on the circle of radius `radius/2` about the tile origin |
| Hexagons.SidesEqual | rubberstamps/grids.py:106-119 | every side of the hexagon, the undrawn one included, is `radius/2` long, so the hexagon is regular |
| Hexagons.StubJoinsNextTile | rubberstamps/grids.py:102-123 | `line_length` is `radius/2`, and the stub ends on a vertex of the next tile in the row |
| Hexagons.VerticalNeighbourSharesEdge | rubberstamps/grids.py:104-124 | a tile's lower edge is the upper edge of the tile one vertical spacing below |
| Grids.LineStyle | rubberstamps/grids.py:27-29 | the style of the grids.py stamps is three style calls and no path call (their order, colour, width, dash, is stated by `Grids.DrawGrid` and the other draws) |
| Grids.MakeGrid | rubberstamps/grids.py:7-20 | the constructor keeps position, size, colour, width and spacing, and stores the dash as `dash or []` |
| Grids.DrawGrid | rubberstamps/grids.py:22-44 | `Grid.draw` is scoped, sets colour, width and dash at positions 1 to 3, then draws exactly the grid path as written, horizontal loop bounded by `x + height` |
| Grids.GridDefaults | rubberstamps/grids.py:11-14 | with every default the grid is half-transparent grey, one unit wide and solid, with rules 20 apart |
| Grids.MakeLines | rubberstamps/grids.py:47-60 | the constructor keeps its fields and stores `dash or []` |
| Grids.DrawLines | rubberstamps/grids.py:62-76 | `Lines.draw` is scoped, sets colour, width and dash, then draws exactly the lines path |
| Grids.LinesOnlyHorizontal | rubberstamps/grids.py:70-76 | every `line_to` of the `Lines` trace stays at the height of the `move_to` just before it, going from `x` to `x + width` |
| Grids.MakeHexagonalGrid | rubberstamps/grids.py:79-92 | the constructor keeps its fields and stores `dash or []` |
| Grids.DrawHexagonalGrid | rubberstamps/grids.py:94-126 | `HexagonalGrid.draw` is scoped, sets colour, width and dash, then draws exactly the tiles |
| Grids.MakeCartesianCoordinates | rubberstamps/grids.py:129-140 | the constructor keeps its fields and stores `dash or []` |
| Grids.DrawCartesianCoordinates | rubberstamps/grids.py:142-156 | `CartesianCoordinates.draw` makes exactly ten calls: the scoped style, then the two axes |
| Grids.MakeBullseye | rubberstamps/grids.py:192-207 | the constructor keeps its fields, overflow included, and stores `dash or []` |
| Grids.DrawBullseye | rubberstamps/grids.py:209-232 | `Bullseye.draw` is scoped, sets colour, width and dash, then draws the rings about the rectangle's centre, bounded by `max_radius` |
| Grids.MakeDots | rubberstamps/grids.py:235-246 | the constructor keeps position, size, colour, dot size and spacing as given, with no dash field |
| Grids.DrawDots | rubberstamps/grids.py:248-263 | `Dots.draw` is scoped and sets the colour, the dot dash pattern and then a width of one dot, in that order, before the rows of dots |
| PositionalGrids.DrawGrid | rubberstamps/grid.py:12-29 | the positional `Grid.draw` is scoped, never sets a dash, sets colour and width, then draws the grid path as written for the given rectangle, horizontal loop bounded by `x + height` |
| PositionalGrids.DrawLines | rubberstamps/grid.py:38-48 | the positional `Lines.draw` is scoped and dash free, and draws the lines path |
| PositionalGrids.DrawHexagonalGrid | rubberstamps/grid.py:57-86 | the positional `HexagonalGrid.draw` is scoped and dash free, and draws the tiles |
| PositionalGrids.DrawCartesianCoordinates | rubberstamps/grid.py:94-104 | the positional `CartesianCoordinates.draw` makes exactly nine calls: a scoped, dash-free style, then the two axes |
| PositionalGrids.DrawBullseye | rubberstamps/grid.py:132-151 | the positional `Bullseye.draw` is scoped and dash free, and draws the rings about the centre |
| PositionalGrids.MakePolarCoordinates | rubberstamps/grid.py:107-114 | the axes and the bullseye share one colour and one line width, and the bullseye takes the spacing and overflow |
| PositionalGrids.DrawPolarCoordinates | rubberstamps/grid.py:116-118 | polar coordinates are the scoped axes trace then the scoped rings trace for the same rectangle: the axes' colour and width at calls 1 and 2, the bullseye's at calls 10 and 11, the axes at 3 to 6, the rings from 12 on, with two saves, two strokes, two restores and no dash call |
| PositionalGrids.DrawDots | rubberstamps/grid.py:160-172 | the positional `Dots.draw` is scoped and sets colour, the dot dash pattern and then the width, before the rows of dots |
| PositionalGrids.DashInserted | rubberstamps/grid.py:13-15 | a stamp with a dash call is the same stamp without it, plus one `set_dash` right after the line width |
| PositionalGrids.GridGenerations | rubberstamps/grid.py:6-29 | the two generations' grids, configured alike, differ by one `set_dash` call |
| PositionalGrids.LinesGenerations | rubberstamps/grid.py:32-48 | the two generations' lines differ by one `set_dash` call |
| PositionalGrids.HexagonalGridGenerations | rubberstamps/grid.py:51-86 | the two generations' hexagonal grids differ by one `set_dash` call |
| PositionalGrids.CartesianGenerations | rubberstamps/grid.py:89-104 | the two generations' axes differ by one `set_dash` call |
| PositionalGrids.BullseyeGenerations | rubberstamps/grid.py:121-151 | the two generations' bullseyes differ by one `set_dash` call |
| PositionalGrids.DotsGenerations | rubberstamps/grid.py:154-172 | the two generations' dots draw the same trace, with `size` standing for `dot_size` |
| Connectors.ElbowPoints | rubberstamps/connectors.py:27-41 | the connector visits 2 points when start and end share an x or a y, and 4 points otherwise; it begins at start, ends at end, and every segment is axis-parallel |
| Connectors.DrawElbow | rubberstamps/connectors.py:22-44 | `ElbowConnector.draw` is scoped and dash free, sets colour and width, then draws the polyline through the elbow points |
| Connectors.ElbowTraceEnds | rubberstamps/connectors.py:27-41 | the path starts with `move_to(start)` and ends with `line_to(end)`; the trace is 7 calls long exactly when start and end share an axis |
| Connectors.StraightWhenAligned | rubberstamps/connectors.py:28-29 | aligned endpoints give the straight segment, whatever the orientation |
| Connectors.HorizontalShape | rubberstamps/connectors.py:31-35 | horizontal first: along `start.y` to the bend at fraction `elbow_at` of the x distance, across to `end.y`, then to the end |
| Connectors.VerticalShape | rubberstamps/connectors.py:37-41 | vertical first: the same with x and y exchanged |
| Connectors.BendBetween | rubberstamps/connectors.py:32 | with `elbow_at` in [0, 1], the bend lies between the start and end coordinates |
| Connectors.ElbowExample | rubberstamps/connectors.py:31-35 | from (0, 0) to (100, 40), horizontal first at 0.5, the connector visits (50, 0) and (50, 40) |
| Connectors.ElbowReversed | rubberstamps/connectors.py:27-41 | drawing from end to start with the bend at `1 - elbow_at` visits the same points in reverse order |
| Connectors.VerticalIsTransposedHorizontal | rubberstamps/connectors.py:31-41 | vertical first is horizontal first reflected in the diagonal |
| Connectors.ElbowShortest | rubberstamps/connectors.py:27-41 | with `elbow_at` in [0, 1], the connector never doubles back: its taxicab length equals the taxicab distance from start to end |

## Left out

- The cairo context is not modelled. The model covers which calls are made,
  in which order and with which arguments, but not what they render. The
  arc's fixed angles `0` to `2*pi` are implied by the `Arc` command.
- `sin`, `cos` and `sqrt` are not computed. sin 60 degrees and the half
  diagonal are parameters constrained by their defining equations (see
  above); all the other cosines and sines of the hexagon are exact.
- Floating point is not modelled. `cur += spacing` is exact real arithmetic
  (turn k is `start + k*spacing`). The source's accumulated rounding can add
  or drop a final rule or ring near the bound. Worse, when the spacing is
  below the rounding step of the coordinate (for example `x = 1e17` with
  spacing 1), `cur += spacing` leaves `cur` unchanged and the source loops
  forever, whereas `Tiling.Count` is finite for every positive spacing.
- Every tiling stamp requires a positive spacing (the hexagonal grid a
  positive radius). With a spacing of zero or less, a loop whose bound
  admits its start never ends (`Tiling.NoProgressWithoutStep`), but a loop
  whose bound rejects the start finishes at once with no commands. Those
  finite cases are excluded by the same `requires` and not modelled:
- Grids.DrawLines, PositionalGrids.DrawLines: spacing <= 0 with
  `height <= 0` (grids.py:71, grid.py:43) draws an empty path.
- Grids.DrawDots, PositionalGrids.DrawDots: spacing <= 0 with
  `height <= dot_size / 2` (grids.py:258) draws an empty path.
- Grids.DrawGrid, PositionalGrids.DrawGrid: spacing <= 0 with
  `width <= 0` and `y >= x + height` (grids.py:32 and 38) draws an empty
  path.
- Grids.DrawBullseye, PositionalGrids.DrawBullseye: spacing <= 0 with
  `spacing > max_radius` (grids.py:226), possible when the rectangle has a
  negative side and `overflow` is off, draws no ring.
- Grids.DrawHexagonalGrid, PositionalGrids.DrawHexagonalGrid: a radius
  <= 0 with `height + sin60*radius <= 0` (grids.py:109), for example
  radius -100 and height 50, draws no tile.
- The `PolarCoordinates` class of `grids.py` is not modelled. Its
  constructor reads the undefined name `posiition` (grids.py:171 and 177),
  so constructing one always raises `NameError`, and no trace exists. The
  `grid.py` `PolarCoordinates` is modelled.
- Argument validation is not modelled. Colours, line widths and dash lists
  (including a negative off length when `dot_size > spacing`) are passed on
  as given, whatever cairo would make of them.
- `Orientation` values other than `HORIZONTAL` and `VERTICAL` are not
  modelled. The datatype has exactly those two, and the source's `else`
  branch is `Vertical`.

## Findings

| source | as written | input that shows it | evidently intended | confidence | as-written member | corrected member |
|---|---|---|---|---|---|---|
| rubberstamps/grids.py:38 and rubberstamps/grid.py:23 | the horizontal loop of `Grid.draw` runs `while cur_y < x + height` | a 10 by 10 grid at (100, 0) with spacing 5: the loop keeps drawing horizontal rules down to y = 105, far below the bottom edge y = 10 | `while cur_y < y + height`, as in `Lines.draw` (grids.py:71) | not executed | Paths.GridPathAsWritten | Paths.GridPath |

The draw functions of both generations (`Grids.DrawGrid`,
`PositionalGrids.DrawGrid`) follow the source and build on
`Paths.GridPathAsWritten`, whose rules `Paths.GridLinesAsWritten` states.
`Paths.GridRowsEscape` and `Paths.GridRowsEscapeExample` exhibit the
discrepancy on that path. `Paths.GridPath` is the corrected path:
`Paths.GridLines` and `Paths.GridRowsInside` prove the intended property
about it, that every horizontal rule lies inside the rectangle.
The two bounds agree whenever `x == y`, for example at the origin
(`Paths.GridAsWrittenMatchesOnDiagonal`).
