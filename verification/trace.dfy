/**
  Drawing commands as plain values.

  Every stamp of the library issues calls on a cairo drawing context. The
  model replaces the context by the sequence of calls a `draw` makes, one
  `Command` per call, so that each `draw` becomes a pure function from its
  configuration and geometry to a trace.
 */
module Trace {

  /** A colour as the four channels handed to `set_source_rgba`. */
  datatype Rgba = Rgba(r: real, g: real, b: real, a: real)

  /** A point of the plane. */
  datatype Point = Point(x: real, y: real)

  /** Python's `None` or a value. */
  datatype Option<T> = None | Some(value: T)

  /** One call on the drawing context. `Arc` always stands for the full
      circle `arc(xc, yc, radius, 0, 2*pi)`, the only arc the stamps draw. */
  datatype Command =
    | Save
    | Restore
    | SetSourceRgba(color: Rgba)
    | SetLineWidth(width: real)
    | SetDash(dashes: seq<real>)
    | NewSubPath
    | MoveTo(x: real, y: real)
    | LineTo(x: real, y: real)
    | Arc(xc: real, yc: real, radius: real)
    | Stroke

  /** Commands that build the current path. */
  predicate IsPath(c: Command) {
    c.NewSubPath? || c.MoveTo? || c.LineTo? || c.Arc?
  }

  /** Commands that change the stroke style. */
  predicate IsStyle(c: Command) {
    c.SetSourceRgba? || c.SetLineWidth? || c.SetDash?
  }

  predicate PathOnly(cs: seq<Command>) {
    forall i :: 0 <= i < |cs| ==> IsPath(cs[i])
  }

  predicate StyleOnly(cs: seq<Command>) {
    forall i :: 0 <= i < |cs| ==> IsStyle(cs[i])
  }

  /** A trace whose style changes are scoped: it saves the context first,
      restores it last, strokes exactly once just before restoring, and
      saves and restores nowhere else. */
  predicate Scoped(t: seq<Command>) {
    && |t| >= 3
    && t[0] == Save
    && t[|t| - 2] == Stroke
    && t[|t| - 1] == Restore
    && multiset(t)[Save] == 1
    && multiset(t)[Stroke] == 1
    && multiset(t)[Restore] == 1
  }

  /** The shape every `draw` of the library has: save, set the style,
      build the path, stroke it once, restore. */
  function Stamp(style: seq<Command>, path: seq<Command>): seq<Command> {
    [Save] + style + path + [Stroke, Restore]
  }

  /** A stamp built from style commands and path commands is scoped, and
      its style and path can be read back from fixed positions. */
  lemma StampScoped(style: seq<Command>, path: seq<Command>)
    requires StyleOnly(style)
    requires PathOnly(path)
    ensures Scoped(Stamp(style, path))
    ensures Stamp(style, path)[1..|style| + 1] == style
    ensures Stamp(style, path)[|style| + 1..|Stamp(style, path)| - 2] == path
  {
    var t := Stamp(style, path);
    assert Save !in style && Stroke !in style && Restore !in style;
    assert Save !in path && Stroke !in path && Restore !in path;
    assert multiset(t) == multiset([Save]) + multiset(style) + multiset(path) + multiset([Stroke, Restore]);
    assert t[1..|style| + 1] == style;
    assert t[|style| + 1..|t| - 2] == path;
  }

  /** No call of the trace changes the dash pattern. */
  predicate NoDash(t: seq<Command>) {
    forall i :: 0 <= i < |t| ==> !t[i].SetDash?
  }

  /** A stamp's trace with a three-call style: scoped, with that style at
      positions 1 to 3 and then exactly `path` up to the stroke. */
  lemma StyledStamp(style: seq<Command>, path: seq<Command>)
    requires StyleOnly(style) && |style| == 3
    requires PathOnly(path)
    ensures var t := Stamp(style, path);
            && Scoped(t)
            && t[1] == style[0] && t[2] == style[1] && t[3] == style[2]
            && t[4..|t| - 2] == path
  {
    StampScoped(style, path);
    var t := Stamp(style, path);
    assert t[1..4] == style;
  }

  /** Past a three-call style, position i of a stamp holds the path's
      command i - 4. */
  lemma StampPathAt(style: seq<Command>, path: seq<Command>, i: nat)
    requires |style| == 3
    requires 4 <= i < |Stamp(style, path)| - 2
    ensures Stamp(style, path)[i] == path[i - 4]
  {
  }

  /** The style calls of the stamps that set no dash pattern: colour, then
      line width. */
  function PlainStyle(color: Rgba, lineWidth: real): (s: seq<Command>)
    ensures StyleOnly(s) && NoDash(s) && |s| == 2
  {
    [SetSourceRgba(color), SetLineWidth(lineWidth)]
  }

  /** A stamp with the plain style is scoped, never touches the dash
      pattern, and holds exactly `path` between the style and the stroke. */
  lemma PlainStamp(color: Rgba, lineWidth: real, path: seq<Command>)
    requires PathOnly(path)
    ensures var t := Stamp(PlainStyle(color, lineWidth), path);
            && Scoped(t) && NoDash(t)
            && t[1] == SetSourceRgba(color) && t[2] == SetLineWidth(lineWidth)
            && t[3..|t| - 2] == path
  {
    var style := PlainStyle(color, lineWidth);
    StampScoped(style, path);
    var t := Stamp(style, path);
    assert t[1..3] == style;
    forall i | 0 <= i < |t|
      ensures !t[i].SetDash?
    {
      StampNoDashAt(style, path, i);
    }
  }

  /** A stamp's calls that are neither its style nor its path are `save`,
      `stroke` and `restore`, so a dash change can only come from those. */
  lemma StampNoDashAt(style: seq<Command>, path: seq<Command>, i: nat)
    requires NoDash(style) && PathOnly(path)
    requires i < |Stamp(style, path)|
    ensures !Stamp(style, path)[i].SetDash?
  {
    var t := Stamp(style, path);
    if 1 <= i < |style| + 1 {
      assert t[i] == style[i - 1];
    } else if |style| + 1 <= i < |t| - 2 {
      assert t[i] == path[i - |style| - 1];
      assert IsPath(path[i - |style| - 1]);
    }
  }
  /** `line_to` through each point in turn. */
  function LineTos(ps: seq<Point>): (cs: seq<Command>)
    ensures |cs| == |ps|
    ensures forall i :: 0 <= i < |ps| ==> cs[i] == LineTo(ps[i].x, ps[i].y)
  {
    if |ps| == 0 then [] else [LineTo(ps[0].x, ps[0].y)] + LineTos(ps[1..])
  }

  /** An open polyline: `move_to` the first point, then `line_to` each
      later one. */
  function Polyline(ps: seq<Point>): (cs: seq<Command>)
    requires |ps| >= 1
    ensures |cs| == |ps| && PathOnly(cs)
    ensures cs[0] == MoveTo(ps[0].x, ps[0].y)
    ensures forall i :: 1 <= i < |ps| ==> cs[i] == LineTo(ps[i].x, ps[i].y)
  {
    [MoveTo(ps[0].x, ps[0].y)] + LineTos(ps[1..])
  }

  /** `dash or []`: a missing dash list, like an empty one, means a solid
      line. */
  function DashOrEmpty(dash: Option<seq<real>>): (d: seq<real>)
    ensures d == [] <==> dash == None || dash == Some([])
    ensures dash.Some? ==> d == dash.value
  {
    match dash
    case None => []
    case Some(ds) => ds
  }

  /** The default colour of every stamp: half-transparent grey. */
  const DefaultColor: Rgba := Rgba(0.5, 0.5, 0.5, 0.5)
}
