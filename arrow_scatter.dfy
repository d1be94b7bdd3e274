/**
 * The arrow scatter chart: one circle with an up or down arrow per data
 * point, all drawn on the chart's baseline `y(0)`, and a tooltip showing the
 * two points nearest to the pointer.
 */
module ArrowScatterPlot {
  import opened Basics
  import opened NearestPoint

  datatype Arrow = Up | Down

  /** A data point: its position, its arrow direction and an optional colour override. */
  datatype ArrowPoint = ArrowPoint(x: real, arrow: Arrow, color: Option<string>)

  /** The accessor `d => d.x` used both for marks and for the nearest-pair scan. */
  function PointX(d: ArrowPoint): real {
    d.x
  }

  /** The `color` prop: one fill per arrow direction. */
  datatype Palette = Palette(up: string, down: string) {
    function For(a: Arrow): string {
      match a
      case Up => up
      case Down => down
    }
  }

  const DefaultPalette := Palette("#059669", "#F87171")

  /** The `color` prop after its default applies (only when the caller leaves it undefined). */
  function PaletteProp(color: Option<Palette>): (p: Palette)
    ensures color.None? ==> p == DefaultPalette
    ensures color.Some? ==> p == color.value
  {
    color.GetOr(DefaultPalette)
  }

  /** The commands of an SVG path, in the relative-free subset the arrow glyphs use. */
  datatype PathCommand =
    | MoveTo(mx: int, my: int)
    | LineTo(lx: int, ly: int)
    | HorizontalTo(hx: int)
    | VerticalTo(vy: int)
    | ClosePath

  /** "M0,-5 L-4,0 H-2 V5 H2 V0 H4 Z": an arrow pointing up (pixel y grows downwards). */
  const UpArrowPath: seq<PathCommand> :=
    [MoveTo(0, -5), LineTo(-4, 0), HorizontalTo(-2), VerticalTo(5), HorizontalTo(2), VerticalTo(0), HorizontalTo(4), ClosePath]

  /** "M0,5 L4,0 H2 V-5 H-2 V0 H-4 Z": an arrow pointing down. */
  const DownArrowPath: seq<PathCommand> :=
    [MoveTo(0, 5), LineTo(4, 0), HorizontalTo(2), VerticalTo(-5), HorizontalTo(-2), VerticalTo(0), HorizontalTo(-4), ClosePath]

  function RotateCommand(c: PathCommand): PathCommand {
    match c
    case MoveTo(x, y) => MoveTo(-x, -y)
    case LineTo(x, y) => LineTo(-x, -y)
    case HorizontalTo(x) => HorizontalTo(-x)
    case VerticalTo(y) => VerticalTo(-y)
    case ClosePath => ClosePath
  }

  /** A path turned half a turn about the mark's anchor. */
  function Rotate180(path: seq<PathCommand>): seq<PathCommand> {
    seq(|path|, i requires 0 <= i < |path| => RotateCommand(path[i]))
  }

  /** The two glyphs are one arrow turned half a turn about the anchor, each the turn of the other. */
  lemma ArrowGlyphsAreHalfTurns()
    ensures Rotate180(UpArrowPath) == DownArrowPath
    ensures Rotate180(DownArrowPath) == UpArrowPath
  {
  }

  /** The circle fill: the point's own colour when truthy, else the palette entry for its direction. */
  function Fill(d: ArrowPoint, palette: Palette): (fill: string)
    ensures Truthy(d.color) ==> fill == d.color.value
    ensures !Truthy(d.color) ==> fill == palette.For(d.arrow)
  {
    if Truthy(d.color) then d.color.value else palette.For(d.arrow)
  }

  /** The arrow glyph: the down glyph exactly for a down arrow. */
  function Glyph(a: Arrow): (path: seq<PathCommand>)
    ensures path == DownArrowPath <==> a == Down
    ensures path == UpArrowPath <==> a == Up
  {
    // The two glyphs start at different points, so they differ.
    assert UpArrowPath[0] != DownArrowPath[0];
    match a
    case Down => DownArrowPath
    case Up => UpArrowPath
  }

  /**
   * What is drawn for one point: a circle of radius 10 and a white arrow, at
   * one anchor.  The chart appends all circles first and all arrows after,
   * so every arrow paints over every circle; the mark pairs the two and does
   * not record that paint order.
   */
  datatype ArrowMark = ArrowMark(at: Pixel, fill: string, radius: int, glyph: seq<PathCommand>, glyphFill: string)

  /** The marks of all points, in data order, for scales `x` and `y` and the `color` prop. */
  function Marks(data: seq<ArrowPoint>, color: Option<Palette>, x: real -> real, y: real -> real): (marks: seq<ArrowMark>)
    ensures |marks| == |data|
    ensures forall i :: 0 <= i < |data| ==>
      && marks[i].at == Pixel(x(data[i].x), y(0.0))
      && marks[i].fill == Fill(data[i], PaletteProp(color))
      && marks[i].radius == 10
      && marks[i].glyph == Glyph(data[i].arrow)
      && marks[i].glyphFill == "white"
  {
    seq(|data|, i requires 0 <= i < |data| =>
      ArrowMark(Pixel(x(data[i].x), y(0.0)), Fill(data[i], PaletteProp(color)), 10, Glyph(data[i].arrow), "white"))
  }

  /** Every mark sits on the same horizontal line, whatever its data. */
  lemma MarksShareBaseline(data: seq<ArrowPoint>, color: Option<Palette>, x: real -> real, y: real -> real, i: nat, j: nat)
    requires i < |data| && j < |data|
    ensures Marks(data, color, x, y)[i].at.y == Marks(data, color, x, y)[j].at.y
  {
  }

  /** Marks keep the left-to-right order of their points' `x` under an increasing scale. */
  lemma MarksFollowX(data: seq<ArrowPoint>, color: Option<Palette>, x: real -> real, y: real -> real, i: nat, j: nat)
    requires IncreasingOnValues(x)
    requires i < |data| && j < |data| && data[i].x <= data[j].x
    ensures Marks(data, color, x, y)[i].at.x <= Marks(data, color, x, y)[j].at.x
  {
  }

  /**
   * Without an override and with the default palette, the circle's colour
   * tells the direction: green exactly for up, red exactly for down.
   */
  lemma DefaultFillShowsDirection(d: ArrowPoint)
    requires !Truthy(d.color)
    ensures Fill(d, PaletteProp(None)) == "#059669" <==> d.arrow == Up
    ensures Fill(d, PaletteProp(None)) == "#F87171" <==> d.arrow == Down
  {
  }

  /** The tooltip state cell `{ visible, x, data? }`; `data` holds the nearest pair by index. */
  class Tooltip {
    var visible: bool
    var x: real
    var data: Option<Closest>

    /** The initial state `{ visible: false, x: 0 }`. */
    constructor ()
      ensures !visible && x == 0.0 && data == None
    {
      visible, x, data := false, 0.0, None;
    }

    /** The `mousemove` handler: scan the points with the current x scale, then store the result. */
    method OnMove(points: seq<ArrowPoint>, scale: real -> real, mouseX: real)
      modifies this
      ensures visible <==> |points| > 0
      ensures x == if |points| > 0 then mouseX + 10.0 else 0.0
      ensures data.Some? && IsClosestPair(points, PointX, scale, mouseX, |points|, data.value)
    {
      var closest := Nearest(points, PointX, scale, mouseX);
      var found := closest.left.Some? || closest.right.Some?;
      visible := found;
      x := if found then mouseX + 10.0 else 0.0;
      data := Some(closest);
    }

    /** The `mouseleave` handler: back to `{ visible: false, x: 0 }`, whatever came before. */
    method OnLeave()
      modifies this
      ensures !visible && x == 0.0 && data == None
    {
      visible, x, data := false, 0.0, None;
    }
  }
}
