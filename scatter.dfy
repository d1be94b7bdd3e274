/**
 * The scatter chart: one symbol per data point on the chart's baseline
 * `y(0)`, its shape and fill chosen per point with chart-wide fallbacks, and
 * a tooltip showing the two points nearest to the pointer.
 */
module ScatterPlot {
  import opened Basics
  import opened NearestPoint

  /**
   * A symbol type.  d3 accepts any object with a `draw` method; the model
   * names d3's seven filled symbols and stands for any other symbol type by
   * `Custom(id)`, an identity it only passes along.
   */
  datatype Symbol = Circle | Cross | Diamond | Square | Star | Triangle | Wye | Custom(id: nat)

  /** A data point: its position, an optional symbol and an optional colour override. */
  datatype ScatterPoint = ScatterPoint(x: real, species: Option<Symbol>, color: Option<string>)

  /** The accessor `d => d.x` used both for marks and for the nearest-pair scan. */
  function PointX(d: ScatterPoint): real {
    d.x
  }

  const DefaultShape := Circle
  const DefaultColor := "#3B82F6"

  /** The chart's `shape` and `color` props, `None` where the caller leaves them undefined. */
  datatype Props = Props(shape: Option<Symbol>, color: Option<string>)

  /**
   * `getShape`: the point's own symbol when it has one, else the `shape`
   * prop, which is a circle unless the caller chose another.
   */
  function Shape(d: ScatterPoint, props: Props): (s: Symbol)
    ensures d.species.Some? ==> s == d.species.value
    ensures d.species.None? && props.shape.Some? ==> s == props.shape.value
    ensures d.species.None? && props.shape.None? ==> s == Circle
  {
    if d.species.Some? then d.species.value else props.shape.GetOr(DefaultShape)
  }

  /**
   * The fill `d.color || color`: the point's colour when truthy, else the
   * `color` prop (which may itself be empty when the caller passes "").
   */
  function Fill(d: ScatterPoint, props: Props): (fill: string)
    ensures Truthy(d.color) ==> fill == d.color.value
    ensures !Truthy(d.color) && props.color.Some? ==> fill == props.color.value
    ensures !Truthy(d.color) && props.color.None? ==> fill == "#3B82F6"
  {
    if Truthy(d.color) then d.color.value else props.color.GetOr(DefaultColor)
  }

  /** What is drawn for one point: a symbol with a fill, translated to one anchor. */
  datatype ScatterMark = ScatterMark(at: Pixel, fill: string, shape: Symbol)

  /** The marks of all points, in data order, for scales `x` and `y`. */
  function Marks(data: seq<ScatterPoint>, props: Props, x: real -> real, y: real -> real): (marks: seq<ScatterMark>)
    ensures |marks| == |data|
    ensures forall i :: 0 <= i < |data| ==>
      && marks[i].at == Pixel(x(data[i].x), y(0.0))
      && marks[i].fill == Fill(data[i], props)
      && marks[i].shape == Shape(data[i], props)
  {
    seq(|data|, i requires 0 <= i < |data| =>
      ScatterMark(Pixel(x(data[i].x), y(0.0)), Fill(data[i], props), Shape(data[i], props)))
  }

  /** Every mark sits on the same horizontal line, whatever its data. */
  lemma MarksShareBaseline(data: seq<ScatterPoint>, props: Props, x: real -> real, y: real -> real, i: nat, j: nat)
    requires i < |data| && j < |data|
    ensures Marks(data, props, x, y)[i].at.y == Marks(data, props, x, y)[j].at.y
  {
  }

  /**
   * Without per-point symbols every mark takes the `shape` prop, a circle
   * when the caller leaves it undefined; the points' colours play no part.
   */
  lemma UniformShapeByDefault(data: seq<ScatterPoint>, props: Props, x: real -> real, y: real -> real, i: nat)
    requires i < |data|
    requires forall k :: 0 <= k < |data| ==> data[k].species.None?
    ensures Marks(data, props, x, y)[i].shape == props.shape.GetOr(Circle)
    ensures props.shape.None? ==> Marks(data, props, x, y)[i].shape == Circle
  {
  }

  /**
   * Without a truthy per-point colour (absent or "") every mark takes the
   * `color` prop, `#3B82F6` when the caller leaves it undefined; the
   * points' symbols play no part.
   */
  lemma UniformFillByDefault(data: seq<ScatterPoint>, props: Props, x: real -> real, y: real -> real, i: nat)
    requires i < |data|
    requires forall k :: 0 <= k < |data| ==> !Truthy(data[k].color)
    ensures Marks(data, props, x, y)[i].fill == props.color.GetOr("#3B82F6")
    ensures props.color.None? ==> Marks(data, props, x, y)[i].fill == "#3B82F6"
  {
  }

  /** The tooltip state cell `{ visible, x, y, data? }`; `data` holds the nearest pair by index. */
  class Tooltip {
    var visible: bool
    var x: real
    var y: real
    var data: Option<Closest>

    /** The initial state `{ visible: false, x: 0, y: 0 }`. */
    constructor ()
      ensures !visible && x == 0.0 && y == 0.0 && data == None
    {
      visible, x, y, data := false, 0.0, 0.0, None;
    }

    /**
     * The `mousemove` handler: with a nearest pair the tooltip shows at
     * `(mouseX + 10, 10)`; on empty data it is reset.
     */
    method OnMove(points: seq<ScatterPoint>, scale: real -> real, mouseX: real)
      modifies this
      ensures visible <==> |points| > 0
      ensures |points| > 0 ==> x == mouseX + 10.0 && y == 10.0 && data.Some?
      ensures |points| > 0 ==> IsClosestPair(points, PointX, scale, mouseX, |points|, data.value)
      ensures |points| == 0 ==> x == 0.0 && y == 0.0 && data == None
    {
      var closest := Nearest(points, PointX, scale, mouseX);
      if closest.left.Some? || closest.right.Some? {
        visible, x, y, data := true, mouseX + 10.0, 10.0, Some(closest);
      } else {
        visible, x, y, data := false, 0.0, 0.0, None;
      }
    }

    /** The `mouseleave` handler: back to `{ visible: false, x: 0, y: 0 }`, whatever came before. */
    method OnLeave()
      modifies this
      ensures !visible && x == 0.0 && y == 0.0 && data == None
    {
      visible, x, y, data := false, 0.0, 0.0, None;
    }
  }
}
