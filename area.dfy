/**
 * The area chart: two filled bands over the rows in their given order, the
 * `open` band from the baseline up to `open` and the `close` band from
 * `open` to `close`, on scales sized from the chart's measured dimensions.
 */
module AreaChart {
  import opened Basics

  const MarginTop: real := 20.0
  const MarginRight: real := 30.0
  const MarginBottom: real := 30.0
  const MarginLeft: real := 40.0

  /** The measured size of the SVG element. */
  datatype Dimensions = Dimensions(width: real, height: real)

  /**
   * The scale ranges for given dimensions: the x scale runs from the left
   * margin to the right margin, the y scale from the bottom margin up to the
   * top margin (pixel y grows downwards).
   */
  function PlotRanges(dims: Dimensions): (r: Ranges)
    ensures r.x0 == MarginLeft && dims.width - r.x1 == MarginRight
    ensures dims.height - r.y0 == MarginBottom && r.y1 == MarginTop
    ensures r.x1 - r.x0 == dims.width - 70.0 && r.y0 - r.y1 == dims.height - 50.0
  {
    Ranges(MarginLeft, dims.width - MarginRight, dims.height - MarginBottom, MarginTop)
  }

  /** The dimensions state of the chart, kept up to date from the element's bounding box. */
  class Surface {
    var dims: Dimensions

    /** Before the first measurement the chart assumes 928 x 100. */
    constructor ()
      ensures dims == Dimensions(928.0, 100.0)
      ensures PlotRanges(dims) == Ranges(40.0, 898.0, 70.0, 20.0)
    {
      dims := Dimensions(928.0, 100.0);
    }

    /**
     * `updateDimensions`: takes the element's bounding box when the element
     * is mounted (`Some`), and keeps the previous size otherwise.
     */
    method UpdateDimensions(rect: Option<Dimensions>)
      modifies this
      ensures dims == if rect.Some? then rect.value else old(dims)
    {
      if rect.Some? {
        dims := rect.value;
      }
    }
  }

  /**
   * `d3.max(data, d => Math.max(d.open, d.close))`: the top of the y domain,
   * undefined for no rows, otherwise the largest `open` or `close` value.
   */
  function YDomainTop(data: seq<Quote>): (m: Option<real>)
    ensures m.None? <==> |data| == 0
    ensures m.Some? ==> exists i :: 0 <= i < |data| && m.value == Max(data[i].open, data[i].close)
    ensures m.Some? ==> forall i :: 0 <= i < |data| ==> data[i].open <= m.value && data[i].close <= m.value
    decreases |data|
  {
    if data == [] then None
    else
      var rest := YDomainTop(data[..|data| - 1]);
      var last := data[|data| - 1];
      var v := Max(last.open, last.close);
      if rest.None? || rest.value < v then Some(v) else rest
  }

  /** One vertex of a band: its x and its lower (`y0`) and upper (`y1`) edges. */
  datatype BandVertex = BandVertex(x: real, y0: real, y1: real)

  /** `areaOpen`: at each row's date, from the baseline `y(0)` to `y(open)`. */
  function OpenBand(data: seq<Quote>, x: int -> real, y: real -> real): (band: seq<BandVertex>)
    ensures |band| == |data|
    ensures forall i :: 0 <= i < |data| ==> band[i] == BandVertex(x(data[i].date), y(0.0), y(data[i].open))
  {
    seq(|data|, i requires 0 <= i < |data| => BandVertex(x(data[i].date), y(0.0), y(data[i].open)))
  }

  /** `areaClose`: at each row's date, from `y(open)` to `y(close)`. */
  function CloseBand(data: seq<Quote>, x: int -> real, y: real -> real): (band: seq<BandVertex>)
    ensures |band| == |data|
    ensures forall i :: 0 <= i < |data| ==> band[i] == BandVertex(x(data[i].date), y(data[i].open), y(data[i].close))
  {
    seq(|data|, i requires 0 <= i < |data| => BandVertex(x(data[i].date), y(data[i].open), y(data[i].close)))
  }

  /**
   * Both bands have one vertex per row, in the rows' order, at the row's
   * date; the `close` band's lower edge is the `open` band's upper edge.
   */
  lemma BandsShareEdge(data: seq<Quote>, x: int -> real, y: real -> real, i: nat)
    requires i < |data|
    ensures |OpenBand(data, x, y)| == |CloseBand(data, x, y)| == |data|
    ensures OpenBand(data, x, y)[i].x == CloseBand(data, x, y)[i].x == x(data[i].date)
    ensures CloseBand(data, x, y)[i].y0 == OpenBand(data, x, y)[i].y1
    ensures OpenBand(data, x, y)[i].y0 == y(0.0)
  {
  }

  /**
   * The `close` band is not clamped: where `close` is below `open` its upper
   * edge is `y(close)`, on or below its lower edge on the screen.
   */
  lemma CloseBandMayCross(data: seq<Quote>, x: int -> real, y: real -> real, i: nat)
    requires DecreasingOnValues(y)
    requires i < |data| && data[i].close < data[i].open
    ensures CloseBand(data, x, y)[i].y1 == y(data[i].close)
    ensures CloseBand(data, x, y)[i].y1 >= CloseBand(data, x, y)[i].y0
  {
  }

  /**
   * With non-negative rows and a y scale that maps `[0, top]` into the
   * vertical range, every edge of both bands stays between the bottom and
   * top margins: the domain `[0, top]` covers every plotted value.
   */
  lemma {:induction false} BandsInsidePlot(data: seq<Quote>, dims: Dimensions, x: int -> real, y: real -> real, top: real, i: nat)
    requires NonNegative(data)
    requires YDomainTop(data) == Some(top)
    requires forall v :: 0.0 <= v <= top ==> Between(y(v), PlotRanges(dims).y0, PlotRanges(dims).y1)
    requires i < |data|
    ensures Between(OpenBand(data, x, y)[i].y0, dims.height - 30.0, 20.0)
    ensures Between(OpenBand(data, x, y)[i].y1, dims.height - 30.0, 20.0)
    ensures Between(CloseBand(data, x, y)[i].y0, dims.height - 30.0, 20.0)
    ensures Between(CloseBand(data, x, y)[i].y1, dims.height - 30.0, 20.0)
  {
  }
}
