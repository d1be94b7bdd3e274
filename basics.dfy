/**
 * Shared vocabulary of the chart components: optional values (JavaScript's
 * `undefined`/`null`), truthiness of optional strings, absolute value, and
 * the time-series record used by the area and stacked-bar charts.
 */
module Basics {

  /** `None` stands for JavaScript's `null` or `undefined`. */
  datatype Option<+T> = None | Some(value: T) {
    function GetOr(default: T): T {
      match this
      case Some(v) => v
      case None => default
    }
  }

  /** An optional string is truthy in JavaScript when present and non-empty. */
  predicate Truthy(s: Option<string>) {
    s.Some? && s.value != ""
  }

  function Abs(v: real): (r: real)
    ensures r >= 0.0
    ensures r == v || r == -v
  {
    if v < 0.0 then -v else v
  }

  function Max(a: real, b: real): (r: real)
    ensures a <= r && b <= r
    ensures r == a || r == b
  {
    if a < b then b else a
  }

  /** `v` lies between the two ends of a pixel range, in whichever direction it runs. */
  predicate Between(v: real, r0: real, r1: real) {
    (r0 <= v <= r1) || (r1 <= v <= r0)
  }

  /**
   * One row of the time series: `date` is a timestamp in milliseconds
   * (`Date.getTime()`), `open` and `close` the two plotted magnitudes.
   */
  datatype Quote = Quote(date: int, open: real, close: real)

  /** The data invariant the fill geometry assumes: both magnitudes are non-negative. */
  predicate NonNegative(data: seq<Quote>) {
    forall i :: 0 <= i < |data| ==> data[i].open >= 0.0 && data[i].close >= 0.0
  }

  /** A time scale that never decreases (d3's `scaleUtc` over an ascending pixel range). */
  ghost predicate IncreasingOnDates(scale: int -> real) {
    forall a, b :: a <= b ==> scale(a) <= scale(b)
  }

  /** A linear scale that never decreases (an x scale over an ascending pixel range). */
  ghost predicate IncreasingOnValues(scale: real -> real) {
    forall a, b :: a <= b ==> scale(a) <= scale(b)
  }

  /** A linear scale that never increases (a y scale whose range is `[bottom, top]`). */
  ghost predicate DecreasingOnValues(scale: real -> real) {
    forall a, b :: a <= b ==> scale(b) <= scale(a)
  }

  /** The pixel ranges of a chart's x scale (`x0` to `x1`) and y scale (`y0` to `y1`). */
  datatype Ranges = Ranges(x0: real, x1: real, y0: real, y1: real)

  /** A 2-D point in pixel space. */
  datatype Pixel = Pixel(x: real, y: real)
}
