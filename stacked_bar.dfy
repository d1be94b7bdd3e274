/**
 * The stacked bar chart: the caller's rows are sorted by date in place,
 * stacked as two layers (`open` at the bottom, `close` on top of it), and
 * each layer's rows are drawn as rectangles on a fixed 1130 x 540 plot.
 */
module StackedBar {
  import opened Basics

  const MarginTop: real := 20.0
  const MarginRight: real := 30.0
  const MarginBottom: real := 40.0
  const MarginLeft: real := 40.0

  /** The plot size: the 1200 x 600 SVG less the margins. */
  const Width: real := 1200.0 - MarginLeft - MarginRight
  const Height: real := 600.0 - MarginTop - MarginBottom

  /**
   * The scale ranges inside the translated plot group: the time scale runs
   * left to right over `[0, Width]`, the value scale is inverted, from
   * `Height` at the bottom up to 0 at the top (pixel y grows downwards).
   */
  function PlotRanges(): (r: Ranges)
    ensures r.x0 == 0.0 && r.x1 == 1130.0 && r.x0 < r.x1
    ensures r.y0 == 540.0 && r.y1 == 0.0 && r.y1 < r.y0
    ensures r.x1 - r.x0 == 1200.0 - MarginLeft - MarginRight
    ensures r.y0 - r.y1 == 600.0 - MarginTop - MarginBottom
  {
    Ranges(0.0, Width, Height, 0.0)
  }

  // ---------------------------------------------------------------------------
  // Sorting by date

  ghost predicate SortedByDate(s: seq<Quote>) {
    forall i, j :: 0 <= i < j < |s| ==> s[i].date <= s[j].date
  }

  /** Inserts `q` after every row whose date is not later than its own. */
  function InsertByDate(s: seq<Quote>, q: Quote): seq<Quote>
    decreases |s|
  {
    if s == [] || s[|s| - 1].date <= q.date then s + [q]
    else InsertByDate(s[..|s| - 1], q) + [s[|s| - 1]]
  }

  /**
   * The stable sort by ascending date that `Array.prototype.sort` performs
   * with the comparator `a.date - b.date`.
   */
  function StableSortByDate(s: seq<Quote>): seq<Quote>
    decreases |s|
  {
    if s == [] then [] else InsertByDate(StableSortByDate(s[..|s| - 1]), s[|s| - 1])
  }

  /** The rows of `s` dated `d`, in their order in `s`. */
  function WithDate(s: seq<Quote>, d: int): seq<Quote>
    decreases |s|
  {
    if s == [] then []
    else WithDate(s[..|s| - 1], d) + (if s[|s| - 1].date == d then [s[|s| - 1]] else [])
  }

  lemma {:induction false} InsertPermutes(s: seq<Quote>, q: Quote)
    ensures multiset(InsertByDate(s, q)) == multiset(s) + multiset{q}
    decreases |s|
  {
    if s == [] || s[|s| - 1].date <= q.date {
    } else {
      var init, last := s[..|s| - 1], s[|s| - 1];
      InsertPermutes(init, q);
      assert s == init + [last];
    }
  }

  lemma {:induction false} InsertKeepsSorted(s: seq<Quote>, q: Quote)
    requires SortedByDate(s)
    ensures SortedByDate(InsertByDate(s, q))
    decreases |s|
  {
    if s == [] || s[|s| - 1].date <= q.date {
    } else {
      var init, last := s[..|s| - 1], s[|s| - 1];
      InsertKeepsSorted(init, q);
      InsertPermutes(init, q);
      var r := InsertByDate(init, q);
      forall x | x in r ensures x.date <= last.date {
        assert x in multiset(r);
        assert x in multiset(init) || x == q;
      }
    }
  }

  lemma {:induction false} InsertIsStable(s: seq<Quote>, q: Quote, d: int)
    ensures WithDate(InsertByDate(s, q), d) == WithDate(s, d) + WithDate([q], d)
    decreases |s|
  {
    if s == [] || s[|s| - 1].date <= q.date {
      assert (s + [q])[..|s|] == s;
    } else {
      var init, last := s[..|s| - 1], s[|s| - 1];
      var r := InsertByDate(init, q);
      InsertIsStable(init, q, d);
      assert (r + [last])[..|r|] == r;
    }
  }

  /** After the sort the rows are in non-decreasing date order. */
  lemma {:induction false} SortIsSorted(s: seq<Quote>)
    ensures SortedByDate(StableSortByDate(s))
    decreases |s|
  {
    if s != [] {
      SortIsSorted(s[..|s| - 1]);
      InsertKeepsSorted(StableSortByDate(s[..|s| - 1]), s[|s| - 1]);
    }
  }

  /** The sort only reorders: the rows are the same, with the same multiplicities. */
  lemma {:induction false} SortPermutes(s: seq<Quote>)
    ensures multiset(StableSortByDate(s)) == multiset(s)
    decreases |s|
  {
    if s != [] {
      SortPermutes(s[..|s| - 1]);
      InsertPermutes(StableSortByDate(s[..|s| - 1]), s[|s| - 1]);
      assert s == s[..|s| - 1] + [s[|s| - 1]];
    }
  }

  /** The sort is stable: rows with equal dates keep their relative order. */
  lemma {:induction false} SortIsStable(s: seq<Quote>, d: int)
    ensures WithDate(StableSortByDate(s), d) == WithDate(s, d)
    decreases |s|
  {
    if s != [] {
      var init, last := s[..|s| - 1], s[|s| - 1];
      SortIsStable(init, d);
      InsertIsStable(StableSortByDate(init), last, d);
      assert ([] + [last])[..0] == [];
    }
  }

  /** Rows already in date order are left as they are: sorting them again changes nothing. */
  lemma {:induction false} SortedIsFixed(s: seq<Quote>)
    requires SortedByDate(s)
    ensures StableSortByDate(s) == s
    decreases |s|
  {
    if s != [] {
      var init, last := s[..|s| - 1], s[|s| - 1];
      assert SortedByDate(init);
      SortedIsFixed(init);
      assert init == [] || init[|init| - 1].date <= last.date;
      assert s == init + [last];
    }
  }

  /** Sorting is idempotent: a second sort of sorted rows gives the same rows. */
  lemma SortIsIdempotent(s: seq<Quote>)
    ensures StableSortByDate(StableSortByDate(s)) == StableSortByDate(s)
  {
    SortIsSorted(s);
    SortedIsFixed(StableSortByDate(s));
  }

  /**
   * Where insertion lands: when every row from `j` on is dated later than
   * `q` and the row before `j` (if any) is not, `q` goes in at `j`.
   */
  lemma {:induction false} InsertLandsAt(sorted: seq<Quote>, q: Quote, j: nat)
    requires j <= |sorted| && (j == 0 || sorted[j - 1].date <= q.date)
    requires forall k :: j <= k < |sorted| ==> sorted[k].date > q.date
    ensures InsertByDate(sorted, q) == sorted[..j] + [q] + sorted[j..]
    decreases |sorted|
  {
    if j < |sorted| {
      var init, last := sorted[..|sorted| - 1], sorted[|sorted| - 1];
      InsertLandsAt(init, q, j);
      assert init[..j] == sorted[..j];
      assert sorted[j..] == init[j..] + [last];
    } else {
      assert sorted[..j] == sorted && sorted[j..] == [];
    }
  }

  /**
   * One step of the in-place sort: the row at `i` moves down past every
   * later-dated row of the sorted prefix `a[..i]`, by adjacent swaps.
   */
  method InsertInPlace(a: array<Quote>, i: nat)
    requires i < a.Length
    modifies a
    ensures a[..i + 1] == InsertByDate(old(a[..i]), old(a[i]))
    ensures a[i + 1..] == old(a[i + 1..])
  {
    ghost var sorted, q := a[..i], a[i];
    var j := i;
    while j > 0 && a[j - 1].date > a[j].date
      invariant 0 <= j <= i
      invariant forall k :: 0 <= k < j ==> a[k] == sorted[k]
      invariant a[j] == q
      invariant forall k :: j < k <= i ==> a[k] == sorted[k - 1]
      invariant forall k :: i < k < a.Length ==> a[k] == old(a[k])
      invariant forall k :: j <= k < i ==> sorted[k].date > q.date
    {
      a[j - 1], a[j] := a[j], a[j - 1];
      j := j - 1;
    }
    InsertLandsAt(sorted, q, j);
    assert a[..i + 1] == sorted[..j] + [q] + sorted[j..];
    assert a[i + 1..] == old(a[i + 1..]);
  }

  /** `data.sort(...)`: reorders the caller's array itself. */
  method SortByDate(a: array<Quote>)
    modifies a
    ensures a[..] == StableSortByDate(old(a[..]))
    ensures SortedByDate(a[..])
    ensures multiset(a[..]) == multiset(old(a[..]))
  {
    ghost var s0 := a[..];
    for i := 0 to a.Length
      invariant a[..i] == StableSortByDate(s0[..i])
      invariant a[i..] == s0[i..]
    {
      assert s0[..i + 1] == s0[..i] + [s0[i]];
      InsertInPlace(a, i);
    }
    assert s0[..a.Length] == s0;
    SortIsSorted(s0);
    SortPermutes(s0);
  }

  // ---------------------------------------------------------------------------
  // Stacking

  /** The stack keys, in the order given to `d3.stack().keys(["open", "close"])`. */
  datatype Key = Open | Close

  function Value(q: Quote, k: Key): real {
    match k
    case Open => q.open
    case Close => q.close
  }

  /** One point of a stacked series: `d[0]`, `d[1]` and the row `d.data` it came from. */
  datatype Segment = Segment(lower: real, upper: real, datum: Quote)

  /** One layer of the stack: the series for one key, one segment per row. */
  datatype Series = Series(key: Key, segments: seq<Segment>)

  /** The series for `key`, each segment resting on the matching entry of `base`. */
  function SeriesOn(data: seq<Quote>, key: Key, base: seq<real>): (s: Series)
    requires |base| == |data|
    ensures s.key == key && |s.segments| == |data|
    ensures forall i :: 0 <= i < |data| ==> s.segments[i] == Segment(base[i], base[i] + Value(data[i], key), data[i])
  {
    Series(key, seq(|data|, i requires 0 <= i < |data| => Segment(base[i], base[i] + Value(data[i], key), data[i])))
  }

  function Tops(s: Series): (tops: seq<real>)
    ensures |tops| == |s.segments|
    ensures forall i :: 0 <= i < |s.segments| ==> tops[i] == s.segments[i].upper
  {
    seq(|s.segments|, i requires 0 <= i < |s.segments| => s.segments[i].upper)
  }

  /**
   * `d3.stack().keys(["open", "close"])(sortedData)` with no offset and no
   * reordering: the `open` segments rest on zero, the `close` segments on the
   * tops of the `open` ones, and every segment is as tall as its row's value
   * for its key.
   */
  function Stack(data: seq<Quote>): (layers: seq<Series>)
    ensures |layers| == 2 && layers[0].key == Open && layers[1].key == Close
    ensures |layers[0].segments| == |data| && |layers[1].segments| == |data|
    ensures forall i :: 0 <= i < |data| ==> layers[0].segments[i].lower == 0.0
    ensures forall i :: 0 <= i < |data| ==> layers[1].segments[i].lower == layers[0].segments[i].upper
    ensures forall k, i :: 0 <= k < 2 && 0 <= i < |data| ==>
      layers[k].segments[i].datum == data[i] &&
      layers[k].segments[i].upper == layers[k].segments[i].lower + Value(data[i], layers[k].key)
  {
    var opens := SeriesOn(data, Open, seq(|data|, i => 0.0));
    [opens, SeriesOn(data, Close, Tops(opens))]
  }

  /** The `open` layer spans `[0, open]` and the `close` layer `[open, open + close]` for every row. */
  lemma StackLayers(data: seq<Quote>, i: nat)
    requires i < |data|
    ensures |Stack(data)| == 2
    ensures Stack(data)[0].key == Open && Stack(data)[1].key == Close
    ensures |Stack(data)[0].segments| == |data| && |Stack(data)[1].segments| == |data|
    ensures Stack(data)[0].segments[i] == Segment(0.0, data[i].open, data[i])
    ensures Stack(data)[1].segments[i] == Segment(data[i].open, data[i].open + data[i].close, data[i])
  {
  }

  // ---------------------------------------------------------------------------
  // The y domain

  /** `d3.max(layer, d => d[1])`: the highest top of a layer, undefined for no segments. */
  function MaxUpper(segs: seq<Segment>): (m: Option<real>)
    ensures m.None? <==> |segs| == 0
    ensures m.Some? ==> exists i :: 0 <= i < |segs| && segs[i].upper == m.value
    ensures m.Some? ==> forall i :: 0 <= i < |segs| ==> segs[i].upper <= m.value
    decreases |segs|
  {
    if segs == [] then None
    else
      var rest := MaxUpper(segs[..|segs| - 1]);
      var u := segs[|segs| - 1].upper;
      if rest.None? || rest.value < u then Some(u) else rest
  }

  /**
   * `d3.max(stackedData, layer => d3.max(layer, d => d[1]))`: the highest top
   * over all layers, skipping layers whose maximum is undefined.
   */
  function YDomainTop(layers: seq<Series>): (m: Option<real>)
    ensures m.None? <==> forall k :: 0 <= k < |layers| ==> |layers[k].segments| == 0
    ensures m.Some? ==> exists k, i :: 0 <= k < |layers| && 0 <= i < |layers[k].segments| && layers[k].segments[i].upper == m.value
    ensures m.Some? ==> forall k, i :: 0 <= k < |layers| && 0 <= i < |layers[k].segments| ==> layers[k].segments[i].upper <= m.value
    decreases |layers|
  {
    if layers == [] then None
    else
      var rest := YDomainTop(layers[..|layers| - 1]);
      var last := MaxUpper(layers[|layers| - 1].segments);
      if last.None? then rest
      else if rest.None? || rest.value < last.value then last
      else rest
  }

  /**
   * The top of the y domain, in terms of the rows: undefined without rows,
   * otherwise the largest of `max(open, open + close)` over the rows.
   */
  lemma {:induction false} YDomainTopOfRows(data: seq<Quote>)
    ensures YDomainTop(Stack(data)).None? <==> |data| == 0
    ensures YDomainTop(Stack(data)).Some? ==>
      && (exists i :: 0 <= i < |data| && YDomainTop(Stack(data)).value == Max(data[i].open, data[i].open + data[i].close))
      && (forall i :: 0 <= i < |data| ==> Max(data[i].open, data[i].open + data[i].close) <= YDomainTop(Stack(data)).value)
  {
    var layers := Stack(data);
    var m := YDomainTop(layers);
    if |data| > 0 {
      StackLayers(data, 0);
      assert |layers[0].segments| > 0;
      var t := m.value;
      var k, i :| 0 <= k < |layers| && 0 <= i < |layers[k].segments| && layers[k].segments[i].upper == t;
      StackLayers(data, i);
      forall j | 0 <= j < |data| ensures Max(data[j].open, data[j].open + data[j].close) <= t {
        StackLayers(data, j);
        assert layers[0].segments[j].upper <= t && layers[1].segments[j].upper <= t;
      }
      assert t == Max(data[i].open, data[i].open + data[i].close);
    } else {
      assert forall k :: 0 <= k < |layers| ==> |layers[k].segments| == 0;
    }
  }

  // ---------------------------------------------------------------------------
  // Rectangles

  datatype Rect = Rect(x: real, y: real, width: real, height: real)

  /**
   * The rectangle for the `i`-th segment of a layer: at the row's date, from
   * the segment's top down to its bottom (never negative), as wide as the gap
   * to the next row's date (the last row has no next one: zero width).
   */
  function BarRect(sorted: seq<Quote>, seg: Segment, i: nat, xScale: int -> real, yScale: real -> real): (r: Rect)
    ensures r.x == xScale(seg.datum.date) && r.y == yScale(seg.upper)
    ensures r.height >= 0.0
    ensures r.height == Max(yScale(seg.lower) - yScale(seg.upper), 0.0)
    ensures r.height > 0.0 ==> r.y + r.height == yScale(seg.lower)
    ensures i + 1 < |sorted| ==> r.x + r.width == xScale(sorted[i + 1].date)
    ensures i + 1 >= |sorted| ==> r.width == 0.0
  {
    var h := yScale(seg.lower) - yScale(seg.upper);
    var next := if i + 1 < |sorted| then sorted[i + 1].date else seg.datum.date;
    Rect(xScale(seg.datum.date), yScale(seg.upper), xScale(next) - xScale(seg.datum.date), if h > 0.0 then h else 0.0)
  }

  /** The rectangles of every layer, in layer order and row order. */
  function Bars(layers: seq<Series>, sorted: seq<Quote>, xScale: int -> real, yScale: real -> real): (bars: seq<seq<Rect>>)
    ensures |bars| == |layers|
    ensures forall k :: 0 <= k < |layers| ==> |bars[k]| == |layers[k].segments|
    ensures forall k, i :: 0 <= k < |layers| && 0 <= i < |layers[k].segments| ==>
      bars[k][i] == BarRect(sorted, layers[k].segments[i], i, xScale, yScale)
  {
    seq(|layers|, k requires 0 <= k < |layers| =>
      seq(|layers[k].segments|, i requires 0 <= i < |layers[k].segments| =>
        BarRect(sorted, layers[k].segments[i], i, xScale, yScale)))
  }

  /** The whole chart for rows already sorted by date. */
  function Chart(sorted: seq<Quote>, xScale: int -> real, yScale: real -> real): seq<seq<Rect>> {
    Bars(Stack(sorted), sorted, xScale, yScale)
  }

  /**
   * One render: sort the caller's array by date in place, then stack and
   * lay out the sorted rows.  The array stays sorted after the render.
   */
  method Render(a: array<Quote>, xScale: int -> real, yScale: real -> real) returns (bars: seq<seq<Rect>>)
    modifies a
    ensures a[..] == StableSortByDate(old(a[..]))
    ensures SortedByDate(old(a[..])) ==> a[..] == old(a[..])
    ensures bars == Chart(a[..], xScale, yScale)
  {
    SortByDate(a);
    SortIsSorted(old(a[..]));
    if SortedByDate(old(a[..])) {
      SortedIsFixed(old(a[..]));
    }
    bars := Chart(a[..], xScale, yScale);
  }

  /**
   * Rendering twice with the same scales: the first render leaves the
   * caller's array sorted, so the second one does not reorder it and lays
   * out exactly the same rectangles.
   */
  method RenderTwice(a: array<Quote>, xScale: int -> real, yScale: real -> real) returns (first: seq<seq<Rect>>, second: seq<seq<Rect>>)
    modifies a
    ensures a[..] == StableSortByDate(old(a[..]))
    ensures second == first
  {
    first := Render(a, xScale, yScale);
    SortIsSorted(old(a[..]));
    second := Render(a, xScale, yScale);
  }

  /**
   * Both layers put the rectangle of a row at the same `x` with the same
   * width: `x` is the row's date and the width the gap to the next row;
   * the last row's bars have zero width.
   */
  lemma {:induction false} BarsAlign(sorted: seq<Quote>, xScale: int -> real, yScale: real -> real, i: nat)
    requires i < |sorted|
    ensures |Chart(sorted, xScale, yScale)| == 2
    ensures |Chart(sorted, xScale, yScale)[0]| == |sorted| && |Chart(sorted, xScale, yScale)[1]| == |sorted|
    ensures Chart(sorted, xScale, yScale)[0][i].x == Chart(sorted, xScale, yScale)[1][i].x == xScale(sorted[i].date)
    ensures Chart(sorted, xScale, yScale)[0][i].width == Chart(sorted, xScale, yScale)[1][i].width
    ensures i + 1 < |sorted| ==> Chart(sorted, xScale, yScale)[0][i].width == xScale(sorted[i + 1].date) - xScale(sorted[i].date)
    ensures i + 1 == |sorted| ==> Chart(sorted, xScale, yScale)[0][i].width == 0.0
  {
  }

  /**
   * On rows sorted by date and an increasing time scale no bar has negative
   * width, and each bar ends where the next row's bar begins.
   */
  lemma {:induction false} BarsTile(sorted: seq<Quote>, xScale: int -> real, yScale: real -> real, k: nat, i: nat)
    requires SortedByDate(sorted)
    requires IncreasingOnDates(xScale)
    requires k < 2 && i < |sorted|
    ensures |Chart(sorted, xScale, yScale)| == 2 && |Chart(sorted, xScale, yScale)[k]| == |sorted|
    ensures Chart(sorted, xScale, yScale)[k][i].width >= 0.0
    ensures i + 1 < |sorted| ==>
      Chart(sorted, xScale, yScale)[k][i].x + Chart(sorted, xScale, yScale)[k][i].width == xScale(sorted[i + 1].date)
  {
  }

  /**
   * With the inverted y range (value 0 at the plot's bottom edge) and
   * non-negative rows, each `open` bar stands on the bottom edge and the
   * `close` bar of the same row stands on top of it.
   */
  lemma OpenBarsStandOnAxis(sorted: seq<Quote>, xScale: int -> real, yScale: real -> real, i: nat)
    requires NonNegative(sorted)
    requires DecreasingOnValues(yScale) && yScale(0.0) == PlotRanges().y0
    requires i < |sorted|
    ensures |Chart(sorted, xScale, yScale)| == 2
    ensures |Chart(sorted, xScale, yScale)[0]| == |Chart(sorted, xScale, yScale)[1]| == |sorted|
    ensures Chart(sorted, xScale, yScale)[0][i].y + Chart(sorted, xScale, yScale)[0][i].height == Height
    ensures Chart(sorted, xScale, yScale)[1][i].y + Chart(sorted, xScale, yScale)[1][i].height == Chart(sorted, xScale, yScale)[0][i].y
  {
  }

  /**
   * Every rectangle lies inside the 1130 x 540 plot, provided the rows are
   * sorted and non-negative, the time scale maps the date extent into the x
   * range `[0, 1130]` and the value scale maps `[0, top]` into the y range
   * `[540, 0]`.
   */
  lemma {:induction false} BarsInsidePlot(sorted: seq<Quote>, xScale: int -> real, yScale: real -> real, top: real, k: nat, i: nat)
    requires SortedByDate(sorted) && NonNegative(sorted)
    requires YDomainTop(Stack(sorted)) == Some(top)
    requires |sorted| > 0 ==> forall d :: sorted[0].date <= d <= sorted[|sorted| - 1].date ==> PlotRanges().x0 <= xScale(d) <= PlotRanges().x1
    requires forall v :: 0.0 <= v <= top ==> PlotRanges().y1 <= yScale(v) <= PlotRanges().y0
    requires k < 2 && i < |sorted|
    ensures |Chart(sorted, xScale, yScale)| == 2 && |Chart(sorted, xScale, yScale)[k]| == |sorted|
    ensures 0.0 <= Chart(sorted, xScale, yScale)[k][i].x
    ensures Chart(sorted, xScale, yScale)[k][i].x + Chart(sorted, xScale, yScale)[k][i].width <= Width
    ensures 0.0 <= Chart(sorted, xScale, yScale)[k][i].y
    ensures Chart(sorted, xScale, yScale)[k][i].y + Chart(sorted, xScale, yScale)[k][i].height <= Height
  {
    var seg := Stack(sorted)[k].segments[i];
    SegmentUnderTop(sorted, top, k, i);
    DatesInExtent(sorted, i);
    RectInsidePlot(sorted, seg, i, xScale, yScale, top);
    assert Chart(sorted, xScale, yScale)[k][i] == BarRect(sorted, seg, i, xScale, yScale);
  }

  /** Every segment of non-negative rows lies in the y domain `[0, top]`. */
  lemma SegmentUnderTop(sorted: seq<Quote>, top: real, k: nat, i: nat)
    requires NonNegative(sorted)
    requires YDomainTop(Stack(sorted)) == Some(top)
    requires k < 2 && i < |sorted|
    ensures |Stack(sorted)[k].segments| == |sorted|
    ensures Stack(sorted)[k].segments[i].datum == sorted[i]
    ensures 0.0 <= Stack(sorted)[k].segments[i].lower <= Stack(sorted)[k].segments[i].upper <= top
  {
    StackLayers(sorted, i);
  }

  /** In sorted rows, a row's date and the next row's date lie in the date extent. */
  lemma DatesInExtent(sorted: seq<Quote>, i: nat)
    requires SortedByDate(sorted) && i < |sorted|
    ensures sorted[0].date <= sorted[i].date <= sorted[|sorted| - 1].date
    ensures i + 1 < |sorted| ==> sorted[0].date <= sorted[i + 1].date <= sorted[|sorted| - 1].date
  {
    var n := |sorted|;
    if 0 < i { assert sorted[0].date <= sorted[i].date; }
    if i < n - 1 { assert sorted[i].date <= sorted[n - 1].date; }
    if i + 1 < n - 1 { assert sorted[i + 1].date <= sorted[n - 1].date; }
  }

  /** One rectangle lies inside the plot when its ends and its segment do. */
  lemma RectInsidePlot(sorted: seq<Quote>, seg: Segment, i: nat, xScale: int -> real, yScale: real -> real, top: real)
    requires 0.0 <= seg.lower <= seg.upper <= top
    requires forall v :: 0.0 <= v <= top ==> 0.0 <= yScale(v) <= Height
    requires 0.0 <= xScale(seg.datum.date) <= Width
    requires i + 1 < |sorted| ==> 0.0 <= xScale(sorted[i + 1].date) <= Width
    ensures 0.0 <= BarRect(sorted, seg, i, xScale, yScale).x
    ensures BarRect(sorted, seg, i, xScale, yScale).x + BarRect(sorted, seg, i, xScale, yScale).width <= Width
    ensures 0.0 <= BarRect(sorted, seg, i, xScale, yScale).y
    ensures BarRect(sorted, seg, i, xScale, yScale).y + BarRect(sorted, seg, i, xScale, yScale).height <= Height
  {
  }
}
