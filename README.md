# Chart engine model

A Dafny model of the computational core of a React/d3 dashboard that draws
time-series and ordinal data as interactive charts. It covers four chart
components:

- **Scatter and arrow-scatter charts.** Each data point gets one mark on the
  chart's baseline `y(0)`. The glyph and fill are chosen per point, with
  chart-wide fallbacks. A tooltip shows the two points nearest to the pointer.
- **Stacked bar chart.** The caller's rows are sorted by date in place. They
  are stacked as an `open` layer with a `close` layer on top, and drawn as
  rectangles on a fixed 1130 × 540 plot.
- **Area chart.** Two bands are drawn over the rows in their given order:
  `open` from the baseline, and `close` on top of `open`.

Modules:

| file | module | models |
|---|---|---|
| `basics.dfy` | `Basics` | optional values, JavaScript truthiness of optional strings, the time-series row `Quote`, monotone scales |
| `nearest_point.dfy` | `NearestPoint` | the nearest-pair scan shared by both scatter charts |
| `arrow_scatter.dfy` | `ArrowScatterPlot` | arrow marks (anchor, fill, glyph) and the tooltip state |
| `scatter.dfy` | `ScatterPlot` | symbol marks (anchor, fill, shape) and the tooltip state |
| `stacked_bar.dfy` | `StackedBar` | in-place stable date sort, two-key stack, y-domain top, bar rectangles |
| `area.dfy` | `AreaChart` | scale ranges, the dimensions state, y-domain top, the two band accessors |

Modelling choices:

- **Scales are abstract function parameters.** A lemma that needs more asks
  for it in a precondition: a monotone direction, or that the data's domain
  maps into the pixel range.
- **Numbers.** Dates are `int` milliseconds. Values, positions and pixels are
  `real`.
- **One scan for two charts.** The nearest-pair `reduce` is identical in
  `ArrowScatterPlotChart.tsx:114-129` and `ScatterPlotChart.tsx:94-109`, so it
  is modelled once.
- **References as indices.** The scan's accumulator holds references to data
  points. The model stores the index of the point in the data instead, which
  keeps "`right` is a different element from `left`" meaningful even when two
  points are equal as values.
- **`left` and `right`.** Despite their names, `left` holds the closest
  point and `right` the second closest, not the points on either side of
  the cursor.
- **Sort order.** `Array.prototype.sort` is stable, so the in-place sort is
  specified as equal to a stable insertion sort by date. That sort is proved
  sorted, a permutation, and order-preserving among rows with equal dates.

## Model

| member | source | states |
|---|---|---|
| `NearestPoint.Nearest` | src/components/ArrowScatterPlotChart.tsx:114-129 | `left` is empty exactly for no data and `right` exactly for at most one point. `left` is at minimum pixel distance, and every earlier point is strictly farther, so ties go to the first point. `right` differs from `left`, is at minimum distance among the other points, and among ties is also the first. The same code is at src/components/ScatterPlotChart.tsx:94-109. |
| `NearestPoint.NearestUnique` | src/components/ArrowScatterPlotChart.tsx:116-119 | The closest-point condition picks a single index, so the scan's `left` is fully determined by the data, the scale and the pointer. |
| `NearestPoint.SecondNearestUnique` | src/components/ArrowScatterPlotChart.tsx:120-125 | Once `left` is fixed, the second-closest condition picks a single index, so `right` is fully determined too. |
| `NearestPoint.TieGoesToEarlier` | src/components/ArrowScatterPlotChart.tsx:117 | Of two points at equal distance, the later one is never `left`, because the comparison is strict. |
| `NearestPoint.Distance` | src/components/ArrowScatterPlotChart.tsx:116 | The distance `abs(x(p.x) - mouseX)` is non-negative, and zero exactly when the point sits under the pointer. |
| `ArrowScatterPlot.PaletteProp` | src/components/ArrowScatterPlotChart.tsx:16-19 | The `color` prop is the caller's palette when given, else up `#059669` and down `#F87171`. |
| `ArrowScatterPlot.Fill` | src/components/ArrowScatterPlotChart.tsx:94 | A circle is filled with the point's own colour when that is a non-empty string, else with the palette colour for the point's arrow direction. |
| `ArrowScatterPlot.DefaultFillShowsDirection` | src/components/ArrowScatterPlotChart.tsx:17 | Without an override and with the default palette, the fill is green exactly for up arrows and red exactly for down arrows. |
| `ArrowScatterPlot.Glyph` | src/components/ArrowScatterPlotChart.tsx:104-108 | The down glyph is drawn exactly for `arrow === "down"` and the up glyph exactly otherwise. |
| `ArrowScatterPlot.ArrowGlyphsAreHalfTurns` | src/components/ArrowScatterPlotChart.tsx:104-108 | Each of the two arrow path strings is the other turned half a turn about the anchor: negating every coordinate of every command of one gives the other. |
| `ArrowScatterPlot.Marks` | src/components/ArrowScatterPlotChart.tsx:88-108 | There is one mark per point, in data order. Each is a radius-10 circle with its fill and a white arrow glyph, both anchored at `(x(d.x), y(0))`. |
| `ArrowScatterPlot.MarksShareBaseline` | src/components/ArrowScatterPlotChart.tsx:93 | Every mark has the same y, `y(0)`, whatever its data. |
| `ArrowScatterPlot.MarksFollowX` | src/components/ArrowScatterPlotChart.tsx:102 | Under an increasing x scale, marks keep the left-to-right order of their points' `x`. |
| `ArrowScatterPlot.Tooltip.constructor` | src/components/ArrowScatterPlotChart.tsx:23-30 | The tooltip starts as `{visible: false, x: 0}` with no data. |
| `ArrowScatterPlot.Tooltip.OnMove` | src/components/ArrowScatterPlotChart.tsx:110-137 | After a move, the tooltip is visible exactly when there is data, and `x` is `mouseX + 10` then, else 0. Its data is the nearest pair, with the full guarantee of `Nearest`; it is stored even when both slots are empty. |
| `ArrowScatterPlot.Tooltip.OnLeave` | src/components/ArrowScatterPlotChart.tsx:138-140 | Mouse-leave resets the tooltip to `{visible: false, x: 0}` with no data, whatever the previous state. |
| `ScatterPlot.Shape` | src/components/ScatterPlotChart.tsx:53 | The glyph is the point's own symbol when present, else the `shape` prop, else a circle. |
| `ScatterPlot.Fill` | src/components/ScatterPlotChart.tsx:87 | The fill is the point's colour when it is a non-empty string, else the `color` prop, else `#3B82F6`. |
| `ScatterPlot.Marks` | src/components/ScatterPlotChart.tsx:82-88 | There is one mark per point, in data order, at `(x(d.x), y(0))`, with that point's fill and shape. |
| `ScatterPlot.MarksShareBaseline` | src/components/ScatterPlotChart.tsx:86 | Every mark's transform uses `y(0)`, independent of the point. |
| `ScatterPlot.UniformShapeByDefault` | src/components/ScatterPlotChart.tsx:53 | When no point has its own symbol, every mark takes the `shape` prop, and a circle when that prop is undefined, whatever the points' colours. |
| `ScatterPlot.UniformFillByDefault` | src/components/ScatterPlotChart.tsx:87 | When no point has a truthy colour (absent or `""`), every mark takes the `color` prop, and `#3B82F6` when that prop is undefined, whatever the points' symbols. |
| `ScatterPlot.Tooltip.constructor` | src/components/ScatterPlotChart.tsx:25-34 | The tooltip starts as `{visible: false, x: 0, y: 0}` with no data. |
| `ScatterPlot.Tooltip.OnMove` | src/components/ScatterPlotChart.tsx:91-121 | On non-empty data a move gives `{visible: true, x: mouseX + 10, y: 10}` with the nearest pair. On empty data it gives `{visible: false, x: 0, y: 0}` with no data. |
| `ScatterPlot.Tooltip.OnLeave` | src/components/ScatterPlotChart.tsx:122-124 | Mouse-leave sets `{visible: false, x: 0, y: 0}` with no data. |
| `StackedBar.PlotRanges` | src/components/StackedBarChart.tsx:20-37 | The time scale's range is `[0, 1130]`, left to right, and the value scale's range is `[540, 0]`, inverted so that 0 is at the bottom. Each is the 1200 × 600 SVG less its margins. |
| `StackedBar.SortByDate` | src/components/StackedBarChart.tsx:23 | The caller's array itself becomes the stable date-sorted order of its former contents. It is in non-decreasing date order and a permutation of what it held. |
| `StackedBar.InsertInPlace` | src/components/StackedBarChart.tsx:23 | One pass of the in-place sort inserts row `i` into the sorted prefix after every row not dated later. The rest of the array is untouched. |
| `StackedBar.SortIsSorted` | src/components/StackedBarChart.tsx:23 | The stable sort's result is in non-decreasing date order. |
| `StackedBar.SortPermutes` | src/components/StackedBarChart.tsx:23 | The stable sort's result has the same rows with the same multiplicities. |
| `StackedBar.SortedIsFixed` | src/components/StackedBarChart.tsx:23 | Rows already in date order are returned unchanged by the sort. |
| `StackedBar.SortIsIdempotent` | src/components/StackedBarChart.tsx:23 | Sorting sorted rows again gives the same rows. |
| `StackedBar.SortIsStable` | src/components/StackedBarChart.tsx:23 | For every date, the rows with that date appear in the same relative order before and after the sort. |
| `StackedBar.Stack` | src/components/StackedBarChart.tsx:25-26 | There are two layers, `open` then `close`, with one segment per row carrying that row. The `open` segments start at 0, each `close` segment starts at its `open` segment's top, and every segment is as tall as its row's value. |
| `StackedBar.StackLayers` | src/components/StackedBarChart.tsx:25-26 | For every row, the `open` segment is `[0, open]` and the `close` segment is `[open, open + close]`. |
| `StackedBar.MaxUpper` | src/components/StackedBarChart.tsx:35 | The inner `d3.max` is undefined for an empty layer. Otherwise it is the top of some segment, and no segment's top exceeds it. |
| `StackedBar.YDomainTop` | src/components/StackedBarChart.tsx:35 | The outer `d3.max` is undefined exactly when every layer is empty. Otherwise it is the top of some segment of some layer, and no segment of either layer has a higher top. |
| `StackedBar.YDomainTopOfRows` | src/components/StackedBarChart.tsx:33-37 | In terms of the rows, the y-domain top before `.nice()` is undefined exactly for no rows, and is otherwise the largest `max(open, open + close)`. |
| `StackedBar.BarRect` | src/components/StackedBarChart.tsx:57-69 | A rect sits at `x = xScale(date)` and `y = yScale(upper)`. Its height is `max(yScale(lower) - yScale(upper), 0)`, so never negative, and a positive-height rect runs down to `yScale(lower)`. It ends at the next row's `xScale(date)`, and the last row's rect has width 0. |
| `StackedBar.Bars` | src/components/StackedBarChart.tsx:48-69 | There is one rect per segment of every layer, in layer order and row order. Each rect is computed from its segment and its row index. |
| `StackedBar.Render` | src/components/StackedBarChart.tsx:23-69 | One render sorts the caller's array in place, then lays out the sorted rows. The array stays sorted afterwards, and an array that was already sorted is left as it was. |
| `StackedBar.RenderTwice` | src/components/StackedBarChart.tsx:17-23 | Rendering the same array twice gives the same rects: the first render leaves it sorted, so the second does not reorder it. |
| `StackedBar.BarsAlign` | src/components/StackedBarChart.tsx:57-69 | Both layers give a row's rect the same `x` (`xScale(date)`) and the same width. The width is `xScale(next date) - xScale(date)`, and 0 for the last row. |
| `StackedBar.BarsTile` | src/components/StackedBarChart.tsx:63-69 | With sorted rows and an increasing time scale, no width is negative, and each bar ends where the next row's bar begins. |
| `StackedBar.BarsInsidePlot` | src/components/StackedBarChart.tsx:20-37 | Assume sorted, non-negative rows, a time scale mapping the date extent into the x range `[0, 1130]`, and a y scale mapping `[0, top]` into the y range `[540, 0]`. Then every rect lies inside the 1130 × 540 plot. |
| `StackedBar.OpenBarsStandOnAxis` | src/components/StackedBarChart.tsx:37-62 | With a decreasing y scale that puts 0 at the bottom of the `[540, 0]` range and non-negative rows, every `open` rect ends on the bottom edge, and the row's `close` rect ends where the `open` rect begins. |
| `AreaChart.PlotRanges` | src/components/AreaChart.tsx:34-48 | The x range is `[40, width - 30]` and the y range is `[height - 30, 20]`. The plot is 70 pixels narrower and 50 pixels shorter than the element. |
| `AreaChart.Surface.constructor` | src/components/AreaChart.tsx:16 | Before measurement the dimensions are 928 × 100, giving ranges `[40, 898]` and `[70, 20]`. |
| `AreaChart.Surface.UpdateDimensions` | src/components/AreaChart.tsx:19-24 | The dimensions become the element's bounding box when the element is mounted, and are kept otherwise. |
| `AreaChart.YDomainTop` | src/components/AreaChart.tsx:47 | The y-domain top is undefined exactly for no rows. Otherwise it is some row's `max(open, close)`, and no row's `open` or `close` exceeds it. |
| `AreaChart.OpenBand` | src/components/AreaChart.tsx:51-55 | The `open` band has one vertex per row, in data order, at `x(date)`, spanning `y(0)` to `y(open)`. |
| `AreaChart.CloseBand` | src/components/AreaChart.tsx:57-61 | The `close` band has one vertex per row, in data order, at `x(date)`, spanning `y(open)` to `y(close)`. |
| `AreaChart.BandsShareEdge` | src/components/AreaChart.tsx:51-61 | Both bands have a vertex for each row at the same `x(date)`, with no sort. The `close` band's lower edge equals the `open` band's upper edge. |
| `AreaChart.CloseBandMayCross` | src/components/AreaChart.tsx:57-61 | The `close` band is not clamped. Where `close < open`, its upper edge is `y(close)`, which a decreasing y scale puts on or below its lower edge. |
| `AreaChart.BandsInsidePlot` | src/components/AreaChart.tsx:45-48 | Assume non-negative rows and a y scale mapping `[0, top]` into `[height - 30, 20]`. Then every edge of both bands lies between the bottom and top margins. |

## Left out

- **d3 scale arithmetic.** This covers `scaleLinear`/`scaleUtc` interpolation, the midpoint mapping of a degenerate domain, `.nice()` rounding and `ticks()`. It is float-based library code. Scales are abstract functions, and lemmas state what they assume of them.
- **Scatter y scale.** The scatter charts' y scale has the constant domain `[0, 0]`, so d3 maps `y(0)` to the middle of the range. The model keeps `y(0)` abstract and proves only that all marks share it.
- **Path strings and axes.** `d3.area` and `d3.symbol` path strings, `axisBottom`/`axisLeft`, and the grid lines are not modelled. The bands are modelled as their per-row vertices, and the symbols as a symbol type.
- **SVG/DOM and events.** SVG/DOM mutation, event binding, `d3.pointer`, `useEffect` scheduling and cleanup are not modelled. Neither is the window resize listener of the area chart, beyond the update it makes. The pointer position and the mounted element's bounding box are parameters.
- **Resize observation.** `useResizeObserver`, `TimeLine`, the page chrome and the tooltip markup are presentation or browser I/O. They are not part of this model.
- **NaN and invalid input.** NaN coordinates and invalid dates are outside the model: values are reals and dates integers.
- **Paint order.** The arrow chart appends every circle before every arrow, so each arrow paints over all circles. `ArrowScatterPlot.Marks` pairs each circle with its arrow and does not record that order.
- **Short area paths.** With fewer than two rows an area draws no visible fill; that is a property of d3's path generator and is not modelled.
