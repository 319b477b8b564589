# ChartView bar-chart panel, modelled in Dafny

This project models the logic of `ChartView`, a Swing panel that draws a
scrollable, zoomable bar chart of a list of nullable numbers and shows a
tooltip for the bar under the pointer. The drawing toolkit is not modelled.
What remains is the panel's state and the arithmetic it does on that state:

- the dataset, the scale value `maxValue` (a max-scan with a fallback of 1),
  and the zoom level, clamped to 1..5;
- bar width and bar spacing, which are derived from the zoom level;
- the preferred size that the scroll pane asks for;
- the x positions and label flags of the bars that the paint loop draws;
- the tooltip's hit-test, which maps a pointer position to an entry and its
  value.

Files and modules:

- `java_int.dfy` (`JavaInt`): Java's 32-bit `int` and its wrap-around. It is
  applied wherever the panel's int arithmetic can overflow: the total
  content width, the paint loop's running x, the hit-test's bar end and
  the plot height.
- `chart_data.dfy` (`ChartData`): the dataset as `seq<Option<real>>`.
  `NonNullIndices` gives the entries the painter draws, in order.
  `ScanMax` and `MaxValueOf` give the scale value. The lemmas describe the
  scale value without the loop.
- `chart_geometry.dfy` (`ChartGeometry`): the margins, the zoom range, the bar
  geometry of each zoom level, the content width and the item-label rule.
- `chart_view.dfy` (`ChartViewModel`): class `ChartView`. Its fields are the
  source's fields. `Valid()` is the object invariant. It has the five
  state-changing operations, `PreferredSize` and `HitTest` as functions, and
  `PaintBars` as a method with the paint loop. The module also holds the
  regenerate handler of the host window.
- `hit_test.dfy` (`HitTesting`): what the hit-test finds and misses, where it
  disagrees with the painted bars, and `PaintedBarAt`, a hit-test that
  follows the painted bars.

Data values are `real`. The scale value only compares them, and the bar
heights that divide by it are not modelled. Panel height, parent width and
pointer coordinates are parameters. The source reads them from the toolkit.

Two behaviours of the code are worth stating plainly:

- A null entry does not take a bar slot. The paint loop hits `continue`
  before advancing `x` (ChartView.java:146, 168), so later bars move left.
  The hit-test, however, still counts one slot per data index
  (ChartView.java:191-194).
- The scale value falls back to 1 whenever no entry is positive
  (ChartView.java:44-52), because the scan starts at 0 and takes only
  strictly greater values. For example, [-3, -1] gives 1.

## Model

| member | source | states |
|---|---|---|
| ChartData.NonNullIndices | ChartView.java:144-146 | the indices the paint loop draws, in increasing order; each one is a non-null entry of the list |
| ChartData.NonNullIndicesComplete | ChartView.java:144-146 | every non-null entry is among the drawn indices (nothing non-null is skipped) |
| ChartData.ScanMax | ChartView.java:44-51 | the loop's running maximum, starting from 0 and taking strictly greater non-null values; never negative |
| ChartData.MaxValueOf | ChartView.java:43-53 | the scale value that calculateMaxValue leaves behind is always greater than 0 |
| ChartData.ScanMaxIsUpperBound | ChartView.java:46-50 | the running maximum is at least every non-null entry |
| ChartData.ScanMaxAttained | ChartView.java:44-52 | the running maximum is 0 or equal to some entry, and it is 0 exactly when no entry is positive |
| ChartData.MaxValueOfCharacterised | ChartView.java:43-53 | the scale value is positive and at least every non-null entry; it is the largest positive entry when there is one, and 1 otherwise (empty, all null, or all at most 0) |
| ChartGeometry.GeometryOfLevels | ChartView.java:92-98 | level 1 gives the fields' initial 15/5, level 5 gives 35/13, and every level gives bars 15..35 wide and 5..13 apart |
| ChartGeometry.ContentWidthGrowsWithZoom | ChartView.java:101-105 | for a fixed number of bars, N*(barWidth+barSpacing)+barSpacing does not decrease as zoom grows, and strictly increases when the level changes |
| ChartGeometry.LabelledByZoom | ChartView.java:160 | an item label is drawn iff the index is a multiple of 10 or the level is at least 3; level 2 (width exactly 20) adds none |
| ChartViewModel.ChartView.constructor | ChartView.java:22-27 | a new panel holds the given data and its scale value, at zoom 1 with bars 15 wide and 5 apart, and satisfies the invariant |
| ChartViewModel.ChartView.SetData | ChartView.java:33-38 | replaces the data, sets maxValue to the new data's scale value, resets zoom to 1 (15/5), and keeps the invariant |
| ChartViewModel.ChartView.CalculateMaxValue | ChartView.java:43-53 | the max-scan loop leaves maxValue equal to MaxValueOf(data) and changes no other field |
| ChartViewModel.ChartView.ZoomIn | ChartView.java:58-65 | below level 5 the level goes up by exactly 1; at level 5 no field changes; data and maxValue never change; the invariant is kept |
| ChartViewModel.ChartView.ZoomOut | ChartView.java:70-77 | above level 1 the level goes down by exactly 1; at level 1 no field changes; data and maxValue never change; the invariant is kept |
| ChartViewModel.ChartView.ResetZoom | ChartView.java:82-87 | from any level it gives level 1 with 15/5 and leaves data and maxValue alone; the result does not depend on the old level, so a second reset changes nothing |
| ChartViewModel.ChartView.UpdateBarWidth | ChartView.java:92-98 | bar width and spacing become the geometry of the current zoom level, and nothing else changes |
| ChartViewModel.ChartView.PreferredSize | ChartView.java:101-105 | `height` is 400; `width` is a Java int at least the parent's width, and it is either the parent's width or the wrapped content width; without overflow it is max(parent, N*stride+barSpacing) |
| ChartViewModel.ChartView.PaintBars | ChartView.java:142-169 | one bar per non-null entry in data order; the k-th sits at 40+barSpacing+k*stride (nulls take no slot), carries its entry's value, and is labelled by its data index |
| ChartViewModel.ChartView.HitTest | ChartView.java:181-208 | a hit names an in-range index whose entry is non-null with the returned value; the pointer lies in [40+i*stride, 40+i*stride+barWidth] and in the vertical band |
| ChartViewModel.PreferredWidthGrowsWithZoom | ChartView.java:101-105 | with the same data and parent, a deeper zoom level never asks for a narrower panel (when its content width fits in an int) |
| ChartViewModel.Regenerate | DataVisualizationApp.java:104-108 | setData followed by the extra resetZoom ends in exactly the state setData alone gives: the new data, its scale value, level 1, 15/5 |
| HitTesting.HitTestFindsBar | ChartView.java:189-200 | any pointer in the band and in [40+i*stride, 40+i*stride+barWidth] over a non-null entry i gets (i, data[i]), unless that span's end exceeds the largest int |
| HitTesting.HitTestMisses | ChartView.java:184-208 | no hit left of x=40, outside the band [20, height-30], at a slot index of N or more, in the gap after a slot's bar, or on a null entry |
| HitTesting.HitTestDisagreesWithPaint | ChartView.java:143-197 | for [100, null, 50] at zoom 1 the painter draws at x=45 and x=65, while the hit-test hits entry 0 at x=42, misses at x=58 and x=70, and hits entry 2 at x=82 |
| HitTesting.PaintedBarAt | ChartView.java:143-168 | corrected hit-test: any hit is a non-null entry with its value, in the band, and the pointer lies on that entry's painted bar |
| HitTesting.PaintedBarAtFindsPaintedBar | ChartView.java:143-168 | a pointer in the band over the k-th painted bar gets the k-th non-null entry from the corrected hit-test |
| HitTesting.PaintedBarAtMissesGaps | ChartView.java:143-168 | a pointer over no painted bar gets nothing from the corrected hit-test |

## Findings

| source | as written | input that shows it | evidently intended | confidence | as-written member | corrected member |
|---|---|---|---|---|---|---|
| ChartView.java:189-197 | the hit-test takes entry i's bar to span [40+i*stride, 40+i*stride+barWidth], counting null entries as slots | entries [100, null, 50], zoom 1, panel height 400. The painter draws entry 0 on [45,60] and entry 2 on [65,80]. The hit-test gives entry 0 at x=42, nothing at x=58 and x=70, and entry 2 at x=82 | the tooltip names the bar painted under the pointer: the k-th non-null entry, on [40+barSpacing+k*stride, 40+barSpacing+k*stride+barWidth] | medium, not executed | HitTesting.HitTestDisagreesWithPaint | HitTesting.PaintedBarAt |

`ChartView.HitTest` stays as the source wrote it, because it is the
panel's behaviour. `PaintedBarAt` is the corrected definition. It is proved
to answer exactly the bars that `PaintBars` draws.

## Left out

- Swing rendering is not modelled: Graphics2D calls, colours, antialiasing, `repaint`, `revalidate`, `setAutoscrolls`, `setToolTipText`. The tooltip becomes the `Option<Hit>` that `HitTest` returns.
- Bar heights and gridline positions are not modelled (ChartView.java:120-140, 148-149). They use double arithmetic truncated to int, so the model makes no pixel claims about heights. The axes are not modelled either.
- Label text and layout are not modelled: `"%.0f"`, `"%.2f"`, `"Item " + n`, and the FontMetrics-based centring of labels. `PaintBars` records only whether a label is drawn.
- `getParent().getWidth()`, `getHeight()` and the pointer coordinates are parameters.
- A null list is not modelled. `calculateMaxValue` treats it like an empty list. `zoomIn`, `zoomOut`, `resetZoom`, `updateBarWidth` and `setData` never dereference it. Only three places would throw a NullPointerException: `getPreferredSize` (ChartView.java:103), `paintComponent` (ChartView.java:144), and `mouseMoved` once the pointer is in the band at x >= 40 (ChartView.java:189, 193). The model's dataset is always a list, and the host window never passes null.
- The panel keeps the caller's `List` by reference (ChartView.java:23, 34), while the model stores a value `seq`. Nothing is lost here, because the host allocates a fresh list on every regeneration (DataVisualizationApp.java:131). A caller that mutated the list after handing it over would break `Valid()`'s `maxValue == MaxValueOf(data)`, and the model does not capture that aliasing.
- Double NaN, infinities and -0.0 are not modelled, because values are `real`.
- `Valid()` bounds the dataset by the largest int, which is the most a Java list size can report.
- `maxZoomLevel` and `minZoomLevel` are never assigned, so they are constants here.
- DataVisualizationApp.java is modelled only by its regenerate handler's two calls. Random data generation, button wiring, styling and the event-dispatch thread are not part of this model.
- HitTestFindsBar: it requires the hit span's right end to fit in an int. Beyond that end the source's `barStartX + barWidth` wraps and the pointer misses.
- PaintedBarAtFindsPaintedBar: it requires the content width plus the left margin to fit in an int, so that painted positions do not wrap.
- PreferredWidthGrowsWithZoom: it is stated only when the deeper level's content width fits in an int. With overflow the wrapped width is not monotone.
