/** The fixed layout constants of the chart panel and the bar geometry that
    follows from the zoom level. */
module ChartGeometry {

  /** Space left of the y axis, for its labels. */
  const LeftMargin: int := 40
  /** Space above the plot area. */
  const TopMargin: int := 20
  /** Space below the plot area, for the item labels. */
  const BottomMargin: int := 30
  /** The height the panel asks its scroll pane for, at every zoom level. */
  const PreferredHeight: int := 400

  const MinZoomLevel: int := 1
  const MaxZoomLevel: int := 5

  /** Bar geometry at the default zoom level, the fields' initial values. */
  const DefaultBarWidth: int := 15
  const DefaultBarSpacing: int := 5

  predicate IsZoomLevel(zoom: int) {
    MinZoomLevel <= zoom <= MaxZoomLevel
  }

  /** The pointer's y coordinate lies in the plot area's vertical band of a
      panel `height` pixels high: between the top margin and the x axis. */
  predicate InPlotBand(y: int, height: int) {
    TopMargin <= y <= TopMargin + (height - BottomMargin - TopMargin)
  }

  /** Bar width that updateBarWidth assigns for a zoom level. */
  function BarWidthAt(zoom: int): int {
    15 + (zoom - 1) * 5
  }

  /** Gap between bars that updateBarWidth assigns for a zoom level. */
  function BarSpacingAt(zoom: int): int {
    5 + (zoom - 1) * 2
  }

  /** Distance from one bar slot to the next. */
  function StrideAt(zoom: int): int {
    BarWidthAt(zoom) + BarSpacingAt(zoom)
  }

  /** The width getPreferredSize asks for to fit `n` bars, before Java's
      int arithmetic and the comparison with the parent's width. */
  function ContentWidth(n: nat, zoom: int): int {
    n * StrideAt(zoom) + BarSpacingAt(zoom)
  }

  lemma ContentWidthNonNegative(n: nat, zoom: int)
    requires IsZoomLevel(zoom)
    ensures ContentWidth(n, zoom) >= 0
  {
    assert StrideAt(zoom) >= 0;
  }

  /** The initial field values are the geometry of level 1, and level 5,
      the deepest zoom, has 35-pixel bars 13 pixels apart. Every level has
      bars and gaps of positive width. */
  lemma GeometryOfLevels(zoom: int)
    requires IsZoomLevel(zoom)
    ensures BarWidthAt(MinZoomLevel) == DefaultBarWidth
    ensures BarSpacingAt(MinZoomLevel) == DefaultBarSpacing
    ensures BarWidthAt(MaxZoomLevel) == 35 && BarSpacingAt(MaxZoomLevel) == 13
    ensures 15 <= BarWidthAt(zoom) <= 35 && 5 <= BarSpacingAt(zoom) <= 13
  {
  }

  /** Zooming in never narrows the content: for the same number of bars the
      content width grows with the zoom level, strictly when the level
      really changes (the trailing gap alone grows by 2 per level). */
  lemma {:induction false} ContentWidthGrowsWithZoom(n: nat, z1: int, z2: int)
    requires z1 <= z2
    ensures ContentWidth(n, z1) <= ContentWidth(n, z2)
    ensures z1 < z2 ==> ContentWidth(n, z1) < ContentWidth(n, z2)
  {
    assert StrideAt(z2) - StrideAt(z1) == 7 * (z2 - z1);
    assert n * StrideAt(z2) - n * StrideAt(z1) == n * (7 * (z2 - z1));
    assert n * (7 * (z2 - z1)) >= 0;
  }

  /** The paint loop's label rule: the item label is drawn for every tenth
      data index, and for every drawn bar once bars are wider than 20 pixels. */
  predicate Labelled(index: nat, barWidth: int) {
    index % 10 == 0 || barWidth > 20
  }

  /** By zoom level: level 2 (bars exactly 20 wide) labels no more items
      than level 1; levels 3 to 5 label every drawn bar. */
  lemma LabelledByZoom(index: nat, zoom: int)
    requires IsZoomLevel(zoom)
    ensures Labelled(index, BarWidthAt(zoom)) <==> (index % 10 == 0 || zoom >= 3)
  {
  }
}
