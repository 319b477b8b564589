/** What the tooltip's hit-test answers, proved against its definition in
    ChartView; and how its bar spans differ from the bars the panel paints,
    with a hit-test that follows the painted bars instead. */
module HitTesting {
  import opened JavaInt
  import opened ChartData
  import opened ChartGeometry
  import opened ChartViewModel

  /** Integer division by a positive stride lands in the slot that holds
      the dividend. */
  lemma DivisionInSlot(a: int, s: int, i: int)
    requires s > 0 && 0 <= i
    requires i * s <= a < i * s + s
    ensures a / s == i
  {
    var q := a / s;
    assert (q - i) * s == a - a % s - i * s;
    MultipleOfPositive(q - i, s);
  }

  /** A non-zero multiple of a positive number is at least that number
      away from zero. */
  lemma MultipleOfPositive(d: int, s: int)
    requires s > 0
    ensures d >= 1 ==> d * s >= s
    ensures d <= -1 ==> d * s <= -s
  {
    assert d * s - s == (d - 1) * s;
    assert d * s + s == (d + 1) * s;
  }

  /** On a panel of non-negative height the band the hit-test checks is
      the plot area's band: no Java int arithmetic wraps there. */
  lemma BandWithoutWrap(height: int)
    requires 0 <= height <= MaxInt32
    ensures Wrap32(TopMargin + Wrap32(Wrap32(height - 30) - TopMargin))
         == TopMargin + (height - BottomMargin - TopMargin)
  {
  }

  /** Every bar slot with a non-null value is found: a pointer in the plot
      band anywhere in [40 + i * stride, 40 + i * stride + barWidth] gets
      entry i and its value, unless the slot's right edge is beyond the
      largest Java int. */
  lemma HitTestFindsBar(c: ChartView, i: nat, x: int, y: int, height: int)
    requires c.Valid() && IsInt32(x) && IsInt32(y) && 0 <= height <= MaxInt32
    requires i < |c.data| && c.data[i].Some?
    requires InPlotBand(y, height)
    requires LeftMargin + i * c.Stride() <= x <= LeftMargin + i * c.Stride() + c.barWidth
    requires LeftMargin + i * c.Stride() + c.barWidth <= MaxInt32
    ensures c.HitTest(x, y, height) == Some(Hit(i, c.data[i].value))
  {
    BandWithoutWrap(height);
    DivisionInSlot(x - LeftMargin, c.Stride(), i);
  }

  /** The hit-test finds nothing left of the y axis, above or below the
      plot band, beyond the last slot, in the gap after a bar, or on a
      slot whose entry is null. */
  lemma HitTestMisses(c: ChartView, x: int, y: int, height: int)
    requires c.Valid() && IsInt32(x) && IsInt32(y) && 0 <= height <= MaxInt32
    ensures x < LeftMargin ==> c.HitTest(x, y, height) == None
    ensures !InPlotBand(y, height) ==> c.HitTest(x, y, height) == None
    ensures (LeftMargin <= x && (x - LeftMargin) / c.Stride() >= |c.data|)
              ==> c.HitTest(x, y, height) == None
    ensures (LeftMargin <= x
             && x > LeftMargin + (x - LeftMargin) / c.Stride() * c.Stride() + c.barWidth)
              ==> c.HitTest(x, y, height) == None
    ensures (LeftMargin <= x && (x - LeftMargin) / c.Stride() < |c.data|
             && c.data[(x - LeftMargin) / c.Stride()] == None)
              ==> c.HitTest(x, y, height) == None
  {
    BandWithoutWrap(height);
  }

  /** The hit-test's spans and the painted bars, on the three entries
      [100, null, 50] at zoom level 1 (bars 15 wide, 5 apart) on a panel 400
      high. The painter puts entry 0 at x = 45 and, because the null takes
      no slot, entry 2 at x = 65. The hit-test answers entry 0 at x = 42,
      where nothing is painted; nothing at x = 58 and x = 70, both inside
      painted bars; and entry 2 at x = 82, in the gap after the last
      painted bar. */
  lemma HitTestDisagreesWithPaint(c: ChartView)
    requires c.Valid()
    requires c.data == [Some(100.0), None, Some(50.0)] && c.currentZoomLevel == 1
    ensures NonNullIndices(c.data) == [0, 2]
    ensures c.SlotX(0) == 45 && c.SlotX(1) == 65
    ensures c.HitTest(42, 100, 400) == Some(Hit(0, 100.0))
    ensures c.HitTest(58, 100, 400) == None
    ensures c.HitTest(70, 100, 400) == None
    ensures c.HitTest(82, 100, 400) == Some(Hit(2, 50.0))
  {
    var d := c.data;
    assert d[..1][..0] == [];
    assert NonNullIndices(d[..1]) == [0];
    assert d[..2][..1] == d[..1];
    assert NonNullIndices(d[..2]) == [0];
    assert d[..|d| - 1] == d[..2];
  }

  /** The hit-test the tooltip evidently intends: the bar painted under the
      pointer. The k-th painted bar (k-th non-null entry) spans
      [40 + barSpacing + k * stride, 40 + barSpacing + k * stride + barWidth]. */
  function PaintedBarAt(c: ChartView, x: int, y: int, height: int): (r: Option<Hit>)
    reads c
    requires c.Valid() && IsInt32(x)
    ensures r.Some? ==> InPlotBand(y, height)
    ensures r.Some? ==> r.value.index < |c.data| && c.data[r.value.index] == Some(r.value.value)
    ensures r.Some? ==>
              exists k :: 0 <= k < |NonNullIndices(c.data)| && NonNullIndices(c.data)[k] == r.value.index
                          && c.SlotX(k) <= x <= c.SlotX(k) + c.barWidth
  {
    var drawn := NonNullIndices(c.data);
    var first := LeftMargin + c.barSpacing;
    if InPlotBand(y, height) && x >= first then
      var k := (x - first) / c.Stride();
      if k < |drawn| && x <= first + k * c.Stride() + c.barWidth then
        assert k * c.Stride() <= x - first;
        assert c.SlotX(k) == first + k * c.Stride();
        Some(Hit(drawn[k], c.data[drawn[k]].value))
      else None
    else None
  }

  /** PaintedBarAt answers exactly the painted bars: in the plot band, a
      pointer over the k-th painted bar gets that bar's entry, as long as
      the content fits in Java int pixel coordinates. */
  lemma PaintedBarAtFindsPaintedBar(c: ChartView, k: nat, x: int, y: int, height: int)
    requires c.Valid() && IsInt32(x)
    requires LeftMargin + ContentWidth(|c.data|, c.currentZoomLevel) <= MaxInt32
    requires InPlotBand(y, height)
    requires k < |NonNullIndices(c.data)|
    requires c.SlotX(k) <= x <= c.SlotX(k) + c.barWidth
    ensures PaintedBarAt(c, x, y, height)
         == Some(Hit(NonNullIndices(c.data)[k], c.data[NonNullIndices(c.data)[k]].value))
  {
    var first := LeftMargin + c.barSpacing;
    SlotWithoutWrap(c, k);
    DivisionInSlot(x - first, c.Stride(), k);
  }

  /** While the content fits in a Java int, the painter's running x is the
      exact slot position. */
  lemma SlotWithoutWrap(c: ChartView, k: nat)
    requires c.Valid() && k <= |c.data|
    requires LeftMargin + ContentWidth(|c.data|, c.currentZoomLevel) <= MaxInt32
    ensures c.SlotX(k) == LeftMargin + c.barSpacing + k * c.Stride()
  {
    var n := |c.data|;
    assert c.Stride() == StrideAt(c.currentZoomLevel);
    assert 0 <= k * c.Stride() <= n * c.Stride() by {
      assert n * c.Stride() - k * c.Stride() == (n - k) * c.Stride();
    }
  }

  /** A pointer over no painted bar gets no answer from PaintedBarAt. */
  lemma PaintedBarAtMissesGaps(c: ChartView, x: int, y: int, height: int)
    requires c.Valid() && IsInt32(x)
    requires forall k :: 0 <= k < |NonNullIndices(c.data)| ==>
               !(c.SlotX(k) <= x <= c.SlotX(k) + c.barWidth)
    ensures PaintedBarAt(c, x, y, height) == None
  {
  }
}
