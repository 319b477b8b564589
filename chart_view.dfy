/** The bar-chart panel: its dataset, scale value and zoom state, the
    operations that change them, and the three things it computes from them
    (its preferred size, the bars it paints, and the bar under the pointer). */
module ChartViewModel {
  import opened JavaInt
  import opened ChartData
  import opened ChartGeometry

  /** A bar as the paint loop draws it: the data index it shows, the x
      coordinate of its left edge, its value and whether its item label is
      drawn under it. */
  datatype Bar = Bar(index: nat, x: int, value: real, labelled: bool)

  /** What the pointer is over: the data index and its value, the two
      things the tooltip text is made of. */
  datatype Hit = Hit(index: nat, value: real)

  /** The panel's preferred size, a Swing `Dimension`. */
  datatype Size = Size(width: int, height: int)

  class ChartView {
    var data: seq<Entry>
    var maxValue: real
    var barWidth: int
    var barSpacing: int
    var currentZoomLevel: int

    /** The zoom level is in range, the bar geometry is the one of the zoom
        level, the scale value is the one of the dataset, and the dataset
        has no more entries than a Java list can report. */
    ghost predicate Valid()
      reads this
    {
      && IsZoomLevel(currentZoomLevel)
      && barWidth == BarWidthAt(currentZoomLevel)
      && barSpacing == BarSpacingAt(currentZoomLevel)
      && maxValue == MaxValueOf(data)
      && |data| <= MaxInt32
    }

    /** Distance from one bar slot to the next. */
    function Stride(): int
      reads this
    {
      barWidth + barSpacing
    }

    constructor (initial: seq<Entry>)
      requires |initial| <= MaxInt32
      ensures Valid()
      ensures data == initial && maxValue == MaxValueOf(initial)
      ensures currentZoomLevel == MinZoomLevel
      ensures barWidth == DefaultBarWidth && barSpacing == DefaultBarSpacing
    {
      data := initial;
      maxValue := 0.0;
      barWidth := DefaultBarWidth;
      barSpacing := DefaultBarSpacing;
      currentZoomLevel := MinZoomLevel;
      new;
      CalculateMaxValue();
    }

    /** Replaces the dataset, recomputes the scale value and resets the zoom. */
    method SetData(newData: seq<Entry>)
      requires Valid()
      requires |newData| <= MaxInt32
      modifies this
      ensures Valid()
      ensures data == newData && maxValue == MaxValueOf(newData)
      ensures currentZoomLevel == MinZoomLevel
      ensures barWidth == DefaultBarWidth && barSpacing == DefaultBarSpacing
    {
      data := newData;
      CalculateMaxValue();
      ResetZoom();
    }

    /** The max-scan: starts from 0, takes every non-null value that is
        strictly greater, and replaces a final 0 by 1. */
    method CalculateMaxValue()
      modifies this`maxValue
      ensures maxValue == MaxValueOf(data)
    {
      maxValue := 0.0;
      if |data| > 0 {
        var i := 0;
        while i < |data|
          invariant 0 <= i <= |data|
          invariant maxValue == ScanMax(data[..i])
        {
          assert data[..i + 1][..i] == data[..i];
          match data[i] {
            case Some(value) =>
              if value > maxValue {
                maxValue := value;
              }
            case None =>
          }
          i := i + 1;
        }
        assert data[..i] == data;
      }
      if maxValue == 0.0 {
        maxValue := 1.0;
      }
    }

    /** One level deeper, unless already at the deepest level, where nothing
        changes. */
    method ZoomIn()
      requires Valid()
      modifies this
      ensures Valid()
      ensures old(currentZoomLevel) < MaxZoomLevel ==> currentZoomLevel == old(currentZoomLevel) + 1
      ensures old(currentZoomLevel) == MaxZoomLevel ==>
                currentZoomLevel == old(currentZoomLevel)
                && barWidth == old(barWidth) && barSpacing == old(barSpacing)
      ensures data == old(data) && maxValue == old(maxValue)
    {
      if currentZoomLevel < MaxZoomLevel {
        currentZoomLevel := currentZoomLevel + 1;
        UpdateBarWidth();
      }
    }

    /** One level shallower, unless already at level 1, where nothing
        changes. */
    method ZoomOut()
      requires Valid()
      modifies this
      ensures Valid()
      ensures old(currentZoomLevel) > MinZoomLevel ==> currentZoomLevel == old(currentZoomLevel) - 1
      ensures old(currentZoomLevel) == MinZoomLevel ==>
                currentZoomLevel == old(currentZoomLevel)
                && barWidth == old(barWidth) && barSpacing == old(barSpacing)
      ensures data == old(data) && maxValue == old(maxValue)
    {
      if currentZoomLevel > MinZoomLevel {
        currentZoomLevel := currentZoomLevel - 1;
        UpdateBarWidth();
      }
    }

    /** Back to level 1 from any level. The new state does not depend on the
        old zoom, so a second reset changes nothing. */
    method ResetZoom()
      requires Valid()
      modifies this
      ensures Valid()
      ensures currentZoomLevel == MinZoomLevel
      ensures barWidth == DefaultBarWidth && barSpacing == DefaultBarSpacing
      ensures data == old(data) && maxValue == old(maxValue)
    {
      currentZoomLevel := MinZoomLevel;
      UpdateBarWidth();
    }

    /** Derives the bar geometry from the zoom level. */
    method UpdateBarWidth()
      modifies this`barWidth, this`barSpacing
      ensures barWidth == BarWidthAt(currentZoomLevel)
      ensures barSpacing == BarSpacingAt(currentZoomLevel)
    {
      barWidth := 15 + (currentZoomLevel - 1) * 5;
      barSpacing := 5 + (currentZoomLevel - 1) * 2;
    }

    /** The preferred size of the panel for a parent of the given width:
        wide enough for the parent and, unless Java's int arithmetic
        overflows, for every bar slot plus a trailing gap; always 400 high. */
    function PreferredSize(parentWidth: int): (size: Size)
      reads this
      requires Valid() && IsInt32(parentWidth)
      ensures size.height == PreferredHeight
      ensures IsInt32(size.width) && size.width >= parentWidth
      ensures size.width == parentWidth || size.width == Wrap32(ContentWidth(|data|, currentZoomLevel))
      ensures ContentWidth(|data|, currentZoomLevel) <= MaxInt32 ==>
                size.width >= ContentWidth(|data|, currentZoomLevel)
                && (size.width == parentWidth || size.width == ContentWidth(|data|, currentZoomLevel))
    {
      var totalWidth := Wrap32(Wrap32(|data| * (barWidth + barSpacing)) + barSpacing);
      TotalWidthWraps();
      ContentWidthNonNegative(|data|, currentZoomLevel);
      Size(if parentWidth >= totalWidth then parentWidth else totalWidth, PreferredHeight)
    }

    /** getPreferredSize's int arithmetic is the content width, wrapped once. */
    lemma TotalWidthWraps()
      requires Valid()
      ensures Wrap32(Wrap32(|data| * (barWidth + barSpacing)) + barSpacing)
           == Wrap32(ContentWidth(|data|, currentZoomLevel))
      ensures 0 <= ContentWidth(|data|, currentZoomLevel) <= MaxInt32
           ==> Wrap32(ContentWidth(|data|, currentZoomLevel)) == ContentWidth(|data|, currentZoomLevel)
    {
      WrapThenAdd(|data| * (barWidth + barSpacing), barSpacing);
      assert barWidth + barSpacing == StrideAt(currentZoomLevel);
    }

    /** Left edge of the k-th drawn bar: the paint loop starts one gap right
        of the y axis and adds a stride, in Java int arithmetic, per drawn bar. */
    function SlotX(k: nat): int
      reads this
    {
      Wrap32(LeftMargin + barSpacing + k * Stride())
    }

    lemma SlotXNext(k: nat)
      ensures Wrap32(SlotX(k) + Stride()) == SlotX(k + 1)
    {
      WrapThenAdd(LeftMargin + barSpacing + k * Stride(), Stride());
      assert LeftMargin + barSpacing + k * Stride() + Stride() == LeftMargin + barSpacing + (k + 1) * Stride();
    }

    /** The bar the paint loop draws for the k-th non-null entry, which has
        data index `index`. */
    function DrawnBar(k: nat, index: nat): Bar
      reads this
      requires index < |data| && data[index].Some?
    {
      Bar(index, SlotX(k), data[index].value, Labelled(index, barWidth))
    }

    /** Drawing the bar of a non-null entry extends the bars of the entries
        before it to the bars of the entries up to it. */
    lemma PaintedOneMore(bars: seq<Bar>, i: nat)
      requires i < |data| && data[i].Some?
      requires |bars| == |NonNullIndices(data[..i])|
      requires forall k :: 0 <= k < |bars| ==> bars[k] == DrawnBar(k, NonNullIndices(data[..i])[k])
      ensures |bars + [DrawnBar(|bars|, i)]| == |NonNullIndices(data[..i + 1])|
      ensures forall k :: 0 <= k <= |bars| ==>
                (bars + [DrawnBar(|bars|, i)])[k] == DrawnBar(k, NonNullIndices(data[..i + 1])[k])
    {
      NonNullIndicesStep(data, i);
    }

    /** The bars of one paint: one per non-null entry, in data order, the
        k-th at 40 + barSpacing + k * stride (a null entry takes no slot),
        labelled by the data index, not by the slot. */
    method PaintBars() returns (bars: seq<Bar>)
      requires Valid()
      ensures |bars| == |NonNullIndices(data)|
      ensures forall k :: 0 <= k < |bars| ==> bars[k] == DrawnBar(k, NonNullIndices(data)[k])
    {
      var x := LeftMargin + barSpacing;
      bars := [];
      var i := 0;
      while i < |data|
        invariant 0 <= i <= |data|
        invariant |bars| == |NonNullIndices(data[..i])|
        invariant x == SlotX(|bars|)
        invariant forall k :: 0 <= k < |bars| ==> bars[k] == DrawnBar(k, NonNullIndices(data[..i])[k])
      {
        NonNullIndicesStep(data, i);
        match data[i] {
          case None =>
            assert data[..i + 1][..i] == data[..i];
          case Some(value) =>
            PaintedOneMore(bars, i);
            SlotXNext(|bars|);
            bars := bars + [Bar(i, x, value, Labelled(i, barWidth))];
            x := Wrap32(x + (barWidth + barSpacing));
        }
        i := i + 1;
      }
      assert data[..i] == data;
    }

    /** The tooltip's hit-test for a pointer at (x, y) on a panel `height`
        pixels high: the bar slot is (x - 40) / stride, and the pointer must
        be within [40 + slot * stride, 40 + slot * stride + barWidth] and in
        the plot's vertical band. A hit on a null entry is no hit. */
    function HitTest(x: int, y: int, height: int): (r: Option<Hit>)
      reads this
      requires Valid() && IsInt32(x) && IsInt32(y) && IsInt32(height)
      ensures r.Some? ==> r.value.index < |data| && data[r.value.index] == Some(r.value.value)
      ensures r.Some? ==>
                LeftMargin + r.value.index * Stride() <= x <= LeftMargin + r.value.index * Stride() + barWidth
      ensures r.Some? ==> TopMargin <= y <= Wrap32(TopMargin + Wrap32(Wrap32(height - 30) - TopMargin))
    {
      var chartHeight := Wrap32(Wrap32(height - 30) - TopMargin);
      if x >= LeftMargin && y >= TopMargin && y <= Wrap32(TopMargin + chartHeight) then
        var relativeX := x - LeftMargin;
        var barIndex := relativeX / Stride();
        if barIndex < |data| then
          assert relativeX == barIndex * Stride() + relativeX % Stride();
          var barStartX := LeftMargin + barIndex * Stride();
          var barEndX := Wrap32(barStartX + barWidth);
          if barStartX <= x <= barEndX then
            match data[barIndex]
            case Some(value) => Some(Hit(barIndex, value))
            case None => None
          else None
        else None
      else None
    }
  }

  /** Zooming in never narrows the panel: for the same dataset and parent
      width, the deeper zoom level asks for at least the same width, as long
      as its content width fits in a Java int. */
  lemma PreferredWidthGrowsWithZoom(shallow: ChartView, deep: ChartView, parentWidth: int)
    requires shallow.Valid() && deep.Valid() && IsInt32(parentWidth)
    requires |shallow.data| == |deep.data|
    requires shallow.currentZoomLevel <= deep.currentZoomLevel
    requires ContentWidth(|deep.data|, deep.currentZoomLevel) <= MaxInt32
    ensures shallow.PreferredSize(parentWidth).width <= deep.PreferredSize(parentWidth).width
  {
    ContentWidthGrowsWithZoom(|deep.data|, shallow.currentZoomLevel, deep.currentZoomLevel);
  }

  /** The regenerate button's handler: new data, then a second, explicit
      zoom reset. It ends in the same state as setData alone. */
  method Regenerate(chart: ChartView, newData: seq<Entry>)
    requires chart.Valid()
    requires |newData| <= MaxInt32
    modifies chart
    ensures chart.Valid()
    ensures chart.data == newData && chart.maxValue == MaxValueOf(newData)
    ensures chart.currentZoomLevel == MinZoomLevel
    ensures chart.barWidth == DefaultBarWidth && chart.barSpacing == DefaultBarSpacing
  {
    chart.SetData(newData);
    chart.ResetZoom();
  }
}
