/**
 * The category pie chart: the slices `setData` computes from a category
 * breakdown (share of the total, colour picked by position, empty slices
 * dropped) and the size `onMeasure` asks for.
 */
module PieChart {
  import opened StableSort
  import opened Grouping
  import opened Shares

  /** The ten slice colours, cycled by position in the breakdown. */
  const CHART_COLORS: seq<string> := [
    "#FF6B6B", "#4ECDC4", "#45B7D1", "#F7DC6F", "#BB8FCE",
    "#85C1E9", "#F8C471", "#82E0AA", "#F1948A", "#D7DBDD"]

  /** A slice; `name` is the category label. */
  datatype PieSlice = PieSlice(name: string, value: real, percentage: real, color: string)

  /** The slice for the breakdown entry at `index`, before empty slices are dropped. */
  function SliceAt(data: Entries<string>, total: real, index: int): (slice: PieSlice)
    requires total > 0.0 && 0 <= index < |data|
    ensures slice.name == data[index].0 && slice.value == data[index].1
    ensures slice.color == CHART_COLORS[index % |CHART_COLORS|]
    ensures slice.percentage == Percentage(data[index].1, total)
    ensures slice.percentage > 0.0 <==> data[index].1 > 0.0
    ensures slice.percentage >= 0.0 <==> data[index].1 >= 0.0
  {
    var v := data[index].1;
    assert v / total * 100.0 > 0.0 <==> v > 0.0 by {
      if v > 0.0 {
        assert v / total > 0.0;
      } else {
        assert v / total <= 0.0;
      }
    }
    assert v / total * 100.0 >= 0.0 <==> v >= 0.0 by {
      if v >= 0.0 {
        assert v / total >= 0.0;
      } else {
        assert v / total < 0.0;
      }
    }
    PieSlice(data[index].0, v, Percentage(v, total), CHART_COLORS[index % |CHART_COLORS|])
  }

  /** `entries.mapIndexed { … }` */
  function AllSlices(data: Entries<string>, total: real): (slices: seq<PieSlice>)
    requires total > 0.0
    ensures |slices| == |data|
    ensures forall i | 0 <= i < |data| :: slices[i] == SliceAt(data, total, i)
  {
    seq(|data|, i requires 0 <= i < |data| => SliceAt(data, total, i))
  }

  predicate HasData(slice: PieSlice) {
    slice.percentage > 0.0
  }

  /** The slices `setData(categoryBreakdown)` stores. */
  function ChartData(data: Entries<string>): (slices: seq<PieSlice>)
    ensures |slices| <= |data|
    ensures Total(data) <= 0.0 ==> slices == []
    ensures Total(data) > 0.0 ==> slices == Filter(AllSlices(data, Total(data)), HasData)
  {
    var total := Total(data);
    if total <= 0.0 then [] else Filter(AllSlices(data, total), HasData)
  }

  lemma FilteredSlices(data: Entries<string>, total: real)
    requires total > 0.0
    ensures forall s | s in Filter(AllSlices(data, total), HasData) ::
      s.percentage > 0.0 && exists i | 0 <= i < |data| :: s == SliceAt(data, total, i)
    ensures forall i | 0 <= i < |data| && data[i].1 > 0.0 :: SliceAt(data, total, i) in Filter(AllSlices(data, total), HasData)
  {
    var all := AllSlices(data, total);
    FilterMembers(all, HasData);
    forall s | s in Filter(all, HasData)
      ensures exists i | 0 <= i < |data| :: s == SliceAt(data, total, i)
    {
      var i :| 0 <= i < |all| && all[i] == s;
      assert s == SliceAt(data, total, i);
    }
    forall i | 0 <= i < |data| && data[i].1 > 0.0
      ensures SliceAt(data, total, i) in Filter(all, HasData)
    {
      assert all[i] == SliceAt(data, total, i);
    }
  }

  /**
   * Every stored slice shows a positive share of the total, and keeps the
   * colour of its position in the whole breakdown: a dropped slice still
   * uses up its colour.  Conversely every entry with a positive amount is
   * shown.
   */
  lemma ChartDataSlices(data: Entries<string>)
    requires Total(data) > 0.0
    ensures forall s | s in ChartData(data) ::
      s.percentage > 0.0 && exists i | 0 <= i < |data| :: s == SliceAt(data, Total(data), i)
    ensures forall i | 0 <= i < |data| && data[i].1 > 0.0 :: SliceAt(data, Total(data), i) in ChartData(data)
  {
    FilteredSlices(data, Total(data));
  }

  /** Each slice's percentage, under its label. */
  function SliceShares(slices: seq<PieSlice>): (ys: Entries<string>)
    ensures |ys| == |slices|
    ensures forall i | 0 <= i < |slices| :: ys[i] == (slices[i].name, slices[i].percentage)
  {
    seq(|slices|, i requires 0 <= i < |slices| => (slices[i].name, slices[i].percentage))
  }

  /** Sum of the slices' percentages. */
  function PercentSum(slices: seq<PieSlice>): real {
    Total(SliceShares(slices))
  }

  lemma PercentSumAppend(a: seq<PieSlice>, s: PieSlice)
    ensures PercentSum(a + [s]) == PercentSum(a) + s.percentage
  {
    assert SliceShares(a + [s]) == SliceShares(a) + [(s.name, s.percentage)];
    TotalAppend(SliceShares(a), (s.name, s.percentage));
  }

  /** Dropping slices whose share is zero leaves the sum of shares as it was. */
  lemma {:induction false} FilterKeepsPercentSum(slices: seq<PieSlice>)
    requires forall i | 0 <= i < |slices| :: slices[i].percentage >= 0.0
    ensures PercentSum(Filter(slices, HasData)) == PercentSum(slices)
  {
    if slices != [] {
      var init, last := slices[..|slices| - 1], slices[|slices| - 1];
      assert slices == init + [last];
      FilterKeepsPercentSum(init);
      FilterConcat(init, [last], HasData);
      FilterSingle(last, HasData);
      PercentSumAppend(init, last);
      if HasData(last) {
        PercentSumAppend(Filter(init, HasData), last);
      } else {
        assert Filter(slices, HasData) == Filter(init, HasData);
      }
    }
  }

  /** With no negative amounts, the shown slices' percentages add up to exactly 100. */
  lemma PercentagesSumTo100(data: Entries<string>)
    requires Total(data) > 0.0
    requires NoNegativeValues(data)
    ensures PercentSum(ChartData(data)) == 100.0
  {
    ShownSlicesSum(data, Total(data));
  }

  lemma ShownSlicesSum(data: Entries<string>, total: real)
    requires total > 0.0 && total == Total(data)
    requires NoNegativeValues(data)
    ensures PercentSum(Filter(AllSlices(data, total), HasData)) == 100.0
  {
    var all := AllSlices(data, total);
    AllSlicesSum(data, total);
    AllSlicesNonNegative(data, total);
    FilterKeepsPercentSum(all);
  }

  lemma AllSlicesNonNegative(data: Entries<string>, total: real)
    requires total > 0.0
    requires NoNegativeValues(data)
    ensures forall i | 0 <= i < |AllSlices(data, total)| :: AllSlices(data, total)[i].percentage >= 0.0
  {
  }

  /** Before filtering, the slices' shares are the entries' shares of the total, and add up to 100. */
  lemma AllSlicesSum(data: Entries<string>, total: real)
    requires total > 0.0 && total == Total(data)
    ensures PercentSum(AllSlices(data, total)) == 100.0
  {
    assert SliceShares(AllSlices(data, total)) == SharesOf(data, total);
    SharesSumTo100(data);
  }

  /**
   * The chart is empty whenever no category has a positive amount; with no
   * negative amounts, it is empty only then.
   */
  lemma EmptyChart(data: Entries<string>)
    ensures (forall i | 0 <= i < |data| :: data[i].1 <= 0.0) ==> ChartData(data) == []
    ensures (forall i | 0 <= i < |data| :: data[i].1 >= 0.0) && ChartData(data) == []
            ==> forall i | 0 <= i < |data| :: data[i].1 <= 0.0
  {
    if forall i | 0 <= i < |data| :: data[i].1 <= 0.0 {
      TotalNonPositive(data);
    }
    if (forall i | 0 <= i < |data| :: data[i].1 >= 0.0) && ChartData(data) == [] {
      forall k | 0 <= k < |data|
        ensures data[k].1 <= 0.0
      {
        TotalBoundsEntry(data, k);
        if Total(data) > 0.0 {
          ChartDataSlices(data);
        }
      }
    }
  }

  // ---------------------------------------------------------------- measuring

  datatype MeasureMode = EXACTLY | AT_MOST | UNSPECIFIED

  /** A measure spec: the mode and the size the parent offers. */
  datatype MeasureSpec = MeasureSpec(mode: MeasureMode, size: nat)

  const DESIRED_WIDTH: nat := 600
  const DESIRED_HEIGHT: nat := 500

  /** One dimension of `onMeasure`'s answer. */
  function ResolveDimension(spec: MeasureSpec, desired: nat): (r: nat)
    ensures spec.mode == EXACTLY ==> r == spec.size
    ensures spec.mode == AT_MOST ==> r <= spec.size && r <= desired && (r == spec.size || r == desired)
    ensures spec.mode == UNSPECIFIED ==> r == desired
  {
    match spec.mode
    case EXACTLY => spec.size
    case AT_MOST => if desired < spec.size then desired else spec.size
    case UNSPECIFIED => desired
  }

  /** The view's stored slices and measured size. */
  class CustomPieChart {
    var chartData: seq<PieSlice>
    var measuredWidth: nat
    var measuredHeight: nat

    constructor()
      ensures chartData == [] && measuredWidth == 0 && measuredHeight == 0
    {
      chartData := [];
      measuredWidth := 0;
      measuredHeight := 0;
    }

    /** `setData(categoryBreakdown)` */
    method SetData(categoryBreakdown: Entries<string>)
      modifies this
      ensures chartData == ChartData(categoryBreakdown)
      ensures measuredWidth == old(measuredWidth) && measuredHeight == old(measuredHeight)
    {
      var total := Total(categoryBreakdown);
      if total <= 0.0 {
        chartData := [];
        return;
      }
      chartData := Filter(AllSlices(categoryBreakdown, total), HasData);
    }

    /** `onMeasure(widthMeasureSpec, heightMeasureSpec)` */
    method OnMeasure(widthSpec: MeasureSpec, heightSpec: MeasureSpec)
      modifies this
      ensures measuredWidth == ResolveDimension(widthSpec, DESIRED_WIDTH)
      ensures measuredHeight == ResolveDimension(heightSpec, DESIRED_HEIGHT)
      ensures chartData == old(chartData)
    {
      measuredWidth := ResolveDimension(widthSpec, DESIRED_WIDTH);
      measuredHeight := ResolveDimension(heightSpec, DESIRED_HEIGHT);
    }
  }
}
