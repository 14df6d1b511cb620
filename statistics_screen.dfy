/**
 * The statistics screen: which period each tab stands for and back, the
 * comparison line with its arrow and colour, the text trend of the last
 * seven days with data, when the "no data" message shows, and the summary
 * cards.
 */
module StatisticsScreen {
  import opened Wrappers
  import opened Text
  import opened Numerals
  import opened Extensions
  import opened PeriodRanges
  import opened Grouping
  import opened StableSort
  import opened Statistics
  import opened PieChart

  // ---------------------------------------------------------------- tabs

  /** The periods of the four tabs, left to right. */
  const TAB_PERIODS: seq<TimePeriod> := [THIS_WEEK, THIS_MONTH, THIS_YEAR, LAST_30_DAYS]

  /** The period `onTabSelected` loads for a tab position. */
  function PeriodForTab(position: int): (period: TimePeriod)
    ensures 0 <= position < |TAB_PERIODS| ==> period == TAB_PERIODS[position]
    ensures !(0 <= position < |TAB_PERIODS|) ==> period == THIS_MONTH
  {
    match position
    case 0 => THIS_WEEK
    case 1 => THIS_MONTH
    case 2 => THIS_YEAR
    case 3 => LAST_30_DAYS
    case _ => THIS_MONTH
  }

  /** The tab `updatePeriodSelection` selects: one that loads the period back. */
  function TabForPeriod(period: TimePeriod): (position: int)
    ensures 0 <= position < |TAB_PERIODS|
    ensures PeriodForTab(position) == period
  {
    match period
    case THIS_WEEK => 0
    case THIS_MONTH => 1
    case THIS_YEAR => 2
    case LAST_30_DAYS => 3
  }

  /** Selecting a tab and then marking its period selected lands on the same tab. */
  lemma TabRoundTrip(position: int)
    requires 0 <= position < |TAB_PERIODS|
    ensures TabForPeriod(PeriodForTab(position)) == position
  {
  }

  // ---------------------------------------------------------------- comparison

  const UP: char := '↑'
  const DOWN: char := '↓'

  datatype TextColor = EXPENSE_RED | PRIMARY

  datatype ComparisonView = ComparisonView(text: string, color: TextColor)

  /** The arrow, the amount in currency and the percentage with one decimal. */
  function ComparisonLine(arrow: char, amountText: string, percentText: string): (line: string)
    ensures |line| > 2 && line[0] == arrow && line[1] == ' '
    ensures line[|line| - 2..] == "%)"
  {
    [arrow] + " " + amountText + " (" + percentText + "%)"
  }

  /** The arrow in front of a change: up for an increase, down otherwise. */
  function Arrow(difference: real): (arrow: char)
    ensures arrow == UP <==> difference > 0.0
    ensures arrow == DOWN <==> difference <= 0.0
  {
    if difference > 0.0 then UP else DOWN
  }

  /**
   * `updateComparisonUI(comparison)`. Without an increase the line shows
   * `-difference` and `-percentageChange` as Doubles, so a zero there is
   * the negative zero and prints with its minus sign.
   */
  function ComparisonText(c: PeriodComparison): (view: ComparisonView)
    ensures view.color == EXPENSE_RED <==> c.difference > 0.0
    ensures |view.text| > 2 && view.text[0] == Arrow(c.difference)
  {
    if c.difference > 0.0 then
      ComparisonView(ComparisonLine(UP, ToCurrency(c.difference), FormatFixed1(c.percentageChange)), EXPENSE_RED)
    else
      ComparisonView(ComparisonLine(DOWN, [RUPEE] + FormatFixed2Negated(c.difference), FormatFixed1Negated(c.percentageChange)), PRIMARY)
  }

  /**
   * For the comparison `loadStatistics` computes, the arrow tells the
   * direction. When the totals differ, and the percentage was computed
   * against a positive previous total or the total rose, both numbers
   * after the arrow are magnitudes; a fall from a previous total that is
   * not positive shows the negated zero percentage.
   */
  lemma ComparisonShowsMagnitudes(currentSpent: real, previousSpent: real)
    ensures var c := CalculatePeriodComparison(currentSpent, previousSpent);
      var view := ComparisonText(c);
      (view.text[0] == UP <==> currentSpent > previousSpent)
      && (currentSpent != previousSpent && (previousSpent > 0.0 || currentSpent > previousSpent) ==>
            view.text == ComparisonLine(Arrow(c.difference), ToCurrency(Abs(c.difference)), FormatFixed1(Abs(c.percentageChange))))
      && (currentSpent < previousSpent <= 0.0 ==>
            view.text == ComparisonLine(DOWN, ToCurrency(previousSpent - currentSpent), "-" + FormatFixed1(c.percentageChange)))
  {
    var c := CalculatePeriodComparison(currentSpent, previousSpent);
    assert c.previousAmount == previousSpent && c.difference == currentSpent - previousSpent;
    ViewOfComparison(c);
  }

  /**
   * The comparison line for any comparison whose percentage has the sign
   * of the difference when the previous total is positive, and is zero
   * otherwise.
   */
  lemma ViewOfComparison(c: PeriodComparison)
    requires c.previousAmount > 0.0 ==> (c.percentageChange < 0.0 <==> c.difference < 0.0)
    requires c.previousAmount <= 0.0 ==> c.percentageChange == 0.0
    ensures var view := ComparisonText(c);
      var d, p := c.difference, c.percentageChange;
      (view.text[0] == UP <==> d > 0.0)
      && (d != 0.0 && (c.previousAmount > 0.0 || d > 0.0) ==>
            view.text == ComparisonLine(Arrow(d), ToCurrency(Abs(d)), FormatFixed1(Abs(p))))
      && (d < 0.0 && c.previousAmount <= 0.0 ==>
            view.text == ComparisonLine(DOWN, ToCurrency(-d), "-" + FormatFixed1(p)))
  {
    var d, p := c.difference, c.percentageChange;
    if d > 0.0 {
      RiseText(c);
      assert Abs(d) == d && Abs(p) == p;
    } else if d < 0.0 {
      FallText(c);
      assert Abs(d) == -d;
      if c.previousAmount > 0.0 {
        assert Abs(p) == -p;
      }
    }
  }

  /** An increase shows the difference and the percentage as computed. */
  lemma RiseText(c: PeriodComparison)
    requires c.difference > 0.0
    ensures ComparisonText(c).text == ComparisonLine(UP, ToCurrency(c.difference), FormatFixed1(c.percentageChange))
  {
  }

  /** A fall shows the size of the drop in currency, then the negated percentage. */
  lemma FallText(c: PeriodComparison)
    requires c.difference < 0.0
    ensures ComparisonText(c).text == ComparisonLine(DOWN, ToCurrency(-c.difference), FormatFixed1Negated(c.percentageChange))
  {
    var d := c.difference;
    var t := ToCurrency(-d);
    assert FormatFixed2Negated(d) == t[1..];
    assert t == [t[0]] + t[1..];
  }

  /** Equal totals show a fall of "₹-0.00" and "-0.0%": the negated zeros. */
  lemma EqualTotalsShowNegativeZero(currentSpent: real, previousSpent: real)
    requires currentSpent == previousSpent
    ensures ComparisonText(CalculatePeriodComparison(currentSpent, previousSpent)).text == "↓ ₹-0.00 (-0.0%)"
  {
    var c := CalculatePeriodComparison(currentSpent, previousSpent);
    NoChangeText(c);
  }

  /** A comparison with no change shows the negated zeros. */
  lemma NoChangeText(c: PeriodComparison)
    requires c.difference == 0.0 && c.percentageChange == 0.0
    ensures ComparisonText(c).text == "↓ ₹-0.00 (-0.0%)"
  {
    var d, p := c.difference, c.percentageChange;
    ZeroFixed(d, p);
    var amount := [RUPEE] + FormatFixed2Negated(d);
    var percent := FormatFixed1Negated(p);
    assert amount == "₹-0.00";
    assert percent == "-0.0";
    assert ComparisonText(c).text == ComparisonLine(DOWN, amount, percent);
  }

  /** Zero prints as "0.00" and "0.0". */
  lemma ZeroFixed(z: real, y: real)
    requires z == 0.0 && y == 0.0
    ensures FormatFixed2(z) == "0.00" && FormatFixed1(y) == "0.0"
  {
    assert Cents(z) == 0 && Tenths(y) == 0;
    assert NatToString(0) == "0";
    FormatFixed2Parts(z);
    FormatFixed1Parts(y);
    assert Digits(0, 2) == "00";
  }

  // ---------------------------------------------------------------- trend

  const TREND_DAYS: nat := 7
  const TREND_HEADER: string := "Daily Spending Trend:\n"
  const NO_DATA: string := "No data available"

  function TrendLine(day: DailyExpense): string {
    day.date + ": " + ToCurrency(day.amount)
  }

  /** A trend line is the date, ": ", and an amount that strips back to the day's total rounded to paise. */
  lemma TrendLineFields(day: DailyExpense)
    ensures var line := TrendLine(day);
      var k := |day.date| + 2;
      IsPrefix(day.date + ": ", line)
      && ParseDecimal(StripCurrency(line[k..])) == Some(RoundHalfUp2(day.amount))
  {
    var line := TrendLine(day);
    var head := day.date + ": ";
    assert line == head + ToCurrency(day.amount);
    PrefixOfConcat(head, ToCurrency(day.amount));
    assert line[|head|..] == ToCurrency(day.amount);
    ParseCurrency(day.amount);
  }

  /** The lines of `dailyTrend.takeLast(7)`. */
  function TrendLines(dailyTrend: seq<DailyExpense>): (lines: seq<string>)
    ensures |lines| == if |dailyTrend| < TREND_DAYS then |dailyTrend| else TREND_DAYS
    ensures forall i | 0 <= i < |lines| :: lines[i] == TrendLine(dailyTrend[|dailyTrend| - |lines| + i])
  {
    var last := TakeLast(dailyTrend, TREND_DAYS);
    seq(|last|, i requires 0 <= i < |last| => TrendLine(last[i]))
  }

  /** `updateTrendChart(dailyTrend)` */
  function TrendText(dailyTrend: seq<DailyExpense>): (text: string)
    ensures text == NO_DATA <==> dailyTrend == []
    ensures dailyTrend != [] ==> text == TREND_HEADER + Join(TrendLines(dailyTrend), "\n")
  {
    if dailyTrend == [] then NO_DATA
    else
      var text := TREND_HEADER + Join(TrendLines(dailyTrend), "\n");
      assert text[0] != NO_DATA[0];
      text
  }

  /** The trend lists the latest dates: the most recent day with spending is the last line. */
  lemma TrendEndsWithLatestDay(dailyTrend: seq<DailyExpense>)
    requires dailyTrend != []
    ensures var lines := TrendLines(dailyTrend);
      lines != [] && lines[|lines| - 1] == TrendLine(dailyTrend[|dailyTrend| - 1])
  {
  }

  // ---------------------------------------------------------------- no-data message

  /** `categoryBreakdown.isEmpty() || categoryBreakdown.values.all { it <= 0 }` */
  function NoDataMessageVisible(categoryBreakdown: Entries<string>): (visible: bool)
    ensures visible <==> forall i | 0 <= i < |categoryBreakdown| :: categoryBreakdown[i].1 <= 0.0
  {
    categoryBreakdown == [] || forall i | 0 <= i < |categoryBreakdown| :: categoryBreakdown[i].1 <= 0.0
  }

  /**
   * Whenever the message shows, the pie chart has no slice; when no
   * amount is negative, the chart is empty only when the message shows.
   */
  lemma NoDataMessageMatchesChart(categoryBreakdown: Entries<string>)
    ensures NoDataMessageVisible(categoryBreakdown) ==> ChartData(categoryBreakdown) == []
    ensures NoNegativeValues(categoryBreakdown) && ChartData(categoryBreakdown) == []
            ==> NoDataMessageVisible(categoryBreakdown)
  {
    EmptyChart(categoryBreakdown);
  }

  // ---------------------------------------------------------------- screen

  function CountText(count: int): string {
    (if count < 0 then "-" + NatToString(-count) else NatToString(count)) + " expenses"
  }

  /** A count's text is its numeral followed by " expenses", and the numeral reads back as the count. */
  lemma CountTextReadsBack(count: nat)
    ensures var text := CountText(count);
      var k := |NatToString(count)|;
      k <= |text| && text[k..] == " expenses" && AllDigits(text[..k]) && ValueOf(text[..k]) == count
  {
    var text := CountText(count);
    assert text == NatToString(count) + " expenses";
    assert text[..|NatToString(count)|] == NatToString(count);
    ValueOfNatToString(count);
  }

  /** The texts and visibility flags the statistics screen shows. */
  class StatisticsPanel {
    var selectedTab: int
    var totalSpentText: string
    var expenseCountText: string
    var averagePerDayText: string
    var comparison: ComparisonView
    var trendText: string
    var noDataMessageVisible: bool
    var chartData: seq<PieSlice>
    var shownCategories: seq<CategoryExpense>

    constructor()
      ensures selectedTab == 0 && chartData == [] && shownCategories == []
    {
      selectedTab := 0;
      totalSpentText, expenseCountText, averagePerDayText := "", "", "";
      comparison := ComparisonView("", PRIMARY);
      trendText := "";
      noDataMessageVisible := false;
      chartData := [];
      shownCategories := [];
    }

    /** `updatePeriodSelection(period)` */
    method UpdatePeriodSelection(period: TimePeriod)
      modifies this
      ensures selectedTab == TabForPeriod(period) && PeriodForTab(selectedTab) == period
      ensures totalSpentText == old(totalSpentText) && expenseCountText == old(expenseCountText)
      ensures averagePerDayText == old(averagePerDayText) && comparison == old(comparison)
      ensures trendText == old(trendText) && chartData == old(chartData)
      ensures noDataMessageVisible == old(noDataMessageVisible) && shownCategories == old(shownCategories)
    {
      selectedTab := TabForPeriod(period);
    }

    /**
     * `updateStatisticsUI(data)`; `chartData` is what the pie chart
     * stores and `shownCategories` what the top-categories list holds.
     */
    method UpdateStatisticsUI(data: StatisticsData)
      modifies this
      ensures totalSpentText == ToCurrency(data.totalSpent)
      ensures expenseCountText == CountText(data.expenseCount)
      ensures averagePerDayText == ToCurrency(data.averagePerDay) + "/day"
      ensures comparison == ComparisonText(data.comparisonWithPreviousPeriod)
      ensures chartData == ChartData(data.categoryBreakdown)
      ensures noDataMessageVisible == NoDataMessageVisible(data.categoryBreakdown)
      ensures shownCategories == data.topCategories
      ensures trendText == TrendText(data.dailyTrend)
      ensures selectedTab == old(selectedTab)
    {
      totalSpentText := ToCurrency(data.totalSpent);
      expenseCountText := CountText(data.expenseCount);
      averagePerDayText := ToCurrency(data.averagePerDay) + "/day";
      UpdateComparisonUI(data.comparisonWithPreviousPeriod);
      UpdateCategoryChart(data.categoryBreakdown);
      shownCategories := data.topCategories;
      UpdateTrendChart(data.dailyTrend);
    }

    /** `updateComparisonUI(comparison)` */
    method UpdateComparisonUI(c: PeriodComparison)
      modifies this
      ensures comparison == ComparisonText(c)
      ensures (comparison.color == EXPENSE_RED) == (c.difference > 0.0)
      ensures totalSpentText == old(totalSpentText) && expenseCountText == old(expenseCountText)
      ensures averagePerDayText == old(averagePerDayText) && selectedTab == old(selectedTab)
      ensures trendText == old(trendText) && chartData == old(chartData)
      ensures noDataMessageVisible == old(noDataMessageVisible) && shownCategories == old(shownCategories)
    {
      comparison := ComparisonText(c);
    }

    /** `updateCategoryChart(categoryBreakdown)` */
    method UpdateCategoryChart(categoryBreakdown: Entries<string>)
      modifies this
      ensures chartData == ChartData(categoryBreakdown)
      ensures noDataMessageVisible == NoDataMessageVisible(categoryBreakdown)
      ensures noDataMessageVisible ==> chartData == []
      ensures totalSpentText == old(totalSpentText) && expenseCountText == old(expenseCountText)
      ensures averagePerDayText == old(averagePerDayText) && selectedTab == old(selectedTab)
      ensures comparison == old(comparison) && trendText == old(trendText)
      ensures shownCategories == old(shownCategories)
    {
      chartData := ChartData(categoryBreakdown);
      noDataMessageVisible := NoDataMessageVisible(categoryBreakdown);
      NoDataMessageMatchesChart(categoryBreakdown);
    }

    /** `updateTrendChart(dailyTrend)` */
    method UpdateTrendChart(dailyTrend: seq<DailyExpense>)
      modifies this
      ensures trendText == TrendText(dailyTrend)
      ensures totalSpentText == old(totalSpentText) && expenseCountText == old(expenseCountText)
      ensures averagePerDayText == old(averagePerDayText) && selectedTab == old(selectedTab)
      ensures comparison == old(comparison) && chartData == old(chartData)
      ensures noDataMessageVisible == old(noDataMessageVisible) && shownCategories == old(shownCategories)
    {
      trendText := TrendText(dailyTrend);
    }
  }
}
