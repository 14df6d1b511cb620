/**
 * The statistics screen: the average spent per day of the period, the
 * per-day spending trend, the top categories, the comparison with the
 * previous period, and the view model that loads them for a period.
 */
module Statistics {
  import opened Wrappers
  import opened Text
  import opened CivilTime
  import opened Calendars
  import opened PeriodRanges
  import opened Entities
  import opened Grouping
  import opened StableSort
  import opened DayKeys
  import opened SpendingStatistics

  datatype DailyExpense = DailyExpense(date: string, amount: real)

  datatype CategoryExpense = CategoryExpense(name: string, amount: real)

  datatype PeriodComparison = PeriodComparison(
    previousAmount: real,
    currentAmount: real,
    difference: real,
    percentageChange: real)

  datatype StatisticsData = StatisticsData(
    totalSpent: real,
    expenseCount: int,
    averagePerDay: real,
    categoryBreakdown: Entries<string>,
    dailyTrend: seq<DailyExpense>,
    topCategories: seq<CategoryExpense>,
    comparisonWithPreviousPeriod: PeriodComparison)

  datatype StatisticsUiState = Loading | Success | Error(message: string)

  const UNKNOWN_ERROR: string := "Unknown error"
  const TOP_CATEGORY_LIMIT: int := 5

  // ---------------------------------------------------------------- average

  /** `isLeapYear()` on the year of `now`, with Kotlin's remainder (zero tests agree with Dafny's). */
  function IsLeapYearNow(now: int): (b: bool)
    ensures b <==> DaysInYear(DateOf(now).year) == 366
  {
    var year := At(now).YearField();
    (year % 4 == 0 && year % 100 != 0) || (year % 400 == 0)
  }

  /** The `days` divisor of `calculateAveragePerDay`. */
  function AverageDivisor(period: TimePeriod, now: int): (days: int)
    ensures days >= 7
    ensures days == PeriodLength(period, now)
  {
    match period
    case THIS_WEEK => 7
    case THIS_MONTH => At(now).ActualMaximumDayOfMonth()
    case THIS_YEAR => if IsLeapYearNow(now) then 366 else 365
    case LAST_30_DAYS => 30
  }

  /** `calculateAveragePerDay(totalSpent, period)` */
  function CalculateAveragePerDay(totalSpent: real, period: TimePeriod, now: int): (average: real)
    ensures average * PeriodLength(period, now) as real == totalSpent
  {
    var days := AverageDivisor(period, now) as real;
    DivTimes(totalSpent, days);
    totalSpent / days
  }

  lemma DivTimes(t: real, d: real)
    requires d != 0.0
    ensures t / d * d == t
  {
  }

  /** The average is taken over exactly the days of the period range that was queried. */
  lemma AverageOverRange(totalSpent: real, period: TimePeriod, now: int)
    ensures var (start, end) := PeriodRange(period, now);
      CalculateAveragePerDay(totalSpent, period, now) * ((end + 1 - start) / DAY_MS) as real == totalSpent
  {
    PeriodRangeSpec(period, now);
    var (start, end) := PeriodRange(period, now);
    assert (end + 1 - start) / DAY_MS == PeriodLength(period, now);
  }

  // ---------------------------------------------------------------- range filter

  function InRangePredicate(range: (int, int)): ExpenseWithCategory -> bool {
    (e: ExpenseWithCategory) => range.0 <= e.expense.date <= range.1
  }

  /** `expenses.filter { date >= start && date <= end }` */
  function ExpensesInRange(expenses: seq<ExpenseWithCategory>, range: (int, int)): (r: seq<ExpenseWithCategory>)
    ensures multiset(r) <= multiset(expenses)
    ensures forall e :: e in r <==> e in expenses && range.0 <= e.expense.date <= range.1
  {
    FilterSubMultiset(expenses, InRangePredicate(range));
    FilterMembers(expenses, InRangePredicate(range));
    Filter(expenses, InRangePredicate(range))
  }

  // ---------------------------------------------------------------- daily trend

  /** Each expense as a (day key, amount) item. */
  function DayItems(expenses: seq<ExpenseWithCategory>): (xs: Entries<string>)
    ensures |xs| == |expenses|
    ensures forall i | 0 <= i < |xs| :: xs[i] == (DayKeyOf(expenses[i].expense.date), expenses[i].expense.amount)
  {
    seq(|expenses|, i requires 0 <= i < |expenses| => (DayKeyOf(expenses[i].expense.date), expenses[i].expense.amount))
  }

  /** `sortedBy { it.date }` on day entries. */
  function ByDate(): (DailyExpense, DailyExpense) -> bool {
    AscendingString((e: DailyExpense) => e.date)
  }

  function TrendTotal(trend: seq<DailyExpense>): real {
    if trend == [] then 0.0 else TrendTotal(trend[..|trend| - 1]) + trend[|trend| - 1].amount
  }

  /**
   * What `calculateDailyTrend` promises: one entry per distinct day key of
   * the expenses, dates strictly ascending, each amount the sum spent that
   * day, and the amounts adding up to the total spent.
   */
  ghost predicate IsDailyTrend(trend: seq<DailyExpense>, expenses: seq<ExpenseWithCategory>) {
    var items := DayItems(expenses);
    (forall i, j | 0 <= i < j < |trend| :: StrLess(trend[i].date, trend[j].date))
    && (forall k :: (exists i | 0 <= i < |trend| :: trend[i].date == k) <==> HasKey(items, k))
    && (forall i | 0 <= i < |trend| :: trend[i].amount == SumFor(items, trend[i].date))
    && TrendTotal(trend) == Total(items)
  }

  function AsDailyExpenses(m: Entries<string>): (r: seq<DailyExpense>)
    ensures |r| == |m|
    ensures forall j | 0 <= j < |m| :: r[j] == DailyExpense(m[j].0, m[j].1)
  {
    seq(|m|, j requires 0 <= j < |m| => DailyExpense(m[j].0, m[j].1))
  }

  /** `calculateDailyTrend(expenses, dateRange)`; the range argument is not used. */
  method CalculateDailyTrend(expenses: seq<ExpenseWithCategory>, dateRange: (int, int)) returns (trend: seq<DailyExpense>)
    ensures IsDailyTrend(trend, expenses)
  {
    var dailyExpenses: Entries<string> := [];
    ghost var items := DayItems(expenses);
    var i := 0;
    while i < |expenses|
      invariant 0 <= i <= |expenses|
      invariant dailyExpenses == GroupSum(items[..i])
    {
      var dateKey := DayKeyOf(expenses[i].expense.date);
      GroupSumStep(items, i);
      dailyExpenses := Accumulate(dailyExpenses, dateKey, expenses[i].expense.amount);
      i := i + 1;
    }
    assert items[..i] == items;
    var entries := AsDailyExpenses(dailyExpenses);
    trend := Sort(entries, ByDate());
    TrendOfGroups(dailyExpenses, items, entries, trend);
  }

  lemma GroupSumStep(items: Entries<string>, i: int)
    requires 0 <= i < |items|
    ensures GroupSum(items[..i + 1]) == Accumulate(GroupSum(items[..i]), items[i].0, items[i].1)
  {
    assert items[..i + 1][..i] == items[..i];
  }

  /** Sorting the entries of a grouping by date gives a daily trend. */
  lemma TrendOfGroups(m: Entries<string>, items: Entries<string>, entries: seq<DailyExpense>, trend: seq<DailyExpense>)
    requires Groups(m, items)
    requires entries == AsDailyExpenses(m) && trend == Sort(entries, ByDate())
    ensures (forall i, j | 0 <= i < j < |trend| :: StrLess(trend[i].date, trend[j].date))
    ensures forall k :: (exists i | 0 <= i < |trend| :: trend[i].date == k) <==> HasKey(items, k)
    ensures forall i | 0 <= i < |trend| :: trend[i].amount == SumFor(items, trend[i].date)
    ensures TrendTotal(trend) == Total(items)
  {
    StringOrderIsPreorder((e: DailyExpense) => e.date);
    SortSpec(entries, ByDate());
    assert multiset(trend) == multiset(entries);
    forall i | 0 <= i < |trend|
      ensures exists j | 0 <= j < |m| :: trend[i] == entries[j]
    {
      assert trend[i] in multiset(entries);
    }
    forall i, j | 0 <= i < j < |trend| ensures StrLess(trend[i].date, trend[j].date) {
      DistinctDates(m, entries, trend, i, j);
    }
    forall k ensures (exists i | 0 <= i < |trend| :: trend[i].date == k) <==> HasKey(items, k) {
      if HasKey(m, k) {
        var j :| 0 <= j < |m| && m[j].0 == k;
        assert entries[j] in multiset(trend);
        var i :| 0 <= i < |trend| && trend[i] == entries[j];
      }
    }
    TrendTotalOfGroups(m, entries);
    TrendTotalPermutation(trend, entries);
  }

  /** Two positions of the sorted trend never share a date, so sorted means strictly ascending. */
  lemma DistinctDates(m: Entries<string>, entries: seq<DailyExpense>, trend: seq<DailyExpense>, i: int, j: int)
    requires DistinctKeys(m) && entries == AsDailyExpenses(m)
    requires TotalPreorder(ByDate()) && Sorted(trend, ByDate()) && multiset(trend) == multiset(entries)
    requires 0 <= i < j < |trend|
    ensures StrLess(trend[i].date, trend[j].date)
  {
    assert ByDate()(trend[i], trend[j]);
    assert StrLe(trend[i].date, trend[j].date);
    StrLessTotal(trend[i].date, trend[j].date);
    if trend[i].date == trend[j].date {
      var x := trend[i];
      assert trend[j] in multiset(entries);
      DistinctEntries(m, entries);
      assert trend[j] == x by {
        assert x in multiset(entries);
        var a :| 0 <= a < |entries| && entries[a] == x;
        var b :| 0 <= b < |entries| && entries[b] == trend[j];
        assert m[a].0 == m[b].0;
      }
      CountTwo(trend, i, j);
      CountAtMostOne(entries, x);
      assert false;
    }
  }

  lemma DistinctEntries(m: Entries<string>, entries: seq<DailyExpense>)
    requires DistinctKeys(m) && entries == AsDailyExpenses(m)
    ensures forall a, b | 0 <= a < b < |entries| :: entries[a] != entries[b]
  {
  }

  /** A value held at two positions occurs at least twice. */
  lemma CountTwo<T>(s: seq<T>, i: int, j: int)
    requires 0 <= i < j < |s| && s[i] == s[j]
    ensures multiset(s)[s[i]] >= 2
  {
    assert s == s[..j] + s[j..];
    assert s[i] in s[..j];
    assert s[j..][0] == s[j];
    assert multiset(s) == multiset(s[..j]) + multiset(s[j..]);
  }

  /** In a sequence without repeats every value occurs at most once. */
  lemma {:induction false} CountAtMostOne<T>(s: seq<T>, x: T)
    requires forall a, b | 0 <= a < b < |s| :: s[a] != s[b]
    ensures multiset(s)[x] <= 1
  {
    if s != [] {
      var rest := s[1..];
      assert s == [s[0]] + rest;
      CountAtMostOne(rest, x);
      if s[0] == x {
        forall b | 0 <= b < |rest| ensures rest[b] != x {
          assert rest[b] == s[b + 1];
        }
        assert x !in rest;
      }
    }
  }

  lemma {:induction false} TrendTotalOfGroups(m: Entries<string>, entries: seq<DailyExpense>)
    requires entries == AsDailyExpenses(m)
    ensures TrendTotal(entries) == Total(m)
  {
    if m != [] {
      TrendTotalOfGroups(m[..|m| - 1], entries[..|entries| - 1]);
    }
  }

  lemma {:induction false} TrendTotalConcat(a: seq<DailyExpense>, b: seq<DailyExpense>)
    ensures TrendTotal(a + b) == TrendTotal(a) + TrendTotal(b)
    decreases |b|
  {
    if b != [] {
      assert (a + b)[..|a + b| - 1] == a + b[..|b| - 1];
      TrendTotalConcat(a, b[..|b| - 1]);
    } else {
      assert a + b == a;
    }
  }

  /** Reordering the trend does not change its total. */
  lemma {:induction false} TrendTotalPermutation(a: seq<DailyExpense>, b: seq<DailyExpense>)
    requires multiset(a) == multiset(b)
    ensures TrendTotal(a) == TrendTotal(b)
    decreases |a|
  {
    if a != [] {
      var x := a[|a| - 1];
      var a' := a[..|a| - 1];
      assert a == a' + [x];
      assert x in multiset(b);
      var k :| 0 <= k < |b| && b[k] == x;
      RemoveAt(b, k);
      assert multiset(a') == multiset(a) - multiset{x};
      TrendTotalPermutation(a', b[..k] + b[k + 1..]);
      TrendTotalRemove(b, k);
    } else {
      assert b == [] by {
        assert |multiset(b)| == 0;
      }
    }
  }

  lemma RemoveAt(b: seq<DailyExpense>, k: int)
    requires 0 <= k < |b|
    ensures multiset(b[..k] + b[k + 1..]) == multiset(b) - multiset{b[k]}
  {
    assert b == b[..k] + [b[k]] + b[k + 1..];
  }

  /** Taking one day out of the trend takes its amount out of the total. */
  lemma TrendTotalRemove(b: seq<DailyExpense>, k: int)
    requires 0 <= k < |b|
    ensures TrendTotal(b) == TrendTotal(b[..k] + b[k + 1..]) + b[k].amount
  {
    var x := b[k];
    assert b == (b[..k] + [x]) + b[k + 1..];
    TrendTotalConcat(b[..k] + [x], b[k + 1..]);
    TrendTotalConcat(b[..k], b[k + 1..]);
    TrendTotalConcat(b[..k], [x]);
    assert TrendTotal([x]) == x.amount by {
      assert [x][..0] == [];
    }
  }

  // ---------------------------------------------------------------- top categories

  function ByAmountDescending(): ((string, real), (string, real)) -> bool {
    DescendingReal((e: (string, real)) => e.1)
  }

  /** `entries.sortedByDescending { it.value }` */
  function SortedByAmount(b: Entries<string>): (s: Entries<string>)
    ensures multiset(s) == multiset(b)
    ensures forall i, j | 0 <= i < j < |s| :: s[i].1 >= s[j].1
    ensures forall y :: Equivalents(s, y, ByAmountDescending()) == Equivalents(b, y, ByAmountDescending())
  {
    KeyOrdersArePreorders((e: (string, real)) => 0, (e: (string, real)) => e.1);
    SortSpec(b, ByAmountDescending());
    Sort(b, ByAmountDescending())
  }

  /** `getTopCategories(categoryBreakdown, limit)` */
  function GetTopCategories(categoryBreakdown: Entries<string>, limit: int): (top: seq<CategoryExpense>)
    requires limit >= 0
    ensures |top| == if limit < |categoryBreakdown| then limit else |categoryBreakdown|
    ensures forall i | 0 <= i < |top| :: (top[i].name, top[i].amount) in categoryBreakdown
    ensures forall i, j | 0 <= i < j < |top| :: top[i].amount >= top[j].amount
    ensures forall i | 0 <= i < |top| :: (top[i].name, top[i].amount) == SortedByAmount(categoryBreakdown)[i]
  {
    TopEntries(categoryBreakdown, limit);
    var t := Take(SortedByAmount(categoryBreakdown), limit);
    seq(|t|, i requires 0 <= i < |t| => CategoryExpense(t[i].0, t[i].1))
  }

  /** The first `limit` entries by amount are entries of the breakdown, in descending order. */
  lemma TopEntries(b: Entries<string>, limit: int)
    requires limit >= 0
    ensures var s := SortedByAmount(b);
      var t := Take(s, limit);
      |t| == (if limit < |b| then limit else |b|)
      && (forall i | 0 <= i < |t| :: t[i] == s[i] && t[i] in b)
      && (forall i, j | 0 <= i < j < |t| :: t[i].1 >= t[j].1)
  {
    var s := SortedByAmount(b);
    var t := Take(s, limit);
    forall i | 0 <= i < |t| ensures t[i] == s[i] && t[i] in b {
      assert s[i] in multiset(b);
    }
  }

  /** Every category left out of the top list spent no more than any category in it. */
  lemma TopCategoriesDominate(categoryBreakdown: Entries<string>, limit: int)
    requires limit >= 0
    ensures var top := GetTopCategories(categoryBreakdown, limit);
      var s := SortedByAmount(categoryBreakdown);
      forall i, j | 0 <= i < |top| <= j < |s| :: s[j].1 <= top[i].amount
  {
  }

  // ---------------------------------------------------------------- comparison

  /** `calculatePeriodComparison` once the previous period's total is known. */
  function CalculatePeriodComparison(currentSpent: real, previousSpent: real): (c: PeriodComparison)
    ensures c.previousAmount == previousSpent && c.currentAmount == currentSpent
    ensures c.difference == currentSpent - previousSpent
    ensures previousSpent > 0.0 ==> (c.percentageChange > 0.0 <==> currentSpent > previousSpent)
    ensures previousSpent > 0.0 ==> (c.percentageChange == 0.0 <==> currentSpent == previousSpent)
    ensures previousSpent <= 0.0 ==> c.percentageChange == 0.0
  {
    var difference := currentSpent - previousSpent;
    var percentageChange := if previousSpent > 0.0 then (difference / previousSpent) * 100.0 else 0.0;
    PeriodComparison(previousSpent, currentSpent, difference, percentageChange)
  }

  /** With a positive previous total, the percentage change scales the previous total to the current one. */
  lemma PercentageScalesPrevious(currentSpent: real, previousSpent: real)
    requires previousSpent > 0.0
    ensures var c := CalculatePeriodComparison(currentSpent, previousSpent);
      previousSpent * (1.0 + c.percentageChange / 100.0) == currentSpent
  {
  }

  // ---------------------------------------------------------------- view model

  /**
   * What `loadStatistics` shows for `period` at time `now`, given the
   * repository's total and expenses for the period's range (`current`),
   * the list of all expenses, and the previous period's total.
   */
  ghost predicate IsStatisticsOf(data: StatisticsData, period: TimePeriod, now: int,
                                 current: (real, seq<ExpenseWithCategory>),
                                 allExpenses: seq<ExpenseWithCategory>, previousTotal: real)
  {
    var statistics := GetSpendingStatistics(current.0, current.1);
    data.totalSpent == statistics.totalSpent
    && data.expenseCount == statistics.expenseCount
    && data.averagePerDay == CalculateAveragePerDay(statistics.totalSpent, period, now)
    && data.categoryBreakdown == statistics.categoryBreakdown
    && IsDailyTrend(data.dailyTrend, ExpensesInRange(allExpenses, PeriodRange(period, now)))
    && data.topCategories == GetTopCategories(statistics.categoryBreakdown, TOP_CATEGORY_LIMIT)
    && data.comparisonWithPreviousPeriod == CalculatePeriodComparison(statistics.totalSpent, previousTotal)
  }

  /**
   * What one `loadStatistics(period)` run leaves behind: the first
   * repository call that throws decides the error and the data stays as it
   * was (`before`); when none throws, Success and the data built from the
   * three answers.
   */
  ghost predicate LoadOutcome(period: TimePeriod, now: int, query: RangeQuery,
                              allExpenses: Fetch<seq<ExpenseWithCategory>>,
                              uiState: StatisticsUiState, data: Option<StatisticsData>,
                              before: Option<StatisticsData>)
  {
    var current := query(PeriodRange(period, now));
    var previous := query(PreviousPeriodRange(period, now));
    if current.Threw? then
      uiState == Error(MessageOr(current.message, UNKNOWN_ERROR)) && data == before
    else if allExpenses.Threw? then
      uiState == Error(MessageOr(allExpenses.message, UNKNOWN_ERROR)) && data == before
    else if previous.Threw? then
      uiState == Error(MessageOr(previous.message, UNKNOWN_ERROR)) && data == before
    else
      uiState == Success && data.Some?
      && IsStatisticsOf(data.value, period, now, current.value, allExpenses.value, previous.value.0)
  }

  class StatisticsViewModel {
    var uiState: StatisticsUiState
    var statisticsData: Option<StatisticsData>
    var selectedPeriod: TimePeriod

    /** `init`: select THIS_MONTH and load it. */
    constructor(now: int, query: RangeQuery, allExpenses: Fetch<seq<ExpenseWithCategory>>)
      ensures selectedPeriod == THIS_MONTH
      ensures uiState == Success || uiState.Error?
      ensures uiState == Success <==> statisticsData.Some?
      ensures LoadOutcome(THIS_MONTH, now, query, allExpenses, uiState, statisticsData, None)
    {
      selectedPeriod := THIS_MONTH;
      uiState := Loading;
      statisticsData := None;
      new;
      LoadStatistics(THIS_MONTH, now, query, allExpenses);
    }

    /**
     * `loadStatistics(period)` with the clock reading `now`, the
     * repository answering `query` for each range and `allExpenses` for
     * the list of every expense.  The first failing call decides the
     * error; otherwise the data is built from the three answers.
     */
    method LoadStatistics(period: TimePeriod, now: int, query: RangeQuery, allExpenses: Fetch<seq<ExpenseWithCategory>>)
      modifies this
      ensures selectedPeriod == period
      ensures LoadOutcome(period, now, query, allExpenses, uiState, statisticsData, old(statisticsData))
    {
      uiState := Loading;
      selectedPeriod := period;
      var dateRange := GetDateRangeForPeriod(period, now);
      var current := query(dateRange);
      if current.Threw? {
        uiState := Error(MessageOr(current.message, UNKNOWN_ERROR));
        return;
      }
      var statistics := GetSpendingStatistics(current.value.0, current.value.1);
      if allExpenses.Threw? {
        uiState := Error(MessageOr(allExpenses.message, UNKNOWN_ERROR));
        return;
      }
      var expensesInPeriod := ExpensesInRange(allExpenses.value, dateRange);
      var averagePerDay := CalculateAveragePerDay(statistics.totalSpent, period, now);
      var dailyTrend := CalculateDailyTrend(expensesInPeriod, dateRange);
      var topCategories := GetTopCategories(statistics.categoryBreakdown, TOP_CATEGORY_LIMIT);
      var previousRange := GetPreviousPeriodRange(period, now);
      var previous := query(previousRange);
      if previous.Threw? {
        uiState := Error(MessageOr(previous.message, UNKNOWN_ERROR));
        return;
      }
      var comparison := CalculatePeriodComparison(statistics.totalSpent, previous.value.0);
      statisticsData := Some(StatisticsData(
        statistics.totalSpent,
        statistics.expenseCount,
        averagePerDay,
        statistics.categoryBreakdown,
        dailyTrend,
        topCategories,
        comparison));
      uiState := Success;
    }
  }
}
