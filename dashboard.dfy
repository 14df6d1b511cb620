/**
 * The dashboard: this month's spending summary, the three most recent
 * expenses, and a delete that only knows the expense's id.
 */
module Dashboard {
  import opened Wrappers
  import opened CivilTime
  import opened Calendars
  import opened PeriodRanges
  import opened Entities
  import opened Extensions
  import opened StableSort
  import opened Grouping
  import opened SpendingStatistics

  datatype DashboardUiState =
    | Loading
    | Success(totalSpent: real, categoryBreakdown: Entries<string>, expenseCount: int)
    | Error(message: string)

  const UNKNOWN_ERROR: string := "Unknown error"
  const DELETE_FAILED: string := "Failed to delete expense"
  const RECENT_COUNT: int := 3

  /**
   * `set(HOUR_OF_DAY, 0)`, `set(MINUTE, 0)`, `set(SECOND, 0)`: midnight of
   * the same day, except that the millisecond field is kept.
   */
  lemma ClearClockKeepsMillis(c: Calendar)
    requires c.Valid()
    ensures c.SetHourOfDay(0).SetMinute(0).SetSecond(0) == Calendar(c.day, MillisecondOf(c.timeOfDay))
  {
    var ms := MillisecondOf(c.timeOfDay);
    Decompose(c.timeOfDay);
    FieldsOfCompose(c.day, 0, MinuteOf(c.timeOfDay), SecondOf(c.timeOfDay), ms);
    FieldsOfCompose(c.day, 0, 0, SecondOf(c.timeOfDay), ms);
    FieldsOfCompose(c.day, 0, 0, 0, ms);
  }

  /**
   * `getCurrentMonthRange()` at time `now`: from day 1 of the month at
   * 00:00:00 with `now`'s millisecond field, to the month's last day at
   * that same time of day.
   */
  method GetCurrentMonthRange(now: int) returns (range: (int, int))
    ensures var d := DateOf(now);
      var first := DayNumber(Date(d.year, d.month, 1));
      var ms := MillisecondOf(TimeOfDay(now));
      range.0 == first * DAY_MS + ms
      && range.1 == (first + DaysInMonth(d.year, d.month) - 1) * DAY_MS + ms
    ensures 0 <= range.0 % SECOND_MS == now % SECOND_MS
    ensures range.1 - range.0 == (At(now).ActualMaximumDayOfMonth() - 1) * DAY_MS
  {
    var calendar := At(now);
    ghost var d := DateOf(now);
    ghost var first := DayNumber(Date(d.year, d.month, 1));
    ghost var last := first + DaysInMonth(d.year, d.month) - 1;
    ghost var ms := MillisecondOf(TimeOfDay(now));
    calendar := calendar.SetDayOfMonth(1);
    assert calendar == Calendar(first, TimeOfDay(now));
    ClearClockKeepsMillis(calendar);
    calendar := calendar.SetHourOfDay(0);
    calendar := calendar.SetMinute(0);
    calendar := calendar.SetSecond(0);
    assert calendar == Calendar(first, ms);
    var startOfMonth := calendar.TimeInMillis();
    NextMonthStart(d.year, d.month);
    calendar := calendar.AddMonths(1);
    assert calendar == Calendar(last + 1, ms);
    calendar := calendar.AddDays(-1);
    var endOfMonth := calendar.TimeInMillis();
    range := (startOfMonth, endOfMonth);
    MillisOfDayStart(first, ms, now);
  }

  lemma MillisOfDayStart(first: int, ms: int, now: int)
    requires ms == MillisecondOf(TimeOfDay(now))
    ensures 0 <= (first * DAY_MS + ms) % SECOND_MS == now % SECOND_MS
  {
    var d, tod := DayIndex(now), TimeOfDay(now);
    assert 0 <= ms < SECOND_MS;
    assert first * DAY_MS + ms == (first * 86400) * SECOND_MS + ms;
    WholeSeconds(first * 86400, ms);
    assert tod == (tod / SECOND_MS) * SECOND_MS + ms;
    assert now == (d * 86400 + tod / SECOND_MS) * SECOND_MS + ms;
    WholeSeconds(d * 86400 + tod / SECOND_MS, ms);
  }

  lemma WholeSeconds(seconds: int, ms: int)
    requires 0 <= ms < SECOND_MS
    ensures (seconds * SECOND_MS + ms) % SECOND_MS == ms
  {
  }

  /**
   * The month range leaves out the part of the last day after the start's
   * time of day: an expense there is not counted.
   */
  lemma MonthRangeMissesLastDayEvening(now: int, range: (int, int), t: int)
    requires var d := DateOf(now);
      var first := DayNumber(Date(d.year, d.month, 1));
      var ms := MillisecondOf(TimeOfDay(now));
      range.0 == first * DAY_MS + ms
      && range.1 == (first + DaysInMonth(d.year, d.month) - 1) * DAY_MS + ms
    requires range.1 < t < range.1 - MillisecondOf(TimeOfDay(now)) + DAY_MS
    ensures DayIndex(t) == DayIndex(range.1) && !(range.0 <= t <= range.1)
  {
    var d := DateOf(now);
    var last := DayNumber(Date(d.year, d.month, 1)) + DaysInMonth(d.year, d.month) - 1;
    var ms := MillisecondOf(TimeOfDay(now));
    assert 0 <= ms < 1000;
    assert range.1 == last * DAY_MS + ms;
    assert last * DAY_MS <= t < last * DAY_MS + DAY_MS;
    assert last * DAY_MS <= range.1 < last * DAY_MS + DAY_MS;
  }

  /** `expenses.take(3).map { it.toUIModel() }` */
  function RecentExpenses(expenses: seq<ExpenseWithCategory>): (recent: seq<ExpenseUIModel>)
    ensures |recent| == if |expenses| < RECENT_COUNT then |expenses| else RECENT_COUNT
    ensures forall i | 0 <= i < |recent| :: recent[i] == ToUIModel(expenses[i])
  {
    var first := Take(expenses, RECENT_COUNT);
    seq(|first|, i requires 0 <= i < |first| => ToUIModel(first[i]))
  }

  /**
   * The UI state one `loadDashboardData()` run leaves: the exception's
   * message when the expense collection threw; otherwise the repository's
   * answer for the month range, which starts on the 1st at the current time
   * of day and spans the month's days.
   */
  ghost predicate LoadedState(now: int, expenses: Fetch<seq<ExpenseWithCategory>>, query: RangeQuery,
                              state: DashboardUiState)
  {
    match expenses
    case Threw(message) => state == Error(MessageOr(message, UNKNOWN_ERROR))
    case Fetched(_) =>
      exists range: (int, int) ::
        var d := DateOf(now);
        var first := DayNumber(Date(d.year, d.month, 1));
        range.0 == first * DAY_MS + MillisecondOf(TimeOfDay(now))
        && range.1 - range.0 == (DaysInMonth(d.year, d.month) - 1) * DAY_MS
        && match query(range)
           case Threw(message) => state == Error(MessageOr(message, UNKNOWN_ERROR))
           case Fetched((total, inRange)) =>
             var statistics := GetSpendingStatistics(total, inRange);
             state == Success(statistics.totalSpent, statistics.categoryBreakdown, statistics.expenseCount)
  }

  class DashboardViewModel {
    var uiState: DashboardUiState
    var recentExpenses: seq<ExpenseUIModel>

    /** `init`: one load of the dashboard. */
    constructor(now: int, expenses: Fetch<seq<ExpenseWithCategory>>, query: RangeQuery)
      ensures LoadedState(now, expenses, query, uiState)
      ensures uiState.Success? || uiState.Error?
      ensures recentExpenses == if expenses.Fetched? then RecentExpenses(expenses.value) else []
    {
      uiState := Loading;
      recentExpenses := [];
      new;
      LoadDashboardData(now, expenses, query);
    }

    /**
     * `loadDashboardData()` for one emission of the expense list (or the
     * exception the collection threw), with the repository answering
     * `query` for the month range.
     */
    method LoadDashboardData(now: int, expenses: Fetch<seq<ExpenseWithCategory>>, query: RangeQuery)
      modifies this
      ensures LoadedState(now, expenses, query, uiState)
      ensures recentExpenses == if expenses.Fetched? then RecentExpenses(expenses.value) else old(recentExpenses)
    {
      uiState := Loading;
      var currentMonth := GetCurrentMonthRange(now);
      match expenses
      case Threw(message) =>
        uiState := Error(MessageOr(message, UNKNOWN_ERROR));
      case Fetched(list) =>
        recentExpenses := RecentExpenses(list);
        match query(currentMonth)
        case Threw(message) =>
          uiState := Error(MessageOr(message, UNKNOWN_ERROR));
        case Fetched((total, inRange)) =>
          var statistics := GetSpendingStatistics(total, inRange);
          uiState := Success(statistics.totalSpent, statistics.categoryBreakdown, statistics.expenseCount);
    }

    /** `refreshData()` */
    method RefreshData(now: int, expenses: Fetch<seq<ExpenseWithCategory>>, query: RangeQuery)
      modifies this
      ensures LoadedState(now, expenses, query, uiState)
      ensures recentExpenses == if expenses.Fetched? then RecentExpenses(expenses.value) else old(recentExpenses)
    {
      LoadDashboardData(now, expenses, query);
    }

    /**
     * `deleteExpense(expenseId)`: the placeholder entity handed to the
     * delete use case, whose result is `deleted`.
     */
    method DeleteExpense(expenseId: int, createdAt: int, deleted: bool) returns (request: Expense)
      modifies this
      ensures request == Expense(expenseId, 0.0, 0, 0, "", createdAt)
      ensures uiState == if deleted then old(uiState) else Error(DELETE_FAILED)
      ensures recentExpenses == old(recentExpenses)
    {
      request := Expense(expenseId, 0.0, 0, 0, "", createdAt);
      if !deleted {
        uiState := Error(DELETE_FAILED);
      }
    }
  }
}
