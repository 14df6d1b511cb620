/**
 * The statistics screen's reporting periods and the two date ranges it
 * queries for each: the current period and the one before it.  The ranges
 * are computed by driving a `Calendar` step by step; each method is proved
 * equal to a closed-form description in day numbers.
 */
module PeriodRanges {
  import opened CivilTime
  import opened Calendars

  datatype TimePeriod = THIS_WEEK | THIS_MONTH | THIS_YEAR | LAST_30_DAYS

  /** Days back from a `DAY_OF_WEEK` value to the Monday of its week (weeks run Monday to Sunday). */
  function DaysFromMonday(dayOfWeek: int): (n: int)
    ensures 0 <= n <= 6
  {
    if dayOfWeek == MONDAY then 0
    else if dayOfWeek == TUESDAY then 1
    else if dayOfWeek == WEDNESDAY then 2
    else if dayOfWeek == THURSDAY then 3
    else if dayOfWeek == FRIDAY then 4
    else if dayOfWeek == SATURDAY then 5
    else if dayOfWeek == SUNDAY then 6
    else 0
  }

  /** Going back `DaysFromMonday` days from any day lands on a Monday. */
  lemma MondayOfWeek(n: int)
    ensures DayOfWeek(n - DaysFromMonday(DayOfWeek(n))) == MONDAY
  {
    var w := (n + 4) % 7;
    var k := DaysFromMonday(DayOfWeek(n));
    assert n + 4 == 7 * ((n + 4) / 7) + w;
    if w == 0 {
      assert k == 6;
      assert n - k + 4 == 7 * ((n + 4) / 7 - 1) + 1;
    } else {
      assert k == w - 1;
      assert n - k + 4 == 7 * ((n + 4) / 7) + 1;
    }
  }

  /** The day number of the Monday starting the week of instant `now`. */
  function WeekStart(now: int): int {
    var today := DayIndex(now);
    today - DaysFromMonday(DayOfWeek(today))
  }

  /** The instants from midnight of day `first` to the last millisecond of day `last`. */
  function DaySpan(first: int, last: int): (int, int) {
    (Calendar(first, 0).TimeInMillis(), Calendar(last, DAY_MS - 1).TimeInMillis())
  }

  /** A day span holds exactly the instants falling on its days. */
  lemma DaySpanMembers(first: int, last: int, t: int)
    ensures DaySpan(first, last).0 <= t <= DaySpan(first, last).1 <==> first <= DayIndex(t) <= last
  {
    var d := DayIndex(t);
    if first <= d {
      assert first * DAY_MS <= d * DAY_MS;
    }
    if d <= last {
      assert d * DAY_MS <= last * DAY_MS;
    }
    if d < first {
      assert d * DAY_MS + DAY_MS <= first * DAY_MS;
    }
    if last < d {
      assert last * DAY_MS + DAY_MS <= d * DAY_MS;
    }
  }

  /** THIS_WEEK: Monday 00:00:00.000 to Sunday 23:59:59.999 of the current week. */
  function ThisWeek(now: int): (int, int) {
    DaySpan(WeekStart(now), WeekStart(now) + 6)
  }

  /** THIS_MONTH: the first day 00:00:00.000 to the last day 23:59:59.999 of the current month. */
  function ThisMonth(now: int): (int, int) {
    var d := DateOf(now);
    var first := DayNumber(Date(d.year, d.month, 1));
    DaySpan(first, first + DaysInMonth(d.year, d.month) - 1)
  }

  /** THIS_YEAR: 1 January 00:00:00.000 to 31 December 23:59:59.999 of the current year. */
  function ThisYear(now: int): (int, int) {
    var y := DateOf(now).year;
    DaySpan(YearStart(y), YearStart(y) + DaysInYear(y) - 1)
  }

  /** LAST_30_DAYS: 00:00:00.000 of the day 29 days ago to 23:59:59.999 today. */
  function Last30Days(now: int): (int, int) {
    DaySpan(DayIndex(now) - 29, DayIndex(now))
  }

  /** The current period as `(start, end)` instants, both inclusive. */
  function PeriodRange(period: TimePeriod, now: int): (int, int) {
    match period
    case THIS_WEEK => ThisWeek(now)
    case THIS_MONTH => ThisMonth(now)
    case THIS_YEAR => ThisYear(now)
    case LAST_30_DAYS => Last30Days(now)
  }

  /** The number of days in the current period. */
  function PeriodLength(period: TimePeriod, now: int): int {
    var d := DateOf(now);
    match period
    case THIS_WEEK => 7
    case THIS_MONTH => DaysInMonth(d.year, d.month)
    case THIS_YEAR => DaysInYear(d.year)
    case LAST_30_DAYS => 30
  }

  /*
   * The period ranges in day-number form, stated for given day numbers so
   * that the calendar methods below close their proofs by congruence.
   */
  lemma ThisMonthDays(now: int, first: int, last: int)
    requires var d := DateOf(now);
      first == DayNumber(Date(d.year, d.month, 1)) && last == first + DaysInMonth(d.year, d.month) - 1
    ensures ThisMonth(now) == DaySpan(first, last)
  {
  }

  lemma ThisYearDays(now: int, first: int, last: int)
    requires var y := DateOf(now).year;
      first == YearStart(y) && last == YearStart(y) + DaysInYear(y) - 1
    ensures ThisYear(now) == DaySpan(first, last)
  {
  }

  lemma PreviousMonthDays(now: int, first: int, last: int)
    requires var p := AddMonthsToDate(DateOf(now), -1);
      first == DayNumber(Date(p.year, p.month, 1)) && last == first + DaysInMonth(p.year, p.month) - 1
    ensures PreviousMonth(now) == DaySpan(first, last)
  {
  }

  lemma PreviousYearDays(now: int, first: int, last: int)
    requires var y := DateOf(now).year - 1;
      first == YearStart(y) && last == YearStart(y) + DaysInYear(y) - 1
    ensures PreviousYear(now) == DaySpan(first, last)
  {
  }

  /** A span of whole days starts at midnight, ends at a day's last millisecond and is as long as its days. */
  lemma DaySpanShape(first: int, last: int, now: int)
    requires first <= DayIndex(now) <= last
    ensures var (start, end) := DaySpan(first, last);
      start <= now <= end
      && DayIndex(start) == first && TimeOfDay(start) == 0
      && DayIndex(end) == last && TimeOfDay(end) == DAY_MS - 1
      && end + 1 - start == (last - first + 1) * DAY_MS
  {
    DaySpanMembers(first, last, now);
    SplitDay(first, 0);
    SplitDay(last, DAY_MS - 1);
  }

  lemma ThisWeekSpec(now: int)
    ensures var (start, end) := ThisWeek(now);
      start <= now <= end && TimeOfDay(start) == 0 && TimeOfDay(end) == DAY_MS - 1
      && end + 1 - start == 7 * DAY_MS
      && DayOfWeek(DayIndex(start)) == MONDAY
  {
    MondayOfWeek(DayIndex(now));
    DaySpanShape(WeekStart(now), WeekStart(now) + 6, now);
  }

  lemma ThisMonthSpec(now: int)
    ensures var (start, end) := ThisMonth(now);
      var d := DateOf(now);
      start <= now <= end && TimeOfDay(start) == 0 && TimeOfDay(end) == DAY_MS - 1
      && end + 1 - start == DaysInMonth(d.year, d.month) * DAY_MS
      && DateOf(start) == Date(d.year, d.month, 1)
  {
    var d := DateOf(now);
    var first := DayNumber(Date(d.year, d.month, 1));
    var last := first + DaysInMonth(d.year, d.month) - 1;
    DayNumberOrder(Date(d.year, d.month, 1), d);
    DayNumberOrder(d, Date(d.year, d.month, DaysInMonth(d.year, d.month)));
    ThisMonthDays(now, first, last);
    DaySpanShape(first, last, now);
    CivilOfDayNumber(Date(d.year, d.month, 1));
  }

  lemma ThisYearSpec(now: int)
    ensures var (start, end) := ThisYear(now);
      var y := DateOf(now).year;
      start <= now <= end && TimeOfDay(start) == 0 && TimeOfDay(end) == DAY_MS - 1
      && end + 1 - start == DaysInYear(y) * DAY_MS
      && DateOf(start) == Date(y, 1, 1)
  {
    var d := DateOf(now);
    var first, last := YearStart(d.year), YearStart(d.year) + DaysInYear(d.year) - 1;
    ThisYearDays(now, first, last);
    DayNumberWithinYear(d);
    DaySpanShape(first, last, now);
    CivilOfDayNumber(Date(d.year, 1, 1));
  }

  lemma Last30DaysSpec(now: int)
    ensures var (start, end) := Last30Days(now);
      start <= now <= end && TimeOfDay(start) == 0 && TimeOfDay(end) == DAY_MS - 1
      && end + 1 - start == 30 * DAY_MS
  {
    DaySpanShape(DayIndex(now) - 29, DayIndex(now), now);
  }

  /**
   * The current period is a run of whole days holding `now`: it starts at
   * midnight, ends at the day's last millisecond, spans `PeriodLength` days,
   * and starts on the week's Monday, the month's first day or 1 January.
   */
  lemma PeriodRangeSpec(period: TimePeriod, now: int)
    ensures var (start, end) := PeriodRange(period, now);
      start <= now <= end
      && TimeOfDay(start) == 0 && TimeOfDay(end) == DAY_MS - 1
      && end + 1 - start == PeriodLength(period, now) * DAY_MS
    ensures period == THIS_WEEK ==> DayOfWeek(DayIndex(PeriodRange(period, now).0)) == MONDAY
    ensures period == THIS_MONTH ==>
      var d := DateOf(now);
      DateOf(PeriodRange(period, now).0) == Date(d.year, d.month, 1)
    ensures period == THIS_YEAR ==>
      DateOf(PeriodRange(period, now).0) == Date(DateOf(now).year, 1, 1)
  {
    match period
    case THIS_WEEK => ThisWeekSpec(now);
    case THIS_MONTH => ThisMonthSpec(now);
    case THIS_YEAR => ThisYearSpec(now);
    case LAST_30_DAYS => Last30DaysSpec(now);
  }

  function PreviousWeek(now: int): (int, int) {
    DaySpan(WeekStart(now) - 7, WeekStart(now) - 1)
  }

  function PreviousMonth(now: int): (int, int) {
    var p := AddMonthsToDate(DateOf(now), -1);
    var first := DayNumber(Date(p.year, p.month, 1));
    DaySpan(first, first + DaysInMonth(p.year, p.month) - 1)
  }

  function PreviousYear(now: int): (int, int) {
    var y := DateOf(now).year - 1;
    DaySpan(YearStart(y), YearStart(y) + DaysInYear(y) - 1)
  }

  /** The 30 x 24 hours ending 30 x 24 hours before `now`. */
  function PreviousLast30Days(now: int): (int, int) {
    (now - 60 * DAY_MS, now - 30 * DAY_MS)
  }

  /** The range queried for the period before the current one. */
  function PreviousPeriodRange(period: TimePeriod, now: int): (int, int) {
    match period
    case THIS_WEEK => PreviousWeek(now)
    case THIS_MONTH => PreviousMonth(now)
    case THIS_YEAR => PreviousYear(now)
    case LAST_30_DAYS => PreviousLast30Days(now)
  }

  /** The month before the one holding `d` ends the day before `d`'s month starts. */
  lemma PreviousMonthAdjacent(d: Date)
    requires ValidDate(d)
    ensures var p := AddMonthsToDate(d, -1);
      DayNumber(Date(p.year, p.month, DaysInMonth(p.year, p.month))) + 1 == DayNumber(Date(d.year, d.month, 1))
      && (d.month == 1 ==> p.year == d.year - 1 && p.month == 12)
      && (d.month > 1 ==> p.year == d.year && p.month == d.month - 1)
  {
    var p := AddMonthsToDate(d, -1);
    if d.month == 1 {
      assert p.year == d.year - 1 && p.month == 12;
      MonthStartStep(p.year, 12);
      YearStartStep(p.year);
    } else {
      assert p.year == d.year && p.month == d.month - 1;
      MonthStartStep(p.year, p.month);
    }
  }

  /**
   * The previous week, month or year ends one millisecond before the
   * current one starts and is a whole week, month or year; the previous
   * 30-day window is 30 x 24 hours long and ends before the current one
   * starts, at most a day earlier.
   */
  lemma PreviousPeriodSpec(period: TimePeriod, now: int)
    ensures period != LAST_30_DAYS ==>
      PreviousPeriodRange(period, now).1 + 1 == PeriodRange(period, now).0
    ensures var (pstart, pend) := PreviousPeriodRange(period, now);
      var d := DateOf(now);
      var p := AddMonthsToDate(d, -1);
      (period == THIS_WEEK ==> pend + 1 - pstart == 7 * DAY_MS)
      && (period == THIS_MONTH ==> pend + 1 - pstart == DaysInMonth(p.year, p.month) * DAY_MS)
      && (period == THIS_YEAR ==> pend + 1 - pstart == DaysInYear(d.year - 1) * DAY_MS)
    ensures period == LAST_30_DAYS ==>
      var (start, end) := PeriodRange(period, now);
      var (pstart, pend) := PreviousPeriodRange(period, now);
      pend - pstart == 30 * DAY_MS && pend < start && start - pend <= DAY_MS
  {
    var d := DateOf(now);
    YearStartStep(d.year - 1);
    PreviousMonthAdjacent(d);
  }

  /** The calendar date of midnight of a date's day is that date. */
  lemma DateOfMidnight(d: Date)
    requires ValidDate(d)
    ensures DayIndex(DayNumber(d) * DAY_MS) == DayNumber(d)
    ensures DateOf(DayNumber(d) * DAY_MS) == d
  {
    SplitDay(DayNumber(d), 0);
    CivilOfDayNumber(d);
  }

  lemma DivMod12(q: int, r: int)
    requires 0 <= r < 12
    ensures (12 * q + r) / 12 == q && (12 * q + r) % 12 == r
  {
  }
  /** The month after `y`-`m` starts `DaysInMonth(y, m)` days after the first of `m`. */
  lemma NextMonthStart(y: int, m: int)
    requires 1 <= m <= 12
    ensures var n := AddMonthsToDate(Date(y, m, 1), 1);
      n.day == 1 && DayNumber(n) == DayNumber(Date(y, m, 1)) + DaysInMonth(y, m)
  {
    var total := y * 12 + (m - 1) + 1;
    if m < 12 {
      DivMod12(y, m);
      assert total == 12 * y + m;
      var n := AddMonthsToDate(Date(y, m, 1), 1);
      assert n == Date(y, m + 1, 1);
      MonthStartStep(y, m);
    } else {
      DivMod12(y + 1, 0);
      assert total == 12 * (y + 1) + 0;
      var n := AddMonthsToDate(Date(y, m, 1), 1);
      assert n == Date(y + 1, 1, 1);
      MonthStartStep(y, 12);
      YearStartStep(y);
    }
  }

  /** THIS_WEEK, replaying the calendar steps. */
  method WeekRange(now: int) returns (range: (int, int))
    ensures range == ThisWeek(now)
  {
    var calendar := At(now);
    var daysFromMonday := DaysFromMonday(calendar.DayOfWeekField());
    calendar := calendar.AddDays(-daysFromMonday);
    calendar := calendar.SetStartOfDay();
    assert calendar == Calendar(WeekStart(now), 0);
    var startOfWeek := calendar.TimeInMillis();
    calendar := calendar.AddDays(6);
    calendar := calendar.SetEndOfDay();
    assert calendar == Calendar(WeekStart(now) + 6, DAY_MS - 1);
    range := (startOfWeek, calendar.TimeInMillis());
  }

  /** THIS_MONTH, replaying the calendar steps. */
  method MonthRange(now: int) returns (range: (int, int))
    ensures range == ThisMonth(now)
  {
    var calendar := At(now);
    ghost var d := DateOf(now);
    ghost var first := DayNumber(Date(d.year, d.month, 1));
    ghost var last := first + DaysInMonth(d.year, d.month) - 1;
    calendar := calendar.SetDayOfMonth(1);
    calendar := calendar.SetStartOfDay();
    assert calendar == Calendar(first, 0);
    var startOfMonth := calendar.TimeInMillis();
    NextMonthStart(d.year, d.month);
    calendar := calendar.AddMonths(1);
    assert calendar == Calendar(last + 1, 0);
    calendar := calendar.AddDays(-1);
    calendar := calendar.SetEndOfDay();
    assert calendar == Calendar(last, DAY_MS - 1);
    range := (startOfMonth, calendar.TimeInMillis());
    ThisMonthDays(now, first, last);
  }

  /** THIS_YEAR, replaying the calendar steps. */
  method YearRange(now: int) returns (range: (int, int))
    ensures range == ThisYear(now)
  {
    var calendar := At(now);
    ghost var y := DateOf(now).year;
    ghost var first, last := YearStart(y), YearStart(y) + DaysInYear(y) - 1;
    calendar := calendar.SetDayOfYear(1);
    calendar := calendar.SetStartOfDay();
    assert calendar == Calendar(first, 0);
    var startOfYear := calendar.TimeInMillis();
    calendar := calendar.SetDayOfYear(calendar.ActualMaximumDayOfYear());
    calendar := calendar.SetEndOfDay();
    assert calendar == Calendar(last, DAY_MS - 1);
    range := (startOfYear, calendar.TimeInMillis());
    ThisYearDays(now, first, last);
  }

  /** LAST_30_DAYS, replaying the calendar steps on two calendars. */
  method Last30DaysRange(now: int) returns (range: (int, int))
    ensures range == Last30Days(now)
  {
    var todayCalendar := At(now);
    todayCalendar := todayCalendar.SetEndOfDay();
    assert todayCalendar == Calendar(DayIndex(now), DAY_MS - 1);
    var endDate := todayCalendar.TimeInMillis();
    var startCalendar := At(now);
    startCalendar := startCalendar.AddDays(-29);
    startCalendar := startCalendar.SetStartOfDay();
    assert startCalendar == Calendar(DayIndex(now) - 29, 0);
    range := (startCalendar.TimeInMillis(), endDate);
  }

  /** `getDateRangeForPeriod(period)` with the clock reading `now`. */
  method GetDateRangeForPeriod(period: TimePeriod, now: int) returns (range: (int, int))
    ensures range == PeriodRange(period, now)
  {
    match period
    case THIS_WEEK => range := WeekRange(now);
    case THIS_MONTH => range := MonthRange(now);
    case THIS_YEAR => range := YearRange(now);
    case LAST_30_DAYS => range := Last30DaysRange(now);
  }

  /** Previous THIS_WEEK, replaying the calendar steps. */
  method PreviousWeekRange(now: int) returns (range: (int, int))
    ensures range == PreviousWeek(now)
  {
    var calendar := At(now);
    var daysFromMonday := DaysFromMonday(calendar.DayOfWeekField());
    calendar := calendar.AddDays(-daysFromMonday - 7);
    calendar := calendar.SetStartOfDay();
    assert calendar == Calendar(WeekStart(now) - 7, 0);
    var startOfPrevWeek := calendar.TimeInMillis();
    calendar := calendar.AddDays(6);
    calendar := calendar.SetEndOfDay();
    assert calendar == Calendar(WeekStart(now) - 1, DAY_MS - 1);
    range := (startOfPrevWeek, calendar.TimeInMillis());
  }

  /** Previous THIS_MONTH, replaying the calendar steps. */
  method PreviousMonthRange(now: int) returns (range: (int, int))
    ensures range == PreviousMonth(now)
  {
    var calendar := At(now);
    ghost var p := AddMonthsToDate(DateOf(now), -1);
    ghost var first := DayNumber(Date(p.year, p.month, 1));
    ghost var last := first + DaysInMonth(p.year, p.month) - 1;
    calendar := calendar.AddMonths(-1);
    calendar := calendar.SetDayOfMonth(1);
    calendar := calendar.SetStartOfDay();
    assert calendar == Calendar(first, 0);
    var startOfPrevMonth := calendar.TimeInMillis();
    calendar := calendar.SetDayOfMonth(calendar.ActualMaximumDayOfMonth());
    calendar := calendar.SetEndOfDay();
    assert calendar == Calendar(last, DAY_MS - 1);
    range := (startOfPrevMonth, calendar.TimeInMillis());
    PreviousMonthDays(now, first, last);
  }

  /** Previous THIS_YEAR, replaying the calendar steps. */
  method PreviousYearRange(now: int) returns (range: (int, int))
    ensures range == PreviousYear(now)
  {
    var calendar := At(now);
    ghost var y := DateOf(now).year - 1;
    ghost var first, last := YearStart(y), YearStart(y) + DaysInYear(y) - 1;
    calendar := calendar.AddYears(-1);
    calendar := calendar.SetDayOfYear(1);
    calendar := calendar.SetStartOfDay();
    assert calendar == Calendar(first, 0);
    var startOfPrevYear := calendar.TimeInMillis();
    calendar := calendar.SetDayOfYear(calendar.ActualMaximumDayOfYear());
    calendar := calendar.SetEndOfDay();
    assert calendar == Calendar(last, DAY_MS - 1);
    range := (startOfPrevYear, calendar.TimeInMillis());
    PreviousYearDays(now, first, last);
  }

  /** `getPreviousPeriodRange(period)` with the clock reading `now`. */
  method GetPreviousPeriodRange(period: TimePeriod, now: int) returns (range: (int, int))
    ensures range == PreviousPeriodRange(period, now)
  {
    match period
    case THIS_WEEK => range := PreviousWeekRange(now);
    case THIS_MONTH => range := PreviousMonthRange(now);
    case THIS_YEAR => range := PreviousYearRange(now);
    case LAST_30_DAYS =>
      var endDate := now - 30 * 24 * 60 * 60 * 1000;
      var startDate := endDate - 30 * 24 * 60 * 60 * 1000;
      range := (startDate, endDate);
  }
}
