/**
 * The subset of `java.util.Calendar` the app drives step by step: a
 * mutable instant whose fields (date, hour, minute, second, millisecond)
 * are read and written one at a time, with lenient roll-over.
 */
module Calendars {
  import opened CivilTime

  /** The instant of day number `day` at the given clock fields (lenient: fields may roll over). */
  function Compose(day: int, hour: int, minute: int, second: int, ms: int): int {
    day * DAY_MS + hour * HOUR_MS + minute * MINUTE_MS + second * SECOND_MS + ms
  }

  /** The clock fields of a time of day (milliseconds since midnight). */
  function HourOf(tod: int): int { tod / HOUR_MS }
  function MinuteOf(tod: int): int { tod / MINUTE_MS % 60 }
  function SecondOf(tod: int): int { tod / SECOND_MS % 60 }
  function MillisecondOf(tod: int): int { tod % SECOND_MS }

  /** Every time of day is the composition of its own clock fields. */
  lemma Decompose(tod: int)
    requires 0 <= tod < DAY_MS
    ensures 0 <= HourOf(tod) < 24 && 0 <= MinuteOf(tod) < 60 && 0 <= SecondOf(tod) < 60
    ensures 0 <= MillisecondOf(tod) < 1000
    ensures tod == HourOf(tod) * HOUR_MS + MinuteOf(tod) * MINUTE_MS + SecondOf(tod) * SECOND_MS + MillisecondOf(tod)
  {
    assert tod == (tod / HOUR_MS) * HOUR_MS + (tod / MINUTE_MS % 60) * MINUTE_MS
                  + (tod / SECOND_MS % 60) * SECOND_MS + tod % SECOND_MS;
  }

  lemma SplitDay(day: int, tod: int)
    requires 0 <= tod < DAY_MS
    ensures DayIndex(day * DAY_MS + tod) == day && TimeOfDay(day * DAY_MS + tod) == tod
  {
  }

  /** In-range clock fields compose to a time of day whose fields are exactly those. */
  lemma SplitClock(hour: int, minute: int, second: int, ms: int)
    requires 0 <= hour < 24 && 0 <= minute < 60 && 0 <= second < 60 && 0 <= ms < 1000
    ensures var tod := hour * HOUR_MS + minute * MINUTE_MS + second * SECOND_MS + ms;
      0 <= tod < DAY_MS
      && HourOf(tod) == hour && MinuteOf(tod) == minute
      && SecondOf(tod) == second && MillisecondOf(tod) == ms
  {
    var tod := hour * HOUR_MS + minute * MINUTE_MS + second * SECOND_MS + ms;
    assert tod / SECOND_MS == hour * 3600 + minute * 60 + second;
    assert tod / MINUTE_MS == hour * 60 + minute;
  }

  /** Composing in-range fields on a day gives that day at that time of day. */
  lemma FieldsOfCompose(day: int, hour: int, minute: int, second: int, ms: int)
    requires 0 <= hour < 24 && 0 <= minute < 60 && 0 <= second < 60 && 0 <= ms < 1000
    ensures var t := Compose(day, hour, minute, second, ms);
      var tod := hour * HOUR_MS + minute * MINUTE_MS + second * SECOND_MS + ms;
      DayIndex(t) == day && TimeOfDay(t) == tod
      && HourOf(tod) == hour && MinuteOf(tod) == minute && SecondOf(tod) == second && MillisecondOf(tod) == ms
  {
    var tod := hour * HOUR_MS + minute * MINUTE_MS + second * SECOND_MS + ms;
    SplitClock(hour, minute, second, ms);
    SplitDay(day, tod);
  }

  /** Month arithmetic of `add(MONTH, k)`: the day of month is pinned to the new month's length. */
  function AddMonthsToDate(d: Date, k: int): (r: Date)
    requires ValidDate(d)
    ensures ValidDate(r)
    ensures r.year * 12 + (r.month - 1) == d.year * 12 + (d.month - 1) + k
    ensures r.day == if d.day <= DaysInMonth(r.year, r.month) then d.day else DaysInMonth(r.year, r.month)
  {
    var total := d.year * 12 + (d.month - 1) + k;
    var y, m := total / 12, total % 12 + 1;
    Date(y, m, if d.day <= DaysInMonth(y, m) then d.day else DaysInMonth(y, m))
  }

  /** Year arithmetic of `add(YEAR, k)`: 29 February is pinned to 28 February in a common year. */
  function AddYearsToDate(d: Date, k: int): (r: Date)
    requires ValidDate(d)
    ensures ValidDate(r)
    ensures r.year == d.year + k && r.month == d.month
    ensures r.day == if d.day <= DaysInMonth(r.year, r.month) then d.day else DaysInMonth(r.year, r.month)
  {
    var y := d.year + k;
    Date(y, d.month, if d.day <= DaysInMonth(y, d.month) then d.day else DaysInMonth(y, d.month))
  }

  /**
   * A calendar holds one instant, kept as its day number and its time of
   * day; `timeInMillis` is `day * DAY_MS + timeOfDay`.  The app only uses
   * calendars it creates locally, so each setter returns the updated
   * calendar and callers reassign their local variable.
   */
  datatype Calendar = Calendar(day: int, timeOfDay: int) {

    predicate Valid() {
      0 <= timeOfDay < DAY_MS
    }

    /** `timeInMillis` */
    function TimeInMillis(): int {
      day * DAY_MS + timeOfDay
    }

    function Date(): (d: Date)
      ensures ValidDate(d) && DayNumber(d) == day
    {
      CivilFromDays(day)
    }

    /** `get(DAY_OF_WEEK)` */
    function DayOfWeekField(): (w: int)
      ensures SUNDAY <= w <= SATURDAY
    {
      DayOfWeek(day)
    }

    /** `get(YEAR)` */
    function YearField(): int {
      Date().year
    }

    /** `getActualMaximum(DAY_OF_MONTH)` */
    function ActualMaximumDayOfMonth(): (n: int)
      ensures 28 <= n <= 31
      ensures n == DaysInMonth(Date().year, Date().month)
    {
      DaysInMonth(Date().year, Date().month)
    }

    /** `getActualMaximum(DAY_OF_YEAR)` */
    function ActualMaximumDayOfYear(): (n: int)
      ensures n == 365 || n == 366
      ensures n == DaysInYear(Date().year)
    {
      DaysInYear(Date().year)
    }

    /** `set(HOUR_OF_DAY, h)` */
    function SetHourOfDay(h: int): (c: Calendar)
      ensures c.Valid()
      ensures c.TimeInMillis() == Compose(day, h, MinuteOf(timeOfDay), SecondOf(timeOfDay), MillisecondOf(timeOfDay))
    {
      At(Compose(day, h, MinuteOf(timeOfDay), SecondOf(timeOfDay), MillisecondOf(timeOfDay)))
    }

    /** `set(MINUTE, m)` */
    function SetMinute(m: int): (c: Calendar)
      ensures c.Valid()
      ensures c.TimeInMillis() == Compose(day, HourOf(timeOfDay), m, SecondOf(timeOfDay), MillisecondOf(timeOfDay))
    {
      At(Compose(day, HourOf(timeOfDay), m, SecondOf(timeOfDay), MillisecondOf(timeOfDay)))
    }

    /** `set(SECOND, s)` */
    function SetSecond(s: int): (c: Calendar)
      ensures c.Valid()
      ensures c.TimeInMillis() == Compose(day, HourOf(timeOfDay), MinuteOf(timeOfDay), s, MillisecondOf(timeOfDay))
    {
      At(Compose(day, HourOf(timeOfDay), MinuteOf(timeOfDay), s, MillisecondOf(timeOfDay)))
    }

    /** `set(MILLISECOND, ms)` */
    function SetMillisecond(ms: int): (c: Calendar)
      ensures c.Valid()
      ensures c.TimeInMillis() == Compose(day, HourOf(timeOfDay), MinuteOf(timeOfDay), SecondOf(timeOfDay), ms)
    {
      At(Compose(day, HourOf(timeOfDay), MinuteOf(timeOfDay), SecondOf(timeOfDay), ms))
    }

    /** `add(DAY_OF_MONTH, k)`: whole days, the clock fields are kept. */
    function AddDays(k: int): (c: Calendar)
      ensures c.TimeInMillis() == TimeInMillis() + k * DAY_MS
      ensures c.timeOfDay == timeOfDay
    {
      Calendar(day + k, timeOfDay)
    }

    /** `add(MONTH, k)` */
    function AddMonths(k: int): (c: Calendar)
      ensures c.Date() == AddMonthsToDate(Date(), k) && c.timeOfDay == timeOfDay
    {
      var d := AddMonthsToDate(Date(), k);
      CivilOfDayNumber(d);
      Calendar(DayNumber(d), timeOfDay)
    }

    /** `add(YEAR, k)` */
    function AddYears(k: int): (c: Calendar)
      ensures c.Date() == AddYearsToDate(Date(), k) && c.timeOfDay == timeOfDay
    {
      var d := AddYearsToDate(Date(), k);
      CivilOfDayNumber(d);
      Calendar(DayNumber(d), timeOfDay)
    }

    /** `set(DAY_OF_MONTH, k)` (lenient: day 0 is the last day of the previous month). */
    function SetDayOfMonth(k: int): (c: Calendar)
      ensures c.timeOfDay == timeOfDay
      ensures c.day == DayNumber(CivilTime.Date(Date().year, Date().month, 1)) + k - 1
      ensures 1 <= k <= DaysInMonth(Date().year, Date().month) ==>
        c.Date() == CivilTime.Date(Date().year, Date().month, k)
    {
      var d := Date();
      if 1 <= k <= DaysInMonth(d.year, d.month) then
        CivilOfDayNumber(CivilTime.Date(d.year, d.month, k));
        Calendar(DayNumber(CivilTime.Date(d.year, d.month, 1)) + k - 1, timeOfDay)
      else
        Calendar(DayNumber(CivilTime.Date(d.year, d.month, 1)) + k - 1, timeOfDay)
    }

    /** `set(DAY_OF_YEAR, k)` (lenient) */
    function SetDayOfYear(k: int): (c: Calendar)
      ensures c.timeOfDay == timeOfDay
      ensures c.day == YearStart(Date().year) + k - 1
      ensures k == 1 ==> c.Date() == CivilTime.Date(Date().year, 1, 1)
    {
      var y := Date().year;
      CivilOfDayNumber(CivilTime.Date(y, 1, 1));
      Calendar(YearStart(y) + k - 1, timeOfDay)
    }

    /** The four calls `set(HOUR_OF_DAY, 0)`, `set(MINUTE, 0)`, `set(SECOND, 0)`, `set(MILLISECOND, 0)`. */
    function SetStartOfDay(): (c: Calendar)
      requires Valid()
      ensures c == Calendar(day, 0)
    {
      var c1 := SetHourOfDay(0);
      FieldsOfCompose(day, 0, MinuteOf(timeOfDay), SecondOf(timeOfDay), MillisecondOf(timeOfDay));
      var c2 := c1.SetMinute(0);
      FieldsOfCompose(day, 0, 0, SecondOf(timeOfDay), MillisecondOf(timeOfDay));
      var c3 := c2.SetSecond(0);
      FieldsOfCompose(day, 0, 0, 0, MillisecondOf(timeOfDay));
      var c4 := c3.SetMillisecond(0);
      FieldsOfCompose(day, 0, 0, 0, 0);
      Decompose(timeOfDay);
      c4
    }

    /** The four calls `set(HOUR_OF_DAY, 23)`, `set(MINUTE, 59)`, `set(SECOND, 59)`, `set(MILLISECOND, 999)`. */
    function SetEndOfDay(): (c: Calendar)
      requires Valid()
      ensures c == Calendar(day, DAY_MS - 1)
    {
      var c1 := SetHourOfDay(23);
      FieldsOfCompose(day, 23, MinuteOf(timeOfDay), SecondOf(timeOfDay), MillisecondOf(timeOfDay));
      var c2 := c1.SetMinute(59);
      FieldsOfCompose(day, 23, 59, SecondOf(timeOfDay), MillisecondOf(timeOfDay));
      var c3 := c2.SetSecond(59);
      FieldsOfCompose(day, 23, 59, 59, MillisecondOf(timeOfDay));
      var c4 := c3.SetMillisecond(999);
      FieldsOfCompose(day, 23, 59, 59, 999);
      Decompose(timeOfDay);
      c4
    }
  }

  /** `Calendar.getInstance()` read at instant `t` (also `timeInMillis = t`). */
  function At(t: int): (c: Calendar)
    ensures c.Valid() && c.TimeInMillis() == t
    ensures c.day == DayIndex(t) && c.timeOfDay == TimeOfDay(t)
  {
    Calendar(DayIndex(t), TimeOfDay(t))
  }
}
