/**
 * Proleptic Gregorian civil time over epoch milliseconds in one fixed zone
 * without daylight-saving transitions: a day is always DAY_MS milliseconds
 * and day number 0 is Thursday 1970-01-01.
 */
module CivilTime {
  const DAY_MS: int := 86_400_000
  const HOUR_MS: int := 3_600_000
  const MINUTE_MS: int := 60_000
  const SECOND_MS: int := 1_000

  datatype Date = Date(year: int, month: int, day: int)

  /** The Gregorian leap-year rule. */
  predicate IsLeapYear(y: int) {
    (y % 4 == 0 && y % 100 != 0) || y % 400 == 0
  }

  function DaysInYear(y: int): (n: int)
    ensures n == 365 || n == 366
  {
    if IsLeapYear(y) then 366 else 365
  }

  function DaysInMonth(y: int, m: int): (n: int)
    requires 1 <= m <= 12
    ensures 28 <= n <= 31
    ensures n == 29 <==> m == 2 && IsLeapYear(y)
  {
    if m == 2 then (if IsLeapYear(y) then 29 else 28)
    else if m == 4 || m == 6 || m == 9 || m == 11 then 30
    else 31
  }

  predicate ValidDate(d: Date) {
    1 <= d.month <= 12 && 1 <= d.day <= DaysInMonth(d.year, d.month)
  }

  /** Day number of January 1st of year `y`. */
  function YearStart(y: int): int
    decreases if y < 1970 then 1970 - y else y - 1970
  {
    if y == 1970 then 0
    else if y > 1970 then YearStart(y - 1) + DaysInYear(y - 1)
    else YearStart(y + 1) - DaysInYear(y)
  }

  lemma YearStartStep(y: int)
    ensures YearStart(y + 1) == YearStart(y) + DaysInYear(y)
  {
  }

  /** Years are laid end to end: a later year starts after an earlier one ends. */
  lemma {:induction false} YearStartMonotone(a: int, b: int)
    requires a < b
    ensures YearStart(a) + DaysInYear(a) <= YearStart(b)
    decreases b - a
  {
    YearStartStep(a);
    if a + 1 < b {
      YearStartMonotone(a + 1, b);
    }
  }

  /** Days of year `y` before the first of month `m` (`m == 13` gives the whole year). */
  function MonthStart(y: int, m: int): (n: int)
    requires 1 <= m <= 13
    ensures 0 <= n <= DaysInYear(y)
  {
    [0, 31, 59, 90, 120, 151, 181, 212, 243, 273, 304, 334, 365][m - 1]
      + (if m > 2 && IsLeapYear(y) then 1 else 0)
  }

  lemma MonthStartStep(y: int, m: int)
    requires 1 <= m <= 12
    ensures MonthStart(y, m + 1) == MonthStart(y, m) + DaysInMonth(y, m)
    ensures MonthStart(y, 13) == DaysInYear(y)
  {
  }

  /** Days since 1970-01-01 of a valid date. */
  function DayNumber(d: Date): int
    requires ValidDate(d)
  {
    YearStart(d.year) + MonthStart(d.year, d.month) + d.day - 1
  }

  /** Chronological order of dates: by year, then month, then day. */
  predicate DateBefore(a: Date, b: Date) {
    a.year < b.year
    || (a.year == b.year && a.month < b.month)
    || (a.year == b.year && a.month == b.month && a.day < b.day)
  }

  lemma DayNumberWithinYear(d: Date)
    requires ValidDate(d)
    ensures YearStart(d.year) <= DayNumber(d) < YearStart(d.year) + DaysInYear(d.year)
  {
    MonthStartStep(d.year, d.month);
    if d.month < 12 {
      MonthStartMonotone(d.year, d.month + 1, 13);
    }
  }

  lemma MonthStartMonotone(y: int, a: int, b: int)
    requires 1 <= a <= b <= 13
    ensures MonthStart(y, a) <= MonthStart(y, b)
  {
  }

  /** Day numbers run in calendar order: the numbering is injective and order-preserving. */
  lemma DayNumberOrder(a: Date, b: Date)
    requires ValidDate(a) && ValidDate(b)
    ensures DateBefore(a, b) <==> DayNumber(a) < DayNumber(b)
    ensures a == b <==> DayNumber(a) == DayNumber(b)
  {
    if a.year < b.year {
      DayNumberWithinYear(a);
      DayNumberWithinYear(b);
      YearStartMonotone(a.year, b.year);
    } else if b.year < a.year {
      DayNumberWithinYear(a);
      DayNumberWithinYear(b);
      YearStartMonotone(b.year, a.year);
    } else if a.month < b.month {
      MonthStartStep(a.year, a.month);
      MonthStartMonotone(a.year, a.month + 1, b.month);
    } else if b.month < a.month {
      MonthStartStep(b.year, b.month);
      MonthStartMonotone(b.year, b.month + 1, a.month);
    }
  }

  /** The year holding day `YearStart(y) + off`, with the day's offset in that year. */
  function YearOf(y: int, off: int): (r: (int, int))
    ensures 0 <= r.1 < DaysInYear(r.0)
    ensures YearStart(r.0) + r.1 == YearStart(y) + off
    decreases if off < 0 then 400 - off else off
  {
    if off < 0 then
      YearStartStep(y - 1);
      YearOf(y - 1, off + DaysInYear(y - 1))
    else if off >= DaysInYear(y) then
      YearStartStep(y);
      YearOf(y + 1, off - DaysInYear(y))
    else
      (y, off)
  }

  /** The month of year `y` holding the day at offset `off`, searching from month `m`. */
  function MonthOf(y: int, off: int, m: int): (r: int)
    requires 1 <= m <= 12
    requires MonthStart(y, m) <= off < DaysInYear(y)
    ensures m <= r <= 12
    ensures MonthStart(y, r) <= off < MonthStart(y, r + 1)
    decreases 12 - m
  {
    MonthStartStep(y, m);
    if off < MonthStart(y, m + 1) then m else MonthOf(y, off, m + 1)
  }

  /** Every day number is the day number of some date, found by searching years then months. */
  lemma CivilDateExists(n: int)
    ensures exists d: Date :: ValidDate(d) && DayNumber(d) == n
  {
    var (y, off) := YearOf(1970, n);
    var m := MonthOf(y, off, 1);
    MonthStartStep(y, m);
    var d := Date(y, m, off - MonthStart(y, m) + 1);
    assert ValidDate(d) && DayNumber(d) == n;
  }

  /** Distinct dates have distinct day numbers. */
  lemma DayNumberInjective()
    ensures forall a: Date, b: Date | ValidDate(a) && ValidDate(b) && DayNumber(a) == DayNumber(b) :: a == b
  {
    forall a: Date, b: Date | ValidDate(a) && ValidDate(b) && DayNumber(a) == DayNumber(b)
      ensures a == b
    {
      DayNumberOrder(a, b);
    }
  }

  /** The civil date of day number `n`: the one valid date with that day number. */
  function CivilFromDays(n: int): (d: Date)
    ensures ValidDate(d)
    ensures DayNumber(d) == n
  {
    CivilDateExists(n);
    DayNumberInjective();
    var d :| ValidDate(d) && DayNumber(d) == n;
    d
  }

  /** Round trip: the civil date of a date's day number is that date. */
  lemma CivilOfDayNumber(d: Date)
    requires ValidDate(d)
    ensures CivilFromDays(DayNumber(d)) == d
  {
    DayNumberOrder(CivilFromDays(DayNumber(d)), d);
  }

  /** `Calendar.DAY_OF_WEEK` numbering: SUNDAY = 1, MONDAY = 2, ..., SATURDAY = 7. */
  const SUNDAY: int := 1
  const MONDAY: int := 2
  const TUESDAY: int := 3
  const WEDNESDAY: int := 4
  const THURSDAY: int := 5
  const FRIDAY: int := 6
  const SATURDAY: int := 7

  function DayOfWeek(n: int): (w: int)
    ensures SUNDAY <= w <= SATURDAY
  {
    (n + 4) % 7 + 1
  }

  /** Day number of the day holding instant `t`. */
  function DayIndex(t: int): int {
    t / DAY_MS
  }

  /** Milliseconds since midnight of instant `t`. */
  function TimeOfDay(t: int): (ms: int)
    ensures 0 <= ms < DAY_MS
    ensures t == DayIndex(t) * DAY_MS + ms
  {
    t % DAY_MS
  }

  function DateOf(t: int): (d: Date)
    ensures ValidDate(d)
  {
    CivilFromDays(DayIndex(t))
  }
}
