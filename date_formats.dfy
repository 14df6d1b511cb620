/**
 * The two display patterns of dates, `"dd MMM yyyy"` and `"MMM dd, yyyy"`,
 * rendered with English month abbreviations.
 */
module DateFormats {
  import opened CivilTime
  import opened Numerals
  import opened DayKeys

  function MonthAbbreviation(m: int): (s: string)
    requires 1 <= m <= 12
    ensures |s| == 3
  {
    ["Jan", "Feb", "Mar", "Apr", "May", "Jun", "Jul", "Aug", "Sep", "Oct", "Nov", "Dec"][m - 1]
  }

  /** `SimpleDateFormat("dd MMM yyyy").format(Date(t))` */
  function DayMonthYear(t: int): string {
    var d := DateOf(t);
    Digits(d.day, 2) + " " + MonthAbbreviation(d.month) + " " + YearText(d.year)
  }

  /** `SimpleDateFormat("MMM dd, yyyy").format(Date(t))` */
  function MonthDayYear(t: int): string {
    var d := DateOf(t);
    MonthAbbreviation(d.month) + " " + Digits(d.day, 2) + ", " + YearText(d.year)
  }

  /** Within years 1 to 9999, `"dd MMM yyyy"` reads back as the day, the month's abbreviation and the year. */
  lemma DayMonthYearFields(t: int)
    requires 1 <= DateOf(t).year <= 9999
    ensures var d := DateOf(t);
      var s := DayMonthYear(t);
      |s| == 11 && s[2] == ' ' && s[6] == ' ' && s[3..6] == MonthAbbreviation(d.month)
      && AllDigits(s[..2]) && ValueOf(s[..2]) == d.day
      && AllDigits(s[7..]) && ValueOf(s[7..]) == d.year
  {
    var d := DateOf(t);
    var dd, yyyy := Digits(d.day, 2), YearText(d.year);
    var s := DayMonthYear(t);
    assert s == dd + " " + MonthAbbreviation(d.month) + " " + yyyy;
    assert s[..2] == dd && s[7..] == yyyy && s[3..6] == MonthAbbreviation(d.month);
    assert Pow10(2) == 100 && Pow10(4) == 10000;
    ValueOfDigits(d.day, 2);
    ValueOfDigits(d.year, 4);
  }

  /** Within years 1 to 9999, `"MMM dd, yyyy"` reads back as the month's abbreviation, the day and the year. */
  lemma MonthDayYearFields(t: int)
    requires 1 <= DateOf(t).year <= 9999
    ensures var d := DateOf(t);
      var s := MonthDayYear(t);
      |s| == 12 && s[..3] == MonthAbbreviation(d.month) && s[3] == ' ' && s[6..8] == ", "
      && AllDigits(s[4..6]) && ValueOf(s[4..6]) == d.day
      && AllDigits(s[8..]) && ValueOf(s[8..]) == d.year
  {
    var d := DateOf(t);
    var dd, yyyy := Digits(d.day, 2), YearText(d.year);
    var s := MonthDayYear(t);
    assert s == MonthAbbreviation(d.month) + " " + dd + ", " + yyyy;
    assert s[..3] == MonthAbbreviation(d.month) && s[4..6] == dd && s[6..8] == ", " && s[8..] == yyyy;
    assert Pow10(2) == 100 && Pow10(4) == 10000;
    ValueOfDigits(d.day, 2);
    ValueOfDigits(d.year, 4);
  }
}
