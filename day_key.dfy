/**
 * The `SimpleDateFormat("yyyy-MM-dd")` day key: the calendar date in the
 * complete extended format of section 4.1.2.2 of ISO 8601:2004.  For years
 * 1 to 9999 the keys are fixed-width, so string order is date order.
 */
module DayKeys {
  import opened CivilTime
  import opened Numerals
  import opened Text

  /** Pattern letter `yyyy`: the year of era, at least four digits. */
  function YearText(y: int): (s: string)
    ensures 1 <= y <= 9999 ==> s == Digits(y, 4)
  {
    var yoe := if y <= 0 then 1 - y else y;
    if yoe < 10000 then Digits(yoe, 4) else NatToString(yoe)
  }

  function DayKey(d: Date): (s: string)
    requires ValidDate(d)
    ensures 1 <= d.year <= 9999 ==> |s| == 10 && s[4] == '-' && s[7] == '-'
  {
    YearText(d.year) + "-" + Digits(d.month, 2) + "-" + Digits(d.day, 2)
  }

  /** The key of the day holding instant `t`. */
  function DayKeyOf(t: int): string {
    DayKey(DateOf(t))
  }

  ghost predicate InKeyRange(d: Date) {
    ValidDate(d) && 1 <= d.year <= 9999
  }

  /** Within years 1 to 9999, keys compare as strings exactly as the dates compare. */
  lemma DayKeyOrder(a: Date, b: Date)
    requires InKeyRange(a) && InKeyRange(b)
    ensures StrLess(DayKey(a), DayKey(b)) <==> DateBefore(a, b)
    ensures DayKey(a) == DayKey(b) <==> a == b
  {
    var ma, mb := Digits(a.month, 2), Digits(b.month, 2);
    var da, db := Digits(a.day, 2), Digits(b.day, 2);
    KeyParts(a);
    KeyParts(b);
    DigitsOrder(a.year, b.year, 4);
    DigitsOrder(a.month, b.month, 2);
    DigitsOrder(a.day, b.day, 2);
    DashedOrder(ma, mb, da, db);
    DashedOrder(Digits(a.year, 4), Digits(b.year, 4), ma + ("-" + da), mb + ("-" + db));
  }

  /** A key in range is its three fixed-width fields joined by dashes. */
  lemma KeyParts(d: Date)
    requires InKeyRange(d)
    ensures d.year < Pow10(4) && d.month < Pow10(2) && d.day < Pow10(2)
    ensures DayKey(d) == Digits(d.year, 4) + ("-" + (Digits(d.month, 2) + ("-" + Digits(d.day, 2))))
  {
    assert Pow10(4) == 10000 && Pow10(2) == 100;
  }

  /** Within years 1 to 9999, an instant's key reads back as the year, month and day of its date. */
  lemma DayKeyOfFields(t: int)
    requires 1 <= DateOf(t).year <= 9999
    ensures var d := DateOf(t);
      var key := DayKeyOf(t);
      |key| == 10 && key[4] == '-' && key[7] == '-'
      && AllDigits(key[..4]) && ValueOf(key[..4]) == d.year
      && AllDigits(key[5..7]) && ValueOf(key[5..7]) == d.month
      && AllDigits(key[8..]) && ValueOf(key[8..]) == d.day
  {
    var d := DateOf(t);
    KeyParts(d);
    var yyyy, mm, dd := Digits(d.year, 4), Digits(d.month, 2), Digits(d.day, 2);
    DashedSlices(yyyy, mm, dd);
    ValueOfDigits(d.year, 4);
    ValueOfDigits(d.month, 2);
    ValueOfDigits(d.day, 2);
  }

  lemma DashedSlices(yyyy: string, mm: string, dd: string)
    requires |yyyy| == 4 && |mm| == 2 && |dd| == 2
    ensures var key := yyyy + ("-" + (mm + ("-" + dd)));
      |key| == 10 && key[4] == '-' && key[7] == '-' && key[..4] == yyyy && key[5..7] == mm && key[8..] == dd
  {
  }

  /** Two dash-separated keys with equal-width heads compare head first, then tail. */
  lemma DashedOrder(x: string, y: string, u: string, v: string)
    requires |x| == |y|
    ensures StrLess(x + ("-" + u), y + ("-" + v)) <==> StrLess(x, y) || (x == y && StrLess(u, v))
    ensures x + ("-" + u) == y + ("-" + v) <==> x == y && u == v
  {
    StrLessConcat(x, y, "-" + u, "-" + v);
    StrLessConcat("-", "-", u, v);
    StrLessIrreflexive("-");
    SplitEqual(x, y, "-" + u, "-" + v);
    SplitEqual("-", "-", u, v);
  }

  lemma SplitEqual(x: string, y: string, u: string, v: string)
    requires |x| == |y|
    ensures x + u == y + v <==> x == y && u == v
  {
    if x + u == y + v {
      assert x == (x + u)[..|x|] && y == (y + v)[..|y|];
      assert u == (x + u)[|x|..] && v == (y + v)[|y|..];
    }
  }

  /** Instants within years 1 to 9999 get keys ordered as their days. */
  lemma DayKeyOfOrder(t: int, u: int)
    requires 1 <= DateOf(t).year <= 9999 && 1 <= DateOf(u).year <= 9999
    ensures StrLess(DayKeyOf(t), DayKeyOf(u)) <==> DayIndex(t) < DayIndex(u)
    ensures DayKeyOf(t) == DayKeyOf(u) <==> DayIndex(t) == DayIndex(u)
  {
    DayNumberOrder(DateOf(t), DateOf(u));
    DayKeyOrder(DateOf(t), DateOf(u));
  }
}
