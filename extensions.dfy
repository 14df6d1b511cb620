/**
 * Display conversions: an expense joined with its category becomes its
 * display model, and an amount becomes a rupee string with exactly two
 * decimals.  `StripCurrency` is the inverse the expense list applies to
 * such strings before parsing them back into numbers.
 */
module Extensions {
  import opened Wrappers
  import opened Text
  import opened Numerals
  import opened Entities
  import opened DateFormats

  const RUPEE: char := '₹'
  const UNKNOWN_CATEGORY: string := "Unknown"
  const DEFAULT_CATEGORY_COLOR: string := "#757575"

  /** `Double.toCurrency()`: `"₹" + "%.2f"`. */
  function ToCurrency(a: real): (s: string)
    ensures |s| >= 5 && s[0] == RUPEE
    ensures s[1..] == FormatFixed2(a)
    ensures ',' !in s && RUPEE !in s[1..]
  {
    var f := FormatFixed2(a);
    assert RUPEE !in f by {
      forall i | 0 <= i < |f| ensures f[i] != RUPEE { }
    }
    [RUPEE] + f
  }

  /** `ExpenseWithCategory.toUIModel()` */
  function ToUIModel(e: ExpenseWithCategory): (u: ExpenseUIModel)
    ensures u.id == e.expense.id && u.description == e.expense.description
    ensures u.categoryName == if e.category.Some? then e.category.value.name else UNKNOWN_CATEGORY
    ensures u.categoryColor == if e.category.Some? then e.category.value.color else DEFAULT_CATEGORY_COLOR
    ensures u.amount == ToCurrency(e.expense.amount)
    ensures u.date == DayMonthYear(e.expense.date)
  {
    ExpenseUIModel(
      e.expense.id,
      ToCurrency(e.expense.amount),
      match e.category case Some(c) => c.name case None => UNKNOWN_CATEGORY,
      match e.category case Some(c) => c.color case None => DEFAULT_CATEGORY_COLOR,
      DayMonthYear(e.expense.date),
      e.expense.description)
  }

  /** `amount.replace("₹", "").replace(",", "")` */
  function StripCurrency(s: string): (r: string)
    ensures ',' !in r
  {
    RemoveChar(RemoveChar(s, RUPEE), ',')
  }

  /**
   * Round trip: stripping and parsing a formatted amount gives the amount
   * rounded to two decimals, and the amount itself when it is a whole
   * number of paise.
   */
  lemma ParseCurrency(a: real)
    ensures ParseDecimal(StripCurrency(ToCurrency(a))) == Some(RoundHalfUp2(a))
    ensures (a * 100.0).Floor as real == a * 100.0 ==> RoundHalfUp2(a) == a
  {
    var f := FormatFixed2(a);
    assert ToCurrency(a) == [RUPEE] + f;
    RemoveCharConcat([RUPEE], f, RUPEE);
    assert RemoveChar([RUPEE], RUPEE) == [];
    assert StripCurrency(ToCurrency(a)) == f;
    ParseFormatFixed2(a);
    var p := (a * 100.0).Floor;
    if p as real == a * 100.0 {
      assert a == p as real / 100.0;
      RoundHalfUp2Exact(p);
    }
  }
}
