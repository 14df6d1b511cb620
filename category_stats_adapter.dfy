/**
 * The list of top categories on the statistics screen: each row shows the
 * category's amount, its share of the listed categories' total with one
 * decimal, and a progress bar filled to the whole percent.
 */
module CategoryStats {
  import opened Wrappers
  import opened Numerals
  import opened Extensions
  import opened Grouping
  import opened Shares
  import opened Statistics

  /** The listed rows as (name, amount) entries. */
  function CategoryEntries(categories: seq<CategoryExpense>): (xs: Entries<string>)
    ensures |xs| == |categories|
    ensures forall i | 0 <= i < |categories| :: xs[i] == (categories[i].name, categories[i].amount)
  {
    seq(|categories|, i requires 0 <= i < |categories| => (categories[i].name, categories[i].amount))
  }

  /** `sumOf { it.amount }` */
  function AmountSum(categories: seq<CategoryExpense>): real {
    Total(CategoryEntries(categories))
  }

  /** `toInt()` on a double: the integer part, truncated toward zero. */
  function TruncateToInt(a: real): (n: int)
    ensures a >= 0.0 ==> 0 <= n && n as real <= a < n as real + 1.0
    ensures a < 0.0 ==> n <= 0 && n as real - 1.0 < a <= n as real
  {
    if a >= 0.0 then a.Floor else -((-a).Floor)
  }

  /** What one row of the list shows. */
  datatype StatsRow = StatsRow(name: string, amountText: string, percentageText: string, progress: int)

  class CategoryStatsAdapter {
    var categories: seq<CategoryExpense>
    var totalAmount: real

    constructor()
      ensures categories == [] && totalAmount == 0.0
    {
      categories := [];
      totalAmount := 0.0;
    }

    /** `submitList(newCategories)`: the total is the sum of the listed amounts. */
    method SubmitList(newCategories: seq<CategoryExpense>)
      modifies this
      ensures categories == newCategories
      ensures totalAmount == AmountSum(newCategories)
    {
      categories := newCategories;
      totalAmount := AmountSum(categories);
    }

    /** `getItemCount()` */
    function ItemCount(): (n: nat)
      reads this
      ensures n == |categories|
    {
      |categories|
    }

    /**
     * `onBindViewHolder(holder, position)`: the percentage is printed
     * rounded half-up to one decimal and reads back as that rounding; the
     * bar shows its whole part.
     */
    function Bind(position: int): (row: StatsRow)
      reads this
      requires 0 <= position < |categories|
      ensures var p := Percentage(categories[position].amount, totalAmount);
        && row.name == categories[position].name
        && row.amountText == ToCurrency(categories[position].amount)
        && |row.percentageText| >= 4 && row.percentageText[|row.percentageText| - 1] == '%'
        && ParseDecimal(row.percentageText[..|row.percentageText| - 1]) == Some(RoundHalfUp1(p))
        && row.progress == TruncateToInt(p)
    {
      var category := categories[position];
      var percentage := Percentage(category.amount, totalAmount);
      var text := FormatFixed1(percentage) + "%";
      ParseFormatFixed1(percentage);
      assert text[..|text| - 1] == FormatFixed1(percentage);
      StatsRow(category.name, ToCurrency(category.amount), text, TruncateToInt(percentage))
    }
  }

  /** The percentages of the listed rows, in order, under their names. */
  function Percentages(categories: seq<CategoryExpense>): (ps: Entries<string>)
    ensures |ps| == |categories|
    ensures forall i | 0 <= i < |ps| ::
      ps[i] == (categories[i].name, Percentage(categories[i].amount, AmountSum(categories)))
  {
    SharesOf(CategoryEntries(categories), AmountSum(categories))
  }

  /** With a positive total, the listed percentages add up to exactly 100. */
  lemma PercentagesSumTo100(categories: seq<CategoryExpense>)
    requires AmountSum(categories) > 0.0
    ensures Total(Percentages(categories)) == 100.0
  {
    SharesSumTo100(CategoryEntries(categories));
  }

  /**
   * When no listed amount is negative, every row shows a percentage from 0
   * to 100 and a progress bar filled from 0 to 100.
   */
  lemma RowBounds(adapter: CategoryStatsAdapter, position: int)
    requires adapter.totalAmount == AmountSum(adapter.categories)
    requires NoNegativeValues(CategoryEntries(adapter.categories))
    requires 0 <= position < |adapter.categories|
    ensures var p := Percentage(adapter.categories[position].amount, adapter.totalAmount);
      0.0 <= p <= 100.0 && 0 <= adapter.Bind(position).progress <= 100
  {
    TotalBoundsEntry(CategoryEntries(adapter.categories), position);
    ShareBounds(adapter.categories[position].amount, adapter.totalAmount);
  }

  /** With no positive total, every row shows 0.0% and an empty bar. */
  lemma ZeroTotalRows(adapter: CategoryStatsAdapter, position: int)
    requires adapter.totalAmount <= 0.0
    requires 0 <= position < |adapter.categories|
    ensures adapter.Bind(position).progress == 0
    ensures ParseDecimal(adapter.Bind(position).percentageText[..|adapter.Bind(position).percentageText| - 1])
            == Some(0.0)
  {
    var p := Percentage(adapter.categories[position].amount, adapter.totalAmount);
    assert p == 0.0 && Tenths(p) == 0;
  }
}
