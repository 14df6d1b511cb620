/**
 * The spending-statistics use case: the repository's total for a date
 * range, the expenses in that range grouped by category name, and their
 * count.  The repository results are inputs.
 */
module SpendingStatistics {
  import opened Wrappers
  import opened Entities
  import opened Grouping

  const UNKNOWN_CATEGORY: string := "Unknown"

  datatype SpendingStatistics = SpendingStatistics(
    totalSpent: real,
    categoryBreakdown: Entries<string>,
    expenseCount: int)

  /**
   * The repository's answers for a date range: its total and the expenses
   * it holds in the range, or the exception the query threw.
   */
  type RangeQuery = ((int, int)) -> Fetch<(real, seq<ExpenseWithCategory>)>

  /** `it.category?.name ?: "Unknown"` */
  function CategoryKey(e: ExpenseWithCategory): (k: string)
    ensures e.category.Some? ==> k == e.category.value.name
    ensures e.category.None? ==> k == UNKNOWN_CATEGORY
  {
    match e.category
    case Some(c) => c.name
    case None => UNKNOWN_CATEGORY
  }

  /** Each expense as a (category name, amount) item. */
  function CategoryItems(expenses: seq<ExpenseWithCategory>): (xs: Entries<string>)
    ensures |xs| == |expenses|
    ensures forall i | 0 <= i < |xs| :: xs[i] == (CategoryKey(expenses[i]), expenses[i].expense.amount)
  {
    seq(|expenses|, i requires 0 <= i < |expenses| => (CategoryKey(expenses[i]), expenses[i].expense.amount))
  }

  /**
   * `invoke(startDate, endDate)`, given the repository's total for the
   * range and the expenses it returned for the range.
   */
  function GetSpendingStatistics(totalSpent: real, expenses: seq<ExpenseWithCategory>): (s: SpendingStatistics)
    ensures s.totalSpent == totalSpent
    ensures s.expenseCount == |expenses|
    ensures Groups(s.categoryBreakdown, CategoryItems(expenses))
    ensures expenses == [] ==> s.categoryBreakdown == [] && s.expenseCount == 0
  {
    SpendingStatistics(totalSpent, GroupSum(CategoryItems(expenses)), |expenses|)
  }

  /**
   * A category appears in the breakdown exactly when some expense is filed
   * under it, and its value is the sum of those expenses' amounts.
   */
  lemma BreakdownEntries(totalSpent: real, expenses: seq<ExpenseWithCategory>, name: string)
    ensures var b := GetSpendingStatistics(totalSpent, expenses).categoryBreakdown;
      HasKey(b, name) <==> exists i | 0 <= i < |expenses| :: CategoryKey(expenses[i]) == name
    ensures var b := GetSpendingStatistics(totalSpent, expenses).categoryBreakdown;
      HasKey(b, name) ==> b[Find(b, name)].1 == SumFor(CategoryItems(expenses), name)
  {
    var xs := CategoryItems(expenses);
    if exists i | 0 <= i < |expenses| :: CategoryKey(expenses[i]) == name {
      var i :| 0 <= i < |expenses| && CategoryKey(expenses[i]) == name;
      assert xs[i].0 == name;
    }
  }
}
