/**
 * The app's records: the `expenses` and `categories` rows, an expense
 * joined with its (possibly missing) category, and the display model of
 * an expense.  Ids and timestamps are unbounded integers; amounts are
 * exact reals.
 */
module Entities {
  import opened Wrappers

  datatype Expense = Expense(
    id: int,
    amount: real,
    categoryId: int,
    date: int,
    description: string,
    createdAt: int)

  datatype Category = Category(id: int, name: string, color: string, icon: string)

  datatype ExpenseWithCategory = ExpenseWithCategory(expense: Expense, category: Option<Category>)

  datatype ExpenseUIModel = ExpenseUIModel(
    id: int,
    amount: string,
    categoryName: string,
    categoryColor: string,
    date: string,
    description: string)

  /**
   * The outcome of a call into the repository layer: a value, or an
   * exception carrying an optional message.
   */
  datatype Fetch<T> = Fetched(value: T) | Threw(message: Option<string>)

  /** `e.message ?: fallback` */
  function MessageOr(message: Option<string>, fallback: string): (r: string)
    ensures message.Some? ==> r == message.value
    ensures message.None? ==> r == fallback
  {
    message.GetOr(fallback)
  }
}
