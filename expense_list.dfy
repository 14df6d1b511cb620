/**
 * The expense list: every expense with its timestamp, narrowed by a
 * filter (text search, category, inclusive range of days) and ordered by
 * the chosen sort, all driven by a filter record that each setter updates.
 */
module ExpenseList {
  import opened Wrappers
  import opened Text
  import opened Numerals
  import opened CivilTime
  import opened Calendars
  import opened Entities
  import opened Extensions
  import opened StableSort
  import opened DateFormats

  datatype SortBy = DATE_DESC | DATE_ASC | AMOUNT_DESC | AMOUNT_ASC | CATEGORY

  datatype ExpenseFilter = ExpenseFilter(
    searchQuery: string,
    categoryName: Option<string>,
    startDate: Option<int>,
    endDate: Option<int>,
    sortBy: SortBy)

  /** `ExpenseFilter()` with its default arguments. */
  const DEFAULT_FILTER: ExpenseFilter := ExpenseFilter("", None, None, None, DATE_DESC)

  datatype ExpenseWithTimestamp = ExpenseWithTimestamp(uiModel: ExpenseUIModel, timestamp: int, categoryId: int)

  datatype ExpenseListUiState = Loading | Success | Error(message: string)

  const UNKNOWN_ERROR: string := "Unknown error"
  const DELETE_FAILED: string := "Failed to delete expense"

  // ---------------------------------------------------------------- day bounds

  /** `getStartOfDay(timestamp)`: midnight of the timestamp's day. */
  method GetStartOfDay(timestamp: int) returns (start: int)
    ensures start == DayIndex(timestamp) * DAY_MS
    ensures start <= timestamp < start + DAY_MS
  {
    var calendar := At(timestamp);
    calendar := calendar.SetStartOfDay();
    start := calendar.TimeInMillis();
  }

  /** `getEndOfDay(timestamp)`: the last millisecond of the timestamp's day. */
  method GetEndOfDay(timestamp: int) returns (end: int)
    ensures end == DayIndex(timestamp) * DAY_MS + (DAY_MS - 1)
    ensures end - (DAY_MS - 1) <= timestamp <= end
  {
    var calendar := At(timestamp);
    calendar := calendar.SetEndOfDay();
    end := calendar.TimeInMillis();
  }

  /**
   * The window from the start of `first`'s day to the end of `last`'s day
   * holds exactly the instants whose day lies between those two days.
   */
  lemma DayWindow(first: int, last: int, t: int)
    ensures DayIndex(first) * DAY_MS <= t <= DayIndex(last) * DAY_MS + (DAY_MS - 1)
            <==> DayIndex(first) <= DayIndex(t) <= DayIndex(last)
  {
    var d := DayIndex(t);
    assert d * DAY_MS <= t < d * DAY_MS + DAY_MS;
    if DayIndex(first) <= d {
      assert DayIndex(first) * DAY_MS <= d * DAY_MS;
    }
    if d <= DayIndex(last) {
      assert d * DAY_MS <= DayIndex(last) * DAY_MS;
    }
    if DayIndex(first) * DAY_MS <= t {
      assert DayIndex(first) * DAY_MS < (d + 1) * DAY_MS;
    }
    if t <= DayIndex(last) * DAY_MS + (DAY_MS - 1) {
      assert d * DAY_MS < (DayIndex(last) + 1) * DAY_MS;
    }
  }

  // ---------------------------------------------------------------- filter stages

  /** Description or category name contains the query, ignoring case. */
  predicate MatchesSearch(e: ExpenseWithTimestamp, query: string) {
    ContainsIgnoreCase(e.uiModel.description, query) || ContainsIgnoreCase(e.uiModel.categoryName, query)
  }

  /** The text-search stage: a blank query keeps everything. */
  function SearchStage(f: ExpenseFilter): ExpenseWithTimestamp -> bool {
    (e: ExpenseWithTimestamp) => IsBlank(f.searchQuery) || MatchesSearch(e, f.searchQuery)
  }

  /** The category stage: no category keeps everything. */
  function CategoryStage(f: ExpenseFilter): ExpenseWithTimestamp -> bool {
    (e: ExpenseWithTimestamp) => f.categoryName.None? || e.uiModel.categoryName == f.categoryName.value
  }

  /** The date stage: applied only when both bounds are set, by whole days. */
  function DateStage(f: ExpenseFilter): ExpenseWithTimestamp -> bool {
    (e: ExpenseWithTimestamp) => f.startDate.None? || f.endDate.None?
         || DayIndex(f.startDate.value) <= DayIndex(e.timestamp) <= DayIndex(f.endDate.value)
  }

  /** The amount shown, read back: `replace("₹", "").replace(",", "").toDoubleOrNull() ?: 0.0`. */
  function AmountKey(e: ExpenseWithTimestamp): real {
    ParseDecimal(StripCurrency(e.uiModel.amount)).GetOr(0.0)
  }

  function Timestamp(e: ExpenseWithTimestamp): int {
    e.timestamp
  }

  function CategoryName(e: ExpenseWithTimestamp): string {
    e.uiModel.categoryName
  }

  /** The ordering each sort choice applies (all library sorts are stable). */
  function SortOrder(sortBy: SortBy): (ExpenseWithTimestamp, ExpenseWithTimestamp) -> bool {
    match sortBy
    case DATE_DESC => DescendingInt(Timestamp)
    case DATE_ASC => AscendingInt(Timestamp)
    case AMOUNT_DESC => DescendingReal(AmountKey)
    case AMOUNT_ASC => AscendingReal(AmountKey)
    case CATEGORY => AscendingString(CategoryName)
  }

  lemma SortOrderIsPreorder(sortBy: SortBy)
    ensures TotalPreorder(SortOrder(sortBy))
  {
    KeyOrdersArePreorders(Timestamp, AmountKey);
    StringOrderIsPreorder(CategoryName);
  }

  /** The items that pass all three stages, in their original order. */
  function Selected(items: seq<ExpenseWithTimestamp>, f: ExpenseFilter): seq<ExpenseWithTimestamp> {
    Filter(Filter(Filter(items, SearchStage(f)), CategoryStage(f)), DateStage(f))
  }

  /** What the list shows for `items` under filter `f`, before the map back to display models. */
  function FilteredView(items: seq<ExpenseWithTimestamp>, f: ExpenseFilter): seq<ExpenseWithTimestamp> {
    Sort(Selected(items, f), SortOrder(f.sortBy))
  }

  function UiModels(ws: seq<ExpenseWithTimestamp>): (r: seq<ExpenseUIModel>)
    ensures |r| == |ws|
    ensures forall i | 0 <= i < |ws| :: r[i] == ws[i].uiModel
  {
    seq(|ws|, i requires 0 <= i < |ws| => ws[i].uiModel)
  }

  /** An item is kept exactly when it passes every stage of the filter. */
  predicate Keeps(f: ExpenseFilter, e: ExpenseWithTimestamp) {
    (IsBlank(f.searchQuery) || MatchesSearch(e, f.searchQuery))
    && (f.categoryName.Some? ==> e.uiModel.categoryName == f.categoryName.value)
    && (f.startDate.Some? && f.endDate.Some? ==>
          DayIndex(f.startDate.value) <= DayIndex(e.timestamp) <= DayIndex(f.endDate.value))
  }

  /** The view only reorders a sub-multiset of the items: nothing is added or duplicated. */
  lemma FilteredViewSubMultiset(items: seq<ExpenseWithTimestamp>, f: ExpenseFilter)
    ensures multiset(FilteredView(items, f)) <= multiset(items)
    ensures |FilteredView(items, f)| <= |items|
  {
    var s1 := Filter(items, SearchStage(f));
    var s2 := Filter(s1, CategoryStage(f));
    FilterSubMultiset(items, SearchStage(f));
    FilterSubMultiset(s1, CategoryStage(f));
    FilterSubMultiset(s2, DateStage(f));
  }

  /** The view holds exactly the items the filter keeps. */
  lemma FilteredViewMembers(items: seq<ExpenseWithTimestamp>, f: ExpenseFilter, e: ExpenseWithTimestamp)
    ensures e in FilteredView(items, f) <==> e in items && Keeps(f, e)
  {
    var s1 := Filter(items, SearchStage(f));
    var s2 := Filter(s1, CategoryStage(f));
    var s3 := Filter(s2, DateStage(f));
    FilterMembers(items, SearchStage(f));
    FilterMembers(s1, CategoryStage(f));
    FilterMembers(s2, DateStage(f));
    assert e in s3 <==> e in items && Keeps(f, e);
    SameMembers(FilteredView(items, f), s3, e);
  }

  lemma SameMembers<T>(a: seq<T>, b: seq<T>, x: T)
    requires multiset(a) == multiset(b)
    ensures x in a <==> x in b
  {
    assert x in a <==> x in multiset(a);
    assert x in b <==> x in multiset(b);
  }

  /**
   * The view is ordered by the chosen sort, and items the sort cannot tell
   * apart keep the order they had in the list.
   */
  lemma FilteredViewOrdered(items: seq<ExpenseWithTimestamp>, f: ExpenseFilter)
    ensures Sorted(FilteredView(items, f), SortOrder(f.sortBy))
    ensures forall y :: Equivalents(FilteredView(items, f), y, SortOrder(f.sortBy))
                        == Equivalents(Selected(items, f), y, SortOrder(f.sortBy))
  {
    SortOrderIsPreorder(f.sortBy);
    SortSpec(Selected(items, f), SortOrder(f.sortBy));
  }

  /** With the default filter every item is shown, newest first. */
  lemma ClearedViewShowsAll(items: seq<ExpenseWithTimestamp>)
    ensures multiset(FilteredView(items, DEFAULT_FILTER)) == multiset(items)
    ensures forall i, j | 0 <= i < j < |FilteredView(items, DEFAULT_FILTER)| ::
      FilteredView(items, DEFAULT_FILTER)[i].timestamp >= FilteredView(items, DEFAULT_FILTER)[j].timestamp
  {
    var f := DEFAULT_FILTER;
    assert IsBlank(f.searchQuery);
    FilterAll(items, SearchStage(f));
    FilterAll(items, CategoryStage(f));
    FilterAll(items, DateStage(f));
    FilteredViewOrdered(items, f);
    var v := FilteredView(items, f);
    forall i, j | 0 <= i < j < |v| ensures v[i].timestamp >= v[j].timestamp {
      assert SortOrder(f.sortBy)(v[i], v[j]);
      assert SortOrder(f.sortBy) == DescendingInt(Timestamp);
      assert Timestamp(v[i]) >= Timestamp(v[j]);
    }
  }

  /** Amounts shown by the list read back as the expense amount rounded to paise. */
  lemma AmountKeyOfExpense(e: ExpenseWithCategory)
    ensures AmountKey(WithTimestamp(e)) == RoundHalfUp2(e.expense.amount)
  {
    ParseCurrency(e.expense.amount);
  }

  // ---------------------------------------------------------------- loading

  /** The `ExpenseWithTimestamp` built for each loaded expense. */
  function WithTimestamp(e: ExpenseWithCategory): (w: ExpenseWithTimestamp)
    ensures w.uiModel == ToUIModel(e)
    ensures w.timestamp == e.expense.date && w.categoryId == e.expense.categoryId
  {
    ExpenseWithTimestamp(ToUIModel(e), e.expense.date, e.expense.categoryId)
  }

  function WithTimestamps(es: seq<ExpenseWithCategory>): (ws: seq<ExpenseWithTimestamp>)
    ensures |ws| == |es|
  {
    seq(|es|, i requires 0 <= i < |es| => WithTimestamp(es[i]))
  }

  function ToUIModels(es: seq<ExpenseWithCategory>): (us: seq<ExpenseUIModel>)
    ensures |us| == |es|
  {
    seq(|es|, i requires 0 <= i < |es| => ToUIModel(es[i]))
  }

  // ---------------------------------------------------------------- deleting

  /** `find { it.uiModel.id == expenseId }`: the first item with that id. */
  function FindById(ws: seq<ExpenseWithTimestamp>, expenseId: int): (r: Option<nat>)
    ensures r.Some? ==> r.value < |ws| && ws[r.value].uiModel.id == expenseId
                        && forall i | 0 <= i < r.value :: ws[i].uiModel.id != expenseId
    ensures r.None? ==> forall i | 0 <= i < |ws| :: ws[i].uiModel.id != expenseId
  {
    if ws == [] then None
    else if ws[0].uiModel.id == expenseId then Some(0)
    else match FindById(ws[1..], expenseId)
      case None => None
      case Some(k) => Some(k + 1)
  }

  /** The entity rebuilt from a list item for deletion, or `None` where `toDouble()` throws. */
  function DeletionEntity(w: ExpenseWithTimestamp, createdAt: int): (r: Option<Expense>)
    ensures r.Some? <==> ParseDecimal(StripCurrency(w.uiModel.amount)).Some?
    ensures r.Some? ==> r.value == Expense(w.uiModel.id, ParseDecimal(StripCurrency(w.uiModel.amount)).value,
                                           w.categoryId, w.timestamp, w.uiModel.description, createdAt)
  {
    match ParseDecimal(StripCurrency(w.uiModel.amount))
    case None => None
    case Some(amount) => Some(Expense(w.uiModel.id, amount, w.categoryId, w.timestamp, w.uiModel.description, createdAt))
  }

  /**
   * For an item loaded from an expense, the rebuilt entity always exists
   * and carries the same id, category, date and description, and the
   * amount rounded to paise.
   */
  lemma DeletionEntityOfLoaded(e: ExpenseWithCategory, createdAt: int)
    ensures DeletionEntity(WithTimestamp(e), createdAt)
            == Some(Expense(e.expense.id, RoundHalfUp2(e.expense.amount), e.expense.categoryId,
                            e.expense.date, e.expense.description, createdAt))
  {
    ParseCurrency(e.expense.amount);
  }

  /** `filter { description or category name contains query, ignoring case }` */
  function SearchFilter(query: string): ExpenseWithTimestamp -> bool {
    (e: ExpenseWithTimestamp) => MatchesSearch(e, query)
  }

  /** `filter { it.uiModel.categoryName == category }` */
  function CategoryFilter(category: string): ExpenseWithTimestamp -> bool {
    (e: ExpenseWithTimestamp) => e.uiModel.categoryName == category
  }

  /** `filter { it.timestamp >= startOfDay && it.timestamp <= endOfDay }` */
  function WindowFilter(startOfDay: int, endOfDay: int): ExpenseWithTimestamp -> bool {
    (e: ExpenseWithTimestamp) => e.timestamp >= startOfDay && e.timestamp <= endOfDay
  }

  lemma SearchStep(items: seq<ExpenseWithTimestamp>, f: ExpenseFilter)
    requires !IsBlank(f.searchQuery)
    ensures Filter(items, SearchFilter(f.searchQuery)) == Filter(items, SearchStage(f))
  {
    FilterCongruent(items, SearchFilter(f.searchQuery), SearchStage(f));
  }

  lemma CategoryStep(items: seq<ExpenseWithTimestamp>, f: ExpenseFilter)
    requires f.categoryName.Some?
    ensures Filter(items, CategoryFilter(f.categoryName.value)) == Filter(items, CategoryStage(f))
  {
    FilterCongruent(items, CategoryFilter(f.categoryName.value), CategoryStage(f));
  }

  lemma DateStep(items: seq<ExpenseWithTimestamp>, f: ExpenseFilter, startOfDay: int, endOfDay: int)
    requires f.startDate.Some? && f.endDate.Some?
    requires startOfDay == DayIndex(f.startDate.value) * DAY_MS
    requires endOfDay == DayIndex(f.endDate.value) * DAY_MS + (DAY_MS - 1)
    ensures Filter(items, WindowFilter(startOfDay, endOfDay)) == Filter(items, DateStage(f))
  {
    forall e | e in items ensures WindowFilter(startOfDay, endOfDay)(e) == DateStage(f)(e) {
      DayWindow(f.startDate.value, f.endDate.value, e.timestamp);
    }
    FilterCongruent(items, WindowFilter(startOfDay, endOfDay), DateStage(f));
  }

  /** The three filter stages of `applyFilter()`, each applied only when its part of the filter is set. */
  method RunStages(items: seq<ExpenseWithTimestamp>, f: ExpenseFilter) returns (filtered: seq<ExpenseWithTimestamp>)
    ensures filtered == Selected(items, f)
  {
    filtered := items;
    if !IsBlank(f.searchQuery) {
      SearchStep(filtered, f);
      filtered := Filter(filtered, SearchFilter(f.searchQuery));
    } else {
      FilterAll(filtered, SearchStage(f));
    }
    ghost var s1 := filtered;
    assert s1 == Filter(items, SearchStage(f));

    if f.categoryName.Some? {
      CategoryStep(filtered, f);
      filtered := Filter(filtered, CategoryFilter(f.categoryName.value));
    } else {
      FilterAll(filtered, CategoryStage(f));
    }
    ghost var s2 := filtered;
    assert s2 == Filter(s1, CategoryStage(f));

    if f.startDate.Some? && f.endDate.Some? {
      var startOfDay := GetStartOfDay(f.startDate.value);
      var endOfDay := GetEndOfDay(f.endDate.value);
      DateStep(filtered, f, startOfDay, endOfDay);
      filtered := Filter(filtered, WindowFilter(startOfDay, endOfDay));
    } else {
      FilterAll(filtered, DateStage(f));
    }
  }

  // ---------------------------------------------------------------- the view model

  class ExpenseListViewModel {
    var uiState: ExpenseListUiState
    var expenses: seq<ExpenseUIModel>
    var filteredExpenses: seq<ExpenseUIModel>
    var allExpenses: seq<ExpenseUIModel>
    var expensesWithTimestamps: seq<ExpenseWithTimestamp>
    var currentFilter: ExpenseFilter

    /** The shown list always reflects the current items and filter. */
    ghost predicate Valid()
      reads this
    {
      filteredExpenses == UiModels(FilteredView(expensesWithTimestamps, currentFilter))
    }

    /** `init`: default filter, then one load. */
    constructor(fetched: Fetch<seq<ExpenseWithCategory>>)
      ensures Valid()
      ensures currentFilter == DEFAULT_FILTER
      ensures fetched.Fetched? ==>
        uiState == Success && expensesWithTimestamps == WithTimestamps(fetched.value)
        && allExpenses == ToUIModels(fetched.value) && expenses == allExpenses
      ensures fetched.Threw? ==>
        uiState == Error(MessageOr(fetched.message, UNKNOWN_ERROR))
        && expensesWithTimestamps == [] && expenses == [] && allExpenses == [] && filteredExpenses == []
    {
      uiState := Loading;
      expenses := [];
      filteredExpenses := [];
      allExpenses := [];
      expensesWithTimestamps := [];
      currentFilter := DEFAULT_FILTER;
      new;
      LoadExpenses(fetched);
    }

    /** `loadExpenses()` for one emission of the expense list, or the exception the collection threw. */
    method LoadExpenses(fetched: Fetch<seq<ExpenseWithCategory>>)
      modifies this
      requires Valid()
      ensures Valid()
      ensures currentFilter == old(currentFilter)
      ensures fetched.Fetched? ==>
        uiState == Success
        && allExpenses == ToUIModels(fetched.value) && expenses == allExpenses
        && expensesWithTimestamps == WithTimestamps(fetched.value)
      ensures fetched.Threw? ==>
        uiState == Error(MessageOr(fetched.message, UNKNOWN_ERROR))
        && expenses == old(expenses) && allExpenses == old(allExpenses)
        && expensesWithTimestamps == old(expensesWithTimestamps) && filteredExpenses == old(filteredExpenses)
    {
      uiState := Loading;
      match fetched
      case Threw(message) =>
        uiState := Error(MessageOr(message, UNKNOWN_ERROR));
      case Fetched(expensesWithCategory) =>
        Collect(expensesWithCategory);
    }

    /** The body of the `collect` block: one emission of the expense list. */
    method Collect(expensesWithCategory: seq<ExpenseWithCategory>)
      modifies this
      ensures Valid()
      ensures currentFilter == old(currentFilter)
      ensures uiState == Success
      ensures allExpenses == ToUIModels(expensesWithCategory) && expenses == allExpenses
      ensures expensesWithTimestamps == WithTimestamps(expensesWithCategory)
    {
      allExpenses := ToUIModels(expensesWithCategory);
      expensesWithTimestamps := WithTimestamps(expensesWithCategory);
      expenses := allExpenses;
      ApplyFilter();
      uiState := Success;
    }

    /**
     * `deleteExpense(expenseId)`: the entity handed to the delete use case,
     * if any.  The use case's own failure is not observed; only a failing
     * `toDouble()` sets the error state.
     */
    method DeleteExpense(expenseId: int, createdAt: int) returns (deleted: Option<Expense>)
      modifies this
      requires Valid()
      ensures Valid()
      ensures expensesWithTimestamps == old(expensesWithTimestamps) && currentFilter == old(currentFilter)
      ensures filteredExpenses == old(filteredExpenses)
      ensures expenses == old(expenses) && allExpenses == old(allExpenses)
      ensures var found := FindById(expensesWithTimestamps, expenseId);
        if found.None? then deleted == None && uiState == old(uiState)
        else
          deleted == DeletionEntity(expensesWithTimestamps[found.value], createdAt)
          && uiState == (if deleted.None? then Error(DELETE_FAILED) else old(uiState))
    {
      var found := FindById(expensesWithTimestamps, expenseId);
      deleted := None;
      if found.Some? {
        var expenseWithTimestamp := expensesWithTimestamps[found.value];
        deleted := DeletionEntity(expenseWithTimestamp, createdAt);
        if deleted.None? {
          uiState := Error(DELETE_FAILED);
        }
      }
    }

    /** `searchExpenses(query)` */
    method SearchExpenses(query: string)
      modifies this
      ensures Valid()
      ensures currentFilter == old(currentFilter).(searchQuery := query)
      ensures expensesWithTimestamps == old(expensesWithTimestamps) && uiState == old(uiState)
      ensures expenses == old(expenses) && allExpenses == old(allExpenses)
    {
      currentFilter := currentFilter.(searchQuery := query);
      ApplyFilter();
    }

    /** `filterByCategory(categoryName)` */
    method FilterByCategory(categoryName: Option<string>)
      modifies this
      ensures Valid()
      ensures currentFilter == old(currentFilter).(categoryName := categoryName)
      ensures expensesWithTimestamps == old(expensesWithTimestamps) && uiState == old(uiState)
      ensures expenses == old(expenses) && allExpenses == old(allExpenses)
    {
      currentFilter := currentFilter.(categoryName := categoryName);
      ApplyFilter();
    }

    /** `filterByDateRange(startDate, endDate)` */
    method FilterByDateRange(startDate: Option<int>, endDate: Option<int>)
      modifies this
      ensures Valid()
      ensures currentFilter == old(currentFilter).(startDate := startDate, endDate := endDate)
      ensures expensesWithTimestamps == old(expensesWithTimestamps) && uiState == old(uiState)
      ensures expenses == old(expenses) && allExpenses == old(allExpenses)
    {
      currentFilter := currentFilter.(startDate := startDate, endDate := endDate);
      ApplyFilter();
    }

    /** `sortExpenses(sortBy)` */
    method SortExpenses(sortBy: SortBy)
      modifies this
      ensures Valid()
      ensures currentFilter == old(currentFilter).(sortBy := sortBy)
      ensures expensesWithTimestamps == old(expensesWithTimestamps) && uiState == old(uiState)
      ensures expenses == old(expenses) && allExpenses == old(allExpenses)
    {
      currentFilter := currentFilter.(sortBy := sortBy);
      ApplyFilter();
    }

    /** `clearFilters()` */
    method ClearFilters()
      modifies this
      ensures Valid()
      ensures currentFilter == DEFAULT_FILTER
      ensures expensesWithTimestamps == old(expensesWithTimestamps) && uiState == old(uiState)
      ensures expenses == old(expenses) && allExpenses == old(allExpenses)
    {
      currentFilter := DEFAULT_FILTER;
      ApplyFilter();
    }

    /** `applyFilter()`: the filter stages, then the sort, then the map back to display models. */
    method ApplyFilter()
      modifies this
      ensures Valid()
      ensures expensesWithTimestamps == old(expensesWithTimestamps) && currentFilter == old(currentFilter)
      ensures uiState == old(uiState) && expenses == old(expenses) && allExpenses == old(allExpenses)
    {
      var filtered := RunStages(expensesWithTimestamps, currentFilter);
      filtered := Sort(filtered, SortOrder(currentFilter.sortBy));
      filteredExpenses := UiModels(filtered);
    }

    /** `hasDateRangeFilter()` */
    predicate HasDateRangeFilter(): (r: bool)
      reads this
      ensures r <==> currentFilter.startDate.Some? && currentFilter.endDate.Some?
    {
      currentFilter.startDate.Some? && currentFilter.endDate.Some?
    }

    /** `getDateRangeText()`: `"<start> - <end>"` in the `"MMM dd, yyyy"` pattern, when a range is set. */
    function GetDateRangeText(): (r: Option<string>)
      reads this
      ensures r.Some? <==> HasDateRangeFilter()
      ensures r.Some? ==> r.value == MonthDayYear(currentFilter.startDate.value) + " - " + MonthDayYear(currentFilter.endDate.value)
    {
      if HasDateRangeFilter() then
        Some(MonthDayYear(currentFilter.startDate.value) + " - " + MonthDayYear(currentFilter.endDate.value))
      else None
    }
  }
}
