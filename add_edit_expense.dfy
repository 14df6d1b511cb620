/**
 * The add/edit expense form: a load that switches the form into edit
 * mode, and a save that validates the amount, then the category, and then
 * either updates the loaded expense or adds a new one.
 */
module AddEditExpense {
  import opened Wrappers
  import opened Numerals
  import opened Entities
  import opened Extensions

  datatype AddEditExpenseUiState = Loading | Success | LoadedForEdit | Error(message: string)

  /** The repository call a save makes. */
  datatype ExpenseWrite = UpdateExpense(expense: Expense) | AddExpense(expense: Expense)

  const NO_EXPENSE_ID: int := -1
  const INVALID_AMOUNT: string := "Please enter a valid amount"
  const NO_CATEGORY: string := "Please select a category"
  const NOT_FOUND: string := "Expense not found"
  const UPDATE_FAILED: string := "Failed to update expense"
  const SAVE_FAILED: string := "Failed to save expense"

  /** `amount.toDoubleOrNull()` accepted only when it is positive. */
  function ValidAmount(amount: string): (r: Option<real>)
    ensures r.Some? <==> ParseDecimal(amount).Some? && ParseDecimal(amount).value > 0.0
    ensures r.Some? ==> r == ParseDecimal(amount) && r.value > 0.0
  {
    match ParseDecimal(amount)
    case None => None
    case Some(v) => if v <= 0.0 then None else Some(v)
  }

  class AddEditExpenseViewModel {
    var uiState: Option<AddEditExpenseUiState>
    var categories: seq<Category>
    var currentExpense: Option<ExpenseUIModel>
    var selectedCategory: Option<Category>
    var selectedDate: int
    var isEditMode: bool
    var expenseId: int

    /** A new form: today's date, no category, not editing; `init` loads the category list. */
    constructor(now: int, categories: seq<Category>)
      ensures uiState == None && currentExpense == None
      ensures this.categories == categories
      ensures selectedCategory == None && selectedDate == now
      ensures !isEditMode && expenseId == NO_EXPENSE_ID
    {
      uiState := None;
      this.categories := categories;
      currentExpense := None;
      selectedCategory := None;
      selectedDate := now;
      isEditMode := false;
      expenseId := NO_EXPENSE_ID;
    }

    /**
     * `loadExpense(expenseId)`, given what the lookup returned (the use
     * case answers `null` for a missing row and for a failed query alike).
     */
    method LoadExpense(id: int, found: Option<ExpenseWithCategory>)
      modifies this
      ensures categories == old(categories)
      ensures id == NO_EXPENSE_ID ==>
        uiState == old(uiState) && currentExpense == old(currentExpense)
        && selectedCategory == old(selectedCategory) && selectedDate == old(selectedDate)
        && isEditMode == old(isEditMode) && expenseId == old(expenseId)
      ensures id != NO_EXPENSE_ID && found.Some? ==>
        uiState == Some(LoadedForEdit) && isEditMode && expenseId == id
        && currentExpense == Some(ToUIModel(found.value))
        && selectedDate == found.value.expense.date && selectedCategory == found.value.category
      ensures id != NO_EXPENSE_ID && found.None? ==>
        uiState == Some(Error(NOT_FOUND))
        && currentExpense == old(currentExpense)
        && selectedCategory == old(selectedCategory) && selectedDate == old(selectedDate)
        && isEditMode == old(isEditMode) && expenseId == old(expenseId)
    {
      if id == NO_EXPENSE_ID {
        return;
      }
      uiState := Some(Loading);
      match found
      case Some(expense) =>
        var model := ToUIModel(expense);
        ShowForEdit(id, expense, model);
      case None =>
        uiState := Some(Error(NOT_FOUND));
    }

    /** The found branch of `loadExpense`: the form takes the expense's values and enters edit mode. */
    method ShowForEdit(id: int, expense: ExpenseWithCategory, model: ExpenseUIModel)
      modifies this
      ensures categories == old(categories)
      ensures uiState == Some(LoadedForEdit) && isEditMode && expenseId == id
      ensures currentExpense == Some(model)
      ensures selectedDate == expense.expense.date && selectedCategory == expense.category
    {
      expenseId := id;
      isEditMode := true;
      currentExpense := Some(model);
      selectedDate := expense.expense.date;
      selectedCategory := expense.category;
      uiState := Some(LoadedForEdit);
    }

    /**
     * `saveExpense(amount, description)`: returns the repository write it
     * makes, if any; `result` is that write's outcome and `now` the
     * creation time the entity is stamped with.
     */
    method SaveExpense(amount: string, description: string, now: int, result: Fetch<()>) returns (write: Option<ExpenseWrite>)
      modifies this
      ensures categories == old(categories) && currentExpense == old(currentExpense)
      ensures selectedCategory == old(selectedCategory) && selectedDate == old(selectedDate)
      ensures isEditMode == old(isEditMode) && expenseId == old(expenseId)
      ensures ValidAmount(amount).None? ==> write == None && uiState == Some(Error(INVALID_AMOUNT))
      ensures ValidAmount(amount).Some? && selectedCategory.None? ==> write == None && uiState == Some(Error(NO_CATEGORY))
      ensures write.Some? <==> ValidAmount(amount).Some? && selectedCategory.Some?
      ensures write.Some? ==>
        var expense := Expense(if isEditMode then expenseId else 0, ValidAmount(amount).value,
                               selectedCategory.value.id, selectedDate, description, now);
        write == Some(if isEditMode then UpdateExpense(expense) else AddExpense(expense))
        && write.value.expense.amount > 0.0
        && uiState == Some(if result.Fetched? then Success
                           else Error(MessageOr(result.message, if isEditMode then UPDATE_FAILED else SAVE_FAILED)))
    {
      uiState := Some(Loading);
      var amountDouble := ParseDecimal(amount);
      if amountDouble.None? || amountDouble.value <= 0.0 {
        uiState := Some(Error(INVALID_AMOUNT));
        return None;
      }
      if selectedCategory.None? {
        uiState := Some(Error(NO_CATEGORY));
        return None;
      }
      if isEditMode {
        var updatedExpense := Expense(expenseId, amountDouble.value, selectedCategory.value.id, selectedDate, description, now);
        write := Some(UpdateExpense(updatedExpense));
        uiState := Some(if result.Fetched? then Success else Error(MessageOr(result.message, UPDATE_FAILED)));
      } else {
        var expense := Expense(0, amountDouble.value, selectedCategory.value.id, selectedDate, description, now);
        write := Some(AddExpense(expense));
        uiState := Some(if result.Fetched? then Success else Error(MessageOr(result.message, SAVE_FAILED)));
      }
    }

    /** `isEditMode()` */
    function IsEditMode(): (b: bool)
      reads this
      ensures b == isEditMode
    {
      isEditMode
    }
  }
}
