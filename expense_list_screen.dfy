/**
 * The expense list screen: the three sort chips (date and amount toggle
 * between descending and ascending, category is fixed), which chip is
 * checked with what label, and the expense count line.
 */
module ExpenseListScreen {
  import opened Wrappers
  import opened Numerals
  import opened ExpenseList

  /** The sort the date chip asks for. */
  function DateChipSort(current: SortBy): (next: SortBy)
    ensures next == DATE_ASC <==> current == DATE_DESC
    ensures next == DATE_DESC <==> current != DATE_DESC
  {
    if current == DATE_DESC then DATE_ASC else DATE_DESC
  }

  /** The sort the amount chip asks for. */
  function AmountChipSort(current: SortBy): (next: SortBy)
    ensures next == AMOUNT_ASC <==> current == AMOUNT_DESC
    ensures next == AMOUNT_DESC <==> current != AMOUNT_DESC
  {
    if current == AMOUNT_DESC then AMOUNT_ASC else AMOUNT_DESC
  }

  /** The sort the category chip asks for: always the same, so pressing it again changes nothing. */
  function CategoryChipSort(current: SortBy): (next: SortBy)
    ensures next == CATEGORY
  {
    CATEGORY
  }

  /** Two presses of the date chip from its descending state come back to it; likewise the amount chip. */
  lemma ChipTogglesRoundTrip()
    ensures DateChipSort(DateChipSort(DATE_DESC)) == DATE_DESC
    ensures AmountChipSort(AmountChipSort(AMOUNT_DESC)) == AMOUNT_DESC
    ensures forall s :: CategoryChipSort(CategoryChipSort(s)) == CategoryChipSort(s)
  {
  }

  const DATE_DOWN: string := "Date ↓"
  const DATE_UP: string := "Date ↑"
  const AMOUNT_DOWN: string := "Amount ↓"
  const AMOUNT_UP: string := "Amount ↑"

  /** The checked state and labels of the three sort chips. */
  class SortChips {
    var dateChecked: bool
    var amountChecked: bool
    var categoryChecked: bool
    var dateText: string
    var amountText: string

    constructor(dateText: string, amountText: string)
      ensures !dateChecked && !amountChecked && !categoryChecked
      ensures this.dateText == dateText && this.amountText == amountText
    {
      dateChecked := false;
      amountChecked := false;
      categoryChecked := false;
      this.dateText := dateText;
      this.amountText := amountText;
    }

    /** `updateSortChips(sortBy)`: clear every chip, then check and label the active one. */
    method UpdateSortChips(sortBy: SortBy)
      modifies this
      ensures dateChecked <==> sortBy.DATE_DESC? || sortBy.DATE_ASC?
      ensures amountChecked <==> sortBy.AMOUNT_DESC? || sortBy.AMOUNT_ASC?
      ensures categoryChecked <==> sortBy.CATEGORY?
      ensures (if dateChecked then 1 else 0) + (if amountChecked then 1 else 0) + (if categoryChecked then 1 else 0) == 1
      ensures dateChecked ==> (dateText == DATE_DOWN <==> sortBy == DATE_DESC)
      ensures dateChecked ==> (dateText == DATE_UP <==> sortBy == DATE_ASC)
      ensures amountChecked ==> (amountText == AMOUNT_DOWN <==> sortBy == AMOUNT_DESC)
      ensures amountChecked ==> (amountText == AMOUNT_UP <==> sortBy == AMOUNT_ASC)
      ensures !dateChecked ==> dateText == old(dateText)
      ensures !amountChecked ==> amountText == old(amountText)
    {
      dateChecked := false;
      amountChecked := false;
      categoryChecked := false;
      match sortBy
      case DATE_DESC | DATE_ASC =>
        dateChecked := true;
        dateText := if sortBy == DATE_DESC then DATE_DOWN else DATE_UP;
      case AMOUNT_DESC | AMOUNT_ASC =>
        amountChecked := true;
        amountText := if sortBy == AMOUNT_DESC then AMOUNT_DOWN else AMOUNT_UP;
      case CATEGORY =>
        categoryChecked := true;
    }
  }

  /** `updateExpenseCountText(count)` given what `getDateRangeText()` returned. */
  function ExpenseCountText(count: nat, dateRangeText: Option<string>): (text: string)
    ensures var base := NatToString(count) + " expenses";
      |text| >= |base| && text[..|base|] == base
      && (|text| > |base| <==> dateRangeText.Some?)
      && (dateRangeText.Some? ==> text[|base|..] == " (" + dateRangeText.value + ")")
  {
    var baseText := NatToString(count) + " expenses";
    if dateRangeText.Some? then baseText + " (" + dateRangeText.value + ")" else baseText
  }

  /** The number at the head of the count line reads back as the count. */
  lemma ExpenseCountTextReadsBack(count: nat, dateRangeText: Option<string>)
    ensures var text := ExpenseCountText(count, dateRangeText);
      var k := |NatToString(count)|;
      AllDigits(text[..k]) && ValueOf(text[..k]) == count && text[k] == ' '
  {
    var text := ExpenseCountText(count, dateRangeText);
    var base := NatToString(count) + " expenses";
    assert text[..|NatToString(count)|] == base[..|NatToString(count)|] == NatToString(count);
    ValueOfNatToString(count);
  }
}
