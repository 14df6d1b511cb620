/**
 * The dashboard screen: the greeting chosen by the hour of day, and the
 * category breakdown panel (the four largest categories, which of the
 * one/two/four-slot rows is visible, what each slot shows, and the text
 * summary).
 */
module DashboardScreen {
  import opened Text
  import opened CivilTime
  import opened Calendars
  import opened Extensions
  import opened Grouping
  import opened StableSort
  import opened Statistics

  const MORNING: string := "Good Morning!"
  const AFTERNOON: string := "Good Afternoon!"
  const EVENING: string := "Good Evening!"
  const GREETING_SUFFIX: string := " track your spending daily"

  /** The greeting for an hour of the day. */
  function Greeting(hour: int): (greeting: string)
    ensures greeting == MORNING <==> 0 <= hour <= 11
    ensures greeting == AFTERNOON <==> 12 <= hour <= 16
    ensures greeting == EVENING <==> !(0 <= hour <= 16)
  {
    if 0 <= hour <= 11 then MORNING
    else if 12 <= hour <= 16 then AFTERNOON
    else EVENING
  }

  /** The greeting line `setupCurrentTime` shows at time `now`. */
  function GreetingText(now: int): string {
    Greeting(HourOf(At(now).timeOfDay)) + GREETING_SUFFIX
  }

  /** Morning runs until noon, afternoon until 17:00, evening until midnight. */
  lemma GreetingByTimeOfDay(now: int)
    ensures var tod := TimeOfDay(now);
      var greeting := Greeting(HourOf(At(now).timeOfDay));
      (greeting == MORNING <==> tod < 12 * HOUR_MS)
      && (greeting == AFTERNOON <==> 12 * HOUR_MS <= tod < 17 * HOUR_MS)
      && (greeting == EVENING <==> 17 * HOUR_MS <= tod)
  {
    var tod := TimeOfDay(now);
    assert At(now).timeOfDay == tod;
    var h := tod / HOUR_MS;
    assert h * HOUR_MS <= tod < h * HOUR_MS + HOUR_MS;
    assert 0 <= h < 24;
  }

  // ---------------------------------------------------------------- breakdown panel

  const SHOWN_CATEGORIES: int := 4
  const NO_EXPENSES: string := "No expenses yet"
  const TOP_HEADER: string := "Top Categories:\n"

  /** `entries.sortedByDescending { it.value }.take(4)` */
  function ShownCategories(categoryBreakdown: Entries<string>): (top: Entries<string>)
    ensures |top| == if |categoryBreakdown| < SHOWN_CATEGORIES then |categoryBreakdown| else SHOWN_CATEGORIES
    ensures top == SortedByAmount(categoryBreakdown)[..|top|]
    ensures forall i, j | 0 <= i < j < |top| :: top[i].1 >= top[j].1
    ensures forall i | 0 <= i < |top| :: top[i] in categoryBreakdown
  {
    var s := SortedByAmount(categoryBreakdown);
    var top := Take(s, SHOWN_CATEGORIES);
    forall i | 0 <= i < |top| ensures top[i] in categoryBreakdown {
      assert top[i] == s[i] && s[i] in multiset(categoryBreakdown);
    }
    top
  }

  /** No category left off the panel spent more than one shown on it. */
  lemma ShownCategoriesDominate(categoryBreakdown: Entries<string>)
    ensures var top := ShownCategories(categoryBreakdown);
      var s := SortedByAmount(categoryBreakdown);
      forall i, j | 0 <= i < |top| <= j < |s| :: s[j].1 <= top[i].1
  {
  }

  /** The currency prefix as the dashboard slot code spells it: U+00E2 U+201A U+00B9. */
  const GARBLED_RUPEE: string := "\U{E2}\U{201A}\U{B9}"

  /** `getStringInSize` as written: the name, a line break, then the garbled prefix and the amount. */
  function SlotTextAsWritten(name: string, amountText: string): string {
    name + "\n" + GARBLED_RUPEE + amountText
  }

  /** The slot's amount does not carry the rupee sign every other amount in the app carries. */
  lemma SlotTextAsWrittenLacksRupee(name: string, amountText: string)
    ensures var text := SlotTextAsWritten(name, amountText);
      text[|name| + 1] != RUPEE && text[|name| + 1..|name| + 4] == GARBLED_RUPEE
      && RUPEE !in text[|name| + 1..|name| + 4]
  {
  }

  /** `getStringInSize` with the rupee sign it is meant to show. */
  function SlotText(name: string, amountText: string): (text: string)
    ensures |text| == |name| + 2 + |amountText|
    ensures text[..|name|] == name && text[|name|] == '\n'
    ensures text[|name| + 1..] == [RUPEE] + amountText
  {
    name + "\n" + [RUPEE] + amountText
  }

  /** The slot's amount strips back to the amount's own digits, as the app's other currency strings do. */
  lemma SlotAmountStrips(name: string, amountText: string)
    requires RUPEE !in amountText && ',' !in amountText
    ensures StripCurrency(SlotText(name, amountText)[|name| + 1..]) == amountText
  {
    RemoveCharConcat([RUPEE], amountText, RUPEE);
    assert RemoveChar([RUPEE], RUPEE) == [];
    assert [] + amountText == amountText;
  }

  /** The text a slot shows for a breakdown entry; `amountText` stands for `Double.toString`. */
  function EntrySlot(entry: (string, real), amountText: real -> string): string {
    SlotText(entry.0, amountText(entry.1))
  }

  /** The slot texts for the shown categories, in rank order. */
  function Slots(top: Entries<string>, amountText: real -> string): (slots: seq<string>)
    ensures |slots| == |top|
    ensures forall i | 0 <= i < |top| :: slots[i] == EntrySlot(top[i], amountText)
  {
    seq(|top|, i requires 0 <= i < |top| => EntrySlot(top[i], amountText))
  }

  function TopLine(entry: (string, real)): string {
    entry.0 + ": " + ToCurrency(entry.1)
  }

  /** One line per shown category, in rank order. */
  function TopLines(top: Entries<string>): (lines: seq<string>)
    ensures |lines| == |top|
    ensures forall i | 0 <= i < |top| :: lines[i] == TopLine(top[i])
  {
    seq(|top|, i requires 0 <= i < |top| => TopLine(top[i]))
  }

  /**
   * The summary text under the panel: a placeholder without categories,
   * otherwise the header and the category lines separated by newlines.
   */
  function TopCategoriesText(top: Entries<string>): (text: string)
    ensures text == NO_EXPENSES <==> top == []
    ensures top != [] ==> text == TOP_HEADER + Join(TopLines(top), "\n")
  {
    if top == [] then NO_EXPENSES
    else
      var text := TOP_HEADER + Join(TopLines(top), "\n");
      assert text[0] != NO_EXPENSES[0];
      text
  }

  /** The text opens with the header and the line of the first-ranked category. */
  lemma TopTextStartsWithFirst(top: Entries<string>)
    requires top != []
    ensures IsPrefix(TOP_HEADER + TopLine(top[0]), TopCategoriesText(top))
  {
    JoinStartsWithFirst(TopLines(top), "\n");
    PrefixAfterHead(TOP_HEADER, TopLine(top[0]), Join(TopLines(top), "\n"));
  }

  /** The visibility and texts of the breakdown panel's views. */
  class CategoryPanel {
    var llForOne: bool
    var llForTwo: bool
    var llForAllFour: bool
    var catNameOne: string
    var catName20: string
    var catName21: string
    var catName40: string
    var catName41: string
    var catName42: string
    var catName43: string
    var topCategoriesText: string

    constructor()
      ensures !llForOne && !llForTwo && !llForAllFour
      ensures VisibleNames() == []
    {
      llForOne, llForTwo, llForAllFour := false, false, false;
      catNameOne, catName20, catName21 := "", "", "";
      catName40, catName41, catName42, catName43 := "", "", "", "";
      topCategoriesText := "";
    }

    /** The texts of the visible name slots, top to bottom. */
    function VisibleNames(): seq<string>
      reads this
    {
      (if llForOne then [catNameOne] else [])
      + (if llForTwo then [catName20, catName21] else [])
      + (if llForAllFour then [catName40, catName41, catName42, catName43] else [])
    }

    /** `updateCategoryBreakdown(categoryBreakdown)` */
    method UpdateCategoryBreakdown(categoryBreakdown: Entries<string>, amountText: real -> string)
      modifies this
      ensures var n := |ShownCategories(categoryBreakdown)|;
        (llForOne <==> n == 1 || n == 3) && (llForTwo <==> n == 2 || n == 3) && (llForAllFour <==> n >= 4)
      ensures VisibleNames() == Slots(ShownCategories(categoryBreakdown), amountText)
      ensures !llForOne ==> catNameOne == old(catNameOne)
      ensures !llForTwo ==> catName20 == old(catName20) && catName21 == old(catName21)
      ensures !llForAllFour ==> catName40 == old(catName40) && catName41 == old(catName41)
                                && catName42 == old(catName42) && catName43 == old(catName43)
      ensures topCategoriesText == TopCategoriesText(ShownCategories(categoryBreakdown))
    {
      var topCategories := ShownCategories(categoryBreakdown);
      ShowSlots(Slots(topCategories, amountText));
      topCategoriesText := TopCategoriesText(topCategories);
    }

    /** The `when (catCount)` table: which rows show, and which slots take the names in rank order. */
    method ShowSlots(slots: seq<string>)
      modifies this
      ensures var n := |slots|;
        (llForOne <==> n == 1 || n == 3) && (llForTwo <==> n == 2 || n == 3) && (llForAllFour <==> n >= 4)
      ensures VisibleNames() == slots[..if |slots| < 4 then |slots| else 4]
      ensures !llForOne ==> catNameOne == old(catNameOne)
      ensures !llForTwo ==> catName20 == old(catName20) && catName21 == old(catName21)
      ensures !llForAllFour ==> catName40 == old(catName40) && catName41 == old(catName41)
                                && catName42 == old(catName42) && catName43 == old(catName43)
      ensures topCategoriesText == old(topCategoriesText)
    {
      var catCount := |slots|;
      if catCount == 0 {
        llForOne, llForTwo, llForAllFour := false, false, false;
      } else if catCount == 1 {
        llForOne, llForTwo, llForAllFour := true, false, false;
        catNameOne := slots[0];
        assert slots[..1] == [slots[0]];
      } else if catCount == 2 {
        llForOne, llForTwo, llForAllFour := false, true, false;
        catName20, catName21 := slots[0], slots[1];
        assert slots[..2] == [slots[0], slots[1]];
      } else if catCount == 3 {
        llForOne, llForTwo, llForAllFour := true, true, false;
        catNameOne, catName20, catName21 := slots[0], slots[1], slots[2];
        assert slots[..3] == [slots[0]] + [slots[1], slots[2]];
      } else {
        llForOne, llForTwo, llForAllFour := false, false, true;
        catName40, catName41, catName42, catName43 := slots[0], slots[1], slots[2], slots[3];
        assert slots[..4] == [slots[0], slots[1], slots[2], slots[3]];
      }
    }
  }
}
