/**
 * The row of filter chips above the expense list: an "All" chip followed by
 * one chip per category, at most one name selected at a time, and a click
 * that reports the new selection (none for "All") to the list.
 */
module CategoryFilter {
  import opened Wrappers
  import opened Entities

  const ALL_NAME: string := "All"

  /** The chip put in front of the categories; it stands for "no filter". */
  const ALL_CHIP: Category := Category(-1, ALL_NAME, "#757575", "")

  /** Whether a chip is drawn as selected while `selection` is the chosen category name. */
  predicate ChipSelected(selection: Option<string>, category: Category) {
    if category.name == ALL_NAME then selection == None else selection == Some(category.name)
  }

  /** The selection a click on a chip makes: none for the "All" chip, its name otherwise. */
  function ClickSelection(category: Category): (selection: Option<string>)
    ensures selection == None <==> category.name == ALL_NAME
    ensures selection.Some? ==> selection.value == category.name
  {
    if category.name == ALL_NAME then None else Some(category.name)
  }

  /** What a bound chip shows. */
  datatype ChipView = ChipView(name: string, selected: bool, colorDotVisible: bool, color: string)

  class CategoryFilterAdapter {
    var categories: seq<Category>
    var selectedCategory: Option<string>

    constructor()
      ensures categories == [] && selectedCategory == None
    {
      categories := [];
      selectedCategory := None;
    }

    /** `submitList(newCategories)`: the "All" chip first, then the categories in order. */
    method SubmitList(newCategories: seq<Category>)
      modifies this
      ensures categories == [ALL_CHIP] + newCategories
      ensures |categories| == |newCategories| + 1
      ensures forall i | 0 <= i < |newCategories| :: categories[i + 1] == newCategories[i]
      ensures selectedCategory == old(selectedCategory)
    {
      categories := [ALL_CHIP] + newCategories;
    }

    /** `setSelectedCategory(categoryName)` */
    method SetSelectedCategory(categoryName: Option<string>)
      modifies this
      ensures selectedCategory == categoryName && categories == old(categories)
    {
      selectedCategory := categoryName;
    }

    /** `bind(category)` for the chip at `position`. */
    function Bind(position: int): (chip: ChipView)
      reads this
      requires 0 <= position < |categories|
      ensures chip.name == categories[position].name
      ensures chip.selected == ChipSelected(selectedCategory, categories[position])
      ensures chip.colorDotVisible <==> chip.name != ALL_NAME
    {
      var category := categories[position];
      ChipView(category.name, ChipSelected(selectedCategory, category),
               category.name != ALL_NAME, category.color)
    }

    /**
     * The click listener of the chip at `position`: the selection becomes
     * the chip's, the clicked chip shows as selected, and the new selection
     * is what the callback receives.
     */
    method OnChipClick(position: int) returns (newSelection: Option<string>)
      modifies this
      requires 0 <= position < |categories|
      ensures categories == old(categories) && selectedCategory == newSelection
      ensures newSelection == ClickSelection(categories[position])
      ensures Bind(position).selected
    {
      var category := categories[position];
      newSelection := if category.name == ALL_NAME then None else Some(category.name);
      selectedCategory := newSelection;
      SetSelectedCategory(newSelection);
      ClickedChipSelected(category);
    }
  }

  /** The selection a click makes always shows the clicked chip as selected. */
  lemma ClickedChipSelected(category: Category)
    ensures ChipSelected(ClickSelection(category), category)
  {
  }

  /**
   * The chips drawn as selected are exactly the chips carrying the
   * selected name, or the chips named "All" when nothing is selected:
   * two chips with different names are never both selected.
   */
  lemma SelectedChips(selection: Option<string>, a: Category, b: Category)
    ensures ChipSelected(selection, a) && ChipSelected(selection, b) ==> a.name == b.name
    ensures ChipSelected(selection, ALL_CHIP) <==> selection == None
    ensures ChipSelected(selection, a) <==>
      if selection == None then a.name == ALL_NAME else a.name == selection.value && a.name != ALL_NAME
  {
  }

  /** After a fresh list arrives with nothing selected, the first chip is the one drawn as selected. */
  lemma FreshListSelectsAll(adapter: CategoryFilterAdapter, newCategories: seq<Category>)
    requires adapter.categories == [ALL_CHIP] + newCategories
    requires adapter.selectedCategory == None
    requires forall i | 0 <= i < |newCategories| :: newCategories[i].name != ALL_NAME
    ensures adapter.Bind(0).selected
    ensures forall i | 1 <= i < |adapter.categories| :: !adapter.Bind(i).selected
  {
    forall i | 1 <= i < |adapter.categories|
      ensures !adapter.Bind(i).selected
    {
      assert adapter.categories[i] == newCategories[i - 1];
    }
  }

  /**
   * A user category named "All" cannot be picked as a filter: clicking it
   * clears the selection, exactly like the "All" chip.
   */
  lemma CategoryNamedAllClearsFilter(category: Category)
    requires category.name == ALL_NAME
    ensures ClickSelection(category) == ClickSelection(ALL_CHIP) == None
  {
  }
}
