/**
 * The add/edit category form: default colour and icon, a load that
 * switches into edit mode and copies the category's colour and icon, a
 * save that rejects blank names and stores the trimmed name, and the
 * palettes the pickers offer.
 */
module AddEditCategory {
  import opened Wrappers
  import opened Text
  import opened Entities

  datatype AddEditCategoryUiState = Loading | Success | LoadedForEdit | Error(message: string)

  /** The repository call a save makes. */
  datatype CategoryWrite = UpdateCategory(category: Category) | AddCategory(category: Category)

  const NO_CATEGORY_ID: int := -1
  const DEFAULT_COLOR: string := "#6200EE"
  const DEFAULT_ICON: string := "ic_category_placeholder"
  const BLANK_NAME: string := "Please enter a category name"
  const NOT_FOUND: string := "Category not found"
  const UPDATE_FAILED: string := "Failed to update category"
  const SAVE_FAILED: string := "Failed to save category"

  /** `getAvailableColors()` */
  const AVAILABLE_COLORS: seq<string> := [
    "#FF5722", "#E91E63", "#9C27B0", "#673AB7",
    "#3F51B5", "#2196F3", "#03A9F4", "#00BCD4",
    "#009688", "#4CAF50", "#8BC34A", "#CDDC39",
    "#FFEB3B", "#FFC107", "#FF9800", "#FF5722",
    "#795548", "#9E9E9E", "#607D8B", "#000000"]

  /** `getAvailableIcons()` */
  const AVAILABLE_ICONS: seq<string> := [
    "ic_food", "ic_transport", "ic_entertainment", "ic_shopping",
    "ic_bills", "ic_health", "ic_education", "ic_travel",
    "ic_fitness", "ic_pets", "ic_gifts", "ic_other"]

  /** The colour palette has 20 entries but repeats its first colour at index 15. */
  lemma ColorPaletteRepeats()
    ensures |AVAILABLE_COLORS| == 20 && |AVAILABLE_ICONS| == 12
    ensures AVAILABLE_COLORS[0] == AVAILABLE_COLORS[15] == "#FF5722"
    ensures AVAILABLE_ICONS[11] == "ic_other"
  {
  }

  class AddEditCategoryViewModel {
    var uiState: Option<AddEditCategoryUiState>
    var currentCategory: Option<Category>
    var selectedColor: Option<string>
    var selectedIcon: Option<string>
    var isEditMode: bool
    var categoryId: int

    /** The colour and icon always hold a value: `init` sets them and nothing clears them. */
    predicate Valid()
      reads this
    {
      selectedColor.Some? && selectedIcon.Some?
    }

    /** `init`: the default colour and icon, not editing. */
    constructor()
      ensures Valid()
      ensures selectedColor == Some(DEFAULT_COLOR) && selectedIcon == Some(DEFAULT_ICON)
      ensures !isEditMode && categoryId == NO_CATEGORY_ID
      ensures uiState == None && currentCategory == None
    {
      uiState := None;
      currentCategory := None;
      selectedColor := Some(DEFAULT_COLOR);
      selectedIcon := Some(DEFAULT_ICON);
      isEditMode := false;
      categoryId := NO_CATEGORY_ID;
    }

    /** `loadCategory(categoryId)`, given what the lookup returned. */
    method LoadCategory(id: int, found: Option<Category>)
      modifies this
      requires Valid()
      ensures Valid()
      ensures id == NO_CATEGORY_ID ==>
        uiState == old(uiState) && currentCategory == old(currentCategory)
        && selectedColor == old(selectedColor) && selectedIcon == old(selectedIcon)
        && isEditMode == old(isEditMode) && categoryId == old(categoryId)
      ensures id != NO_CATEGORY_ID && found.Some? ==>
        uiState == Some(LoadedForEdit) && isEditMode && categoryId == id
        && currentCategory == found
        && selectedColor == Some(found.value.color) && selectedIcon == Some(found.value.icon)
      ensures id != NO_CATEGORY_ID && found.None? ==>
        uiState == Some(Error(NOT_FOUND)) && currentCategory == old(currentCategory)
        && selectedColor == old(selectedColor) && selectedIcon == old(selectedIcon)
        && isEditMode == old(isEditMode) && categoryId == old(categoryId)
    {
      if id == NO_CATEGORY_ID {
        return;
      }
      uiState := Some(Loading);
      match found
      case Some(category) =>
        categoryId := id;
        isEditMode := true;
        currentCategory := Some(category);
        selectedColor := Some(category.color);
        selectedIcon := Some(category.icon);
        uiState := Some(LoadedForEdit);
      case None =>
        uiState := Some(Error(NOT_FOUND));
    }

    /**
     * `saveCategory(name)`: returns the repository write it makes, if any;
     * `result` is that write's outcome.
     */
    method SaveCategory(name: string, result: Fetch<()>) returns (write: Option<CategoryWrite>)
      modifies this
      requires Valid()
      ensures Valid()
      ensures currentCategory == old(currentCategory) && selectedColor == old(selectedColor)
      ensures selectedIcon == old(selectedIcon) && isEditMode == old(isEditMode) && categoryId == old(categoryId)
      ensures write.None? <==> IsBlank(name)
      ensures IsBlank(name) ==> uiState == Some(Error(BLANK_NAME))
      ensures write.Some? ==>
        var category := Category(if isEditMode then categoryId else 0, Trim(name), selectedColor.value, selectedIcon.value);
        write == Some(if isEditMode then UpdateCategory(category) else AddCategory(category))
        && write.value.category.name != [] && write.value.category.name == Trim(write.value.category.name)
        && uiState == Some(if result.Fetched? then Success
                           else Error(MessageOr(result.message, if isEditMode then UPDATE_FAILED else SAVE_FAILED)))
    {
      uiState := Some(Loading);
      var trimmedName := Trim(name);
      if trimmedName == [] {
        uiState := Some(Error(BLANK_NAME));
        return None;
      }
      TrimIdempotent(name);
      var color := selectedColor.GetOr(DEFAULT_COLOR);
      var icon := selectedIcon.GetOr(DEFAULT_ICON);
      var category := Category(if isEditMode then categoryId else 0, trimmedName, color, icon);
      write := Some(if isEditMode then UpdateCategory(category) else AddCategory(category));
      uiState := Some(if result.Fetched? then Success
                      else Error(MessageOr(result.message, if isEditMode then UPDATE_FAILED else SAVE_FAILED)));
    }

    /** `setSelectedColor(color)` */
    method SetSelectedColor(color: string)
      modifies this
      requires Valid()
      ensures Valid()
      ensures selectedColor == Some(color) && selectedIcon == old(selectedIcon)
      ensures uiState == old(uiState) && isEditMode == old(isEditMode) && categoryId == old(categoryId)
      ensures currentCategory == old(currentCategory)
    {
      selectedColor := Some(color);
    }

    /** `setSelectedIcon(icon)` */
    method SetSelectedIcon(icon: string)
      modifies this
      requires Valid()
      ensures Valid()
      ensures selectedIcon == Some(icon) && selectedColor == old(selectedColor)
      ensures uiState == old(uiState) && isEditMode == old(isEditMode) && categoryId == old(categoryId)
      ensures currentCategory == old(currentCategory)
    {
      selectedIcon := Some(icon);
    }
  }
}
