/**
 * The edit-recipe form: the recipe's fields, the list of selected ingredient
 * ids with its search dropdown, and the submit with its reset. The recipe
 * being edited is the component's property and is passed in.
 */
module EditRecipe {
  import opened Wrappers
  import opened Strings
  import opened Seqs
  import opened Types
  import IngredientForm = AddIngredient

  /** What the form hands to `onSubmit`. */
  datatype RecipeDraft = RecipeDraft(
    id: int, name: string, recipeType: RecipeType, description: string,
    imageFile: Option<IngredientForm.ImageFile>, ingredientIds: seq<int>)

  const BlankNameAlert: string := "请输入菜谱名称"

  /** `filteredIngredients`: catalogue entries matching the keyword that are not selected yet, in order. */
  function Unselected(ings: seq<Ingredient>, keyword: string, selected: seq<int>): (r: seq<Ingredient>)
    ensures forall x :: x in r <==> x in ings && MatchesIgnoringCase(x.name, keyword) && x.id !in selected
    ensures IsSubsequence(r, ings)
  {
    Filter(ings, (x: Ingredient) => MatchesIgnoringCase(x.name, keyword) && x.id !in selected)
  }

  /** `selectedIngredients`: the catalogue entries whose id is selected, in catalogue order. */
  function SelectedOf(ings: seq<Ingredient>, selected: seq<int>): (r: seq<Ingredient>)
    ensures forall x :: x in r <==> x in ings && x.id in selected
    ensures IsSubsequence(r, ings)
  {
    Filter(ings, (x: Ingredient) => x.id in selected)
  }

  /** Adding an entry of the dropdown keeps the selected ids free of duplicates. */
  lemma AddFromDropdownKeepsNoDup(ings: seq<Ingredient>, keyword: string, selected: seq<int>, x: Ingredient)
    requires NoDup(selected)
    requires x in Unselected(ings, keyword, selected)
    ensures NoDup(selected + [x.id])
  {
    var s := selected + [x.id];
    forall i, j | 0 <= i < j < |s| ensures s[i] != s[j] {
      if j == |selected| {
        assert s[i] in selected;
      } else {
        assert s[i] == selected[i] && s[j] == selected[j];
      }
    }
  }

  /** An added ingredient shows among the selected ones and no longer in the dropdown. */
  lemma AddedMovesToSelected(ings: seq<Ingredient>, keyword: string, selected: seq<int>, x: Ingredient)
    requires x in ings
    ensures x in SelectedOf(ings, selected + [x.id])
    ensures x !in Unselected(ings, keyword, selected + [x.id])
  {
    assert x.id in selected + [x.id];
  }

  /** Removing an id twice is removing it once, and a removed id can be added back at the end. */
  lemma RemoveFacts(selected: seq<int>, id: int)
    ensures Without(Without(selected, {id}), {id}) == Without(selected, {id})
    ensures NoDup(selected) ==> NoDup(Without(selected, {id}))
  {
    WithoutTwice(selected, {id}, {id});
    assert {id} + {id} == {id};
    if NoDup(selected) {
      WithoutKeepsNoDup(selected, {id});
    }
  }

  /** The form's fields. */
  datatype Fields = Fields(
    name: string, recipeType: RecipeType, description: string,
    imageFile: Option<IngredientForm.ImageFile>, imagePreview: string,
    selectedIngredientIds: seq<int>, ingredients: seq<Ingredient>,
    searchKeyword: string, showDropdown: bool)

  class EditRecipeForm {
    var name: string
    var recipeType: RecipeType
    var description: string
    var imageFile: Option<IngredientForm.ImageFile>
    var imagePreview: string
    var selectedIngredientIds: seq<int>
    var ingredients: seq<Ingredient>
    var searchKeyword: string
    var showDropdown: bool

    function Current(): Fields
      reads this
    {
      Fields(name, recipeType, description, imageFile, imagePreview, selectedIngredientIds, ingredients,
             searchKeyword, showDropdown)
    }

    constructor()
      ensures Current() == Fields("", Quick, "", None, "", [], [], "", false)
    {
      name := "";
      recipeType := Quick;
      description := "";
      imageFile := None;
      imagePreview := "";
      selectedIngredientIds := [];
      ingredients := [];
      searchKeyword := "";
      showDropdown := false;
    }

    /** `loadIngredients` with the outcome of `getIngredients`: a failure keeps the previous catalogue. */
    method LoadIngredients(result: Result<seq<Ingredient>>)
      modifies this
      ensures result.Success? ==> Current() == old(Current()).(ingredients := result.value)
      ensures result.Failure? ==> Current() == old(Current())
    {
      if result.Success? {
        ingredients := result.value;
      }
    }

    /** The recipe effect: the form shows the recipe, its cover as preview and its ingredient ids. */
    method LoadRecipe(recipe: Option<Recipe>)
      modifies this
      ensures recipe.None? ==> Current() == old(Current())
      ensures recipe.Some? ==> Current() == old(Current()).(
        name := recipe.value.name, recipeType := recipe.value.recipeType,
        description := recipe.value.description, imagePreview := recipe.value.coverUrl,
        imageFile := None, selectedIngredientIds := recipe.value.ingredientIds.GetOr([]))
    {
      if recipe.Some? {
        var r := recipe.value;
        name := r.name;
        recipeType := r.recipeType;
        description := r.description;
        imagePreview := r.coverUrl;
        imageFile := None;
        selectedIngredientIds := r.ingredientIds.GetOr([]);
      }
    }

    function Dropdown(): (r: seq<Ingredient>)
      reads this
      ensures forall x :: x in r ==> x.id !in selectedIngredientIds
    {
      Unselected(ingredients, searchKeyword, selectedIngredientIds)
    }

    function Selected(): (r: seq<Ingredient>)
      reads this
      ensures forall x :: x in r ==> x in ingredients && x.id in selectedIngredientIds
    {
      SelectedOf(ingredients, selectedIngredientIds)
    }

    /** `addIngredient`: appends the id, clears the keyword and closes the dropdown. */
    method AddIngredient(id: int)
      modifies this
      ensures Current() == old(Current()).(
        selectedIngredientIds := old(selectedIngredientIds) + [id], searchKeyword := "", showDropdown := false)
    {
      selectedIngredientIds := selectedIngredientIds + [id];
      searchKeyword := "";
      showDropdown := false;
    }

    /** `removeIngredient`: drops every occurrence of the id and keeps the rest in order. */
    method RemoveIngredient(id: int)
      modifies this
      ensures forall x :: x in selectedIngredientIds <==> x in old(selectedIngredientIds) && x != id
      ensures IsSubsequence(selectedIngredientIds, old(selectedIngredientIds))
      ensures Current() == old(Current()).(selectedIngredientIds := Without(old(selectedIngredientIds), {id}))
    {
      selectedIngredientIds := Without(selectedIngredientIds, {id});
    }

    /** Enter in the search box: adds the first dropdown entry, if any, keeping the ids free of duplicates. */
    method HandleSearchEnter()
      modifies this
      ensures old(Dropdown()) == [] ==> Current() == old(Current())
      ensures old(Dropdown()) != [] ==> Current() == old(Current()).(
        selectedIngredientIds := old(selectedIngredientIds) + [old(Dropdown())[0].id],
        searchKeyword := "", showDropdown := false)
      ensures NoDup(old(selectedIngredientIds)) ==> NoDup(selectedIngredientIds)
    {
      var candidates := Dropdown();
      if |candidates| > 0 {
        if NoDup(selectedIngredientIds) {
          AddFromDropdownKeepsNoDup(ingredients, searchKeyword, selectedIngredientIds, candidates[0]);
        }
        AddIngredient(candidates[0].id);
      }
    }

    /** `handleSubmit`: a blank name is rejected; otherwise the trimmed fields are handed over and the form resets. */
    method HandleSubmit(recipe: Recipe) returns (r: Result<RecipeDraft>)
      modifies this
      ensures Trim(old(name)) == "" ==> r == Failure(BlankNameAlert) && Current() == old(Current())
      ensures Trim(old(name)) != "" ==>
        r == Success(RecipeDraft(recipe.id, Trim(old(name)), old(recipeType), Trim(old(description)),
                                 old(imageFile), old(selectedIngredientIds)))
        && Current() == old(Current()).(name := "", recipeType := Quick, description := "", imageFile := None,
                                        imagePreview := "", selectedIngredientIds := [], searchKeyword := "")
    {
      var trimmedName := Trim(name);
      if trimmedName == "" {
        return Failure(BlankNameAlert);
      }
      r := Success(RecipeDraft(recipe.id, trimmedName, recipeType, Trim(description), imageFile, selectedIngredientIds));
      Reset();
    }

    /** The reset after a submit: the catalogue and the dropdown state stay. */
    method Reset()
      modifies this
      ensures Current() == old(Current()).(name := "", recipeType := Quick, description := "", imageFile := None,
                                           imagePreview := "", selectedIngredientIds := [], searchKeyword := "")
    {
      name := "";
      recipeType := Quick;
      description := "";
      imageFile := None;
      imagePreview := "";
      selectedIngredientIds := [];
      searchKeyword := "";
    }

    /** The image check shared with the add-ingredient form. */
    method HandleImageChange(file: Option<IngredientForm.ImageFile>) returns (alert: Option<string>)
      modifies this
      ensures file.None? ==> alert.None? && Current() == old(Current())
      ensures file.Some? && IngredientForm.CheckImage(file.value).Failure? ==>
        alert == Some(IngredientForm.CheckImage(file.value).error) && Current() == old(Current())
      ensures file.Some? && IngredientForm.CheckImage(file.value).Success? ==>
        alert.None? && Current() == old(Current()).(imageFile := file)
    {
      alert := None;
      if file.Some? {
        var checked := IngredientForm.CheckImage(file.value);
        if checked.Failure? {
          alert := Some(checked.error);
          return;
        }
        imageFile := file;
      }
    }
  }
}
