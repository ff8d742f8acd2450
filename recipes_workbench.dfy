/**
 * The recipe workbench as a state machine: its fields are the component's state, its methods the
 * handlers and effects. Every backend call is appended to `requests`; the backend's answers are
 * parameters, and `le` is the `localeCompare` order the lists are sorted by.
 */
module RecipesWorkbench {
  import opened Wrappers
  import opened Text
  import opened Seqs
  import opened Sorting
  import opened Units
  import opened RecipeTags
  import opened RecipeCategories
  import opened Ingredients
  import opened Recipes

  /** The fields a recipe insert or update writes (the timing fields are not part of this model). */
  datatype RecipeDraft = RecipeDraft(
    title: string, category: string, yieldQty: real, yieldUnit: string,
    allergenTags: seq<string>, dietaryTags: seq<string>, description: Option<string>, instructions: Option<string>)

  datatype LineInsert = LineInsert(recipeId: string, ingredientId: string, qty: real, unit: Option<string>)

  /** A backend call the workbench issues. */
  datatype RecipeRequest =
    | SelectRecipes
    | SelectIngredients
    | SelectRecipeLines(recipeId: string)
    | InsertRecipe(draft: RecipeDraft)
    | UpdateRecipe(recipeId: string, draft: RecipeDraft)
    | InsertIngredient(name: string, unitType: string)
    | InsertRecipeLine(line: LineInsert)
    | DeleteRecipeLine(lineId: string)
    | DeletePlanItemsOfRecipe(recipeId: string)
    | DeleteRecipe(recipeId: string)

  const RECIPE_CREATED: string := "Recipe created."
  const RECIPE_UPDATED: string := "Recipe details and tags updated."
  const RECIPE_DELETED: string := "Recipe permanently deleted."
  const INGREDIENT_AND_LINE_ADDED: string := "Ingredient created and added to this recipe."
  const LINE_ADDED: string := "Ingredient line added."
  const LINE_REMOVED: string := "Line removed."

  function AllergenNames(tags: seq<AllergenTag>): seq<string> {
    seq(|tags|, k requires 0 <= k < |tags| => tags[k].Name())
  }

  function DietaryNames(tags: seq<DietaryTag>): seq<string> {
    seq(|tags|, k requires 0 <= k < |tags| => tags[k].Name())
  }

  /** The row a recipe insert or update writes: the title trimmed, a blank yield unit as "batch", blank
      notes as null. */
  function Draft(title: string, category: string, yieldQty: real, yieldUnit: string, allergenTags: seq<string>,
                 dietaryTags: seq<string>, description: string, instructions: string): RecipeDraft
  {
    RecipeDraft(Trim(title), category, yieldQty, YieldUnitOrBatch(yieldUnit), allergenTags, dietaryTags,
                TrimmedOrNull(description), TrimmedOrNull(instructions))
  }

  /** The "create recipe" form. `yieldQty` is the parsed yield field, `None` when it is not a number. */
  datatype RecipeForm = RecipeForm(
    title: string, category: RecipeCategory, yieldQty: Option<real>, yieldUnit: string,
    allergenTags: seq<AllergenTag>, dietaryTags: seq<DietaryTag>, description: string, instructions: string)

  const BLANK_RECIPE_FORM: RecipeForm := RecipeForm("", Bread, Some(1.0), DEFAULT_YIELD_UNIT, [], [], "", "")

  function FormDraft(f: RecipeForm): RecipeDraft
    requires f.yieldQty.Some?
  {
    Draft(f.title, f.category.Name(), f.yieldQty.value, f.yieldUnit, AllergenNames(f.allergenTags),
          DietaryNames(f.dietaryTags), f.description, f.instructions)
  }

  /** The editor of the selected recipe, its tag toggles included. */
  datatype RecipeEditor = RecipeEditor(
    title: string, category: string, yieldQty: Option<real>, yieldUnit: string,
    allergenTags: seq<string>, dietaryTags: seq<string>, description: string, instructions: string)

  const BLANK_EDITOR: RecipeEditor := RecipeEditor("", Bread.Name(), Some(1.0), DEFAULT_YIELD_UNIT, [], [], "", "")

  /** What the editor shows for a recipe: its fields, a missing one as the form's default. */
  function EditorFor(r: Recipe): RecipeEditor {
    RecipeEditor(r.title, r.category.GetOr(Bread.Name()), Some(r.yieldQty.GetOr(1.0)),
                 r.yieldUnit.GetOr(DEFAULT_YIELD_UNIT), r.allergenTags, r.dietaryTags,
                 r.description.GetOr(""), r.instructions.GetOr(""))
  }

  function EditorDraft(e: RecipeEditor): RecipeDraft
    requires e.yieldQty.Some?
  {
    Draft(e.title, e.category, e.yieldQty.value, e.yieldUnit, e.allergenTags, e.dietaryTags, e.description,
          e.instructions)
  }

  /** Saving the editor of a recipe that was just loaded into it writes that recipe's fields back,
      normalised as any save is. */
  lemma EditorRoundTrip(r: Recipe)
    requires r.yieldQty.Some? && r.category.Some? && r.yieldUnit.Some?
    ensures EditorDraft(EditorFor(r)).category == r.category.value
    ensures EditorDraft(EditorFor(r)).yieldQty == r.yieldQty.value
    ensures EditorDraft(EditorFor(r)).allergenTags == r.allergenTags
    ensures EditorDraft(EditorFor(r)).dietaryTags == r.dietaryTags
    ensures EditorDraft(EditorFor(r)).title == Trim(r.title)
  {
  }

  /** The "new ingredient" part of the recipe page: a name, its unit type, a quantity (`None` when not a
      number) and the unit of the line it is added with. */
  datatype InlineIngredientForm = InlineIngredientForm(name: string, unit: UnitOption, qty: Option<real>, lineUnit: UnitOption)

  const BLANK_INLINE_FORM: InlineIngredientForm := InlineIngredientForm("", G, None, G)

  /** `a || b` on strings. */
  function OrElse(a: string, b: string): string { if a != "" then a else b }

  /** The selection after loading: kept when present, otherwise the first active recipe's, if any. */
  function LoadedSelection(selected: Option<string>, recipes: seq<Recipe>): (r: Option<string>)
    ensures Truthy(selected) ==> r == selected
    ensures !Truthy(selected) && (exists k :: 0 <= k < |recipes| && RecipeActive(recipes[k])) ==>
      exists k :: 0 <= k < |recipes| && RecipeActive(recipes[k]) && r == Some(recipes[k].id)
                  && forall j :: 0 <= j < k ==> !RecipeActive(recipes[j])
    ensures (forall k :: 0 <= k < |recipes| ==> !RecipeActive(recipes[k])) ==> r == selected
  {
    match FirstIndex(recipes, RecipeActive)
    case Some(k) => if !Truthy(selected) then Some(recipes[k].id) else selected
    case None => selected
  }

  function IsOtherActive(recipeId: string): Recipe -> bool {
    (r: Recipe) => r.id != recipeId && RecipeActive(r)
  }

  /** After deleting the selected recipe: the first other active recipe of the list shown before. */
  function NextAfterDelete(recipes: seq<Recipe>, recipeId: string): (r: Option<string>)
    ensures r.Some? ==> r.value != recipeId
    ensures r.Some? ==> exists k :: 0 <= k < |recipes| && recipes[k].id == r.value && RecipeActive(recipes[k])
                          && forall j :: 0 <= j < k ==> recipes[j].id == recipeId || !RecipeActive(recipes[j])
    ensures r.None? ==> forall k :: 0 <= k < |recipes| ==> recipes[k].id == recipeId || !RecipeActive(recipes[k])
  {
    match FirstIndex(recipes, IsOtherActive(recipeId))
    case Some(k) => Some(recipes[k].id)
    case None => None
  }

  /** What reloading both lists leaves: with both replies the new lists and no error; otherwise the old
      lists and the message of the first failed reply. */
  predicate ReloadOutcome(recipesReply: Reply<seq<Recipe>>, ingredientsReply: Reply<seq<IngredientRow>>,
                          oldRecipes: seq<Recipe>, oldIngredients: seq<IngredientRow>,
                          recipes: seq<Recipe>, ingredients: seq<IngredientRow>, error: Option<string>)
  {
    if recipesReply.Ok? && ingredientsReply.Ok? then
      error == None && recipes == recipesReply.value && ingredients == ingredientsReply.value
    else
      && recipes == oldRecipes && ingredients == oldIngredients
      && error == Some(if recipesReply.Failed? then recipesReply.message else ingredientsReply.message)
  }

  function HasRecipeId(id: Option<string>): Recipe -> bool {
    (r: Recipe) => Some(r.id) == id
  }

  function HasIngredientId(id: string): IngredientRow -> bool {
    (i: IngredientRow) => i.id == id
  }


  class RecipesWorkbench {
    var recipes: seq<Recipe>
    var ingredients: seq<IngredientRow>
    var recipeLines: seq<RecipeLine>
    var selectedRecipeId: Option<string>

    var newRecipe: RecipeForm
    var inline: InlineIngredientForm

    var lineIngredientId: string
    /** The parsed quantity field of the line form; `None` when it is not a number. */
    var lineQty: Option<real>
    var lineUnit: string

    var error: Option<string>
    var success: Option<string>
    var loading: bool
    var scaleOutputQty: real
    var allergenFilters: seq<AllergenTag>
    var dietaryFilters: seq<DietaryTag>
    var showCreateForm: bool
    var editor: RecipeEditor

    /** The calls issued so far, oldest first. */
    var requests: seq<RecipeRequest>

    /** The initial state; `showCreateForm` is what the session storage says about the create dialog. */
    constructor (showCreateForm: bool)
      ensures recipes == [] && ingredients == [] && recipeLines == [] && selectedRecipeId == None
      ensures newRecipe == BLANK_RECIPE_FORM && inline == BLANK_INLINE_FORM && editor == BLANK_EDITOR
      ensures lineIngredientId == "" && lineQty == None && lineUnit == G.Name()
      ensures error == None && success == None && !loading && scaleOutputQty == 1.0
      ensures allergenFilters == [] && dietaryFilters == [] && this.showCreateForm == showCreateForm
      ensures requests == []
    {
      recipes := [];
      ingredients := [];
      recipeLines := [];
      selectedRecipeId := None;
      newRecipe := BLANK_RECIPE_FORM;
      inline := BLANK_INLINE_FORM;
      lineIngredientId := "";
      lineQty := None;
      lineUnit := G.Name();
      error := None;
      success := None;
      loading := false;
      scaleOutputQty := 1.0;
      allergenFilters := [];
      dietaryFilters := [];
      this.showCreateForm := showCreateForm;
      editor := BLANK_EDITOR;
      requests := [];
    }

    // -------------------------------------------------------------------------------------------
    // Views

    /** The recipes the tag filters let through. */
    function Filtered(): (r: seq<Recipe>)
      reads this`recipes, this`allergenFilters, this`dietaryFilters
      ensures IsSubsequence(r, recipes)
    {
      FilteredRecipes(recipes, allergenFilters, dietaryFilters)
    }

    function ActiveList(): (r: seq<Recipe>)
      reads this`recipes, this`allergenFilters, this`dietaryFilters
      ensures forall x :: x in r <==> x in Filtered() && !Truthy(x.archivedAt)
    {
      Filter(Filtered(), RecipeActive)
    }

    function ArchivedList(): (r: seq<Recipe>)
      reads this`recipes, this`allergenFilters, this`dietaryFilters
      ensures forall x :: x in r <==> x in Filtered() && Truthy(x.archivedAt)
    {
      Filter(Filtered(), RecipeArchived)
    }

    /** The first loaded recipe with the selected id, if any. */
    function SelectedRecipe(): (r: Option<Recipe>)
      reads this`recipes, this`selectedRecipeId
      ensures r.Some? ==> r.value in recipes && Some(r.value.id) == selectedRecipeId
      ensures r.Some? ==> exists k :: 0 <= k < |recipes| && recipes[k] == r.value
                            && forall j :: 0 <= j < k ==> Some(recipes[j].id) != selectedRecipeId
      ensures r.None? ==> forall x :: x in recipes ==> Some(x.id) != selectedRecipeId
    {
      match FirstIndex(recipes, HasRecipeId(selectedRecipeId))
      case Some(k) => Some(recipes[k])
      case None => None
    }

    /** The scale preview of the selected recipe, shown only when the recipe has lines. */
    function Preview(): (rows: Option<seq<PreviewRow>>)
      reads this`recipes, this`selectedRecipeId, this`recipeLines, this`scaleOutputQty
      ensures rows.Some? <==> SelectedRecipe().Some? && |recipeLines| > 0
      ensures rows.Some? ==> rows.value == ScalePreview(recipeLines, SelectedRecipe().value.yieldQty, scaleOutputQty)
      ensures rows.Some? ==> |rows.value| == |recipeLines|
    {
      match SelectedRecipe()
      case None => None
      case Some(r) => if |recipeLines| == 0 then None else Some(ScalePreview(recipeLines, r.yieldQty, scaleOutputQty))
    }

    // -------------------------------------------------------------------------------------------
    // Loading

    /** `loadRecipesAndIngredients`: both lists are fetched together; the first active recipe is selected
        when none is. */
    method LoadRecipesAndIngredients(recipesReply: Reply<seq<Recipe>>, ingredientsReply: Reply<seq<IngredientRow>>)
      modifies this`loading, this`error, this`requests, this`recipes, this`ingredients, this`selectedRecipeId
      ensures !loading && requests == old(requests) + [SelectRecipes, SelectIngredients]
      ensures recipesReply.Failed? ==>
        && error == Some(recipesReply.message)
        && recipes == old(recipes) && ingredients == old(ingredients) && selectedRecipeId == old(selectedRecipeId)
      ensures recipesReply.Ok? && ingredientsReply.Failed? ==>
        && error == Some(ingredientsReply.message)
        && recipes == old(recipes) && ingredients == old(ingredients) && selectedRecipeId == old(selectedRecipeId)
      ensures recipesReply.Ok? && ingredientsReply.Ok? ==>
        && error == None && recipes == recipesReply.value && ingredients == ingredientsReply.value
        && selectedRecipeId == LoadedSelection(old(selectedRecipeId), recipes)
    {
      loading := true;
      error := None;
      requests := requests + [SelectRecipes, SelectIngredients];
      loading := false;

      if recipesReply.Failed? || ingredientsReply.Failed? {
        error := Some(if recipesReply.Failed? then recipesReply.message else ingredientsReply.message);
        return;
      }

      recipes := recipesReply.value;
      ingredients := ingredientsReply.value;
      var firstActive := FirstIndex(recipes, RecipeActive);
      if !Truthy(selectedRecipeId) && firstActive.Some? {
        selectedRecipeId := Some(recipes[firstActive.value].id);
      }
    }

    /** `loadRecipeLines` */
    method LoadRecipeLines(recipeId: string, linesReply: Reply<seq<RecipeLine>>)
      modifies this`error, this`requests, this`recipeLines
      ensures requests == old(requests) + [SelectRecipeLines(recipeId)]
      ensures linesReply.Failed? ==> error == Some(linesReply.message) && recipeLines == old(recipeLines)
      ensures linesReply.Ok? ==> error == old(error) && recipeLines == linesReply.value
    {
      requests := requests + [SelectRecipeLines(recipeId)];
      if linesReply.Failed? {
        error := Some(linesReply.message);
        return;
      }
      recipeLines := linesReply.value;
    }

    /** The effect run when the selection changes: a selected recipe loads its lines, no selection clears
        them. */
    method SelectionChanged(linesReply: Reply<seq<RecipeLine>>)
      modifies this`error, this`requests, this`recipeLines
      ensures !Truthy(selectedRecipeId) ==> recipeLines == [] && requests == old(requests) && error == old(error)
      ensures Truthy(selectedRecipeId) ==> requests == old(requests) + [SelectRecipeLines(selectedRecipeId.value)]
      ensures Truthy(selectedRecipeId) && linesReply.Failed? ==>
        error == Some(linesReply.message) && recipeLines == old(recipeLines)
      ensures Truthy(selectedRecipeId) && linesReply.Ok? ==> error == old(error) && recipeLines == linesReply.value
    {
      if Truthy(selectedRecipeId) {
        LoadRecipeLines(selectedRecipeId.value, linesReply);
      } else {
        recipeLines := [];
      }
    }

    /** The effect run when the chosen ingredient changes: its unit type, when it has one, becomes the
        line unit. */
    method IngredientChanged()
      modifies this`lineUnit
      ensures match FirstIndex(ingredients, HasIngredientId(lineIngredientId))
        case Some(k) => lineUnit == OrElse(ingredients[k].unitType, old(lineUnit))
        case None => lineUnit == old(lineUnit)
    {
      var found := FirstIndex(ingredients, HasIngredientId(lineIngredientId));
      if found.Some? && ingredients[found.value].unitType != "" {
        lineUnit := ingredients[found.value].unitType;
      }
    }

    /** The effect run when the selected recipe changes: its details are copied into the editor; without
        a selected recipe the editor keeps what it shows. */
    method LoadEditor()
      modifies this`editor
      ensures SelectedRecipe().None? ==> editor == old(editor)
      ensures SelectedRecipe().Some? ==> editor == EditorFor(SelectedRecipe().value)
    {
      var selected := SelectedRecipe();
      if selected.Some? {
        editor := EditorFor(selected.value);
      }
    }

    // -------------------------------------------------------------------------------------------
    // Recipes

    /** `createRecipe`: validate, insert, add the new recipe to the title-sorted list, select it, reset
        the form and hide the dialog. */
    method CreateRecipe(insertReply: Reply<Recipe>, le: (string, string) -> bool)
      requires TotalPreorder(le)
      modifies this`error, this`success, this`requests, this`recipes, this`selectedRecipeId, this`showCreateForm
      modifies this`newRecipe
      ensures var f := old(newRecipe); CreateRecipeError(f.title, f.yieldQty).Some? ==>
        && error == CreateRecipeError(f.title, f.yieldQty) && success == None && requests == old(requests)
        && recipes == old(recipes) && selectedRecipeId == old(selectedRecipeId) && newRecipe == f
        && showCreateForm == old(showCreateForm)
      ensures var f := old(newRecipe); CreateRecipeError(f.title, f.yieldQty).None? ==>
        && requests == old(requests) + [InsertRecipe(FormDraft(f))]
        && (insertReply.Failed? ==>
              && error == Some(insertReply.message) && success == None
              && recipes == old(recipes) && selectedRecipeId == old(selectedRecipeId) && newRecipe == f
              && showCreateForm == old(showCreateForm))
        && (insertReply.Ok? ==>
              && multiset(recipes) == multiset(old(recipes) + [insertReply.value])
              && SortedBy(recipes, RecipeTitle, le)
              && selectedRecipeId == Some(insertReply.value.id)
              && newRecipe == BLANK_RECIPE_FORM && !showCreateForm
              && error == None && success == Some(RECIPE_CREATED))
    {
      var form := newRecipe;
      error := None;
      success := None;

      var rejected := CreateRecipeError(form.title, form.yieldQty);
      if rejected.Some? {
        error := rejected;
        return;
      }

      requests := requests + [InsertRecipe(FormDraft(form))];
      if insertReply.Failed? {
        error := Some(insertReply.message);
        return;
      }

      AddCreatedRecipe(insertReply.value, le);
      HideCreateRecipeModal();
      success := Some(RECIPE_CREATED);
    }

    /** The created recipe joins the list, which is kept sorted by title, and becomes the selection; the
        form is reset. */
    method AddCreatedRecipe(created: Recipe, le: (string, string) -> bool)
      requires TotalPreorder(le)
      modifies this`recipes, this`selectedRecipeId, this`newRecipe
      ensures multiset(recipes) == multiset(old(recipes) + [created]) && SortedBy(recipes, RecipeTitle, le)
      ensures selectedRecipeId == Some(created.id) && newRecipe == BLANK_RECIPE_FORM
    {
      recipes := SortedCopy(recipes + [created], RecipeTitle, le);
      selectedRecipeId := Some(created.id);
      newRecipe := BLANK_RECIPE_FORM;
    }

    /** `hideCreateRecipeModal`: closes the create dialog (remembering that in the session storage is not
        part of this model). */
    method HideCreateRecipeModal()
      modifies this`showCreateForm
      ensures !showCreateForm
    {
      showCreateForm := false;
    }

    /** `saveSelectedRecipeDetails`: nothing without a selection; otherwise validate, update the selected
        recipe from the editor, and reload the lists. */
    method SaveSelectedRecipeDetails(updateReply: Ack, recipesReply: Reply<seq<Recipe>>,
                                     ingredientsReply: Reply<seq<IngredientRow>>)
      modifies this`error, this`success, this`requests, this`loading, this`recipes, this`ingredients
      modifies this`selectedRecipeId
      ensures !Truthy(old(selectedRecipeId)) ==>
        && error == old(error) && success == old(success) && requests == old(requests) && loading == old(loading)
        && recipes == old(recipes) && ingredients == old(ingredients) && selectedRecipeId == old(selectedRecipeId)
      ensures Truthy(old(selectedRecipeId)) && SaveRecipeError(editor.title, editor.yieldQty).Some? ==>
        && error == SaveRecipeError(editor.title, editor.yieldQty) && success == None && requests == old(requests)
        && recipes == old(recipes) && ingredients == old(ingredients) && selectedRecipeId == old(selectedRecipeId)
        && loading == old(loading)
      ensures Truthy(old(selectedRecipeId)) && SaveRecipeError(editor.title, editor.yieldQty).None? ==>
        var update := UpdateRecipe(old(selectedRecipeId).value, EditorDraft(editor));
        && (updateReply.Failed? ==>
              && requests == old(requests) + [update] && error == Some(updateReply.message) && success == None
              && recipes == old(recipes) && ingredients == old(ingredients) && selectedRecipeId == old(selectedRecipeId)
              && loading == old(loading))
        && (updateReply.Ok? ==>
              && requests == old(requests) + [update, SelectRecipes, SelectIngredients]
              && success == Some(RECIPE_UPDATED) && selectedRecipeId == old(selectedRecipeId) && !loading
              && (recipesReply.Ok? && ingredientsReply.Ok? ==>
                    error == None && recipes == recipesReply.value && ingredients == ingredientsReply.value)
              && (recipesReply.Failed? ==>
                    error == Some(recipesReply.message) && recipes == old(recipes) && ingredients == old(ingredients))
              && (recipesReply.Ok? && ingredientsReply.Failed? ==>
                    error == Some(ingredientsReply.message) && recipes == old(recipes) && ingredients == old(ingredients)))
    {
      if !Truthy(selectedRecipeId) {
        return;
      }
      error := None;
      success := None;

      var rejected := SaveRecipeError(editor.title, editor.yieldQty);
      if rejected.Some? {
        error := rejected;
        return;
      }

      requests := requests + [UpdateRecipe(selectedRecipeId.value, EditorDraft(editor))];
      if updateReply.Failed? {
        error := Some(updateReply.message);
        return;
      }

      LoadRecipesAndIngredients(recipesReply, ingredientsReply);
      success := Some(RECIPE_UPDATED);
    }

    /** `deleteRecipePermanently`: after confirmation, delete the recipe's plan items, then the recipe,
        stopping at the first failure; then reload, and move the selection off a deleted selected recipe
        to the first other active recipe of the list as it was before. */
    method DeleteRecipePermanently(recipeId: string, confirmed: bool, planItemsReply: Ack, recipeReply: Ack,
                                   recipesReply: Reply<seq<Recipe>>, ingredientsReply: Reply<seq<IngredientRow>>)
      modifies this`error, this`success, this`requests, this`loading, this`recipes, this`ingredients
      modifies this`selectedRecipeId, this`recipeLines
      ensures !confirmed ==>
        && error == old(error) && success == old(success) && requests == old(requests) && loading == old(loading)
        && recipes == old(recipes) && ingredients == old(ingredients) && selectedRecipeId == old(selectedRecipeId)
        && recipeLines == old(recipeLines)
      ensures confirmed && planItemsReply.Failed? ==>
        && requests == old(requests) + [DeletePlanItemsOfRecipe(recipeId)]
        && error == Some(planItemsReply.message) && success == None
        && recipes == old(recipes) && ingredients == old(ingredients) && loading == old(loading)
        && selectedRecipeId == old(selectedRecipeId) && recipeLines == old(recipeLines)
      ensures confirmed && planItemsReply.Ok? && recipeReply.Failed? ==>
        && requests == old(requests) + [DeletePlanItemsOfRecipe(recipeId), DeleteRecipe(recipeId)]
        && error == Some(recipeReply.message) && success == None
        && recipes == old(recipes) && ingredients == old(ingredients) && loading == old(loading)
        && selectedRecipeId == old(selectedRecipeId) && recipeLines == old(recipeLines)
      ensures confirmed && planItemsReply.Ok? && recipeReply.Ok? ==>
        && requests == old(requests) + [DeletePlanItemsOfRecipe(recipeId), DeleteRecipe(recipeId), SelectRecipes, SelectIngredients]
        && success == Some(RECIPE_DELETED) && !loading
        && ReloadOutcome(recipesReply, ingredientsReply, old(recipes), old(ingredients), recipes, ingredients, error)
        && (old(selectedRecipeId) == Some(recipeId) ==>
              selectedRecipeId == NextAfterDelete(old(recipes), recipeId) && recipeLines == [])
        && (old(selectedRecipeId) != Some(recipeId) ==> recipeLines == old(recipeLines))
        && (old(selectedRecipeId) != Some(recipeId) && recipesReply.Ok? && ingredientsReply.Ok? ==>
              selectedRecipeId == LoadedSelection(old(selectedRecipeId), recipesReply.value))
        && (old(selectedRecipeId) != Some(recipeId) && !(recipesReply.Ok? && ingredientsReply.Ok?) ==>
              selectedRecipeId == old(selectedRecipeId))
    {
      if !confirmed {
        return;
      }
      var shown, wasSelected := recipes, selectedRecipeId;
      error := None;
      success := None;

      requests := requests + [DeletePlanItemsOfRecipe(recipeId)];
      if planItemsReply.Failed? {
        error := Some(planItemsReply.message);
        return;
      }

      requests := requests + [DeleteRecipe(recipeId)];
      if recipeReply.Failed? {
        error := Some(recipeReply.message);
        return;
      }

      RefreshAfterDelete(recipeId, shown, recipesReply, ingredientsReply);
    }

    /** After a recipe is deleted: reload, and move the selection off the deleted recipe if it was on it;
        `shown` is the list the deleted recipe was picked from. */
    method RefreshAfterDelete(recipeId: string, shown: seq<Recipe>,
                              recipesReply: Reply<seq<Recipe>>, ingredientsReply: Reply<seq<IngredientRow>>)
      modifies this`error, this`success, this`requests, this`loading, this`recipes, this`ingredients
      modifies this`selectedRecipeId, this`recipeLines
      ensures requests == old(requests) + [SelectRecipes, SelectIngredients]
      ensures success == Some(RECIPE_DELETED) && !loading
      ensures ReloadOutcome(recipesReply, ingredientsReply, old(recipes), old(ingredients), recipes, ingredients, error)
      ensures old(selectedRecipeId) == Some(recipeId) ==>
        selectedRecipeId == NextAfterDelete(shown, recipeId) && recipeLines == []
      ensures old(selectedRecipeId) != Some(recipeId) ==> recipeLines == old(recipeLines)
      ensures old(selectedRecipeId) != Some(recipeId) && recipesReply.Ok? && ingredientsReply.Ok? ==>
        selectedRecipeId == LoadedSelection(old(selectedRecipeId), recipesReply.value)
      ensures old(selectedRecipeId) != Some(recipeId) && !(recipesReply.Ok? && ingredientsReply.Ok?) ==>
        selectedRecipeId == old(selectedRecipeId)
    {
      var wasSelected := selectedRecipeId;
      LoadRecipesAndIngredients(recipesReply, ingredientsReply);
      if wasSelected == Some(recipeId) {
        selectedRecipeId := NextAfterDelete(shown, recipeId);
        recipeLines := [];
      }
      success := Some(RECIPE_DELETED);
    }

    // -------------------------------------------------------------------------------------------
    // Tags

    method ToggleAllergenFilter(tag: AllergenTag)
      modifies this`allergenFilters
      ensures allergenFilters == ToggleTag(old(allergenFilters), tag)
    {
      allergenFilters := ToggleTag(allergenFilters, tag);
    }

    method ToggleDietaryFilter(tag: DietaryTag)
      modifies this`dietaryFilters
      ensures dietaryFilters == ToggleTag(old(dietaryFilters), tag)
    {
      dietaryFilters := ToggleTag(dietaryFilters, tag);
    }

    method ToggleRecipeAllergenTag(tag: AllergenTag)
      modifies this`editor
      ensures editor == old(editor).(allergenTags := ToggleTag(old(editor).allergenTags, tag.Name()))
    {
      editor := editor.(allergenTags := ToggleTag(editor.allergenTags, tag.Name()));
    }

    method ToggleRecipeDietaryTag(tag: DietaryTag)
      modifies this`editor
      ensures editor == old(editor).(dietaryTags := ToggleTag(old(editor).dietaryTags, tag.Name()))
    {
      editor := editor.(dietaryTags := ToggleTag(editor.dietaryTags, tag.Name()));
    }

    // -------------------------------------------------------------------------------------------
    // Lines

    /** `addIngredientAndLine`: validate, insert the ingredient and add it to the name-sorted list, then
        insert the line for it, reload the lines and reset the form. */
    method AddIngredientAndLine(ingredientReply: Reply<IngredientRow>, lineReply: Ack,
                                linesReply: Reply<seq<RecipeLine>>, le: (string, string) -> bool)
      requires TotalPreorder(le)
      modifies this`error, this`success, this`requests, this`ingredients, this`recipeLines, this`inline
      ensures AddIngredientAndLineError(selectedRecipeId, old(inline).name, old(inline).qty).Some? ==>
        && error == AddIngredientAndLineError(selectedRecipeId, old(inline).name, old(inline).qty)
        && success == None && requests == old(requests) && ingredients == old(ingredients)
        && recipeLines == old(recipeLines) && inline == old(inline)
      ensures AddIngredientAndLineError(selectedRecipeId, old(inline).name, old(inline).qty).None? ==>
        var f := old(inline);
        var insertIngredient := InsertIngredient(Trim(f.name), f.unit.Name());
        && (ingredientReply.Failed? ==>
              && requests == old(requests) + [insertIngredient]
              && error == Some(ingredientReply.message) && success == None
              && ingredients == old(ingredients) && inline == f && recipeLines == old(recipeLines))
        && (ingredientReply.Ok? ==>
              var created := ingredientReply.value;
              var insertLine := InsertRecipeLine(LineInsert(selectedRecipeId.value, created.id, f.qty.value,
                                                            Some(OrElse(f.lineUnit.Name(), created.unitType))));
              && multiset(ingredients) == multiset(old(ingredients) + [created])
              && SortedBy(ingredients, RowName, le)
              && (lineReply.Failed? ==>
                    && requests == old(requests) + [insertIngredient, insertLine]
                    && error == Some(lineReply.message) && success == None && inline == f
                    && recipeLines == old(recipeLines))
              && (lineReply.Ok? ==>
                    && requests == old(requests) + [insertIngredient, insertLine, SelectRecipeLines(selectedRecipeId.value)]
                    && (linesReply.Ok? ==> recipeLines == linesReply.value && error == None)
                    && (linesReply.Failed? ==> recipeLines == old(recipeLines) && error == Some(linesReply.message))
                    && inline == BLANK_INLINE_FORM && success == Some(INGREDIENT_AND_LINE_ADDED)))
    {
      error := None;
      success := None;

      var rejected := AddIngredientAndLineError(selectedRecipeId, inline.name, inline.qty);
      if rejected.Some? {
        error := rejected;
        return;
      }

      var recipeId := selectedRecipeId.value;
      requests := requests + [InsertIngredient(Trim(inline.name), inline.unit.Name())];
      if ingredientReply.Failed? {
        error := Some(ingredientReply.message);
        return;
      }

      var created := ingredientReply.value;
      AddCreatedIngredient(created, le);
      AddLineForCreated(recipeId, created, inline.qty.value, lineReply, linesReply);
    }

    /** The rest of `addIngredientAndLine` once the ingredient exists: insert its line (in the line unit
        chosen, else its own unit type), reload the lines and reset the form. */
    method AddLineForCreated(recipeId: string, created: IngredientRow, qty: real, lineReply: Ack,
                             linesReply: Reply<seq<RecipeLine>>)
      modifies this`error, this`success, this`requests, this`recipeLines, this`inline
      ensures var insertLine := InsertRecipeLine(LineInsert(recipeId, created.id, qty,
                                                            Some(OrElse(old(inline).lineUnit.Name(), created.unitType))));
        && (lineReply.Failed? ==>
              && requests == old(requests) + [insertLine] && error == Some(lineReply.message)
              && success == old(success) && inline == old(inline) && recipeLines == old(recipeLines))
        && (lineReply.Ok? ==>
              && requests == old(requests) + [insertLine, SelectRecipeLines(recipeId)]
              && (linesReply.Ok? ==> recipeLines == linesReply.value && error == old(error))
              && (linesReply.Failed? ==> recipeLines == old(recipeLines) && error == Some(linesReply.message))
              && inline == BLANK_INLINE_FORM && success == Some(INGREDIENT_AND_LINE_ADDED))
    {
      var unit := OrElse(inline.lineUnit.Name(), created.unitType);
      requests := requests + [InsertRecipeLine(LineInsert(recipeId, created.id, qty, Some(unit)))];
      if lineReply.Failed? {
        error := Some(lineReply.message);
        return;
      }

      LoadRecipeLines(recipeId, linesReply);
      inline := BLANK_INLINE_FORM;
      success := Some(INGREDIENT_AND_LINE_ADDED);
    }

    /** The created ingredient joins the list, which is kept sorted by name. */
    method AddCreatedIngredient(created: IngredientRow, le: (string, string) -> bool)
      requires TotalPreorder(le)
      modifies this`ingredients
      ensures multiset(ingredients) == multiset(old(ingredients) + [created]) && SortedBy(ingredients, RowName, le)
    {
      ingredients := SortedCopy(ingredients + [created], RowName, le);
    }

    /** `addRecipeLine`: validate, insert the line (a blank unit as null), reload the lines, clear the
        quantity. */
    method AddRecipeLine(insertReply: Ack, linesReply: Reply<seq<RecipeLine>>)
      modifies this`error, this`success, this`requests, this`recipeLines, this`lineQty
      ensures AddRecipeLineError(selectedRecipeId, lineIngredientId, old(lineQty)).Some? ==>
        && error == AddRecipeLineError(selectedRecipeId, lineIngredientId, old(lineQty)) && success == None
        && requests == old(requests) && recipeLines == old(recipeLines) && lineQty == old(lineQty)
      ensures AddRecipeLineError(selectedRecipeId, lineIngredientId, old(lineQty)).None? ==>
        var line := LineInsert(selectedRecipeId.value, lineIngredientId, old(lineQty).value,
                               if lineUnit == "" then None else Some(lineUnit));
        && (insertReply.Failed? ==>
              && requests == old(requests) + [InsertRecipeLine(line)]
              && error == Some(insertReply.message) && success == None
              && recipeLines == old(recipeLines) && lineQty == old(lineQty))
        && (insertReply.Ok? ==>
              && requests == old(requests) + [InsertRecipeLine(line), SelectRecipeLines(selectedRecipeId.value)]
              && (linesReply.Ok? ==> recipeLines == linesReply.value && error == None)
              && (linesReply.Failed? ==> recipeLines == old(recipeLines) && error == Some(linesReply.message))
              && lineQty == None && success == Some(LINE_ADDED))
    {
      error := None;
      success := None;

      var rejected := AddRecipeLineError(selectedRecipeId, lineIngredientId, lineQty);
      if rejected.Some? {
        error := rejected;
        return;
      }

      var recipeId := selectedRecipeId.value;
      requests := requests + [InsertRecipeLine(LineInsert(recipeId, lineIngredientId, lineQty.value,
                                                          if lineUnit == "" then None else Some(lineUnit)))];
      if insertReply.Failed? {
        error := Some(insertReply.message);
        return;
      }

      LoadRecipeLines(recipeId, linesReply);
      lineQty := None;
      success := Some(LINE_ADDED);
    }

    /** `deleteRecipeLine`: delete, then drop exactly that line from the list. */
    method DeleteRecipeLineById(lineId: string, deleteReply: Ack)
      modifies this`error, this`success, this`requests, this`recipeLines
      ensures requests == old(requests) + [DeleteRecipeLine(lineId)]
      ensures deleteReply.Failed? ==>
        error == Some(deleteReply.message) && success == None && recipeLines == old(recipeLines)
      ensures deleteReply.Ok? ==>
        error == None && success == Some(LINE_REMOVED) && recipeLines == RemainingLines(old(recipeLines), lineId)
    {
      error := None;
      success := None;

      requests := requests + [DeleteRecipeLine(lineId)];
      if deleteReply.Failed? {
        error := Some(deleteReply.message);
        return;
      }

      recipeLines := RemainingLines(recipeLines, lineId);
      success := Some(LINE_REMOVED);
    }
  }
}
