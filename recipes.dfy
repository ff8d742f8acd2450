/**
 * The recipe workbench's own logic: the tag filter, the active and archived lists, the category groups,
 * tag toggling, the scale preview and the validation rules of its forms.
 */
module Recipes {
  import opened Wrappers
  import opened Text
  import opened Seqs
  import opened RecipeTags

  /** A recipe as fetched; tags are stored strings. The timing fields are not part of this model. */
  datatype Recipe = Recipe(
    id: string, title: string, category: Option<string>, yieldQty: Option<real>, yieldUnit: Option<string>,
    description: Option<string>, instructions: Option<string>, archivedAt: Option<string>,
    allergenTags: seq<string>, dietaryTags: seq<string>)

  /** The ingredient a recipe line joins to. */
  datatype LineIngredient = LineIngredient(name: string, unitType: string)

  datatype RecipeLine = RecipeLine(id: string, ingredientId: string, qty: real, unit: Option<string>,
                                   ingredient: Option<LineIngredient>)

  function RecipeTitle(r: Recipe): string { r.title }

  // ---------------------------------------------------------------------------------------------
  // The tag filter

  /** `filters.some((tag) => tags.includes(tag))` */
  predicate SomeIncluded<T>(filters: seq<T>, name: T -> string, tags: seq<string>)
    decreases |filters|
  {
    if filters == [] then false else name(filters[0]) in tags || SomeIncluded(filters[1..], name, tags)
  }

  lemma {:induction false} SomeIncludedIff<T>(filters: seq<T>, name: T -> string, tags: seq<string>)
    ensures SomeIncluded(filters, name, tags) <==> exists k :: 0 <= k < |filters| && name(filters[k]) in tags
    decreases |filters|
  {
    if filters != [] {
      SomeIncludedIff(filters[1..], name, tags);
      if exists k :: 0 <= k < |filters| && name(filters[k]) in tags {
        var k :| 0 <= k < |filters| && name(filters[k]) in tags;
        if k > 0 { assert filters[1..][k - 1] == filters[k]; }
      }
      if exists k :: 0 <= k < |filters[1..]| && name(filters[1..][k]) in tags {
        var k :| 0 <= k < |filters[1..]| && name(filters[1..][k]) in tags;
        assert filters[1..][k] == filters[k + 1];
      }
    }
  }

  function AllergenName(t: AllergenTag): string { t.Name() }
  function DietaryName(t: DietaryTag): string { t.Name() }

  predicate AllergenOk(filters: seq<AllergenTag>, r: Recipe) {
    |filters| == 0 || SomeIncluded(filters, AllergenName, r.allergenTags)
  }

  predicate DietaryOk(filters: seq<DietaryTag>, r: Recipe) {
    |filters| == 0 || SomeIncluded(filters, DietaryName, r.dietaryTags)
  }

  function PassesFilter(allergenFilters: seq<AllergenTag>, dietaryFilters: seq<DietaryTag>): Recipe -> bool {
    (r: Recipe) => AllergenOk(allergenFilters, r) && DietaryOk(dietaryFilters, r)
  }

  /** `filteredRecipes` */
  function FilteredRecipes(recipes: seq<Recipe>, allergenFilters: seq<AllergenTag>, dietaryFilters: seq<DietaryTag>)
    : (r: seq<Recipe>)
    ensures IsSubsequence(r, recipes)
  {
    FilterIsSubsequence(recipes, PassesFilter(allergenFilters, dietaryFilters));
    Filter(recipes, PassesFilter(allergenFilters, dietaryFilters))
  }

  /** A recipe is listed exactly when, in each dimension, no tag is chosen or the recipe carries one of the
      chosen tags: any of the chosen tags within a dimension, both dimensions together. */
  lemma FilterMeaning(recipes: seq<Recipe>, allergenFilters: seq<AllergenTag>, dietaryFilters: seq<DietaryTag>, r: Recipe)
    ensures r in FilteredRecipes(recipes, allergenFilters, dietaryFilters) <==>
      && r in recipes
      && (|allergenFilters| == 0 || exists k :: 0 <= k < |allergenFilters| && allergenFilters[k].Name() in r.allergenTags)
      && (|dietaryFilters| == 0 || exists k :: 0 <= k < |dietaryFilters| && dietaryFilters[k].Name() in r.dietaryTags)
  {
    SomeIncludedIff(allergenFilters, AllergenName, r.allergenTags);
    SomeIncludedIff(dietaryFilters, DietaryName, r.dietaryTags);
  }

  /** With no tag chosen, every recipe is listed, in its order. */
  lemma NoFiltersKeepAll(recipes: seq<Recipe>)
    ensures FilteredRecipes(recipes, [], []) == recipes
  {
    FilterAll(recipes, PassesFilter([], []));
  }

  /** Choosing one more allergen tag never hides a recipe that was listed. */
  lemma MoreAllergenTagsWiden(recipes: seq<Recipe>, allergenFilters: seq<AllergenTag>, dietaryFilters: seq<DietaryTag>,
                              tag: AllergenTag, r: Recipe)
    requires allergenFilters != []
    requires r in FilteredRecipes(recipes, allergenFilters, dietaryFilters)
    ensures r in FilteredRecipes(recipes, allergenFilters + [tag], dietaryFilters)
  {
    FilterMeaning(recipes, allergenFilters, dietaryFilters, r);
    FilterMeaning(recipes, allergenFilters + [tag], dietaryFilters, r);
    var k :| 0 <= k < |allergenFilters| && allergenFilters[k].Name() in r.allergenTags;
    assert (allergenFilters + [tag])[k] == allergenFilters[k];
  }

  // ---------------------------------------------------------------------------------------------
  // Active and archived recipes

  function RecipeActive(r: Recipe): bool { !Truthy(r.archivedAt) }
  function RecipeArchived(r: Recipe): bool { Truthy(r.archivedAt) }

  /** The two lists split the filtered recipes on `archived_at`: together they hold every one of them,
      none twice, each in the filtered order. */
  lemma RecipesPartition(filtered: seq<Recipe>)
    ensures multiset(Filter(filtered, RecipeActive)) + multiset(Filter(filtered, RecipeArchived)) == multiset(filtered)
    ensures forall r :: !(r in Filter(filtered, RecipeActive) && r in Filter(filtered, RecipeArchived))
    ensures forall r :: r in Filter(filtered, RecipeArchived) <==> r in filtered && r.archivedAt.Some? && r.archivedAt.value != ""
    ensures IsSubsequence(Filter(filtered, RecipeActive), filtered)
    ensures IsSubsequence(Filter(filtered, RecipeArchived), filtered)
  {
    FilterPartition(filtered, RecipeActive, RecipeArchived);
    FilterIsSubsequence(filtered, RecipeActive);
    FilterIsSubsequence(filtered, RecipeArchived);
  }

  // ---------------------------------------------------------------------------------------------
  // Category groups

  const UNCATEGORIZED: string := "uncategorized"

  /** `recipe.category?.trim() || "uncategorized"` */
  function CategoryKey(r: Recipe): (key: string)
    ensures key != ""
  {
    match r.category
    case None => UNCATEGORIZED
    case Some(c) => if Trim(c) == "" then UNCATEGORIZED else Trim(c)
  }

  /** A recipe with no category, or a blank one, is filed under "uncategorized"; any other is filed under
      its trimmed category, which starts and ends with a non-space. */
  lemma CategoryKeyMeaning(r: Recipe)
    ensures r.category.None? || AllSpace(r.category.value) ==> CategoryKey(r) == UNCATEGORIZED
    ensures r.category.Some? && !AllSpace(r.category.value) ==>
      && CategoryKey(r) == Trim(r.category.value)
      && !IsSpace(CategoryKey(r)[0]) && !IsSpace(CategoryKey(r)[|CategoryKey(r)| - 1])
  {
    if r.category.Some? { TrimMeaning(r.category.value); }
  }

  /** The groups shown under "Active Recipes". */
  function CategoryGroups(active: seq<Recipe>): (groups: map<string, seq<Recipe>>)
    ensures forall key :: key in groups <==> exists r :: r in active && CategoryKey(r) == key
    ensures forall key :: key in groups ==> groups[key] == Filter(active, KeyIs(CategoryKey, key))
  {
    GroupByKeys(active, CategoryKey);
    GroupByBuckets(active, CategoryKey);
    GroupBy(active, CategoryKey)
  }

  /** The `reduce` building the groups, as a loop pushing each recipe onto its group. */
  method GroupByCategory(active: seq<Recipe>) returns (groups: map<string, seq<Recipe>>)
    ensures groups == CategoryGroups(active)
  {
    groups := map[];
    for i := 0 to |active|
      invariant groups == GroupBy(active[..i], CategoryKey)
    {
      var recipe := active[i];
      var key := CategoryKey(recipe);
      if key !in groups {
        groups := groups[key := []];
      }
      assert active[..i + 1][..i] == active[..i];
      groups := groups[key := groups[key] + [recipe]];
    }
    assert active[..|active|] == active;
  }

  /** Every active recipe lands in exactly one group, that of its key; each group keeps the list order. */
  lemma EachRecipeInOneGroup(active: seq<Recipe>, r: Recipe, key: string)
    requires r in active
    ensures CategoryKey(r) in CategoryGroups(active)
    ensures key in CategoryGroups(active) && r in CategoryGroups(active)[key] <==> key == CategoryKey(r)
    ensures key in CategoryGroups(active) ==> IsSubsequence(CategoryGroups(active)[key], active)
  {
    BucketIsFilter(active, CategoryKey, key);
    BucketIsFilter(active, CategoryKey, CategoryKey(r));
    GroupByKeys(active, CategoryKey);
    FilterIsSubsequence(active, KeyIs(CategoryKey, key));
  }

  /** The names an empty JavaScript object already answers through its prototype. */
  const OBJECT_PROTOTYPE_KEYS: set<string> := {
    "constructor", "hasOwnProperty", "isPrototypeOf", "propertyIsEnumerable", "toLocaleString", "toString",
    "valueOf", "__proto__", "__defineGetter__", "__defineSetter__", "__lookupGetter__", "__lookupSetter__"}

  /** A `reduce` into a plain object keyed by `key`, as written: `acc[k]` is already truthy for a
      prototype name, so no array is created and `push` throws; `None` is that exception. */
  function ObjectGroupBy<T>(s: seq<T>, key: T -> string): (r: Option<map<string, seq<T>>>)
    ensures r.Some? ==> forall k :: k in r.value ==> k !in OBJECT_PROTOTYPE_KEYS
    decreases |s|
  {
    if s == [] then Some(map[])
    else
      var init, x := s[..|s| - 1], s[|s| - 1];
      match ObjectGroupBy(init, key)
      case None => None
      case Some(acc) =>
        if key(x) in OBJECT_PROTOTYPE_KEYS then None
        else Some(acc[key(x) := Bucket(acc, key(x)) + [x]])
  }

  /** The category groups as the component computes them. */
  function CategoryGroupsAsWritten(active: seq<Recipe>): Option<map<string, seq<Recipe>>> {
    ObjectGroupBy(active, CategoryKey)
  }

  /** As written, the grouping is right exactly when no key is a prototype name; otherwise it throws. */
  lemma {:induction false} ObjectGroupByAgrees<T>(s: seq<T>, key: T -> string)
    ensures ObjectGroupBy(s, key).Some? <==> forall k :: 0 <= k < |s| ==> key(s[k]) !in OBJECT_PROTOTYPE_KEYS
    ensures ObjectGroupBy(s, key).Some? ==> ObjectGroupBy(s, key).value == GroupBy(s, key)
    decreases |s|
  {
    if s != [] {
      var init, x := s[..|s| - 1], s[|s| - 1];
      ObjectGroupByAgrees(init, key);
      assert forall k :: 0 <= k < |init| ==> init[k] == s[k];
    }
  }

  /** So the active list renders its groups exactly when no recipe's key is a prototype name. */
  lemma AsWrittenAgrees(active: seq<Recipe>)
    ensures CategoryGroupsAsWritten(active).Some? <==>
              forall k :: 0 <= k < |active| ==> CategoryKey(active[k]) !in OBJECT_PROTOTYPE_KEYS
    ensures CategoryGroupsAsWritten(active).Some? ==> CategoryGroupsAsWritten(active).value == CategoryGroups(active)
  {
    ObjectGroupByAgrees(active, CategoryKey);
  }

  lemma ConstructorKey(r: Recipe)
    requires r.category == Some("constructor")
    ensures CategoryKey(r) == "constructor"
  {
    assert Trim("constructor") == "constructor" by {
      assert !IsSpace('c') && !IsSpace('r');
      assert TrimStart("constructor") == "constructor";
      assert TrimEnd("constructor") == "constructor";
    }
  }

  lemma SingleConstructorKey<T>(x: T, key: T -> string)
    requires key(x) == "constructor"
    ensures ObjectGroupBy([x], key).None?
    ensures GroupBy([x], key) == map["constructor" := [x]]
  {
    assert [x][..0] == [];
    var empty := GroupBy<T>([], key);
    assert empty == map[];
    assert Bucket(empty, "constructor") + [x] == [x];
  }

  /** A recipe whose category is `constructor` makes the list fail to render, instead of showing a
      `constructor` group. */
  lemma ConstructorCategoryFails(r: Recipe)
    requires r.category == Some("constructor")
    ensures CategoryGroupsAsWritten([r]).None?
    ensures CategoryGroups([r]) == map["constructor" := [r]]
  {
    ConstructorKey(r);
    SingleConstructorKey(r, CategoryKey);
  }

  // ---------------------------------------------------------------------------------------------
  // Tags

  function IsNot<T(==)>(tag: T): T -> bool {
    (x: T) => x != tag
  }

  /** `toggleTag`: remove the tag where present, otherwise append it. */
  function ToggleTag<T(==,!new)>(tags: seq<T>, tag: T): (r: seq<T>)
    ensures tag in r <==> tag !in tags
    ensures forall x :: x != tag ==> (x in r <==> x in tags)
  {
    if tag in tags then Filter(tags, IsNot(tag)) else tags + [tag]
  }

  /** Toggling keeps a tag list free of duplicates. */
  lemma ToggleKeepsNoDuplicates<T(!new)>(tags: seq<T>, tag: T)
    requires NoDuplicates(tags)
    ensures NoDuplicates(ToggleTag(tags, tag))
  {
    if tag in tags {
      FilterIsSubsequence(tags, IsNot(tag));
      SubsequenceNoDuplicates(Filter(tags, IsNot(tag)), tags);
    }
  }

  lemma {:induction false} SubsequenceNoDuplicates<T>(r: seq<T>, s: seq<T>)
    requires IsSubsequence(r, s) && NoDuplicates(s)
    ensures NoDuplicates(r)
    decreases |s|
  {
    if r != [] {
      assert NoDuplicates(s[1..]) by {
        forall i, j | 0 <= i < j < |s[1..]| ensures s[1..][i] != s[1..][j] {
          assert s[1..][i] == s[i + 1] && s[1..][j] == s[j + 1];
        }
      }
      if r[0] == s[0] && IsSubsequence(r[1..], s[1..]) {
        SubsequenceNoDuplicates(r[1..], s[1..]);
        SubsequenceMembers(r[1..], s[1..]);
        forall i, j | 0 <= i < j < |r| ensures r[i] != r[j] {
          if i == 0 {
            assert r[j] == r[1..][j - 1] && r[1..][j - 1] in r[1..];
            var k :| 0 <= k < |s[1..]| && s[1..][k] == r[j];
            assert s[k + 1] == r[j];
          } else {
            assert r[i] == r[1..][i - 1] && r[j] == r[1..][j - 1];
          }
        }
      } else {
        SubsequenceNoDuplicates(r, s[1..]);
      }
    }
  }

  /** Toggling an absent tag twice gives back the original list. */
  lemma ToggleTwice<T(!new)>(tags: seq<T>, tag: T)
    requires tag !in tags
    ensures ToggleTag(ToggleTag(tags, tag), tag) == tags
  {
    FilterConcat(tags, [tag], IsNot(tag));
    FilterAll(tags, IsNot(tag));
    assert [tag][1..] == [];
  }

  // ---------------------------------------------------------------------------------------------
  // Scale preview

  /** The factor the preview scales by: target over yield when the yield is positive, 1 otherwise.
      A non-positive target is not rejected. */
  function ScaleFactor(yieldQty: Option<real>, target: real): (f: real)
    ensures Positive(yieldQty) ==> f * yieldQty.value == target
    ensures !Positive(yieldQty) ==> f == 1.0
  {
    if Positive(yieldQty) then target / yieldQty.value else 1.0
  }

  /** One row of the scale preview. */
  datatype PreviewRow = PreviewRow(qty: real, unit: string, name: string)

  /** `line.unit ?? line.ingredients?.unit_type ?? "unit"` */
  function LineUnitShown(line: RecipeLine): string {
    if line.unit.Some? then line.unit.value
    else if line.ingredient.Some? then line.ingredient.value.unitType
    else "unit"
  }

  /** `line.ingredients?.name ?? "Unknown"` */
  function LineNameShown(line: RecipeLine): string {
    if line.ingredient.Some? then line.ingredient.value.name else "Unknown"
  }

  /** The preview: one row per line, its quantity scaled, its unit and name as the preview shows them. */
  function ScalePreview(lines: seq<RecipeLine>, yieldQty: Option<real>, target: real): (rows: seq<PreviewRow>)
    ensures |rows| == |lines|
    ensures forall k :: 0 <= k < |lines| ==>
      rows[k].unit == LineUnitShown(lines[k]) && rows[k].name == LineNameShown(lines[k])
  {
    seq(|lines|, k requires 0 <= k < |lines| =>
      PreviewRow(lines[k].qty * ScaleFactor(yieldQty, target), LineUnitShown(lines[k]), LineNameShown(lines[k])))
  }

  /** Scaling keeps every line's share of the batch: each scaled quantity is to the target as the line
      quantity is to the yield; a target equal to the yield, or a missing yield, changes nothing. */
  lemma ScalePreviewProportional(lines: seq<RecipeLine>, yieldQty: Option<real>, target: real)
    ensures Positive(yieldQty) ==> forall k :: 0 <= k < |lines| ==>
      ScalePreview(lines, yieldQty, target)[k].qty * yieldQty.value == lines[k].qty * target
    ensures (!Positive(yieldQty) || target == yieldQty.value) ==> forall k :: 0 <= k < |lines| ==>
      ScalePreview(lines, yieldQty, target)[k].qty == lines[k].qty
  {
    var f := ScaleFactor(yieldQty, target);
    if Positive(yieldQty) {
      var y := yieldQty.value;
      forall k | 0 <= k < |lines|
        ensures ScalePreview(lines, yieldQty, target)[k].qty * y == lines[k].qty * target
      {
        calc {
          ScalePreview(lines, yieldQty, target)[k].qty * y;
          (lines[k].qty * f) * y;
          lines[k].qty * (f * y);
          lines[k].qty * target;
        }
      }
      if target == y {
        assert f == 1.0 by { assert f * y == 1.0 * y; }
      }
    }
  }

  // ---------------------------------------------------------------------------------------------
  // Validation

  const TITLE_TOO_SHORT: string := "Recipe title must be at least 2 characters."
  const TITLE_REQUIRED: string := "Recipe title is required."
  const YIELD_NOT_POSITIVE: string := "Yield quantity must be greater than 0."
  const SELECT_RECIPE_FIRST: string := "Select a recipe first."
  const SELECT_INGREDIENT: string := "Select an ingredient."
  const LINE_QTY_NOT_POSITIVE: string := "Quantity must be greater than 0."
  const NAME_TOO_SHORT: string := "Ingredient name must be at least 2 characters."
  const NEW_QTY_NOT_POSITIVE: string := "New ingredient quantity must be greater than 0."
  const DEFAULT_YIELD_UNIT: string := "batch"

  /** Why `createRecipe` refuses to insert, if it does: a trimmed title under 2 characters, then a yield
      not above 0. */
  function CreateRecipeError(title: string, yieldQty: Option<real>): (r: Option<string>)
    ensures r.Some? ==> r.value == TITLE_TOO_SHORT || r.value == YIELD_NOT_POSITIVE
    ensures r.None? ==> Positive(yieldQty)
  {
    if Utf16Length(Trim(title)) < 2 then Some(TITLE_TOO_SHORT)
    else if !Positive(yieldQty) then Some(YIELD_NOT_POSITIVE)
    else None
  }

  /** A recipe is accepted exactly when its trimmed title has at least 2 characters and its yield is above
      0; the title is reported first. */
  lemma CreateRecipeGate(title: string, yieldQty: Option<real>)
    ensures CreateRecipeError(title, yieldQty).None? <==> Utf16Length(Trim(title)) >= 2 && Positive(yieldQty)
    ensures Utf16Length(Trim(title)) < 2 ==> CreateRecipeError(title, yieldQty) == Some(TITLE_TOO_SHORT)
    ensures Utf16Length(Trim(title)) >= 2 && !Positive(yieldQty) ==> CreateRecipeError(title, yieldQty) == Some(YIELD_NOT_POSITIVE)
  {
  }

  /** The minimum counts UTF-16 code units: a title that trims to a single character is long enough
      exactly when that character lies outside the Basic Multilingual Plane, as an emoji does. */
  lemma TitleLengthInCodeUnits(title: string, c: char, yieldQty: Option<real>)
    requires Trim(title) == [c] && Positive(yieldQty)
    ensures CreateRecipeError(title, yieldQty).None? <==> c as int > 0xFFFF
  {
    assert [c][1..] == [];
  }

  /** A title of whitespace alone is always refused, whatever its length. */
  lemma BlankTitleRefused(title: string, yieldQty: Option<real>)
    requires AllSpace(title)
    ensures CreateRecipeError(title, yieldQty) == Some(TITLE_TOO_SHORT)
    ensures SaveRecipeError(title, yieldQty) == Some(TITLE_REQUIRED)
  {
    TrimMeaning(title);
  }

  /** Why `saveSelectedRecipeDetails` refuses to update, if it does: a blank title, then a yield not above 0. */
  function SaveRecipeError(title: string, yieldQty: Option<real>): (r: Option<string>)
    ensures r.Some? ==> r.value == TITLE_REQUIRED || r.value == YIELD_NOT_POSITIVE
    ensures r.None? ==> Positive(yieldQty)
  {
    if Trim(title) == "" then Some(TITLE_REQUIRED)
    else if !Positive(yieldQty) then Some(YIELD_NOT_POSITIVE)
    else None
  }

  /** Details are saved exactly when the title is not blank and the yield is above 0; the title is
      reported first. */
  lemma SaveRecipeGate(title: string, yieldQty: Option<real>)
    ensures SaveRecipeError(title, yieldQty).None? <==> !AllSpace(title) && Positive(yieldQty)
    ensures AllSpace(title) ==> SaveRecipeError(title, yieldQty) == Some(TITLE_REQUIRED)
    ensures !AllSpace(title) && !Positive(yieldQty) ==> SaveRecipeError(title, yieldQty) == Some(YIELD_NOT_POSITIVE)
  {
    TrimMeaning(title);
  }

  /** `unit.trim() || "batch"`: a blank unit is stored as "batch", any other unit trimmed. */
  function YieldUnitOrBatch(unit: string): (r: string)
    ensures r != ""
  {
    if Trim(unit) == "" then DEFAULT_YIELD_UNIT else Trim(unit)
  }

  lemma YieldUnitMeaning(unit: string)
    ensures AllSpace(unit) ==> YieldUnitOrBatch(unit) == DEFAULT_YIELD_UNIT
    ensures !AllSpace(unit) ==> var r := YieldUnitOrBatch(unit);
      r == Trim(unit) && !IsSpace(r[0]) && !IsSpace(r[|r| - 1])
  {
    TrimMeaning(unit);
  }

  /** `text.trim() || null` */
  function TrimmedOrNull(text: string): (r: Option<string>)
    ensures r.Some? ==> r.value != ""
  {
    if Trim(text) == "" then None else Some(Trim(text))
  }

  lemma TrimmedOrNullMeaning(text: string)
    ensures TrimmedOrNull(text).None? <==> AllSpace(text)
    ensures TrimmedOrNull(text).Some? ==> TrimmedOrNull(text).value == Trim(text)
  {
    TrimMeaning(text);
  }

  /** Why `addRecipeLine` refuses to insert, if it does: no recipe, then no ingredient, then a quantity
      not above 0. */
  function AddRecipeLineError(selectedRecipeId: Option<string>, ingredientId: string, qty: Option<real>)
    : (r: Option<string>)
    ensures r.None? <==> Truthy(selectedRecipeId) && ingredientId != "" && Positive(qty)
    ensures !Truthy(selectedRecipeId) ==> r == Some(SELECT_RECIPE_FIRST)
    ensures Truthy(selectedRecipeId) && ingredientId == "" ==> r == Some(SELECT_INGREDIENT)
    ensures Truthy(selectedRecipeId) && ingredientId != "" && !Positive(qty) ==> r == Some(LINE_QTY_NOT_POSITIVE)
  {
    if !Truthy(selectedRecipeId) then Some(SELECT_RECIPE_FIRST)
    else if ingredientId == "" then Some(SELECT_INGREDIENT)
    else if !Positive(qty) then Some(LINE_QTY_NOT_POSITIVE)
    else None
  }

  /** Why `addIngredientAndLine` refuses to insert, if it does: no recipe, then a trimmed name under 2
      characters, then a quantity not above 0. */
  function AddIngredientAndLineError(selectedRecipeId: Option<string>, name: string, qty: Option<real>)
    : (r: Option<string>)
    ensures r.None? ==> Truthy(selectedRecipeId) && Positive(qty)
    ensures !Truthy(selectedRecipeId) ==> r == Some(SELECT_RECIPE_FIRST)
  {
    if !Truthy(selectedRecipeId) then Some(SELECT_RECIPE_FIRST)
    else if Utf16Length(Trim(name)) < 2 then Some(NAME_TOO_SHORT)
    else if !Positive(qty) then Some(NEW_QTY_NOT_POSITIVE)
    else None
  }

  /** The ingredient and its line are inserted exactly when a recipe is selected, the trimmed name has at
      least 2 characters and the quantity is above 0, checked in that order. */
  lemma AddIngredientAndLineGate(selectedRecipeId: Option<string>, name: string, qty: Option<real>)
    ensures AddIngredientAndLineError(selectedRecipeId, name, qty).None? <==>
              Truthy(selectedRecipeId) && Utf16Length(Trim(name)) >= 2 && Positive(qty)
    ensures Truthy(selectedRecipeId) && Utf16Length(Trim(name)) < 2 ==>
              AddIngredientAndLineError(selectedRecipeId, name, qty) == Some(NAME_TOO_SHORT)
    ensures Truthy(selectedRecipeId) && Utf16Length(Trim(name)) >= 2 && !Positive(qty) ==>
              AddIngredientAndLineError(selectedRecipeId, name, qty) == Some(NEW_QTY_NOT_POSITIVE)
  {
  }

  function LineIdIsNot(lineId: string): RecipeLine -> bool {
    (line: RecipeLine) => line.id != lineId
  }

  /** `prev.filter((line) => line.id !== lineId)`: exactly the other lines, in their order. */
  function RemainingLines(lines: seq<RecipeLine>, lineId: string): (r: seq<RecipeLine>)
    ensures forall x :: x in r <==> x in lines && x.id != lineId
    ensures IsSubsequence(r, lines)
    ensures |r| < |lines| <==> exists k :: 0 <= k < |lines| && lines[k].id == lineId
  {
    var r := Filter(lines, LineIdIsNot(lineId));
    FilterIsSubsequence(lines, LineIdIsNot(lineId));
    RemovedCount(lines, lineId);
    r
  }

  lemma {:induction false} RemovedCount(lines: seq<RecipeLine>, lineId: string)
    ensures |Filter(lines, LineIdIsNot(lineId))| < |lines| <==> exists k :: 0 <= k < |lines| && lines[k].id == lineId
    decreases |lines|
  {
    if lines != [] {
      RemovedCount(lines[1..], lineId);
      if exists k :: 0 <= k < |lines[1..]| && lines[1..][k].id == lineId {
        var k :| 0 <= k < |lines[1..]| && lines[1..][k].id == lineId;
        assert lines[k + 1] == lines[1..][k];
      }
      if exists k :: 0 <= k < |lines| && lines[k].id == lineId {
        var k :| 0 <= k < |lines| && lines[k].id == lineId;
        if k > 0 { assert lines[1..][k - 1] == lines[k]; }
      }
    }
  }
}
