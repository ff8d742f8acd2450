# Hadley's Kitchen — a verified model of the client-side logic

Hadley's Kitchen is a baking planner. A signed-in baker keeps ingredients, writes recipes from them and
schedules recipes into weekly plans. The ingredient totals of a plan come from a database procedure that
converts units. This project models the deterministic logic around that procedure, and proves what the
logic promises:

- the request middleware that guards the signed-in area, and the login page's `next` destination;
- the navigation bar's visibility and highlight rules;
- the `useMobile` hook's hysteresis switch between the mobile and desktop layouts;
- the ingredients page's split into "your ingredients" and "shared defaults";
- the "Add Conversion Mapping" form on the reports page;
- the recipe workbench, covering:
  - the tag filter;
  - the active and archived lists;
  - the category groups;
  - tag toggling;
  - the scale preview;
  - the validation gates;
  - the handlers that create, update and delete recipes and lines;
- the weekly-plan workbench, covering:
  - how plan items and recipe lines become the aggregation input;
  - sorting the totals;
  - the plan lists;
  - the validation gates;
  - the handlers.

Pure code is modelled as functions and lemmas. The React components are classes whose fields are the
component state and whose methods are the handlers and effects.

Every backend call a handler issues is appended to a `requests` log. The backend's answers are parameters:
a `Reply` value (`Ok(value)` or `Failed(message)`) for one call, or a function for the calls of a totals
recalculation. `localeCompare` is an abstract total preorder `le`. A number field holds the parsed value,
with `None` for NaN or a failed parse, so `!(x > 0)` rejects it.

Modules, one per file:

- `Wrappers` (`Option`, `Reply`, JavaScript truthiness);
- `Text` (`trim`, `startsWith`, string `<`, ISO dates);
- `Seqs` (`filter`, `find`, grouping);
- `Sorting` (`sort` by one string key);
- `Units`, `RecipeTags` and `RecipeCategories` (the option lists);
- `Viewport`, `Nav`, `Middleware`, `Ingredients` and `ConversionForm`;
- `Recipes` and `RecipesWorkbench`;
- `Aggregate`, `WeeklyPlan` and `PlanWorkbench`.

## Model

| member | source | states |
|---|---|---|
| Text.TrimMeaning | app/app/recipes/recipes-workbench.tsx:207 | `trim()` leaves a string that neither starts nor ends with whitespace; the result is empty exactly when the input is all whitespace |
| Text.Trim | app/app/recipes/recipes-workbench.tsx:207 | `trim()` never lengthens a string; what it leaves is stated by Text.TrimMeaning |
| Text.TrimStartShape | app/app/recipes/recipes-workbench.tsx:207 | Trimming the start drops a run of whitespace and keeps the rest of the string as a suffix beginning with a non-space |
| Text.TrimEndShape | app/app/recipes/recipes-workbench.tsx:207 | Trimming the end drops a run of whitespace and keeps the rest as a prefix ending with a non-space |
| Text.TrimIdempotent | app/app/recipes/recipes-workbench.tsx:343 | Trimming twice is trimming once |
| Text.IsoDateOrder | app/app/weekly-plan/weekly-plan-workbench.tsx:198 | On `YYYY-MM-DD` strings, JavaScript `<` is calendar order (year, then month, then day) |
| Text.StrLess | app/app/weekly-plan/weekly-plan-workbench.tsx:198 | JavaScript `<` on strings. Text.StrLessTrichotomy makes it a strict total order, Text.StrLessConcat gives its behaviour on a shared prefix, and Text.IsoDateOrder makes it calendar order on dates |
| Text.Utf16Length | app/app/recipes/recipes-workbench.tsx:207-208 | `s.length` counts UTF-16 code units: at least the number of characters and at most twice it, and 0 exactly for the empty string |
| Text.DigitsOrder | app/app/weekly-plan/weekly-plan-workbench.tsx:198 | For digit strings of equal length, string order is numeric order and equality is numeric equality |
| Seqs.FilterPartition | app/app/weekly-plan/weekly-plan-workbench.tsx:301-302 | Filtering with a predicate and with its negation gives two disjoint lists that together hold every element of the input, as a multiset and by length |
| Seqs.FirstIndex | app/app/weekly-plan/weekly-plan-workbench.tsx:113 | `find`: the index found satisfies the predicate and no earlier element does; `None` means that no element does |
| Seqs.BucketIsFilter | app/app/weekly-plan/weekly-plan-workbench.tsx:153-158 | Each bucket of the grouping is exactly the elements with that key, in input order; an absent key reads as an empty bucket |
| Seqs.GroupingKeepsEveryElement | app/app/weekly-plan/weekly-plan-workbench.tsx:153-158 | The bucket sizes, summed over the keys of the grouping, equal the number of grouped elements |
| Sorting.SortBy | app/app/weekly-plan/weekly-plan-workbench.tsx:185 | The in-place sort leaves the array ordered by `le` on the key, and a permutation of what it held |
| Sorting.SortedCopy | app/app/recipes/recipes-workbench.tsx:249 | Sorting a list gives one ordered by the key, with the same elements as a multiset |
| Units.ParseUnitName | src/lib/units.ts:1-12 | Every unit's stored name reads back as that unit |
| Units.UnitOptionsComplete | src/lib/units.ts:1-12 | The picker offers every unit, exactly once: ten options |
| RecipeTags.TagNamesInjective | src/lib/recipe-tags.ts:1-16 | Distinct allergen tags, and distinct dietary tags, are stored as distinct strings |
| Viewport.NextIsMobile | src/lib/use-mobile.ts:16-24 | At or below breakpoint − 24 the layout is mobile, above breakpoint + 24 it is desktop, and in between it keeps its previous state |
| Viewport.ApplyIdempotent | src/lib/use-mobile.ts:16-24 | Reacting twice to one width is the same as reacting once |
| Viewport.BandKeepsState | src/lib/use-mobile.ts:19-22 | Any series of widths inside the dead band leaves the layout unchanged |
| Viewport.LastWidthDecides | src/lib/use-mobile.ts:19-22 | When the last width lies outside the band, the layout depends on that width alone |
| Viewport.MobileViewport.constructor | src/lib/use-mobile.ts:5-6 | The hook starts in the desktop layout with the given breakpoint |
| Viewport.MobileViewport.Default | src/lib/use-mobile.ts:5-6 | Without an argument the breakpoint is 900 pixels, and the hook starts in the desktop layout |
| Viewport.MobileViewport.Apply | src/lib/use-mobile.ts:16-24 | A resize sets `isMobile` to the transition of its previous value and the width |
| Nav.Render | app/app-shell-nav.tsx:16-40 | The bar renders exactly on paths starting with `/app`, with every item in order and its highlight flag |
| Nav.Visible | app/app-shell-nav.tsx:16 | The bar shows only on paths starting with `/app`; Nav.Render renders exactly there, and Nav.ActiveImpliesVisible shows that a highlighted link implies it |
| Nav.IsActive | app/app-shell-nav.tsx:40 | A link is highlighted on its own path, and every link except the dashboard also below it; Nav.AtMostOneActive proves that at most one link is highlighted |
| Nav.NavItemsShape | app/app-shell-nav.tsx:6-12 | There are five links, each distinct and inside `/app`, and no link other than the dashboard is a prefix of another |
| Nav.ActiveImpliesVisible | app/app-shell-nav.tsx:40 | A highlighted link implies that the bar is shown |
| Nav.AtMostOneActive | app/app-shell-nav.tsx:40 | No path highlights two links |
| Middleware.GetParam | app/login/page.tsx:11 | `searchParams.get` is absent exactly when no pair has the name; otherwise it is the value of the first pair with that name |
| Middleware.SetThenGet | src/middleware.ts:33 | After `searchParams.set`, the name reads as the new value and occurs once, and every other name reads as before |
| Middleware.SetParam | src/middleware.ts:33 | `searchParams.set`; Middleware.SetThenGet proves the new value reads back, the name occurs once, and every other name reads as before |
| Middleware.ProtectedIsAppArea | src/middleware.ts:28 | A path is protected exactly when it starts with `/app`, so `/login` and `/signup` never are |
| Middleware.IsProtected | src/middleware.ts:28 | Some protected prefix starts the path; Middleware.ProtectedIsAppArea shows that this means the path starts with `/app` |
| Middleware.Decide | src/middleware.ts:27-43 | A redirect to `/login` happens exactly for a protected path without a user, and carries `next` set to the path. A redirect to `/app` happens exactly for `/login` or `/signup` with a user. Every other request passes through |
| Middleware.RedirectsExclusive | src/middleware.ts:30-41 | The two redirect conditions never hold together |
| Middleware.LoginDestination | app/login/page.tsx:11 | The login page goes to the `next` parameter when it is present and non-empty, and to `/app` otherwise (also for `?next=`), so never to the empty path |
| Middleware.LoginRoundTrip | src/middleware.ts:30-35 | A signed-out visit to a protected page goes to login; after sign-in the user returns to that page, and the middleware then lets the request through |
| Middleware.DefaultDestination | app/login/page.tsx:11 | Without `next` the user lands on `/app`, where a signed-in request passes |
| Ingredients.MyIngredients | app/app/ingredients/page.tsx:24 | "Your ingredients" are exactly the rows whose owner id is present, non-empty and the user's |
| Ingredients.SharedIngredients | app/app/ingredients/page.tsx:25 | "Shared defaults" are exactly the rows without an owner |
| Ingredients.ListsDisjoint | app/app/ingredients/page.tsx:24-25 | No row is in both lists, and a row another user owns is in neither |
| Ingredients.SignedOutOwnsNothing | app/app/ingredients/page.tsx:24 | With no user signed in, "your ingredients" is empty |
| Ingredients.ListsKeepFetchOrder | app/app/ingredients/page.tsx:24-25 | Both lists keep the name order of the fetch and are subsequences of it |
| ConversionForm.SubmitError | app/app/reports/add-conversion-form.tsx:53-62 | A submit is acceptable exactly when an ingredient is chosen and the factor is above 0; the ingredient is checked first |
| ConversionForm.AddConversionForm.constructor | app/app/reports/add-conversion-form.tsx:31-37 | The form is prefilled from the first missing row, else with "", `cup` and `g`; the factor starts at 1 |
| ConversionForm.AddConversionForm.ApplyMissingRow | app/app/reports/add-conversion-form.tsx:39-45 | Only the ingredient and the two units are copied from the row, and both messages are cleared; the factor is kept |
| ConversionForm.AddConversionForm.OnSubmit | app/app/reports/add-conversion-form.tsx:47-83 | A rejected submit reports its error and inserts nothing. An accepted one inserts the form's values unchanged. On success the factor resets to 1 and the page refreshes; on failure the factor is kept. `saving` ends false on every path |
| Recipes.SomeIncludedIff | app/app/recipes/recipes-workbench.tsx:491-496 | `filters.some(tag => tags.includes(tag))` holds exactly when some chosen tag is among the recipe's tags |
| Recipes.FilteredRecipes | app/app/recipes/recipes-workbench.tsx:490-498 | The filtered list is a subsequence of the recipes |
| Recipes.FilterMeaning | app/app/recipes/recipes-workbench.tsx:490-498 | A recipe is listed exactly when, in each dimension, no tag is chosen or the recipe carries a chosen tag: OR within a dimension, AND across them |
| Recipes.PassesFilter | app/app/recipes/recipes-workbench.tsx:490-498 | The filter callback; Recipes.FilterMeaning states which recipes it keeps: any chosen tag within a dimension, both dimensions together |
| Recipes.NoFiltersKeepAll | app/app/recipes/recipes-workbench.tsx:490-498 | With no tag chosen, every recipe is listed, in order |
| Recipes.MoreAllergenTagsWiden | app/app/recipes/recipes-workbench.tsx:491-493 | Choosing one more allergen tag never hides a recipe that was listed |
| Recipes.RecipesPartition | app/app/recipes/recipes-workbench.tsx:499-500 | The active and archived lists hold every filtered recipe between them, none in both, each in the filtered order; archived means a non-empty `archived_at` |
| Recipes.CategoryKeyMeaning | app/app/recipes/recipes-workbench.tsx:502 | A missing or blank category is filed under "uncategorized"; any other category under its trimmed name |
| Recipes.CategoryKey | app/app/recipes/recipes-workbench.tsx:502 | The group key is never empty, because a blank category falls back to "uncategorized" |
| Recipes.CategoryGroups | app/app/recipes/recipes-workbench.tsx:501-506 | There is a group exactly for the keys some active recipe has, and each group holds exactly the recipes with its key, in list order |
| Recipes.GroupByCategory | app/app/recipes/recipes-workbench.tsx:501-506 | The loop that pushes each recipe onto its group builds exactly the grouping by category key |
| Recipes.EachRecipeInOneGroup | app/app/recipes/recipes-workbench.tsx:501-506 | Every active recipe is in the group of its key and in no other group, and each group keeps the list order |
| Recipes.ObjectGroupByAgrees | app/app/recipes/recipes-workbench.tsx:501-506 | The `reduce` into a plain object succeeds exactly when no key names a property of `Object.prototype`, and then it equals the proper grouping |
| Recipes.ObjectGroupBy | app/app/recipes/recipes-workbench.tsx:501-506 | When the `reduce` into a plain object finishes, no group is named after an `Object.prototype` property; Recipes.ObjectGroupByAgrees gives when it finishes and what it builds |
| Recipes.AsWrittenAgrees | app/app/recipes/recipes-workbench.tsx:501-506 | The category groups render exactly when no recipe's key names a property of `Object.prototype`, and then they are the proper groups |
| Recipes.CategoryGroupsAsWritten | app/app/recipes/recipes-workbench.tsx:501-506 | The groups as the component builds them; Recipes.AsWrittenAgrees proves they render exactly when no key is a prototype name, and then equal Recipes.CategoryGroups |
| Recipes.ConstructorCategoryFails | app/app/recipes/recipes-workbench.tsx:501-506 | A recipe whose category is `constructor` makes the grouping throw, where the proper grouping has a `constructor` group |
| Recipes.ToggleTag | app/app/recipes/recipes-workbench.tsx:333-335 | After a toggle the tag is present exactly when it was absent, and every other tag is present as before |
| Recipes.ToggleKeepsNoDuplicates | app/app/recipes/recipes-workbench.tsx:333-335 | Toggling keeps a duplicate-free tag list duplicate-free |
| Recipes.ToggleTwice | app/app/recipes/recipes-workbench.tsx:333-335 | Toggling an absent tag twice gives back the original list |
| Recipes.ScaleFactor | app/app/recipes/recipes-workbench.tsx:1167-1170 | With a yield above 0, the factor times the yield is the target; otherwise the factor is 1 |
| Recipes.ScalePreview | app/app/recipes/recipes-workbench.tsx:1166-1177 | The preview has one row per line, with the line's unit and name as the preview shows them |
| Recipes.ScalePreviewProportional | app/app/recipes/recipes-workbench.tsx:1166-1171 | Each scaled quantity stands to the target as the line quantity stands to the yield; with no usable yield, or a target equal to it, quantities are unchanged |
| Recipes.CreateRecipeGate | app/app/recipes/recipes-workbench.tsx:207-216 | A new recipe is accepted exactly when its trimmed title is at least 2 UTF-16 code units long and its yield is above 0; the title is reported first |
| Recipes.CreateRecipeError | app/app/recipes/recipes-workbench.tsx:207-216 | A refusal is the short-title or the yield message, and an accepted recipe has a yield above 0; Recipes.CreateRecipeGate gives exactly when and in which order |
| Recipes.TitleLengthInCodeUnits | app/app/recipes/recipes-workbench.tsx:207-211 | For every title that trims to a single character and a yield above 0, the recipe is accepted exactly when that character lies above U+FFFF, which makes it two UTF-16 code units, as an emoji is |
| Recipes.BlankTitleRefused | app/app/recipes/recipes-workbench.tsx:343 | An all-whitespace title is refused both on create and on save, whatever its length |
| Recipes.SaveRecipeGate | app/app/recipes/recipes-workbench.tsx:342-350 | Details are saved exactly when the title is not blank and the yield is above 0; the title is reported first |
| Recipes.SaveRecipeError | app/app/recipes/recipes-workbench.tsx:342-350 | A refusal is the title-required or the yield message, and accepted details have a yield above 0; Recipes.SaveRecipeGate gives exactly when and in which order |
| Recipes.YieldUnitMeaning | app/app/recipes/recipes-workbench.tsx:226 | A blank yield unit is stored as "batch", any other one trimmed |
| Recipes.TrimmedOrNullMeaning | app/app/recipes/recipes-workbench.tsx:233-234 | A blank description or instructions text is stored as null, any other trimmed |
| Recipes.AddRecipeLineError | app/app/recipes/recipes-workbench.tsx:443-455 | A line is accepted exactly with a selected recipe, a chosen ingredient and a quantity above 0, reported in that order |
| Recipes.AddIngredientAndLineGate | app/app/recipes/recipes-workbench.tsx:385-399 | A new ingredient and its line are accepted exactly with a selected recipe, a trimmed name at least 2 UTF-16 code units long and a quantity above 0, reported in that order |
| Recipes.AddIngredientAndLineError | app/app/recipes/recipes-workbench.tsx:385-399 | Without a selected recipe the form is refused with "Select a recipe first.", and an accepted form has a selection and a quantity above 0; Recipes.AddIngredientAndLineGate gives the other refusals |
| Recipes.RemainingLines | app/app/recipes/recipes-workbench.tsx:486 | Removing a line keeps exactly the other lines, in order; the list shrinks exactly when some line has that id |
| RecipesWorkbench.EditorRoundTrip | app/app/recipes/recipes-workbench.tsx:132-148 | When the editor is loaded from a recipe and saved at once, the update writes back that recipe's category, yield and tags, and its title trimmed |
| RecipesWorkbench.LoadedSelection | app/app/recipes/recipes-workbench.tsx:181-184 | After loading, a present selection is kept. Otherwise the first active recipe in the list is selected when there is one, and with no active recipe the selection stays as it was |
| RecipesWorkbench.NextAfterDelete | app/app/recipes/recipes-workbench.tsx:324-327 | The selection after deleting the selected recipe is the first active recipe of the list other than the deleted one, or none when no other recipe is active |
| RecipesWorkbench.RecipesWorkbench.constructor | app/app/recipes/recipes-workbench.tsx:54-102 | The initial state: empty lists, no selection, blank forms (category bread, yield 1, unit batch, units g), and the create dialog as the session says |
| RecipesWorkbench.RecipesWorkbench.Filtered | app/app/recipes/recipes-workbench.tsx:490-498 | The filtered list is a subsequence of the loaded recipes |
| RecipesWorkbench.RecipesWorkbench.ActiveList | app/app/recipes/recipes-workbench.tsx:499 | The active list holds exactly the filtered recipes without `archived_at` |
| RecipesWorkbench.RecipesWorkbench.ArchivedList | app/app/recipes/recipes-workbench.tsx:500 | The archived list holds exactly the filtered recipes with `archived_at` |
| RecipesWorkbench.RecipesWorkbench.SelectedRecipe | app/app/recipes/recipes-workbench.tsx:104 | The selected recipe is the first loaded one with the selected id; none means that no loaded recipe has it |
| RecipesWorkbench.RecipesWorkbench.Preview | app/app/recipes/recipes-workbench.tsx:1143-1177 | There is a preview exactly when a recipe is selected and it has lines. The preview is then the line list scaled from that recipe's yield to the requested output, one row per line |
| RecipesWorkbench.RecipesWorkbench.LoadRecipesAndIngredients | app/app/recipes/recipes-workbench.tsx:150-185 | Both lists are requested. A failure reports its message and keeps the old lists. Success replaces both lists and applies the loaded-selection rule |
| RecipesWorkbench.RecipesWorkbench.LoadRecipeLines | app/app/recipes/recipes-workbench.tsx:187-200 | The recipe's lines are requested; success replaces the lines, failure reports its message and keeps them |
| RecipesWorkbench.RecipesWorkbench.SelectionChanged | app/app/recipes/recipes-workbench.tsx:118-124 | With a selection the recipe's lines are loaded; without one the lines are cleared and nothing is requested |
| RecipesWorkbench.RecipesWorkbench.IngredientChanged | app/app/recipes/recipes-workbench.tsx:126-130 | The chosen ingredient's non-empty unit type becomes the line unit; otherwise the line unit is kept |
| RecipesWorkbench.RecipesWorkbench.LoadEditor | app/app/recipes/recipes-workbench.tsx:132-148 | The editor shows the selected recipe's fields, missing ones as defaults; without a selection it is unchanged |
| RecipesWorkbench.RecipesWorkbench.CreateRecipe | app/app/recipes/recipes-workbench.tsx:202-265 | A rejected form reports its error and inserts nothing. An accepted one inserts the normalised draft. On success the new recipe joins the title-sorted list and is selected, the form resets and the dialog closes. When rejected or failed, nothing changes but the messages, and the dialog stays as it was |
| RecipesWorkbench.RecipesWorkbench.AddCreatedRecipe | app/app/recipes/recipes-workbench.tsx:248-262 | The list becomes the old recipes plus the new one, sorted by title; the new one is selected and the form is blank |
| RecipesWorkbench.RecipesWorkbench.HideCreateRecipeModal | app/app/recipes/recipes-workbench.tsx:111-116 | The create dialog is closed |
| RecipesWorkbench.RecipesWorkbench.SaveSelectedRecipeDetails | app/app/recipes/recipes-workbench.tsx:337-378 | Without a selection nothing happens. A rejected editor reports its error and updates nothing. An accepted one sends the normalised update for the selected id, then reloads the lists and reports the update. A failed reload of either list shows its message and keeps both lists. `loading` ends false after a reload and is untouched otherwise |
| RecipesWorkbench.RecipesWorkbench.DeleteRecipePermanently | app/app/recipes/recipes-workbench.tsx:297-331 | Unconfirmed, nothing happens. Otherwise the plan items go before the recipe, stopping at the first failure with its message. A failed delete keeps both lists, the loading flag and the selection. After both deletes, success is reported and loading ends. A reload in which both queries succeed replaces both lists with their results; a failed reload keeps both lists, shows the first failure's message and keeps the selection. A deleted selection moves to the next active recipe of the list shown before and clears the lines |
| RecipesWorkbench.RecipesWorkbench.RefreshAfterDelete | app/app/recipes/recipes-workbench.tsx:323-330 | After a delete, success is reported and loading ends. When both queries succeed, the recipes and the ingredients become exactly their results; when one fails, both lists are kept, its message is shown and the selection is unchanged. A selection on the deleted recipe moves off it |
| RecipesWorkbench.RecipesWorkbench.ToggleAllergenFilter | app/app/recipes/recipes-workbench.tsx:552 | The allergen filter is toggled by the tag |
| RecipesWorkbench.RecipesWorkbench.ToggleDietaryFilter | app/app/recipes/recipes-workbench.tsx:575 | The dietary filter is toggled by the tag |
| RecipesWorkbench.RecipesWorkbench.ToggleRecipeAllergenTag | app/app/recipes/recipes-workbench.tsx:829 | The editor's allergen tags are toggled by the tag's name, all else kept |
| RecipesWorkbench.RecipesWorkbench.ToggleRecipeDietaryTag | app/app/recipes/recipes-workbench.tsx:851 | The editor's dietary tags are toggled by the tag's name, all else kept |
| RecipesWorkbench.RecipesWorkbench.AddIngredientAndLine | app/app/recipes/recipes-workbench.tsx:380-436 | A rejected form reports its error and inserts nothing. Otherwise the trimmed ingredient is inserted; on failure that is all. On success the ingredient joins the name-sorted list and its line is inserted in the chosen unit, and if that succeeds the lines reload and the form resets. A failed ingredient insert or a failed line insert leaves the line list as it was |
| RecipesWorkbench.RecipesWorkbench.AddLineForCreated | app/app/recipes/recipes-workbench.tsx:416-435 | The line for the created ingredient is inserted in the chosen line unit, else the ingredient's unit type. On success the lines reload and the form resets |
| RecipesWorkbench.RecipesWorkbench.AddCreatedIngredient | app/app/recipes/recipes-workbench.tsx:412-414 | The ingredient list becomes the old list plus the new row, sorted by name |
| RecipesWorkbench.RecipesWorkbench.AddRecipeLine | app/app/recipes/recipes-workbench.tsx:438-474 | A rejected form reports its error and inserts nothing. Otherwise the line is inserted, with a blank unit as null. On success the lines reload and the quantity clears |
| RecipesWorkbench.RecipesWorkbench.DeleteRecipeLineById | app/app/recipes/recipes-workbench.tsx:476-488 | The delete is requested; on success exactly that line leaves the list, on failure the list is kept and the error shown |
| WeeklyPlan.Dedupe | app/app/weekly-plan/weekly-plan-workbench.tsx:141 | `[...new Set(xs)]` has no duplicates and the same members as `xs` |
| WeeklyPlan.DedupeKeepsFirstOccurrenceOrder | app/app/weekly-plan/weekly-plan-workbench.tsx:141 | `[...new Set(xs)]` lists the values in the order of their first occurrences in `xs` |
| WeeklyPlan.RecipeIds | app/app/weekly-plan/weekly-plan-workbench.tsx:141 | The recipe ids are duplicate-free and are exactly the recipes the items refer to |
| WeeklyPlan.GroupLinesByRecipe | app/app/weekly-plan/weekly-plan-workbench.tsx:153-158 | The loop gives a bucket to exactly the recipes that have lines, each bucket holding that recipe's lines in fetch order |
| WeeklyPlan.LookupGrouped | app/app/weekly-plan/weekly-plan-workbench.tsx:161 | `linesByRecipe.get(id) ?? []` is exactly that recipe's lines |
| WeeklyPlan.ItemInputs | app/app/weekly-plan/weekly-plan-workbench.tsx:162-167 | An item gives one input per line of its recipe, keeping the line's ingredient, quantity and unit, with the multiplier set to the item's quantity |
| WeeklyPlan.ExpandConcat | app/app/weekly-plan/weekly-plan-workbench.tsx:160-168 | The expansion of two item lists joined is the two expansions joined: items keep their order |
| WeeklyPlan.ExpandPlan | app/app/weekly-plan/weekly-plan-workbench.tsx:160-168 | `items.flatMap`: WeeklyPlan.ExpandConcat keeps the items' order, WeeklyPlan.ExpansionLength gives one entry per planned recipe line, and WeeklyPlan.ExpansionMembers gives every entry's item and every item's inputs |
| WeeklyPlan.ExpansionLength | app/app/weekly-plan/weekly-plan-workbench.tsx:160-168 | The expansion has one entry per line of each item's recipe, summed over the items |
| WeeklyPlan.ItemInputsMembers | app/app/weekly-plan/weekly-plan-workbench.tsx:162-167 | An item's inputs are exactly its recipe's lines carrying the item's batch count |
| WeeklyPlan.ExpansionMembers | app/app/weekly-plan/weekly-plan-workbench.tsx:160-168 | Every entry of the expansion is an input of some item, and every item's inputs are in it |
| WeeklyPlan.LinelessRecipesContributeNothing | app/app/weekly-plan/weekly-plan-workbench.tsx:160-168 | Items whose recipes have no lines give an empty expansion |
| WeeklyPlan.TwoItemsOfOneRecipe | app/app/weekly-plan/weekly-plan-workbench.tsx:160-168 | Planning one recipe twice feeds its lines twice, each copy with its own batch count |
| WeeklyPlan.PlansPartition | app/app/weekly-plan/weekly-plan-workbench.tsx:301-302 | The active and archived plan lists hold every plan between them, none in both, each in order |
| WeeklyPlan.SelectableRecipes | app/app/weekly-plan/weekly-plan-workbench.tsx:110 | The recipes offered for planning are exactly the non-archived ones, in order |
| WeeklyPlan.DefaultPlanSelection | app/app/weekly-plan/weekly-plan-workbench.tsx:112-115 | The default plan is the first non-archived one; there is none exactly when every plan is archived |
| WeeklyPlan.FindPlan | app/app/weekly-plan/weekly-plan-workbench.tsx:303 | The plan found is the first with the selected id; none means that no plan has it |
| WeeklyPlan.CreatePlanGate | app/app/weekly-plan/weekly-plan-workbench.tsx:194-200 | A plan is accepted exactly with a non-blank title, both dates given and the end not before the start as strings; a blank title is reported first |
| WeeklyPlan.CreatePlanError | app/app/weekly-plan/weekly-plan-workbench.tsx:194-200 | A refusal is the title message or the week-range message; WeeklyPlan.CreatePlanGate gives exactly when and in which order |
| WeeklyPlan.CreatePlanDateGate | app/app/weekly-plan/weekly-plan-workbench.tsx:198 | For dates from date inputs, the range is accepted exactly when the end is not before the start in the calendar, so a one-day week is allowed |
| WeeklyPlan.AddPlanItemError | app/app/weekly-plan/weekly-plan-workbench.tsx:232-243 | An item is accepted exactly with a selected plan, a chosen recipe and a quantity above 0, reported in that order |
| WeeklyPlan.RemainingItems | app/app/weekly-plan/weekly-plan-workbench.tsx:273 | Removing an item keeps exactly the other items, in order |
| PlanWorkbench.NoItemsNoCalls | app/app/weekly-plan/weekly-plan-workbench.tsx:136-139 | A plan without items clears the totals and calls nothing |
| PlanWorkbench.RecalcPlan | app/app/weekly-plan/weekly-plan-workbench.tsx:135-187 | A plan without items clears the totals. The aggregation procedure answers, with rows or a failure, only when there are items, their lines were fetched, and those recipes have at least one line |
| PlanWorkbench.RecalcRequests | app/app/weekly-plan/weekly-plan-workbench.tsx:135-187 | A plan without items issues no call; any other plan first queries its recipes' lines, then issues at most one further call, the aggregation. PlanWorkbench.AggregatorCalledIff states when that call is made and with which input |
| PlanWorkbench.AggregatorCalledIff | app/app/weekly-plan/weekly-plan-workbench.tsx:141-177 | Recalculating first fetches the lines of the items' recipes. The procedure runs exactly when there are items, their lines were fetched and those recipes have a line between them, and it then receives the whole expansion |
| PlanWorkbench.WeeklyPlanWorkbench.constructor | app/app/weekly-plan/weekly-plan-workbench.tsx:52-71 | The initial state: empty lists, no selection, title "This Week", the week from today to six days on, quantity 1 |
| PlanWorkbench.WeeklyPlanWorkbench.LoadPlansAndRecipes | app/app/weekly-plan/weekly-plan-workbench.tsx:86-116 | Both lists are requested. A failure reports its message and keeps the state. Success shows the plans and the non-archived recipes, and selects the first active plan when none is selected |
| PlanWorkbench.WeeklyPlanWorkbench.RecalculateTotals | app/app/weekly-plan/weekly-plan-workbench.tsx:135-187 | The calls are those of the recalculation, in order. The totals are cleared, kept beside an error, or become the procedure's rows sorted by ingredient name |
| PlanWorkbench.WeeklyPlanWorkbench.LoadPlanItems | app/app/weekly-plan/weekly-plan-workbench.tsx:118-133 | The plan's items are requested; on success they are shown and the totals recalculated from them, on failure the error is shown |
| PlanWorkbench.WeeklyPlanWorkbench.SelectionChanged | app/app/weekly-plan/weekly-plan-workbench.tsx:77-84 | Without a selection the items and totals are cleared; with one its items are loaded |
| PlanWorkbench.WeeklyPlanWorkbench.CreatePlan | app/app/weekly-plan/weekly-plan-workbench.tsx:189-225 | A rejected form reports its error and inserts nothing. An accepted one inserts the trimmed title and the dates, and on success puts the new plan first and selects it |
| PlanWorkbench.WeeklyPlanWorkbench.AddPlanItem | app/app/weekly-plan/weekly-plan-workbench.tsx:227-261 | A rejected form reports its error and inserts nothing. Otherwise the item is inserted, and on success the plan's items and totals reload, the quantity resets to 1 and success is reported |
| PlanWorkbench.WeeklyPlanWorkbench.RemovePlanItem | app/app/weekly-plan/weekly-plan-workbench.tsx:263-277 | The delete is requested; on success exactly the other items stay, in order, and the totals are recalculated from them |
| PlanWorkbench.WeeklyPlanWorkbench.ActivePlans | app/app/weekly-plan/weekly-plan-workbench.tsx:301 | The active plans are exactly the plans without `archived_at` |
| PlanWorkbench.WeeklyPlanWorkbench.ArchivedPlans | app/app/weekly-plan/weekly-plan-workbench.tsx:302 | The archived plans are exactly the plans with `archived_at` |
| PlanWorkbench.WeeklyPlanWorkbench.SelectedPlan | app/app/weekly-plan/weekly-plan-workbench.tsx:303 | The plan shown is the first with the selected id; none means that no plan has it |

## Left out

- The database procedures `aggregate_ingredient_lines` and `get_missing_conversions` run in the database. Aggregation is an uninterpreted function, and the missing-conversion rows are an input. Unit conversion is not modelled, and neither is the thin server wrapper in `src/lib/planner/aggregate.ts`.
- All Supabase queries, inserts, updates and deletes, `getUser`, and `router.push`/`refresh` are modelled as requests in the `requests` log and as backend replies passed in. Server-side ordering (`order(...)`) is a property of the reply, not computed here.
- Concurrency: every handler runs to completion before the next one starts. In the component, handlers `await` and can interleave. Stale closures are not modelled either; `deleteRecipePermanently` reads `recipes` as it was before the reload, and the model does the same.
- React effects are methods the caller invokes after the state change that triggers them (`SelectionChanged`, `IngredientChanged`, `LoadEditor`). The dependency tracking is not modelled.
- Floating point: quantities are `real`. `Number.parseFloat` is modelled by the parsed value, with `None` for NaN or a failed parse. Display rounding (`toFixed(3)`, `Math.round(x*1000)/1000`) is not modelled.
- `localeCompare` is an abstract total preorder, not a locale collation. The stability of `Array.prototype.sort` is not stated: the sort contracts give order and permutation only.
- The clock, `window.sessionStorage`, `window.confirm` and the resize listeners are parameters: the week dates, the create dialog's initial visibility, `confirmed`, and the widths passed to `Apply`. Registering and removing listeners is not modelled.
- `setRecipeArchived` and `setPlanArchived` are not modelled, because they write the clock's current time as the archive stamp.
- The recipe timing fields (fermentation, proof, bake temperature and minutes) are not modelled. They are optional numbers copied into inserts and updates without any check.
- Null tag arrays on a fetched recipe are not modelled; the component reads them with `?? []`.
- The fallback messages "Failed to load …" are shown only when the backend reports an error without a message. Every failed reply in the model carries its message.
- The URL's origin, hash and the middleware's matcher configuration are not modelled; only the path and the query parameters are.
- Strings are sequences of Unicode scalar values, not UTF-16 code units. The two 2-character minimums, in Recipes.CreateRecipeError and Recipes.AddIngredientAndLineError, count code units explicitly (Text.Utf16Length). String `<` (Text.StrLess) compares scalar values, which differs from the code-unit order only for characters outside the Basic Multilingual Plane.
- The sort of the category groups by name for display is not modelled, and neither is the markup: JSX, styling, and which messages are shown where.
- The create form, the editor and the inline ingredient form are each one record field (`newRecipe`, `editor`, `inline`), not one field per input; their `onChange` setters are plain field assignments.
- Recipes.CreateRecipeError, Recipes.SaveRecipeError and WeeklyPlan.CreatePlanError: their own contracts state only which messages they can return. The full acceptance conditions, in terms of the trimmed title, are stated by CreateRecipeGate, SaveRecipeGate and CreatePlanGate.
- Recipes.AddIngredientAndLineError: its own contract states only the first check, and that acceptance needs a selected recipe and a quantity above 0. AddIngredientAndLineGate states the full condition.
- Ingredients.MyIngredients follows the code: an owner id that is the empty string is not "yours", because of the truthiness check on `owner_id`.
- Recipes.ScaleFactor follows the code: a target of 0 or below is not rejected, so it gives a factor of 0 or below.

## Findings

| source | as written | input that shows it | evidently intended | confidence | as-written member | corrected member |
|---|---|---|---|---|---|---|
| app/app/recipes/recipes-workbench.tsx:501-506 | `recipesByCategory` reduces into a plain object `{}` and tests `if (!acc[key])`. A key such as `constructor` finds a function on `Object.prototype`, so no array is created and `acc[key].push` throws, and the recipe list fails to render. | one active recipe with category `"constructor"`. The recipe forms choose categories from a fixed list, so such a row must be written outside this page | a group named `constructor` holding that recipe, as for any other category | not executed | Recipes.CategoryGroupsAsWritten, Recipes.ConstructorCategoryFails | Recipes.GroupByCategory, Recipes.CategoryGroups |
