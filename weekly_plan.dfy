/**
 * The weekly-plan workbench's own logic: turning the plan's items and their recipes' lines into the
 * input of the aggregation procedure, the plan and recipe lists it shows, and its validation rules.
 */
module WeeklyPlan {
  import opened Wrappers
  import opened Text
  import opened Seqs
  import opened Aggregate

  datatype WeeklyPlan = WeeklyPlan(id: string, title: string, weekStart: string, weekEnd: string, archivedAt: Option<string>)

  datatype PlanRecipe = PlanRecipe(id: string, title: string, yieldQty: Option<real>, yieldUnit: Option<string>, archivedAt: Option<string>)

  /** A recipe scheduled in a plan; `qty` is the number of batches. */
  datatype PlanItem = PlanItem(id: string, recipeId: string, qty: real)

  /** A line of a recipe as the plan fetches it. */
  datatype PlanLine = PlanLine(recipeId: string, ingredientId: string, qty: real, unit: Option<string>)

  // ---------------------------------------------------------------------------------------------
  // The recipes the plan's lines are fetched for

  /** `[...new Set(xs)]`: each value once, where it first occurs. */
  function Dedupe(xs: seq<string>): (r: seq<string>)
    ensures NoDuplicates(r)
    ensures forall x :: x in r <==> x in xs
    decreases |xs|
  {
    if xs == [] then []
    else
      var init, last := xs[..|xs| - 1], xs[|xs| - 1];
      assert xs == init + [last];
      var d := Dedupe(init);
      if last in d then d else d + [last]
  }

  /** The index of the first occurrence of `x` in `xs`. */
  function FirstPosition(xs: seq<string>, x: string): (i: nat)
    requires x in xs
    ensures i < |xs| && xs[i] == x && forall j :: 0 <= j < i ==> xs[j] != x
  {
    if xs[0] == x then 0 else 1 + FirstPosition(xs[1..], x)
  }

  /** A value of a prefix first occurs in the whole list where it first occurs in the prefix. */
  lemma FirstPositionInPrefix(xs: seq<string>, n: nat, x: string)
    requires n <= |xs| && x in xs[..n]
    ensures FirstPosition(xs, x) == FirstPosition(xs[..n], x)
  {
    var i, p := FirstPosition(xs[..n], x), FirstPosition(xs, x);
    assert xs[i] == x;
  }

  /** `Dedupe` lists the values in the order of their first occurrences. */
  lemma {:induction false} DedupeKeepsFirstOccurrenceOrder(xs: seq<string>)
    ensures forall i, j :: 0 <= i < j < |Dedupe(xs)| ==>
              FirstPosition(xs, Dedupe(xs)[i]) < FirstPosition(xs, Dedupe(xs)[j])
    decreases |xs|
  {
    if xs != [] {
      var init, last := xs[..|xs| - 1], xs[|xs| - 1];
      assert xs == init + [last];
      var d := Dedupe(init);
      DedupeKeepsFirstOccurrenceOrder(init);
      forall y | y in d ensures FirstPosition(xs, y) == FirstPosition(init, y) {
        FirstPositionInPrefix(xs, |xs| - 1, y);
      }
      if last !in d {
        var r := d + [last];
        forall i, j | 0 <= i < j < |r| ensures FirstPosition(xs, r[i]) < FirstPosition(xs, r[j]) {
          assert r[i] == d[i] && r[i] in d;
          if j < |d| { assert r[j] == d[j] && r[j] in d; }
        }
      }
    }
  }

  function ItemRecipeIds(items: seq<PlanItem>): (r: seq<string>)
    ensures |r| == |items| && forall k :: 0 <= k < |items| ==> r[k] == items[k].recipeId
  {
    seq(|items|, k requires 0 <= k < |items| => items[k].recipeId)
  }

  /** `recipeIds`: the distinct recipes the items refer to. */
  function RecipeIds(items: seq<PlanItem>): (r: seq<string>)
    ensures NoDuplicates(r)
    ensures forall id :: id in r <==> exists k :: 0 <= k < |items| && items[k].recipeId == id
  {
    var ids := ItemRecipeIds(items);
    assert forall id :: id in ids <==> exists k :: 0 <= k < |items| && items[k].recipeId == id by {
      forall id | id in ids ensures exists k :: 0 <= k < |items| && items[k].recipeId == id {
        var k :| 0 <= k < |ids| && ids[k] == id;
      }
      forall id | exists k :: 0 <= k < |items| && items[k].recipeId == id ensures id in ids {
        var k :| 0 <= k < |items| && items[k].recipeId == id;
        assert ids[k] == id;
      }
    }
    Dedupe(ids)
  }

  // ---------------------------------------------------------------------------------------------
  // Grouping the fetched lines by recipe

  function LineRecipe(l: PlanLine): string { l.recipeId }

  /** The lines of one recipe, in fetch order. */
  function LinesOf(lines: seq<PlanLine>, recipeId: string): seq<PlanLine> {
    Filter(lines, KeyIs(LineRecipe, recipeId))
  }

  /** The map `linesByRecipe` the loop builds. */
  function GroupedLines(lines: seq<PlanLine>): map<string, seq<PlanLine>> {
    GroupBy(lines, LineRecipe)
  }

  /** The loop building `linesByRecipe`: each line pushed onto the end of its recipe's bucket; so every
      recipe with lines has a bucket, holding exactly its lines in fetch order. */
  method GroupLinesByRecipe(lines: seq<PlanLine>) returns (linesByRecipe: map<string, seq<PlanLine>>)
    ensures linesByRecipe == GroupedLines(lines)
    ensures linesByRecipe.Keys == KeysOf(lines, LineRecipe)
    ensures forall k :: k in linesByRecipe ==> linesByRecipe[k] == LinesOf(lines, k)
  {
    linesByRecipe := map[];
    for i := 0 to |lines|
      invariant linesByRecipe == GroupBy(lines[..i], LineRecipe)
    {
      var line := lines[i];
      var current := if line.recipeId in linesByRecipe then linesByRecipe[line.recipeId] else [];
      assert lines[..i + 1][..i] == lines[..i];
      linesByRecipe := linesByRecipe[line.recipeId := current + [line]];
    }
    assert lines[..|lines|] == lines;
    GroupByKeys(lines, LineRecipe);
    forall k | k in linesByRecipe ensures linesByRecipe[k] == LinesOf(lines, k) {
      BucketIsFilter(lines, LineRecipe, k);
    }
  }

  /** The bucket `recalculateTotals` reads for a recipe holds exactly that recipe's lines. */
  lemma LookupGrouped(lines: seq<PlanLine>, recipeId: string)
    ensures Bucket(GroupedLines(lines), recipeId) == LinesOf(lines, recipeId)
  {
    BucketIsFilter(lines, LineRecipe, recipeId);
  }

  // ---------------------------------------------------------------------------------------------
  // Expansion into the aggregation input

  /** The aggregation input for one line of a planned recipe: the line, taken the item's number of batches. */
  function ToInput(line: PlanLine, item: PlanItem): IngredientLineInput {
    IngredientLineInput(line.ingredientId, line.qty, line.unit, item.qty)
  }

  /** `recipeLines.map(...)` for one item. */
  function ItemInputs(item: PlanItem, lines: seq<PlanLine>): (r: seq<IngredientLineInput>)
    ensures |r| == |lines| && forall k :: 0 <= k < |lines| ==> r[k] == ToInput(lines[k], item)
  {
    seq(|lines|, k requires 0 <= k < |lines| => ToInput(lines[k], item))
  }

  /** `items.flatMap(...)`: for each item in order, one input per line of its recipe. */
  function ExpandPlan(items: seq<PlanItem>, linesByRecipe: map<string, seq<PlanLine>>): seq<IngredientLineInput>
    decreases |items|
  {
    if items == [] then []
    else ItemInputs(items[0], Bucket(linesByRecipe, items[0].recipeId)) + ExpandPlan(items[1..], linesByRecipe)
  }

  /** The number of lines the items' recipes have. */
  function PlannedLineCount(items: seq<PlanItem>, lines: seq<PlanLine>): nat
    decreases |items|
  {
    if items == [] then 0 else |LinesOf(lines, items[0].recipeId)| + PlannedLineCount(items[1..], lines)
  }

  lemma {:induction false} ExpandConcat(a: seq<PlanItem>, b: seq<PlanItem>, linesByRecipe: map<string, seq<PlanLine>>)
    ensures ExpandPlan(a + b, linesByRecipe) == ExpandPlan(a, linesByRecipe) + ExpandPlan(b, linesByRecipe)
    decreases |a|
  {
    if a == [] {
      assert a + b == b;
    } else {
      assert (a + b)[0] == a[0] && (a + b)[1..] == a[1..] + b;
      ExpandConcat(a[1..], b, linesByRecipe);
    }
  }

  /** The expansion has one entry per planned recipe line. */
  lemma {:induction false} ExpansionLength(items: seq<PlanItem>, lines: seq<PlanLine>)
    ensures |ExpandPlan(items, GroupedLines(lines))| == PlannedLineCount(items, lines)
    decreases |items|
  {
    if items != [] {
      ExpansionLength(items[1..], lines);
      LookupGrouped(lines, items[0].recipeId);
    }
  }

  /** The inputs of one item are its recipe's lines, each carrying the item's batch count. */
  lemma ItemInputsMembers(item: PlanItem, ls: seq<PlanLine>)
    ensures forall e :: e in ItemInputs(item, ls) <==> exists l :: l in ls && e == ToInput(l, item)
  {
    var r := ItemInputs(item, ls);
    forall e | e in r ensures exists l :: l in ls && e == ToInput(l, item) {
      var j :| 0 <= j < |r| && r[j] == e;
      assert ls[j] in ls;
    }
    forall e | exists l :: l in ls && e == ToInput(l, item) ensures e in r {
      var l :| l in ls && e == ToInput(l, item);
      var j :| 0 <= j < |ls| && ls[j] == l;
      assert r[j] == e;
    }
  }

  /** Every entry of the expansion comes from some item, and every item's inputs are in the expansion. */
  lemma {:induction false} ExpansionMembers(items: seq<PlanItem>, lines: seq<PlanLine>)
    ensures forall e :: e in ExpandPlan(items, GroupedLines(lines)) <==>
              exists k :: 0 <= k < |items| && e in ItemInputs(items[k], LinesOf(lines, items[k].recipeId))
    decreases |items|
  {
    var g := GroupedLines(lines);
    if items != [] {
      ExpansionMembers(items[1..], lines);
      LookupGrouped(lines, items[0].recipeId);
      var head := ItemInputs(items[0], LinesOf(lines, items[0].recipeId));
      var tail := ExpandPlan(items[1..], g);
      assert ExpandPlan(items, g) == head + tail;
      forall e ensures e in head + tail <==>
          exists k :: 0 <= k < |items| && e in ItemInputs(items[k], LinesOf(lines, items[k].recipeId)) {
        if e in tail {
          var k :| 0 <= k < |items[1..]| && e in ItemInputs(items[1..][k], LinesOf(lines, items[1..][k].recipeId));
          assert items[1..][k] == items[k + 1];
        }
        if exists k :: 0 <= k < |items| && e in ItemInputs(items[k], LinesOf(lines, items[k].recipeId)) {
          var k :| 0 <= k < |items| && e in ItemInputs(items[k], LinesOf(lines, items[k].recipeId));
          if k > 0 {
            assert items[1..][k - 1] == items[k];
          }
        }
      }
    }
  }

  /** Items whose recipes have no lines contribute nothing. */
  lemma {:induction false} LinelessRecipesContributeNothing(items: seq<PlanItem>, lines: seq<PlanLine>)
    requires forall k :: 0 <= k < |items| ==> items[k].recipeId !in KeysOf(lines, LineRecipe)
    ensures ExpandPlan(items, GroupedLines(lines)) == []
    decreases |items|
  {
    if items != [] {
      GroupByKeys(lines, LineRecipe);
      LinelessRecipesContributeNothing(items[1..], lines);
    }
  }

  /** Planning a recipe twice feeds its lines twice, each copy with its own batch count. */
  lemma TwoItemsOfOneRecipe(a: PlanItem, b: PlanItem, lines: seq<PlanLine>)
    requires a.recipeId == b.recipeId
    ensures var ls := LinesOf(lines, a.recipeId);
      ExpandPlan([a, b], GroupedLines(lines)) == ItemInputs(a, ls) + ItemInputs(b, ls)
  {
    var g := GroupedLines(lines);
    LookupGrouped(lines, a.recipeId);
    assert [a, b][1..] == [b] && [b][1..] == [];
    assert ExpandPlan([b], g) == ItemInputs(b, Bucket(g, b.recipeId)) + [];
  }

  // ---------------------------------------------------------------------------------------------
  // Plan and recipe lists

  /** `!x.archived_at` */
  predicate NotArchived(archivedAt: Option<string>) { !Truthy(archivedAt) }

  function PlanActive(p: WeeklyPlan): bool { NotArchived(p.archivedAt) }
  function PlanArchived(p: WeeklyPlan): bool { Truthy(p.archivedAt) }
  function RecipeSelectable(r: PlanRecipe): bool { NotArchived(r.archivedAt) }

  /** The plans listed under "Weekly Plans" and under "Archived": every plan lands in exactly one list. */
  lemma PlansPartition(plans: seq<WeeklyPlan>)
    ensures multiset(Filter(plans, PlanActive)) + multiset(Filter(plans, PlanArchived)) == multiset(plans)
    ensures forall p :: !(p in Filter(plans, PlanActive) && p in Filter(plans, PlanArchived))
    ensures forall p :: p in Filter(plans, PlanArchived) <==> p in plans && p.archivedAt.Some? && p.archivedAt.value != ""
    ensures IsSubsequence(Filter(plans, PlanActive), plans) && IsSubsequence(Filter(plans, PlanArchived), plans)
  {
    FilterPartition(plans, PlanActive, PlanArchived);
    FilterIsSubsequence(plans, PlanActive);
    FilterIsSubsequence(plans, PlanArchived);
  }

  /** The recipes offered for planning: the fetched ones that are not archived. */
  function SelectableRecipes(recipes: seq<PlanRecipe>): (r: seq<PlanRecipe>)
    ensures forall x :: x in r <==> x in recipes && !Truthy(x.archivedAt)
    ensures IsSubsequence(r, recipes)
  {
    FilterIsSubsequence(recipes, RecipeSelectable);
    Filter(recipes, RecipeSelectable)
  }

  /** The plan selected after loading when none is selected yet: the first active one, if any. */
  function DefaultPlanSelection(plans: seq<WeeklyPlan>): (r: Option<string>)
    ensures r.None? <==> forall j :: 0 <= j < |plans| ==> PlanArchived(plans[j])
    ensures r.Some? ==> exists k :: 0 <= k < |plans| && plans[k].id == r.value && PlanActive(plans[k])
                            && forall j :: 0 <= j < k ==> PlanArchived(plans[j])
  {
    match FirstIndex(plans, PlanActive)
    case None => None
    case Some(k) => Some(plans[k].id)
  }

  function HasPlanId(id: Option<string>): WeeklyPlan -> bool {
    (p: WeeklyPlan) => Some(p.id) == id
  }

  /** `plans.find((plan) => plan.id === selectedPlanId) ?? null` */
  function FindPlan(plans: seq<WeeklyPlan>, id: Option<string>): (r: Option<WeeklyPlan>)
    ensures r.Some? ==> r.value in plans && Some(r.value.id) == id
    ensures r.Some? ==> exists k :: 0 <= k < |plans| && plans[k] == r.value
                          && forall j :: 0 <= j < k ==> Some(plans[j].id) != id
    ensures r.None? ==> forall p :: p in plans ==> Some(p.id) != id
  {
    match FirstIndex(plans, HasPlanId(id))
    case None => None
    case Some(k) => Some(plans[k])
  }

  // ---------------------------------------------------------------------------------------------
  // Validation

  const PLAN_TITLE_REQUIRED: string := "Plan title is required."
  const INVALID_WEEK_RANGE: string := "Choose a valid week range."
  const SELECT_PLAN_FIRST: string := "Select a weekly plan first."
  const SELECT_RECIPE: string := "Select a recipe."
  const QTY_NOT_POSITIVE: string := "Quantity must be greater than 0."

  /** Why `createPlan` refuses to insert, if it does: a blank title, then a missing or reversed week. */
  function CreatePlanError(title: string, weekStart: string, weekEnd: string): (r: Option<string>)
    ensures r.Some? ==> r.value == PLAN_TITLE_REQUIRED || r.value == INVALID_WEEK_RANGE
  {
    if Trim(title) == "" then Some(PLAN_TITLE_REQUIRED)
    else if weekStart == "" || weekEnd == "" || StrLess(weekEnd, weekStart) then Some(INVALID_WEEK_RANGE)
    else None
  }

  /** A plan is accepted exactly when its title is not blank, both dates are given and the end is not
      before the start; a blank title is reported first. */
  lemma CreatePlanGate(title: string, weekStart: string, weekEnd: string)
    ensures CreatePlanError(title, weekStart, weekEnd).None? <==>
              !AllSpace(title) && weekStart != "" && weekEnd != "" && !StrLess(weekEnd, weekStart)
    ensures AllSpace(title) ==> CreatePlanError(title, weekStart, weekEnd) == Some(PLAN_TITLE_REQUIRED)
    ensures !AllSpace(title) && CreatePlanError(title, weekStart, weekEnd).Some? ==>
              CreatePlanError(title, weekStart, weekEnd) == Some(INVALID_WEEK_RANGE)
  {
    TrimMeaning(title);
  }

  /** For two dates picked in date inputs, the week range is accepted exactly when it does not end
      before it starts in the calendar: a one-day week is allowed. */
  lemma CreatePlanDateGate(title: string, weekStart: string, weekEnd: string)
    requires IsIsoDate(weekStart) && IsIsoDate(weekEnd)
    ensures CreatePlanError(title, weekStart, weekEnd).None? <==>
              !AllSpace(title) && !ChronologicallyBefore(weekEnd, weekStart)
  {
    CreatePlanGate(title, weekStart, weekEnd);
    IsoDateOrder(weekEnd, weekStart);
  }

  /** Why `addPlanItem` refuses to insert, if it does: no plan, then no recipe, then a quantity not above 0. */
  function AddPlanItemError(selectedPlanId: Option<string>, recipeId: string, qty: Option<real>): (r: Option<string>)
    ensures r.None? <==> Truthy(selectedPlanId) && recipeId != "" && Positive(qty)
    ensures !Truthy(selectedPlanId) ==> r == Some(SELECT_PLAN_FIRST)
    ensures Truthy(selectedPlanId) && recipeId == "" ==> r == Some(SELECT_RECIPE)
    ensures Truthy(selectedPlanId) && recipeId != "" && !Positive(qty) ==> r == Some(QTY_NOT_POSITIVE)
  {
    if !Truthy(selectedPlanId) then Some(SELECT_PLAN_FIRST)
    else if recipeId == "" then Some(SELECT_RECIPE)
    else if !Positive(qty) then Some(QTY_NOT_POSITIVE)
    else None
  }

  function ItemIdIsNot(itemId: string): PlanItem -> bool {
    (item: PlanItem) => item.id != itemId
  }

  /** `planItems.filter((item) => item.id !== itemId)`: exactly the other items, in their order. */
  function RemainingItems(items: seq<PlanItem>, itemId: string): (r: seq<PlanItem>)
    ensures forall x :: x in r <==> x in items && x.id != itemId
    ensures IsSubsequence(r, items)
  {
    FilterIsSubsequence(items, ItemIdIsNot(itemId));
    Filter(items, ItemIdIsNot(itemId))
  }
}
