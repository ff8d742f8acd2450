/**
 * The weekly-plan workbench as a state machine: its fields are the component's state, its methods the
 * handlers. Every backend call a handler issues is appended to `requests`; the backend's answers are
 * parameters (`Reply` values for single calls, functions for the calls of a totals recalculation).
 */
module PlanWorkbench {
  import opened Wrappers
  import opened Text
  import opened Seqs
  import opened Sorting
  import opened Aggregate
  import opened WeeklyPlan

  /** A backend call the workbench issues. */
  datatype PlanRequest =
    | SelectPlans
    | SelectRecipes
    | SelectPlanItems(planId: string)
    | SelectRecipeLines(recipeIds: seq<string>)
    | AggregateLines(input: seq<IngredientLineInput>)
    | InsertPlan(title: string, weekStart: string, weekEnd: string)
    | InsertPlanItem(planId: string, recipeId: string, qty: real)
    | DeletePlanItem(itemId: string)

  const PLAN_CREATED: string := "Weekly plan created."
  const ITEM_ADDED: string := "Recipe added to plan."
  const ITEM_REMOVED: string := "Plan item removed."

  // ---------------------------------------------------------------------------------------------
  // What recalculating the totals does

  /** How `recalculateTotals` ends, given the backend's answers: the recipe-line query and the
      aggregation procedure. */
  datatype RecalcOutcome =
    | Cleared
    | LinesFailed(message: string)
    | AggregateFailed(message: string)
    | Aggregated(raw: seq<AggregatedTotal>)

  function RecalcPlan(items: seq<PlanItem>, fetchLines: seq<string> -> Reply<seq<PlanLine>>,
                      aggregator: seq<IngredientLineInput> -> Reply<seq<AggregatedTotal>>): (r: RecalcOutcome)
    ensures items == [] ==> r == Cleared
    ensures r.Aggregated? || r.AggregateFailed? ==>
      items != [] && fetchLines(RecipeIds(items)).Ok? && PlannedLineCount(items, fetchLines(RecipeIds(items)).value) > 0
  {
    if items == [] then Cleared
    else match fetchLines(RecipeIds(items))
      case Failed(m) => LinesFailed(m)
      case Ok(lines) =>
        ExpansionLength(items, lines);
        var input := ExpandPlan(items, GroupedLines(lines));
        if input == [] then Cleared
        else match aggregator(input)
          case Failed(m) => AggregateFailed(m)
          case Ok(raw) => Aggregated(raw)
  }

  /** The calls `recalculateTotals` issues, in order. */
  function RecalcRequests(items: seq<PlanItem>, fetchLines: seq<string> -> Reply<seq<PlanLine>>,
                          aggregator: seq<IngredientLineInput> -> Reply<seq<AggregatedTotal>>): (r: seq<PlanRequest>)
    ensures r == [] <==> items == []
    ensures items != [] ==> r[0] == SelectRecipeLines(RecipeIds(items))
    ensures forall k :: 1 <= k < |r| ==> k == 1 && r[k].AggregateLines?
  {
    if items == [] then []
    else
      var ids := RecipeIds(items);
      [SelectRecipeLines(ids)] +
      match fetchLines(ids)
        case Failed(_) => []
        case Ok(lines) =>
          var input := ExpandPlan(items, GroupedLines(lines));
          if input == [] then [] else [AggregateLines(input)]
  }

  /** The state recalculation leaves: cleared totals, an error beside the old totals, or the procedure's
      rows ordered by ingredient name. */
  predicate TotalsAfter(outcome: RecalcOutcome, le: (string, string) -> bool,
                        oldTotals: seq<AggregatedTotal>, oldError: Option<string>,
                        totals: seq<AggregatedTotal>, error: Option<string>)
  {
    match outcome
    case Cleared => totals == [] && error == oldError
    case LinesFailed(m) => totals == oldTotals && error == Some(m)
    case AggregateFailed(m) => totals == oldTotals && error == Some(m)
    case Aggregated(raw) => multiset(totals) == multiset(raw) && SortedBy(totals, TotalName, le) && error == oldError
  }

  predicate CallsAggregator(requests: seq<PlanRequest>) {
    exists k :: 0 <= k < |requests| && requests[k].AggregateLines?
  }

  /** A plan without items clears the totals and calls nothing. */
  lemma NoItemsNoCalls(fetchLines: seq<string> -> Reply<seq<PlanLine>>,
                       aggregator: seq<IngredientLineInput> -> Reply<seq<AggregatedTotal>>)
    ensures RecalcRequests([], fetchLines, aggregator) == []
    ensures RecalcPlan([], fetchLines, aggregator) == Cleared
  {
  }

  /** The aggregation procedure is called exactly when there are items, their lines were fetched, and
      those recipes have at least one line between them; it is then given the whole expansion. */
  lemma AggregatorCalledIff(items: seq<PlanItem>, fetchLines: seq<string> -> Reply<seq<PlanLine>>,
                            aggregator: seq<IngredientLineInput> -> Reply<seq<AggregatedTotal>>)
    ensures var reqs := RecalcRequests(items, fetchLines, aggregator);
      CallsAggregator(reqs) <==>
        && items != []
        && fetchLines(RecipeIds(items)).Ok?
        && PlannedLineCount(items, fetchLines(RecipeIds(items)).value) > 0
    ensures var reqs := RecalcRequests(items, fetchLines, aggregator);
      forall k :: 0 <= k < |reqs| && reqs[k].AggregateLines? ==>
        reqs[k].input == ExpandPlan(items, GroupedLines(fetchLines(RecipeIds(items)).value))
    ensures items != [] ==> RecalcRequests(items, fetchLines, aggregator)[0] == SelectRecipeLines(RecipeIds(items))
  {
    var reqs := RecalcRequests(items, fetchLines, aggregator);
    if items != [] && fetchLines(RecipeIds(items)).Ok? {
      var lines := fetchLines(RecipeIds(items)).value;
      ExpansionLength(items, lines);
      if PlannedLineCount(items, lines) > 0 {
        assert reqs[1].AggregateLines?;
      }
    }
  }

  // ---------------------------------------------------------------------------------------------
  // The component

  class WeeklyPlanWorkbench {
    var plans: seq<WeeklyPlan>
    /** The recipes offered in the "add recipe" picker. */
    var recipes: seq<PlanRecipe>
    var selectedPlanId: Option<string>
    var planItems: seq<PlanItem>
    var totals: seq<AggregatedTotal>

    var newPlanTitle: string
    var newWeekStart: string
    var newWeekEnd: string
    var itemRecipeId: string
    /** The number typed in the quantity field; `None` for input that is not a number. */
    var itemQty: Option<real>

    var loading: bool
    var error: Option<string>
    var success: Option<string>
    /** The calls issued so far, oldest first. */
    var requests: seq<PlanRequest>

    /** The initial state; `today` and `inSixDays` are the dates the clock gives for the week fields. */
    constructor (today: string, inSixDays: string)
      ensures plans == [] && recipes == [] && selectedPlanId == None && planItems == [] && totals == []
      ensures newPlanTitle == "This Week" && newWeekStart == today && newWeekEnd == inSixDays
      ensures itemRecipeId == "" && itemQty == Some(1.0)
      ensures !loading && error == None && success == None && requests == []
    {
      plans := [];
      recipes := [];
      selectedPlanId := None;
      planItems := [];
      totals := [];
      newPlanTitle := "This Week";
      newWeekStart := today;
      newWeekEnd := inSixDays;
      itemRecipeId := "";
      itemQty := Some(1.0);
      loading := false;
      error := None;
      success := None;
      requests := [];
    }

    /** `loadPlansAndRecipes`: both lists are fetched together; the first active plan is selected when
        nothing is. */
    method LoadPlansAndRecipes(plansReply: Reply<seq<WeeklyPlan>>, recipesReply: Reply<seq<PlanRecipe>>)
      modifies this`loading, this`error, this`requests, this`plans, this`recipes, this`selectedPlanId
      ensures !loading && requests == old(requests) + [SelectPlans, SelectRecipes]
      ensures plansReply.Failed? ==>
        && error == Some(plansReply.message)
        && plans == old(plans) && recipes == old(recipes) && selectedPlanId == old(selectedPlanId)
      ensures plansReply.Ok? && recipesReply.Failed? ==>
        && error == Some(recipesReply.message)
        && plans == old(plans) && recipes == old(recipes) && selectedPlanId == old(selectedPlanId)
      ensures plansReply.Ok? && recipesReply.Ok? ==>
        && error == None && plans == plansReply.value && recipes == SelectableRecipes(recipesReply.value)
        && selectedPlanId == (if Truthy(old(selectedPlanId)) then old(selectedPlanId) else DefaultPlanSelection(plans))
    {
      loading := true;
      error := None;
      requests := requests + [SelectPlans, SelectRecipes];
      loading := false;

      if plansReply.Failed? || recipesReply.Failed? {
        error := Some(if plansReply.Failed? then plansReply.message else recipesReply.message);
        return;
      }

      plans := plansReply.value;
      recipes := SelectableRecipes(recipesReply.value);
      if !Truthy(selectedPlanId) {
        selectedPlanId := DefaultPlanSelection(plans);
      }
    }

    /** `recalculateTotals`: fetch the items' recipe lines, group and expand them, aggregate, and show the
        procedure's rows sorted by ingredient name (`le` is the `localeCompare` order). */
    method RecalculateTotals(items: seq<PlanItem>, fetchLines: seq<string> -> Reply<seq<PlanLine>>,
                             aggregator: seq<IngredientLineInput> -> Reply<seq<AggregatedTotal>>,
                             le: (string, string) -> bool)
      requires TotalPreorder(le)
      modifies this`totals, this`error, this`requests
      ensures requests == old(requests) + RecalcRequests(items, fetchLines, aggregator)
      ensures TotalsAfter(RecalcPlan(items, fetchLines, aggregator), le, old(totals), old(error), totals, error)
    {
      if |items| == 0 {
        totals := [];
        return;
      }

      var recipeIds := RecipeIds(items);
      requests := requests + [SelectRecipeLines(recipeIds)];
      var linesReply := fetchLines(recipeIds);
      if linesReply.Failed? {
        error := Some(linesReply.message);
        return;
      }

      var linesByRecipe := GroupLinesByRecipe(linesReply.value);
      var aggregateInput := ExpandPlan(items, linesByRecipe);
      if |aggregateInput| == 0 {
        totals := [];
        return;
      }

      requests := requests + [AggregateLines(aggregateInput)];
      var totalsReply := aggregator(aggregateInput);
      if totalsReply.Failed? {
        error := Some(totalsReply.message);
        return;
      }

      var parsedTotals := new AggregatedTotal[|totalsReply.value|](k requires 0 <= k < |totalsReply.value| => totalsReply.value[k]);
      assert parsedTotals[..] == totalsReply.value;
      SortBy(parsedTotals, TotalName, le);
      totals := parsedTotals[..];
    }

    /** `loadPlanItems`: fetch the plan's items, then recalculate the totals from them. */
    method LoadPlanItems(planId: string, itemsReply: Reply<seq<PlanItem>>,
                         fetchLines: seq<string> -> Reply<seq<PlanLine>>,
                         aggregator: seq<IngredientLineInput> -> Reply<seq<AggregatedTotal>>,
                         le: (string, string) -> bool)
      requires TotalPreorder(le)
      modifies this`planItems, this`totals, this`error, this`requests
      ensures itemsReply.Failed? ==>
        && requests == old(requests) + [SelectPlanItems(planId)]
        && error == Some(itemsReply.message) && planItems == old(planItems) && totals == old(totals)
      ensures itemsReply.Ok? ==>
        && requests == old(requests) + [SelectPlanItems(planId)] + RecalcRequests(itemsReply.value, fetchLines, aggregator)
        && planItems == itemsReply.value
        && TotalsAfter(RecalcPlan(planItems, fetchLines, aggregator), le, old(totals), old(error), totals, error)
    {
      requests := requests + [SelectPlanItems(planId)];
      if itemsReply.Failed? {
        error := Some(itemsReply.message);
        return;
      }
      planItems := itemsReply.value;
      RecalculateTotals(planItems, fetchLines, aggregator, le);
    }

    /** The effect run when the selection changes: no plan clears the items and totals, a plan loads its
        items. */
    method SelectionChanged(itemsReply: Reply<seq<PlanItem>>,
                            fetchLines: seq<string> -> Reply<seq<PlanLine>>,
                            aggregator: seq<IngredientLineInput> -> Reply<seq<AggregatedTotal>>,
                            le: (string, string) -> bool)
      requires TotalPreorder(le)
      modifies this`planItems, this`totals, this`error, this`requests
      ensures !Truthy(selectedPlanId) ==>
        planItems == [] && totals == [] && error == old(error) && requests == old(requests)
      ensures Truthy(selectedPlanId) && itemsReply.Failed? ==>
        && requests == old(requests) + [SelectPlanItems(selectedPlanId.value)]
        && error == Some(itemsReply.message) && planItems == old(planItems) && totals == old(totals)
      ensures Truthy(selectedPlanId) && itemsReply.Ok? ==>
        && requests == old(requests) + [SelectPlanItems(selectedPlanId.value)]
                       + RecalcRequests(itemsReply.value, fetchLines, aggregator)
        && planItems == itemsReply.value
        && TotalsAfter(RecalcPlan(planItems, fetchLines, aggregator), le, old(totals), old(error), totals, error)
    {
      if !Truthy(selectedPlanId) {
        planItems := [];
        totals := [];
        return;
      }
      LoadPlanItems(selectedPlanId.value, itemsReply, fetchLines, aggregator, le);
    }

    /** `createPlan`: validate the form, insert the plan with its title trimmed, and select it. */
    method CreatePlan(insertReply: Reply<WeeklyPlan>)
      modifies this`error, this`success, this`requests, this`plans, this`selectedPlanId
      ensures CreatePlanError(newPlanTitle, newWeekStart, newWeekEnd).Some? ==>
        && error == CreatePlanError(newPlanTitle, newWeekStart, newWeekEnd) && success == None
        && requests == old(requests) && plans == old(plans) && selectedPlanId == old(selectedPlanId)
      ensures CreatePlanError(newPlanTitle, newWeekStart, newWeekEnd).None? ==>
        requests == old(requests) + [InsertPlan(Trim(newPlanTitle), newWeekStart, newWeekEnd)]
      ensures CreatePlanError(newPlanTitle, newWeekStart, newWeekEnd).None? && insertReply.Failed? ==>
        && error == Some(insertReply.message) && success == None
        && plans == old(plans) && selectedPlanId == old(selectedPlanId)
      ensures CreatePlanError(newPlanTitle, newWeekStart, newWeekEnd).None? && insertReply.Ok? ==>
        && error == None && success == Some(PLAN_CREATED)
        && plans == [insertReply.value] + old(plans) && selectedPlanId == Some(insertReply.value.id)
    {
      error := None;
      success := None;

      var rejected := CreatePlanError(newPlanTitle, newWeekStart, newWeekEnd);
      if rejected.Some? {
        error := rejected;
        return;
      }

      requests := requests + [InsertPlan(Trim(newPlanTitle), newWeekStart, newWeekEnd)];
      if insertReply.Failed? {
        error := Some(insertReply.message);
        return;
      }

      var created := insertReply.value;
      plans := [created] + plans;
      selectedPlanId := Some(created.id);
      success := Some(PLAN_CREATED);
    }

    /** `addPlanItem`: validate, insert the item, reload the plan's items and totals, reset the quantity.
        The success message is set also when the reload reports an error. */
    method AddPlanItem(insertReply: Ack, itemsReply: Reply<seq<PlanItem>>,
                       fetchLines: seq<string> -> Reply<seq<PlanLine>>,
                       aggregator: seq<IngredientLineInput> -> Reply<seq<AggregatedTotal>>,
                       le: (string, string) -> bool)
      requires TotalPreorder(le)
      modifies this`error, this`success, this`requests, this`planItems, this`totals, this`itemQty
      ensures AddPlanItemError(selectedPlanId, itemRecipeId, old(itemQty)).Some? ==>
        && error == AddPlanItemError(selectedPlanId, itemRecipeId, old(itemQty)) && success == None
        && requests == old(requests) && planItems == old(planItems) && totals == old(totals) && itemQty == old(itemQty)
      ensures AddPlanItemError(selectedPlanId, itemRecipeId, old(itemQty)).None? ==>
        var insert := InsertPlanItem(selectedPlanId.value, itemRecipeId, old(itemQty).value);
        && (insertReply.Failed? ==>
              && requests == old(requests) + [insert] && error == Some(insertReply.message) && success == None
              && planItems == old(planItems) && totals == old(totals) && itemQty == old(itemQty))
        && (insertReply.Ok? ==>
              && itemQty == Some(1.0) && success == Some(ITEM_ADDED)
              && (itemsReply.Failed? ==>
                    && requests == old(requests) + [insert, SelectPlanItems(selectedPlanId.value)]
                    && error == Some(itemsReply.message) && planItems == old(planItems) && totals == old(totals))
              && (itemsReply.Ok? ==>
                    && requests == old(requests) + [insert, SelectPlanItems(selectedPlanId.value)]
                                   + RecalcRequests(itemsReply.value, fetchLines, aggregator)
                    && planItems == itemsReply.value
                    && TotalsAfter(RecalcPlan(planItems, fetchLines, aggregator), le, old(totals), None, totals, error)))
    {
      error := None;
      success := None;

      var rejected := AddPlanItemError(selectedPlanId, itemRecipeId, itemQty);
      if rejected.Some? {
        error := rejected;
        return;
      }

      var planId := selectedPlanId.value;
      requests := requests + [InsertPlanItem(planId, itemRecipeId, itemQty.value)];
      if insertReply.Failed? {
        error := Some(insertReply.message);
        return;
      }

      LoadPlanItems(planId, itemsReply, fetchLines, aggregator, le);
      itemQty := Some(1.0);
      success := Some(ITEM_ADDED);
    }

    /** `removePlanItem`: delete the item, keep the others in order, and recalculate the totals from them.
        The success message is set also when the recalculation reports an error. */
    method RemovePlanItem(itemId: string, deleteReply: Ack,
                          fetchLines: seq<string> -> Reply<seq<PlanLine>>,
                          aggregator: seq<IngredientLineInput> -> Reply<seq<AggregatedTotal>>,
                          le: (string, string) -> bool)
      requires TotalPreorder(le)
      modifies this`error, this`success, this`requests, this`planItems, this`totals
      ensures deleteReply.Failed? ==>
        && requests == old(requests) + [DeletePlanItem(itemId)]
        && error == Some(deleteReply.message) && success == None
        && planItems == old(planItems) && totals == old(totals)
      ensures deleteReply.Ok? ==>
        && planItems == RemainingItems(old(planItems), itemId)
        && requests == old(requests) + [DeletePlanItem(itemId)] + RecalcRequests(planItems, fetchLines, aggregator)
        && TotalsAfter(RecalcPlan(planItems, fetchLines, aggregator), le, old(totals), None, totals, error)
        && success == Some(ITEM_REMOVED)
    {
      error := None;
      success := None;

      requests := requests + [DeletePlanItem(itemId)];
      if deleteReply.Failed? {
        error := Some(deleteReply.message);
        return;
      }

      var remaining := RemainingItems(planItems, itemId);
      planItems := remaining;
      RecalculateTotals(remaining, fetchLines, aggregator, le);
      success := Some(ITEM_REMOVED);
    }

    /** The plans listed as active. */
    function ActivePlans(): (r: seq<WeeklyPlan>)
      reads this
      ensures forall p :: p in r <==> p in plans && !Truthy(p.archivedAt)
    {
      Filter(plans, PlanActive)
    }

    /** The plans listed as archived. */
    function ArchivedPlans(): (r: seq<WeeklyPlan>)
      reads this
      ensures forall p :: p in r <==> p in plans && Truthy(p.archivedAt)
    {
      Filter(plans, PlanArchived)
    }

    /** The plan shown in the detail pane. */
    function SelectedPlan(): (r: Option<WeeklyPlan>)
      reads this
      ensures r.Some? ==> r.value in plans && Some(r.value.id) == selectedPlanId
      ensures r.Some? ==> exists k :: 0 <= k < |plans| && plans[k] == r.value
                            && forall j :: 0 <= j < k ==> Some(plans[j].id) != selectedPlanId
      ensures r.None? ==> forall p :: p in plans ==> Some(p.id) != selectedPlanId
    {
      FindPlan(plans, selectedPlanId)
    }
  }
}
