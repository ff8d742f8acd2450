/**
 * The records exchanged with the ingredient-aggregation stored procedure. The procedure itself runs in
 * the database and is not modelled: callers receive it as an uninterpreted function.
 */
module Aggregate {
  import opened Wrappers

  /** One usage of an ingredient: `qty` of `unit`, to be taken `multiplier` times. */
  datatype IngredientLineInput = IngredientLineInput(ingredientId: string, qty: real, unit: Option<string>, multiplier: real)

  /** One row of the procedure's answer: an ingredient's total in its canonical unit, and how many of its
      lines had no conversion into that unit. */
  datatype AggregatedTotal = AggregatedTotal(
    ingredientId: string, ingredientName: string, canonicalUnit: string, totalQty: real, missingLineCount: int)

  function TotalName(t: AggregatedTotal): string { t.ingredientName }
}
