/**
 * The "Add Conversion Mapping" form of the reports page: it is prefilled from the first missing
 * conversion, can be refilled from any missing row, and validates before inserting a conversion.
 */
module ConversionForm {
  import opened Wrappers
  import opened Units

  /** A row of the missing-conversions report (computed by the database, not here). */
  datatype MissingConversionRow =
    MissingConversionRow(ingredientId: string, ingredientName: string, fromUnit: string, toUnit: string, lineCount: int)

  datatype IngredientOption = IngredientOption(id: string, name: string, unitType: string)

  /** The row the form inserts into the conversions table. */
  datatype ConversionInsert = ConversionInsert(ingredientId: string, fromUnit: string, toUnit: string, factor: real)

  /** A backend or navigation call the form issues. */
  datatype FormRequest = InsertConversion(row: ConversionInsert) | RefreshPage

  const CHOOSE_INGREDIENT: string := "Choose an ingredient."
  const FACTOR_NOT_POSITIVE: string := "Factor must be greater than 0."
  const CONVERSION_SAVED: string := "Conversion saved."

  /** The error `onSubmit` reports before inserting anything, if any: the ingredient is checked first. */
  function SubmitError(ingredientId: string, factor: Option<real>): (r: Option<string>)
    ensures r.None? <==> ingredientId != "" && Positive(factor)
    ensures ingredientId == "" ==> r == Some(CHOOSE_INGREDIENT)
    ensures ingredientId != "" && !Positive(factor) ==> r == Some(FACTOR_NOT_POSITIVE)
  {
    if ingredientId == "" then Some(CHOOSE_INGREDIENT)
    else if !Positive(factor) then Some(FACTOR_NOT_POSITIVE)
    else None
  }

  class AddConversionForm {
    const ingredients: seq<IngredientOption>
    const missing: seq<MissingConversionRow>

    var ingredientId: string
    var fromUnit: string
    var toUnit: string
    /** The number typed in the factor field; `None` for input that is not a number. */
    var factor: Option<real>
    var saving: bool
    var error: Option<string>
    var success: Option<string>
    /** The calls issued so far, oldest first. */
    var requests: seq<FormRequest>

    /** Prefilled from the first missing conversion; without one the pickers show cup and g. */
    constructor (ingredients: seq<IngredientOption>, missing: seq<MissingConversionRow>)
      ensures this.ingredients == ingredients && this.missing == missing
      ensures ingredientId == (if missing != [] then missing[0].ingredientId else "")
      ensures fromUnit == (if missing != [] then missing[0].fromUnit else Cup.Name())
      ensures toUnit == (if missing != [] then missing[0].toUnit else G.Name())
      ensures factor == Some(1.0) && !saving && error == None && success == None && requests == []
    {
      this.ingredients := ingredients;
      this.missing := missing;
      ingredientId := if missing != [] then missing[0].ingredientId else "";
      fromUnit := if missing != [] then missing[0].fromUnit else Cup.Name();
      toUnit := if missing != [] then missing[0].toUnit else G.Name();
      factor := Some(1.0);
      saving := false;
      error := None;
      success := None;
      requests := [];
    }

    /** Clicking a missing row copies its ingredient and units; the factor is left as typed. */
    method ApplyMissingRow(row: MissingConversionRow)
      modifies this`ingredientId, this`fromUnit, this`toUnit, this`success, this`error
      ensures ingredientId == row.ingredientId && fromUnit == row.fromUnit && toUnit == row.toUnit
      ensures success == None && error == None
    {
      ingredientId := row.ingredientId;
      fromUnit := row.fromUnit;
      toUnit := row.toUnit;
      success := None;
      error := None;
    }

    /** Submitting: validate, then insert the conversion; `reply` is the backend's answer to the insert. */
    method OnSubmit(reply: Ack)
      modifies this`saving, this`error, this`success, this`factor, this`requests
      ensures !saving
      ensures old(SubmitError(ingredientId, factor)).Some? ==>
        && error == old(SubmitError(ingredientId, factor)) && success == None
        && requests == old(requests) && factor == old(factor)
      ensures old(SubmitError(ingredientId, factor)).None? && reply.Failed? ==>
        && requests == old(requests) + [InsertConversion(ConversionInsert(ingredientId, fromUnit, toUnit, old(factor).value))]
        && error == Some(reply.message) && success == None && factor == old(factor)
      ensures old(SubmitError(ingredientId, factor)).None? && reply.Ok? ==>
        && requests == old(requests) + [InsertConversion(ConversionInsert(ingredientId, fromUnit, toUnit, old(factor).value)), RefreshPage]
        && error == None && success == Some(CONVERSION_SAVED) && factor == Some(1.0)
    {
      saving := true;
      error := None;
      success := None;

      if ingredientId == "" {
        saving := false;
        error := Some(CHOOSE_INGREDIENT);
        return;
      }
      if !(factor.Some? && factor.value > 0.0) {
        saving := false;
        error := Some(FACTOR_NOT_POSITIVE);
        return;
      }

      requests := requests + [InsertConversion(ConversionInsert(ingredientId, fromUnit, toUnit, factor.value))];
      saving := false;

      if reply.Failed? {
        error := Some(reply.message);
        return;
      }

      factor := Some(1.0);
      success := Some(CONVERSION_SAVED);
      requests := requests + [RefreshPage];
    }
  }
}
