/** The units a recipe line or a conversion may be expressed in (the options of every unit picker). */
module Units {
  import opened Wrappers
  import opened Seqs

  datatype UnitOption = G | Kg | Oz | Lb | Ml | L | Tsp | Tbsp | Cup | Unit {
    /** The string stored in the database and shown in the picker. */
    function Name(): string {
      match this
      case G => "g"
      case Kg => "kg"
      case Oz => "oz"
      case Lb => "lb"
      case Ml => "ml"
      case L => "l"
      case Tsp => "tsp"
      case Tbsp => "tbsp"
      case Cup => "cup"
      case Unit => "unit"
    }
  }

  /** The picker's options, in display order. */
  const UNIT_OPTIONS: seq<UnitOption> := [G, Kg, Oz, Lb, Ml, L, Tsp, Tbsp, Cup, Unit]

  /** The option a stored unit string names, if any. */
  function ParseUnit(s: string): (r: Option<UnitOption>)
    ensures r.Some? ==> r.value.Name() == s
  {
    if s == "g" then Some(G) else if s == "kg" then Some(Kg) else if s == "oz" then Some(Oz)
    else if s == "lb" then Some(Lb) else if s == "ml" then Some(Ml) else if s == "l" then Some(L)
    else if s == "tsp" then Some(Tsp) else if s == "tbsp" then Some(Tbsp) else if s == "cup" then Some(Cup)
    else if s == "unit" then Some(Unit) else None
  }

  lemma ParseUnitName(u: UnitOption)
    ensures ParseUnit(u.Name()) == Some(u)
  {
  }

  /** Every unit is offered, exactly once. */
  lemma UnitOptionsComplete()
    ensures forall u: UnitOption :: u in UNIT_OPTIONS
    ensures NoDuplicates(UNIT_OPTIONS)
    ensures |UNIT_OPTIONS| == 10
  {
    forall u: UnitOption ensures u in UNIT_OPTIONS {
      var k := match u
        case G => 0 case Kg => 1 case Oz => 2 case Lb => 3 case Ml => 4
        case L => 5 case Tsp => 6 case Tbsp => 7 case Cup => 8 case Unit => 9;
      assert UNIT_OPTIONS[k] == u;
    }
  }
}
