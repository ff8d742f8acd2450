/** The allergen and dietary tags a recipe may carry and a recipe list may be filtered by. */
module RecipeTags {
  import opened Wrappers

  datatype AllergenTag = Gluten | Dairy | Eggs | Nuts | Soy | Sesame {
    function Name(): string {
      match this
      case Gluten => "gluten"
      case Dairy => "dairy"
      case Eggs => "eggs"
      case Nuts => "nuts"
      case Soy => "soy"
      case Sesame => "sesame"
    }
  }

  datatype DietaryTag = Vegetarian | Vegan | NutFree | DairyFree | EggFree {
    function Name(): string {
      match this
      case Vegetarian => "vegetarian"
      case Vegan => "vegan"
      case NutFree => "nut_free"
      case DairyFree => "dairy_free"
      case EggFree => "egg_free"
    }
  }

  const ALLERGEN_TAG_OPTIONS: seq<AllergenTag> := [Gluten, Dairy, Eggs, Nuts, Soy, Sesame]
  const DIETARY_TAG_OPTIONS: seq<DietaryTag> := [Vegetarian, Vegan, NutFree, DairyFree, EggFree]

  /** Distinct tags are stored as distinct strings, so a stored tag list identifies the tags. */
  lemma TagNamesInjective()
    ensures forall a: AllergenTag, b: AllergenTag :: a.Name() == b.Name() ==> a == b
    ensures forall a: DietaryTag, b: DietaryTag :: a.Name() == b.Name() ==> a == b
  {
  }
}
