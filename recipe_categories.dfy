/** The categories offered when creating or editing a recipe. */
module RecipeCategories {

  datatype RecipeCategory = Bread | Pastry | Cookies | Bagels | Cakes | Muffins | Sourdough | Other {
    function Name(): string {
      match this
      case Bread => "bread"
      case Pastry => "pastry"
      case Cookies => "cookies"
      case Bagels => "bagels"
      case Cakes => "cakes"
      case Muffins => "muffins"
      case Sourdough => "sourdough"
      case Other => "other"
    }
  }

  const RECIPE_CATEGORY_OPTIONS: seq<RecipeCategory> := [Bread, Pastry, Cookies, Bagels, Cakes, Muffins, Sourdough, Other]
}
