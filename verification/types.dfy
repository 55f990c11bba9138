/**
 * The record types shared by the calculator and the product helpers
 * (src/lib/types.ts, and the inline ingredient type of the calculator).
 */
module Types {
  /** One ingredient of a recipe, with its per-bottle amount. */
  datatype Ingredient = Ingredient(name: string, amount: int, unit: string, scaling: int)

  /** Some ingredient of the list is named `n`. */
  predicate UsesIngredient(ings: seq<Ingredient>, n: string)
  {
    exists k :: 0 <= k < |ings| && ings[k].name == n
  }

  /** A recipe of the product store, keyed by the product it makes. */
  datatype Recipe = Recipe(productId: string, ingredients: seq<Ingredient>)

  /** The three stock locations a product is counted at. */
  datatype Location = Lodgic | Bake | Brew

  function LocationName(l: Location): string
  {
    match l
    case Lodgic => "Lodgic"
    case Bake => "Bake"
    case Brew => "Brew"
  }

  /**
   * A product with its quantity per location; `quantities` lists the
   * entries of the quantities record in the record's own key order.
   */
  datatype Product = Product(id: string, name: string, quantities: seq<(Location, int)>)

  datatype ValidationError = ValidationError(field: string, message: string)

  /** A running total of one ingredient, with the unit it is counted in. */
  datatype IngredientTotal = IngredientTotal(amount: int, unit: string)
}
