/**
 * The recipe store of src/lib/useRecipes.ts: a map from product id to
 * recipe, starting from `defaultRecipes`, changed only by building new
 * maps (`addRecipe`, `updateRecipe`, `deleteRecipe`).
 */
module RecipeStore {
  import opened Types
  import opened Wrappers

  /**
   * A stored record. Each field may be missing, because `updateRecipe` on a
   * product id the store does not have stores the patch's fields alone.
   */
  datatype RecipeFields = RecipeFields(productId: Option<string>, ingredients: Option<seq<Ingredient>>)

  type Store = map<string, RecipeFields>

  /** A complete recipe as a stored record. */
  function Full(r: Recipe): RecipeFields
  {
    RecipeFields(Some(r.productId), Some(r.ingredients))
  }

  /** An ingredient at scaling 1. */
  function Ing(name: string, amount: int, unit: string): Ingredient
  {
    Ingredient(name, amount, unit, 1)
  }

  /** `defaultRecipes`: the three drinks, each stored under its own product id. */
  function DefaultRecipes(): (s: Store)
    ensures s.Keys == {"peach-palmer", "strawberry-lemonade", "cold-brew"}
    ensures forall k :: k in s ==> s[k].productId == Some(k) && s[k].ingredients.Some?
  {
    map[
      "peach-palmer" := Full(Recipe("peach-palmer",
        [Ing("Peach Tea", 448, "ml"), Ing("Lemon Concentrate", 74, "ml"), Ing("Water", 375, "ml"), Ing("Cane Syrup", 160, "g")])),
      "strawberry-lemonade" := Full(Recipe("strawberry-lemonade",
        [Ing("Water", 743, "ml"), Ing("Lemon Concentrate", 144, "ml"), Ing("Strawberry Syrup", 96, "g"), Ing("Cane Syrup", 64, "g")])),
      "cold-brew" := Full(Recipe("cold-brew",
        [Ing("Cold Brew Concentrate", 496, "ml"), Ing("Water", 496, "ml")]))
    ]
  }

  /** `addRecipe(recipe)`: the recipe is stored under its product id, replacing what was there. */
  function AddRecipe(s: Store, recipe: Recipe): (t: Store)
    ensures t.Keys == s.Keys + {recipe.productId}
    ensures t[recipe.productId] == Full(recipe)
    ensures forall k :: k in s && k != recipe.productId ==> t[k] == s[k]
  {
    s[recipe.productId := Full(recipe)]
  }

  /** `{ ...prev, ...updates }`: each field from the patch where it has one, else from before. */
  function Patch(prev: RecipeFields, updates: RecipeFields): (r: RecipeFields)
    ensures updates.productId.Some? ==> r.productId == updates.productId
    ensures updates.productId.None? ==> r.productId == prev.productId
    ensures updates.ingredients.Some? ==> r.ingredients == updates.ingredients
    ensures updates.ingredients.None? ==> r.ingredients == prev.ingredients
  {
    RecipeFields(
      if updates.productId.Some? then updates.productId else prev.productId,
      if updates.ingredients.Some? then updates.ingredients else prev.ingredients)
  }

  /** `updateRecipe(productId, updates)`. */
  function UpdateRecipe(s: Store, productId: string, updates: RecipeFields): (t: Store)
    ensures t.Keys == s.Keys + {productId}
    ensures forall k :: k in s && k != productId ==> t[k] == s[k]
    ensures t[productId].productId
            == if updates.productId.Some? then updates.productId
               else if productId in s then s[productId].productId else None
    ensures t[productId].ingredients
            == if updates.ingredients.Some? then updates.ingredients
               else if productId in s then s[productId].ingredients else None
  {
    var prev := if productId in s then s[productId] else RecipeFields(None, None);
    s[productId := Patch(prev, updates)]
  }

  /** `deleteRecipe(productId)`. */
  function DeleteRecipe(s: Store, productId: string): (t: Store)
    ensures t.Keys == s.Keys - {productId}
    ensures forall k :: k in t ==> t[k] == s[k]
  {
    s - {productId}
  }

  // Properties.

  /** Adding a recipe and deleting it again leaves the store without that id, and otherwise as it was. */
  lemma AddThenDelete(s: Store, recipe: Recipe)
    ensures DeleteRecipe(AddRecipe(s, recipe), recipe.productId) == DeleteRecipe(s, recipe.productId)
  {
  }

  /** Deleting an id the store does not have changes nothing. */
  lemma DeleteAbsent(s: Store, productId: string)
    requires productId !in s
    ensures DeleteRecipe(s, productId) == s
  {
  }

  /** Updating with a complete recipe under its own id is adding it. */
  lemma UpdateWithFullRecipe(s: Store, recipe: Recipe)
    ensures UpdateRecipe(s, recipe.productId, Full(recipe)) == AddRecipe(s, recipe)
  {
  }

  /** An empty patch leaves a stored record as it was. */
  lemma UpdateWithEmptyPatch(s: Store, productId: string)
    requires productId in s
    ensures UpdateRecipe(s, productId, RecipeFields(None, None)) == s
  {
  }

  /**
   * A patch that renames the product id still lands under the old key:
   * no entry appears under the new id.
   */
  lemma UpdateKeepsKey(s: Store, productId: string, newId: string, updates: RecipeFields)
    requires updates.productId == Some(newId) && newId != productId && newId !in s
    ensures var t := UpdateRecipe(s, productId, updates);
            newId !in t && t[productId].productId == Some(newId)
  {
  }

  /** The default store: every record complete and stored under its own product id. */
  lemma DefaultRecipesComplete()
    ensures forall k :: k in DefaultRecipes() ==>
              DefaultRecipes()[k] == Full(Recipe(k, DefaultRecipes()[k].ingredients.value))
  {
  }
}
