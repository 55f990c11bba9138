/**
 * The calculator's built-in drink catalog (the `recipes` constant of
 * src/BottledDrinksCalculator.tsx), kept as the list of its entries in key
 * order, with lookup by key and the reverse lookup by drink name.
 */
module DrinkCatalog {
  import opened Types
  import opened Wrappers

  /** A drink: its display name and per-bottle ingredients. */
  datatype DrinkRecipe = DrinkRecipe(name: string, ingredients: seq<Ingredient>)

  datatype CatalogEntry = CatalogEntry(key: string, recipe: DrinkRecipe)

  /** The entries of the catalog object in key order. */
  type Catalog = seq<CatalogEntry>

  function Ml(name: string, amount: int): Ingredient
  {
    Ingredient(name, amount, "ml", 1)
  }

  /** The catalog the calculator ships with. */
  function Recipes(): Catalog
  {
    [ CatalogEntry("peach-palmer", DrinkRecipe("Peach Palmer",
        [Ml("Peach Tea", 448), Ml("Lemon Concentrate", 74), Ml("Water", 375), Ml("Cane Syrup", 160)])),
      CatalogEntry("strawberry-lemonade", DrinkRecipe("Strawberry Lemonade",
        [Ml("Water", 743), Ml("Lemon Concentrate", 144), Ml("Strawberry Syrup", 96), Ml("Cane Syrup", 64)])),
      CatalogEntry("cold-brew", DrinkRecipe("Cold Brew",
        [Ml("Cold Brew Concentrate", 496), Ml("Water", 496)])) ]
  }

  predicate HasKey(cat: Catalog, key: string)
  {
    exists i :: 0 <= i < |cat| && cat[i].key == key
  }

  /** Keys are unique, as in an object. */
  predicate DistinctKeys(cat: Catalog)
  {
    forall i, j :: 0 <= i < j < |cat| ==> cat[i].key != cat[j].key
  }

  /** No two drinks share a display name. */
  predicate DistinctNames(cat: Catalog)
  {
    forall i, j :: 0 <= i < j < |cat| ==> cat[i].recipe.name != cat[j].recipe.name
  }

  /** The position of the first entry with key `key`. */
  function KeyIndex(cat: Catalog, key: string): (i: nat)
    requires HasKey(cat, key)
    ensures i < |cat| && cat[i].key == key
    ensures forall j :: 0 <= j < i ==> cat[j].key != key
  {
    if cat[0].key == key then 0
    else
      var k :| 0 <= k < |cat| && cat[k].key == key;
      assert cat[1..][k - 1] == cat[k];
      1 + KeyIndex(cat[1..], key)
  }

  /** `recipes[key]`, for a key the catalog has. */
  function RecipeAt(cat: Catalog, key: string): (r: DrinkRecipe)
    requires HasKey(cat, key)
    ensures exists i :: 0 <= i < |cat| && cat[i].key == key && cat[i].recipe == r
  {
    cat[KeyIndex(cat, key)].recipe
  }

  /**
   * `Object.entries(recipes).find(([_, r]) => r.name === name)?.[0]`: the
   * key of the first drink with that name, or nothing.
   */
  function FindKeyByName(cat: Catalog, name: string): (r: Option<string>)
    ensures r.None? <==> forall i :: 0 <= i < |cat| ==> cat[i].recipe.name != name
  {
    if cat == [] then None
    else if cat[0].recipe.name == name then Some(cat[0].key)
    else
      var r := FindKeyByName(cat[1..], name);
      assert forall i :: 1 <= i < |cat| ==> cat[i] == cat[1..][i - 1];
      r
  }

  /** The key found is that of the first drink carrying the name. */
  lemma {:induction false} FindKeyByNameFirst(cat: Catalog, name: string)
    requires FindKeyByName(cat, name).Some?
    ensures exists i :: 0 <= i < |cat| && cat[i].key == FindKeyByName(cat, name).value
              && cat[i].recipe.name == name
              && forall j :: 0 <= j < i ==> cat[j].recipe.name != name
  {
    if cat[0].recipe.name != name {
      FindKeyByNameFirst(cat[1..], name);
      var i :| 0 <= i < |cat[1..]| && cat[1..][i].key == FindKeyByName(cat, name).value
                && cat[1..][i].recipe.name == name
                && forall j :: 0 <= j < i ==> cat[1..][j].recipe.name != name;
      assert cat[i + 1] == cat[1..][i];
      forall j | 0 <= j < i + 1
        ensures cat[j].recipe.name != name
      {
        if j > 0 {
          assert cat[j] == cat[1..][j - 1];
        }
      }
    }
  }

  /** In a catalog with unique keys, the key found by name leads back to a drink of that name. */
  lemma FindKeyRoundTrip(cat: Catalog, name: string)
    requires DistinctKeys(cat)
    requires FindKeyByName(cat, name).Some?
    ensures HasKey(cat, FindKeyByName(cat, name).value)
    ensures RecipeAt(cat, FindKeyByName(cat, name).value).name == name
  {
    FindKeyByNameFirst(cat, name);
  }

  /** In a catalog with unique names, every drink's own key is the one found by its name. */
  lemma FindKeyOfEntry(cat: Catalog, i: nat)
    requires DistinctNames(cat) && i < |cat|
    ensures FindKeyByName(cat, cat[i].recipe.name) == Some(cat[i].key)
  {
    FindKeyByNameFirst(cat, cat[i].recipe.name);
  }

  /** The shipped catalog: three drinks, unique keys and names, every ingredient in ml with scaling 1. */
  lemma RecipesFacts()
    ensures |Recipes()| == 3
    ensures DistinctKeys(Recipes()) && DistinctNames(Recipes())
    ensures HasKey(Recipes(), "peach-palmer") && HasKey(Recipes(), "strawberry-lemonade") && HasKey(Recipes(), "cold-brew")
    ensures forall i, j :: 0 <= i < |Recipes()| && 0 <= j < |Recipes()[i].recipe.ingredients| ==>
              Recipes()[i].recipe.ingredients[j].unit == "ml" && Recipes()[i].recipe.ingredients[j].scaling == 1
  {
    var c := Recipes();
    assert c[0].key == "peach-palmer" && c[1].key == "strawberry-lemonade" && c[2].key == "cold-brew";
  }
}
