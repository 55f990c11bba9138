/**
 * `calculateIngredientTotals` of src/lib/utils.ts: for every product that
 * has a recipe, each ingredient's amount times the product's quantity over
 * all locations times the ingredient's scaling, summed per ingredient name.
 */
module IngredientTotals {
  import opened Types
  import opened Tallies

  /** The product store's recipes, by product id. */
  type RecipeTable = map<string, Recipe>

  /** `Object.values(product.quantities).reduce((a, b) => a + b, 0)`. */
  function TotalQuantity(qs: seq<(Location, int)>): (total: int)
    ensures (forall i :: 0 <= i < |qs| ==> qs[i].1 >= 0) ==> total >= 0
  {
    if qs == [] then 0 else TotalQuantity(qs[..|qs| - 1]) + qs[|qs| - 1].1
  }

  /** The contributions of one recipe made `total` times, in ingredient order. */
  function ScaledEntries(ings: seq<Ingredient>, total: int): (es: seq<Entry>)
    ensures |es| == |ings|
    ensures forall i :: 0 <= i < |ings| ==>
              es[i].name == ings[i].name && es[i].unit == ings[i].unit
              && es[i].amount == ings[i].amount * total * ings[i].scaling
  {
    seq(|ings|, i requires 0 <= i < |ings| =>
      Entry(ings[i].name, ings[i].amount * total * ings[i].scaling, ings[i].unit))
  }

  /** The contributions of a product: none when it has no recipe. */
  function ProductContribution(p: Product, recipes: RecipeTable): seq<Entry>
  {
    if p.id in recipes then ScaledEntries(recipes[p.id].ingredients, TotalQuantity(p.quantities)) else []
  }

  /** All contributions, product by product, in the order the loops visit them. */
  function ProductEntries(products: seq<Product>, recipes: RecipeTable): seq<Entry>
  {
    if products == [] then []
    else ProductEntries(products[..|products| - 1], recipes) + ProductContribution(products[|products| - 1], recipes)
  }

  /** `calculateIngredientTotals(products, recipes)`. */
  method CalculateIngredientTotals(products: seq<Product>, recipes: RecipeTable) returns (totals: Totals)
    ensures totals == Tally(ProductEntries(products, recipes))
  {
    totals := map[];
    var p := 0;
    while p < |products|
      invariant 0 <= p <= |products|
      invariant totals == Tally(ProductEntries(products[..p], recipes))
    {
      var product := products[p];
      assert products[..p + 1][..p] == products[..p];
      assert ProductEntries(products[..p + 1], recipes)
          == ProductEntries(products[..p], recipes) + ProductContribution(product, recipes);
      if product.id in recipes {
        var recipe := recipes[product.id];
        var totalQuantity := TotalQuantity(product.quantities);
        ghost var visited := ProductEntries(products[..p], recipes);
        totals := AddRecipeIngredients(totals, recipe.ingredients, totalQuantity);
        AddAllTally(visited, ScaledEntries(recipe.ingredients, totalQuantity));
      } else {
        assert ProductEntries(products[..p], recipes) + [] == ProductEntries(products[..p], recipes);
      }
      p := p + 1;
    }
    assert products[..p] == products;
  }

  /** The inner loop: each ingredient, scaled by the product's total quantity, added to the totals. */
  method AddRecipeIngredients(totals: Totals, ingredients: seq<Ingredient>, totalQuantity: int) returns (result: Totals)
    ensures result == AddAll(totals, ScaledEntries(ingredients, totalQuantity))
  {
    var scaled := ScaledEntries(ingredients, totalQuantity);
    result := totals;
    var k := 0;
    while k < |ingredients|
      invariant 0 <= k <= |ingredients|
      invariant result == AddAll(totals, scaled[..k])
    {
      var ingredient := ingredients[k];
      var scaledAmount := ingredient.amount * totalQuantity * ingredient.scaling;
      ghost var before := result;
      assert scaled[k] == Entry(ingredient.name, scaledAmount, ingredient.unit);
      if ingredient.name !in result {
        result := result[ingredient.name := IngredientTotal(0, ingredient.unit)];
      }
      result := result[ingredient.name := IngredientTotal(result[ingredient.name].amount + scaledAmount, result[ingredient.name].unit)];
      assert result == Add(before, scaled[k]);
      AddAllStep(totals, scaled, k);
      k := k + 1;
    }
    assert scaled[..k] == scaled;
  }

  // Properties.

  lemma {:induction false} ProductEntriesAppend(a: seq<Product>, b: seq<Product>, recipes: RecipeTable)
    ensures ProductEntries(a + b, recipes) == ProductEntries(a, recipes) + ProductEntries(b, recipes)
    decreases |b|
  {
    if b == [] {
      assert a + b == a;
    } else {
      var b' := b[..|b| - 1];
      assert (a + b)[..|a + b| - 1] == a + b';
      assert (a + b)[|a + b| - 1] == b[|b| - 1];
      ProductEntriesAppend(a, b', recipes);
    }
  }

  /** A product whose id has no recipe changes nothing, wherever it stands in the list. */
  lemma UnknownProductIgnored(before: seq<Product>, p: Product, after: seq<Product>, recipes: RecipeTable)
    requires p.id !in recipes
    ensures Tally(ProductEntries(before + [p] + after, recipes)) == Tally(ProductEntries(before + after, recipes))
  {
    ProductEntriesAppend(before + [p], after, recipes);
    ProductEntriesAppend(before, [p], recipes);
    ProductEntriesAppend(before, after, recipes);
    assert [p][..0] == [];
    assert ProductEntries([p], recipes) == [];
    assert ProductEntries(before, recipes) + [] == ProductEntries(before, recipes);
  }

  /** The total of ingredient `n` in one recipe made `total` times. */
  function RecipeNeed(ings: seq<Ingredient>, total: int, n: string): int
  {
    if ings == [] then 0
    else
      var ing := ings[|ings| - 1];
      RecipeNeed(ings[..|ings| - 1], total, n) + (if ing.name == n then ing.amount * total * ing.scaling else 0)
  }

  /**
   * The amount of ingredient `n` all products need: for each product with a
   * recipe, each of its ingredients named `n`, amount times the product's
   * total quantity times scaling.
   */
  function ProductsNeed(products: seq<Product>, recipes: RecipeTable, n: string): int
  {
    if products == [] then 0
    else
      var p := products[|products| - 1];
      ProductsNeed(products[..|products| - 1], recipes, n)
      + (if p.id in recipes then RecipeNeed(recipes[p.id].ingredients, TotalQuantity(p.quantities), n) else 0)
  }

  lemma {:induction false} ScaledSum(ings: seq<Ingredient>, total: int, n: string)
    ensures Sum(ScaledEntries(ings, total), n) == RecipeNeed(ings, total, n)
  {
    if ings != [] {
      var es := ScaledEntries(ings, total);
      assert es[..|es| - 1] == ScaledEntries(ings[..|ings| - 1], total);
      ScaledSum(ings[..|ings| - 1], total, n);
    }
  }

  /** Each ingredient's total is the sum over products and their recipes' ingredients of that name. */
  lemma {:induction false} IngredientTotalIsNeed(products: seq<Product>, recipes: RecipeTable, n: string)
    ensures Sum(ProductEntries(products, recipes), n) == ProductsNeed(products, recipes, n)
  {
    if products != [] {
      var init, p := products[..|products| - 1], products[|products| - 1];
      IngredientTotalIsNeed(init, recipes, n);
      SumAppend(ProductEntries(init, recipes), ProductContribution(p, recipes), n);
      if p.id in recipes {
        ScaledSum(recipes[p.id].ingredients, TotalQuantity(p.quantities), n);
      }
    }
  }

  /** Some product with a recipe has an ingredient named `n`, whatever its quantities. */
  predicate InProducts(products: seq<Product>, recipes: RecipeTable, n: string)
  {
    exists p :: 0 <= p < |products| && products[p].id in recipes && UsesIngredient(recipes[products[p].id].ingredients, n)
  }

  lemma ScaledNames(ings: seq<Ingredient>, total: int, n: string)
    ensures n in Names(ScaledEntries(ings, total)) <==> UsesIngredient(ings, n)
  {
    var es := ScaledEntries(ings, total);
    if UsesIngredient(ings, n) {
      var k :| 0 <= k < |ings| && ings[k].name == n;
      assert es[k].name == n;
    }
    if n in Names(es) {
      var k :| 0 <= k < |es| && es[k].name == n;
      assert ings[k].name == n;
    }
  }

  lemma InProductsSnoc(products: seq<Product>, recipes: RecipeTable, n: string)
    requires products != []
    ensures var init, p := products[..|products| - 1], products[|products| - 1];
            InProducts(products, recipes, n) <==>
              InProducts(init, recipes, n) || (p.id in recipes && UsesIngredient(recipes[p.id].ingredients, n))
  {
    var init := products[..|products| - 1];
    if InProducts(products, recipes, n) {
      var i :| 0 <= i < |products| && products[i].id in recipes && UsesIngredient(recipes[products[i].id].ingredients, n);
      if i < |init| {
        assert init[i] == products[i];
      }
    }
    if InProducts(init, recipes, n) {
      var i :| 0 <= i < |init| && init[i].id in recipes && UsesIngredient(recipes[init[i].id].ingredients, n);
      assert products[i] == init[i];
    }
  }

  /** An ingredient is contributed to exactly when a product with a recipe uses it. */
  lemma {:induction false} ProductNames(products: seq<Product>, recipes: RecipeTable, n: string)
    ensures n in Names(ProductEntries(products, recipes)) <==> InProducts(products, recipes, n)
  {
    if products != [] {
      var init, p := products[..|products| - 1], products[|products| - 1];
      InProductsSnoc(products, recipes, n);
      ProductNames(init, recipes, n);
      NamesAppend(ProductEntries(init, recipes), ProductContribution(p, recipes));
      if p.id in recipes {
        ScaledNames(recipes[p.id].ingredients, TotalQuantity(p.quantities), n);
      } else {
        assert Names(ProductContribution(p, recipes)) == {};
      }
    }
  }

  /**
   * What `calculateIngredientTotals` returns, key by key: an entry exactly
   * for the ingredients used by the recipe of some product that has one
   * (at any quantity), each with its total need and the unit of its first
   * occurrence.
   */
  lemma IngredientTotalsMeaning(products: seq<Product>, recipes: RecipeTable, n: string)
    ensures var t := Tally(ProductEntries(products, recipes));
            && (n in t <==> InProducts(products, recipes, n))
            && (n in t ==> t[n].amount == ProductsNeed(products, recipes, n))
    ensures var es := ProductEntries(products, recipes);
            n in Tally(es) ==>
              exists i :: 0 <= i < |es| && es[i].name == n && Tally(es)[n].unit == es[i].unit
                          && forall j :: 0 <= j < i ==> es[j].name != n
  {
    IngredientTotalIsNeed(products, recipes, n);
    ProductNames(products, recipes, n);
    if n in Tally(ProductEntries(products, recipes)) {
      TallyUnitIsFirst(ProductEntries(products, recipes), n);
    }
  }

  /** No products, no totals. */
  lemma NoProductsNoTotals(recipes: RecipeTable)
    ensures Tally(ProductEntries([], recipes)) == map[]
  {
    TallyEmpty();
  }
}
