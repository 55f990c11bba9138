/**
 * `calculateBatchRecipe` of src/BottledDrinksCalculator.tsx, and the Batch
 * Recipes tab's way of reaching it: from a drink name of the bottle totals,
 * back to the catalog key, then the recipe scaled to the bottle count.
 */
module Batch {
  import opened Types
  import opened Tallies
  import opened DrinkCatalog
  import opened Orders
  import opened Aggregates

  /** `calculateBatchRecipe(drinkType, bottleCount)`: the recipe's ingredients, amounts multiplied by the bottle count. */
  function CalculateBatchRecipe(cat: Catalog, drinkType: string, bottleCount: int): (batch: seq<Ingredient>)
    requires HasKey(cat, drinkType)
    ensures var ings := RecipeAt(cat, drinkType).ingredients;
            && |batch| == |ings|
            && forall k :: 0 <= k < |ings| ==>
                 batch[k].name == ings[k].name && batch[k].unit == ings[k].unit
                 && batch[k].scaling == ings[k].scaling && batch[k].amount == ings[k].amount * bottleCount
  {
    var ings := RecipeAt(cat, drinkType).ingredients;
    seq(|ings|, k requires 0 <= k < |ings| => ings[k].(amount := ings[k].amount * bottleCount))
  }

  /** A batch of one bottle is the recipe itself. */
  lemma BatchOfOne(cat: Catalog, drinkType: string)
    requires HasKey(cat, drinkType)
    ensures CalculateBatchRecipe(cat, drinkType, 1) == RecipeAt(cat, drinkType).ingredients
  {
  }

  /** A batch read as contributions to the ingredient totals. */
  function BatchEntries(batch: seq<Ingredient>): (es: seq<Entry>)
    ensures |es| == |batch|
    ensures forall k :: 0 <= k < |batch| ==> es[k] == Entry(batch[k].name, batch[k].amount, batch[k].unit)
  {
    seq(|batch|, k requires 0 <= k < |batch| => Entry(batch[k].name, batch[k].amount, batch[k].unit))
  }

  lemma BatchIsItemContribution(cat: Catalog, item: OrderItem)
    requires HasKey(cat, item.drinkType)
    ensures KnownItems(cat, [item])
    ensures ItemsEntries(cat, [item]) == BatchEntries(CalculateBatchRecipe(cat, item.drinkType, item.quantity))
  {
    var ings := RecipeAt(cat, item.drinkType).ingredients;
    var es := IngredientEntries(ings, item.quantity);
    var bs := BatchEntries(CalculateBatchRecipe(cat, item.drinkType, item.quantity));
    assert [item][..0] == [];
    assert ItemsEntries(cat, [item]) == [] + es;
    assert [] + es == es;
    assert |es| == |bs|;
    forall k | 0 <= k < |es|
      ensures es[k] == bs[k]
    {
    }
  }

  /**
   * An order list holding one item of `bottleCount` bottles of one drink
   * needs exactly the ingredients of that drink's batch, in the same order.
   */
  lemma BatchAgreesWithTotals(cat: Catalog, drinkType: string, bottleCount: int, orderId: string, customerName: string, itemId: string)
    requires HasKey(cat, drinkType)
    ensures var orders := [CustomerOrder(orderId, customerName, [OrderItem(itemId, drinkType, bottleCount)])];
            && KnownDrinks(cat, orders)
            && OrderEntries(cat, orders) == BatchEntries(CalculateBatchRecipe(cat, drinkType, bottleCount))
  {
    var item := OrderItem(itemId, drinkType, bottleCount);
    var orders := [CustomerOrder(orderId, customerName, [item])];
    BatchIsItemContribution(cat, item);
    assert orders[..0] == [];
    assert OrderEntries(cat, orders) == [] + ItemsEntries(cat, [item]);
    assert [] + ItemsEntries(cat, [item]) == ItemsEntries(cat, [item]);
  }

  /**
   * Every drink name the bottle totals list leads back, by the lookup of the
   * Batch Recipes tab, to a catalog key of a drink with that name: the
   * empty-key fallback is never taken.
   */
  lemma BatchRowHasRecipe(cat: Catalog, orders: seq<CustomerOrder>, name: string)
    requires KnownDrinks(cat, orders) && DistinctKeys(cat)
    requires name in BottleTotals(cat, orders)
    ensures FindKeyByName(cat, name).Some?
    ensures HasKey(cat, FindKeyByName(cat, name).value)
    ensures RecipeAt(cat, FindKeyByName(cat, name).value).name == name
  {
    TotalsByDrinkMeaning(cat, orders, name);
    var i :| 0 <= i < |orders| && OrderedIn(cat, orders[i].items, name);
    var j :| 0 <= j < |orders[i].items| && RecipeAt(cat, orders[i].items[j].drinkType).name == name;
    var r := RecipeAt(cat, orders[i].items[j].drinkType);
    var e :| 0 <= e < |cat| && cat[e].key == orders[i].items[j].drinkType && cat[e].recipe == r;
    assert cat[e].recipe.name == name;
    FindKeyRoundTrip(cat, name);
  }

  /** Two bottles of Peach Palmer take 896 ml of Peach Tea. */
  lemma PeachPalmerBatch()
    ensures HasKey(Recipes(), "peach-palmer")
    ensures CalculateBatchRecipe(Recipes(), "peach-palmer", 2)[0] == Ingredient("Peach Tea", 896, "ml", 1)
  {
    RecipesFacts();
    var c := Recipes();
    assert c[0].key == "peach-palmer";
    assert RecipeAt(c, "peach-palmer") == c[0].recipe;
  }
  /** The drink rows the order summary and the Batch Recipes tab show: positive counts only. */
  function ShownDrinks(counts: Counts): (shown: Counts)
    ensures shown.Keys <= counts.Keys
    ensures forall name :: name in shown ==> shown[name] == counts[name] > 0
    ensures forall name :: name in counts && counts[name] > 0 ==> name in shown
  {
    map name | name in counts && counts[name] > 0 :: counts[name]
  }

  /**
   * Over well-formed orders, a drink gets a row exactly when some item of
   * that drink has a positive quantity, and the row shows its bottle count.
   */
  lemma ShownDrinksMeaning(cat: Catalog, orders: seq<CustomerOrder>, name: string)
    requires WellFormed(cat, orders)
    ensures KnownDrinks(cat, orders)
    ensures var shown := ShownDrinks(BottleTotals(cat, orders));
            && (name in shown <==> PositivelyOrdered(cat, orders, name))
            && (name in shown ==> shown[name] == OrdersBottles(cat, orders, name))
  {
    WellFormedKnown(cat, orders);
    TotalsByDrinkMeaning(cat, orders, name);
    OrdersBottlesPositive(cat, orders, name);
    if PositivelyOrdered(cat, orders, name) {
      var i :| 0 <= i < |orders| && PositiveIn(cat, orders[i].items, name);
      var j :| 0 <= j < |orders[i].items| && RecipeAt(cat, orders[i].items[j].drinkType).name == name
                && orders[i].items[j].quantity > 0;
      assert OrderedIn(cat, orders[i].items, name);
    }
  }
}
