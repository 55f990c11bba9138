/**
 * The two totals the calculator derives from its order list
 * (src/BottledDrinksCalculator.tsx): bottles per drink name
 * (`getTotalsByDrink`) and ingredient amounts with their units
 * (`getTotalIngredients`).
 */
module Aggregates {
  import opened Types
  import opened Tallies
  import opened DrinkCatalog
  import opened Orders

  /** Every item names a catalog drink; the source looks each one up without a check. */
  predicate KnownItems(cat: Catalog, items: seq<OrderItem>)
  {
    forall j :: 0 <= j < |items| ==> HasKey(cat, items[j].drinkType)
  }

  predicate KnownDrinks(cat: Catalog, orders: seq<CustomerOrder>)
  {
    forall i :: 0 <= i < |orders| ==> KnownItems(cat, orders[i].items)
  }

  lemma WellFormedKnown(cat: Catalog, orders: seq<CustomerOrder>)
    requires WellFormed(cat, orders)
    ensures KnownDrinks(cat, orders)
  {
  }

  // getTotalIngredients

  /** One ingredient list made `quantity` times: amount times quantity, scaling not applied. */
  function IngredientEntries(ings: seq<Ingredient>, quantity: int): (es: seq<Entry>)
    ensures |es| == |ings|
    ensures forall k :: 0 <= k < |ings| ==>
              es[k].name == ings[k].name && es[k].unit == ings[k].unit && es[k].amount == ings[k].amount * quantity
  {
    seq(|ings|, k requires 0 <= k < |ings| => Entry(ings[k].name, ings[k].amount * quantity, ings[k].unit))
  }

  function ItemsEntries(cat: Catalog, items: seq<OrderItem>): seq<Entry>
    requires KnownItems(cat, items)
  {
    if items == [] then []
    else
      var item := items[|items| - 1];
      ItemsEntries(cat, items[..|items| - 1]) + IngredientEntries(RecipeAt(cat, item.drinkType).ingredients, item.quantity)
  }

  /** All contributions to the ingredient totals, order by order, item by item, ingredient by ingredient. */
  function OrderEntries(cat: Catalog, orders: seq<CustomerOrder>): seq<Entry>
    requires KnownDrinks(cat, orders)
  {
    if orders == [] then []
    else OrderEntries(cat, orders[..|orders| - 1]) + ItemsEntries(cat, orders[|orders| - 1].items)
  }

  /** `getTotalIngredients()`. */
  method TotalIngredients(cat: Catalog, orders: seq<CustomerOrder>) returns (totals: Totals)
    requires KnownDrinks(cat, orders)
    ensures totals == Tally(OrderEntries(cat, orders))
  {
    totals := map[];
    var i := 0;
    while i < |orders|
      invariant 0 <= i <= |orders|
      invariant totals == AddAll(map[], OrderEntries(cat, orders[..i]))
    {
      assert orders[..i + 1][..i] == orders[..i];
      totals := AddItems(cat, totals, orders[i].items);
      AddAllAppend(map[], OrderEntries(cat, orders[..i]), ItemsEntries(cat, orders[i].items));
      i := i + 1;
    }
    assert orders[..i] == orders;
    TallyEmpty();
    AddAllTally([], OrderEntries(cat, orders));
    assert [] + OrderEntries(cat, orders) == OrderEntries(cat, orders);
  }

  /** The loop over the items of one order. */
  method AddItems(cat: Catalog, totals: Totals, items: seq<OrderItem>) returns (result: Totals)
    requires KnownItems(cat, items)
    ensures result == AddAll(totals, ItemsEntries(cat, items))
  {
    result := totals;
    var j := 0;
    while j < |items|
      invariant 0 <= j <= |items|
      invariant result == AddAll(totals, ItemsEntries(cat, items[..j]))
    {
      var item := items[j];
      var recipe := RecipeAt(cat, item.drinkType);
      assert items[..j + 1][..j] == items[..j];
      result := AddIngredients(result, recipe.ingredients, item.quantity);
      AddAllAppend(totals, ItemsEntries(cat, items[..j]), IngredientEntries(recipe.ingredients, item.quantity));
      j := j + 1;
    }
    assert items[..j] == items;
  }

  /** The loop over the ingredients of one item's recipe. */
  method AddIngredients(totals: Totals, ingredients: seq<Ingredient>, quantity: int) returns (result: Totals)
    ensures result == AddAll(totals, IngredientEntries(ingredients, quantity))
  {
    var es := IngredientEntries(ingredients, quantity);
    result := totals;
    var k := 0;
    while k < |ingredients|
      invariant 0 <= k <= |ingredients|
      invariant result == AddAll(totals, es[..k])
    {
      var ingredient := ingredients[k];
      ghost var before := result;
      if ingredient.name !in result {
        result := result[ingredient.name := IngredientTotal(0, ingredient.unit)];
      }
      result := result[ingredient.name := IngredientTotal(result[ingredient.name].amount + ingredient.amount * quantity, result[ingredient.name].unit)];
      assert result == Add(before, es[k]);
      AddAllStep(totals, es, k);
      k := k + 1;
    }
    assert es[..k] == es;
  }

  // getTotalsByDrink

  /** A bottle count per drink name. */
  type Counts = map<string, int>

  /** One visit: `acc[name] = (acc[name] || 0) + quantity`. */
  function Bump(acc: Counts, e: Entry): Counts
  {
    acc[e.name := (if e.name in acc then acc[e.name] else 0) + e.amount]
  }

  /** One visit adds the quantity to the drink's count, starting from zero, and touches no other drink. */
  lemma BumpEffect(acc: Counts, e: Entry)
    ensures Bump(acc, e).Keys == acc.Keys + {e.name}
    ensures Bump(acc, e)[e.name] == (if e.name in acc then acc[e.name] else 0) + e.amount
    ensures forall n :: n in acc && n != e.name ==> Bump(acc, e)[n] == acc[n]
  {
  }

  function BumpAll(acc: Counts, es: seq<Entry>): Counts
  {
    if es == [] then acc else Bump(BumpAll(acc, es[..|es| - 1]), es[|es| - 1])
  }

  /** The amounts of a tally, units dropped. */
  function Amounts(t: Totals): (c: Counts)
    ensures c.Keys == t.Keys
  {
    map n | n in t :: t[n].amount
  }

  /** Each item counted under its drink's display name. */
  function DrinkEntries(cat: Catalog, items: seq<OrderItem>): (es: seq<Entry>)
    requires KnownItems(cat, items)
    ensures |es| == |items|
    ensures forall j :: 0 <= j < |items| ==>
              es[j].name == RecipeAt(cat, items[j].drinkType).name && es[j].amount == items[j].quantity
  {
    seq(|items|, j requires 0 <= j < |items| => Entry(RecipeAt(cat, items[j].drinkType).name, items[j].quantity, ""))
  }

  function BottleEntries(cat: Catalog, orders: seq<CustomerOrder>): seq<Entry>
    requires KnownDrinks(cat, orders)
  {
    if orders == [] then []
    else BottleEntries(cat, orders[..|orders| - 1]) + DrinkEntries(cat, orders[|orders| - 1].items)
  }

  /** What `getTotalsByDrink` computes: the bottles of each drink name that occurs. */
  function BottleTotals(cat: Catalog, orders: seq<CustomerOrder>): Counts
    requires KnownDrinks(cat, orders)
  {
    Amounts(Tally(BottleEntries(cat, orders)))
  }

  lemma AmountsAdd(t: Totals, e: Entry)
    ensures Amounts(Add(t, e)) == Bump(Amounts(t), e)
  {
  }

  lemma {:induction false} AmountsAddAll(t: Totals, es: seq<Entry>)
    ensures Amounts(AddAll(t, es)) == BumpAll(Amounts(t), es)
  {
    if es != [] {
      AmountsAddAll(t, es[..|es| - 1]);
      AmountsAdd(AddAll(t, es[..|es| - 1]), es[|es| - 1]);
    }
  }

  lemma {:induction false} BumpAllAppend(acc: Counts, a: seq<Entry>, b: seq<Entry>)
    ensures BumpAll(acc, a + b) == BumpAll(BumpAll(acc, a), b)
    decreases |b|
  {
    if b == [] {
      assert a + b == a;
    } else {
      var b' := b[..|b| - 1];
      assert (a + b)[..|a + b| - 1] == a + b';
      assert (a + b)[|a + b| - 1] == b[|b| - 1];
      BumpAllAppend(acc, a, b');
    }
  }

  /** `getTotalsByDrink()`. */
  method TotalsByDrink(cat: Catalog, orders: seq<CustomerOrder>) returns (acc: Counts)
    requires KnownDrinks(cat, orders)
    ensures acc == BottleTotals(cat, orders)
  {
    acc := map[];
    var i := 0;
    while i < |orders|
      invariant 0 <= i <= |orders|
      invariant acc == BumpAll(map[], BottleEntries(cat, orders[..i]))
    {
      assert orders[..i + 1][..i] == orders[..i];
      acc := CountItems(cat, acc, orders[i].items);
      BumpAllAppend(map[], BottleEntries(cat, orders[..i]), DrinkEntries(cat, orders[i].items));
      i := i + 1;
    }
    assert orders[..i] == orders;
    var es := BottleEntries(cat, orders);
    TallyEmpty();
    AddAllTally([], es);
    assert [] + es == es;
    AmountsAddAll(map[], es);
    assert Amounts(map[]) == map[];
  }

  /** One more step of the loop over the items: the item's quantity is added under its drink's name. */
  lemma CountStep(cat: Catalog, acc: Counts, items: seq<OrderItem>, result: Counts, j: nat)
    requires KnownItems(cat, items) && j < |items|
    requires result == BumpAll(acc, DrinkEntries(cat, items[..j]))
    ensures KnownItems(cat, items[..j + 1])
    ensures var name := RecipeAt(cat, items[j].drinkType).name;
            result[name := (if name in result then result[name] else 0) + items[j].quantity]
            == BumpAll(acc, DrinkEntries(cat, items[..j + 1]))
  {
    var es := DrinkEntries(cat, items[..j + 1]);
    assert es[..j] == DrinkEntries(cat, items[..j]);
  }

  /** The loop over the items of one order. */
  method CountItems(cat: Catalog, acc: Counts, items: seq<OrderItem>) returns (result: Counts)
    requires KnownItems(cat, items)
    ensures result == BumpAll(acc, DrinkEntries(cat, items))
  {
    result := acc;
    var j := 0;
    while j < |items|
      invariant 0 <= j <= |items|
      invariant result == BumpAll(acc, DrinkEntries(cat, items[..j]))
    {
      CountStep(cat, acc, items, result, j);
      var item := items[j];
      var drinkName := RecipeAt(cat, item.drinkType).name;
      result := result[drinkName := (if drinkName in result then result[drinkName] else 0) + item.quantity];
      j := j + 1;
    }
    assert items[..j] == items;
  }

  // What the ingredient totals mean.

  /** The per-bottle amount of ingredient `n` in a recipe. */
  function PerBottle(ings: seq<Ingredient>, n: string): int
  {
    if ings == [] then 0
    else PerBottle(ings[..|ings| - 1], n) + (if ings[|ings| - 1].name == n then ings[|ings| - 1].amount else 0)
  }

  /** Ingredient `n` needed by a list of items: each item's quantity times its drink's per-bottle amount. */
  function ItemsNeed(cat: Catalog, items: seq<OrderItem>, n: string): int
    requires KnownItems(cat, items)
  {
    if items == [] then 0
    else
      var item := items[|items| - 1];
      ItemsNeed(cat, items[..|items| - 1], n) + item.quantity * PerBottle(RecipeAt(cat, item.drinkType).ingredients, n)
  }

  function OrdersNeed(cat: Catalog, orders: seq<CustomerOrder>, n: string): int
    requires KnownDrinks(cat, orders)
  {
    if orders == [] then 0
    else OrdersNeed(cat, orders[..|orders| - 1], n) + ItemsNeed(cat, orders[|orders| - 1].items, n)
  }

  predicate InItems(cat: Catalog, items: seq<OrderItem>, n: string)
    requires KnownItems(cat, items)
  {
    exists j :: 0 <= j < |items| && UsesIngredient(RecipeAt(cat, items[j].drinkType).ingredients, n)
  }

  /** Some item of some order is a drink whose recipe uses ingredient `n`. */
  predicate InOrders(cat: Catalog, orders: seq<CustomerOrder>, n: string)
    requires KnownDrinks(cat, orders)
  {
    exists i :: 0 <= i < |orders| && InItems(cat, orders[i].items, n)
  }

  lemma Distribute(q: int, a: int, b: int)
    ensures q * (a + b) == q * a + q * b
  {
  }

  lemma {:induction false} IngredientSum(ings: seq<Ingredient>, q: int, n: string)
    ensures Sum(IngredientEntries(ings, q), n) == q * PerBottle(ings, n)
    ensures n in Names(IngredientEntries(ings, q)) <==> UsesIngredient(ings, n)
  {
    var es := IngredientEntries(ings, q);
    if ings != [] {
      var init, last := ings[..|ings| - 1], ings[|ings| - 1];
      assert es[..|es| - 1] == IngredientEntries(init, q);
      IngredientSum(init, q, n);
      Distribute(q, PerBottle(init, n), if last.name == n then last.amount else 0);
      assert es == IngredientEntries(init, q) + [es[|es| - 1]];
      NamesAppend(IngredientEntries(init, q), [es[|es| - 1]]);
      assert Names([es[|es| - 1]]) == {last.name};
      if UsesIngredient(ings, n) {
        var k :| 0 <= k < |ings| && ings[k].name == n;
        if k < |init| {
          assert init[k] == ings[k];
        }
      }
      if UsesIngredient(init, n) {
        var k :| 0 <= k < |init| && init[k].name == n;
        assert ings[k] == init[k];
      }
    }
  }

  lemma {:induction false} ItemsSum(cat: Catalog, items: seq<OrderItem>, n: string)
    requires KnownItems(cat, items)
    ensures Sum(ItemsEntries(cat, items), n) == ItemsNeed(cat, items, n)
  {
    if items != [] {
      var init, item := items[..|items| - 1], items[|items| - 1];
      var ings := RecipeAt(cat, item.drinkType).ingredients;
      ItemsSum(cat, init, n);
      IngredientSum(ings, item.quantity, n);
      SumAppend(ItemsEntries(cat, init), IngredientEntries(ings, item.quantity), n);
    }
  }

  /** An ingredient is in the items' recipes when it is in those of all but the last, or in the last one's. */
  lemma InItemsSnoc(cat: Catalog, items: seq<OrderItem>, n: string)
    requires KnownItems(cat, items) && items != []
    ensures KnownItems(cat, items[..|items| - 1])
    ensures InItems(cat, items, n) <==>
              InItems(cat, items[..|items| - 1], n) || UsesIngredient(RecipeAt(cat, items[|items| - 1].drinkType).ingredients, n)
  {
    var init := items[..|items| - 1];
    if InItems(cat, items, n) {
      var j :| 0 <= j < |items| && UsesIngredient(RecipeAt(cat, items[j].drinkType).ingredients, n);
      if j < |init| {
        assert init[j] == items[j];
      }
    }
    if InItems(cat, init, n) {
      var j :| 0 <= j < |init| && UsesIngredient(RecipeAt(cat, init[j].drinkType).ingredients, n);
      assert items[j] == init[j];
    }
  }

  lemma {:induction false} ItemsNames(cat: Catalog, items: seq<OrderItem>, n: string)
    requires KnownItems(cat, items)
    ensures n in Names(ItemsEntries(cat, items)) <==> InItems(cat, items, n)
  {
    if items != [] {
      var init, item := items[..|items| - 1], items[|items| - 1];
      var ings := RecipeAt(cat, item.drinkType).ingredients;
      InItemsSnoc(cat, items, n);
      ItemsNames(cat, init, n);
      IngredientSum(ings, item.quantity, n);
      NamesAppend(ItemsEntries(cat, init), IngredientEntries(ings, item.quantity));
    }
  }

  lemma {:induction false} OrdersSum(cat: Catalog, orders: seq<CustomerOrder>, n: string)
    requires KnownDrinks(cat, orders)
    ensures Sum(OrderEntries(cat, orders), n) == OrdersNeed(cat, orders, n)
  {
    if orders != [] {
      var init, last := orders[..|orders| - 1], orders[|orders| - 1];
      OrdersSum(cat, init, n);
      ItemsSum(cat, last.items, n);
      SumAppend(OrderEntries(cat, init), ItemsEntries(cat, last.items), n);
    }
  }

  lemma InOrdersSnoc(cat: Catalog, orders: seq<CustomerOrder>, n: string)
    requires KnownDrinks(cat, orders) && orders != []
    ensures KnownDrinks(cat, orders[..|orders| - 1])
    ensures InOrders(cat, orders, n) <==>
              InOrders(cat, orders[..|orders| - 1], n) || InItems(cat, orders[|orders| - 1].items, n)
  {
    var init := orders[..|orders| - 1];
    assert forall i :: 0 <= i < |init| ==> init[i] == orders[i];
    if InOrders(cat, orders, n) {
      var i :| 0 <= i < |orders| && InItems(cat, orders[i].items, n);
      if i < |init| {
        assert init[i] == orders[i];
      }
    }
    if InOrders(cat, init, n) {
      var i :| 0 <= i < |init| && InItems(cat, init[i].items, n);
      assert orders[i] == init[i];
    }
  }

  lemma {:induction false} OrdersNames(cat: Catalog, orders: seq<CustomerOrder>, n: string)
    requires KnownDrinks(cat, orders)
    ensures n in Names(OrderEntries(cat, orders)) <==> InOrders(cat, orders, n)
  {
    if orders != [] {
      var init, last := orders[..|orders| - 1], orders[|orders| - 1];
      InOrdersSnoc(cat, orders, n);
      OrdersNames(cat, init, n);
      ItemsNames(cat, last.items, n);
      NamesAppend(OrderEntries(cat, init), ItemsEntries(cat, last.items));
    }
  }

  /**
   * `getTotalIngredients` key by key: an ingredient has an entry exactly
   * when a recipe of an ordered item uses it (whatever the quantity), and its
   * amount is the sum over orders and items of quantity times the recipe's
   * per-bottle amount; its unit is that of the first contribution in
   * iteration order.
   */
  lemma TotalIngredientsMeaning(cat: Catalog, orders: seq<CustomerOrder>, n: string)
    requires KnownDrinks(cat, orders)
    ensures var t := Tally(OrderEntries(cat, orders));
            && (n in t <==> InOrders(cat, orders, n))
            && (n in t ==> t[n].amount == OrdersNeed(cat, orders, n))
    ensures var es := OrderEntries(cat, orders);
            n in Tally(es) ==>
              exists i :: 0 <= i < |es| && es[i].name == n && Tally(es)[n].unit == es[i].unit
                          && forall j :: 0 <= j < i ==> es[j].name != n
  {
    OrdersSum(cat, orders, n);
    OrdersNames(cat, orders, n);
    if n in Tally(OrderEntries(cat, orders)) {
      TallyUnitIsFirst(OrderEntries(cat, orders), n);
    }
  }

  lemma {:induction false} OrderEntriesAppend(cat: Catalog, a: seq<CustomerOrder>, b: seq<CustomerOrder>)
    requires KnownDrinks(cat, a) && KnownDrinks(cat, b)
    ensures KnownDrinks(cat, a + b)
    ensures OrderEntries(cat, a + b) == OrderEntries(cat, a) + OrderEntries(cat, b)
    decreases |b|
  {
    assert forall i :: 0 <= i < |a + b| ==> (a + b)[i] == if i < |a| then a[i] else b[i - |a|];
    if b == [] {
      assert a + b == a;
    } else {
      var b' := b[..|b| - 1];
      assert (a + b)[..|a + b| - 1] == a + b';
      assert (a + b)[|a + b| - 1] == b[|b| - 1];
      OrderEntriesAppend(cat, a, b');
    }
  }

  /** The ingredient totals of two order lists put together are the merged totals of each. */
  lemma TotalIngredientsAppend(cat: Catalog, a: seq<CustomerOrder>, b: seq<CustomerOrder>)
    requires KnownDrinks(cat, a) && KnownDrinks(cat, b)
    ensures KnownDrinks(cat, a + b)
    ensures Tally(OrderEntries(cat, a + b)) == Merge(Tally(OrderEntries(cat, a)), Tally(OrderEntries(cat, b)))
  {
    OrderEntriesAppend(cat, a, b);
    TallyAppend(OrderEntries(cat, a), OrderEntries(cat, b));
  }

  /** No orders, no totals of either kind. */
  lemma NoOrdersNoTotals(cat: Catalog)
    ensures Tally(OrderEntries(cat, [])) == map[]
    ensures BottleTotals(cat, []) == map[]
  {
    TallyEmpty();
  }

  lemma {:induction false} NothingOrderedNothingNeeded(cat: Catalog, items: seq<OrderItem>, n: string)
    requires KnownItems(cat, items)
    requires forall j :: 0 <= j < |items| ==> items[j].quantity == 0
    ensures ItemsNeed(cat, items, n) == 0
  {
    if items != [] {
      NothingOrderedNothingNeeded(cat, items[..|items| - 1], n);
    }
  }

  /** A new order adds no amount to any ingredient. */
  lemma AddOrderNeedsNothing(orders: seq<CustomerOrder>, cat: Catalog, now: nat, n: string)
    requires KnownDrinks(cat, orders)
    ensures KnownDrinks(cat, AddOrder(orders, cat, now))
    ensures OrdersNeed(cat, AddOrder(orders, cat, now), n) == OrdersNeed(cat, orders, n)
  {
    var r := AddOrder(orders, cat, now);
    var items := CreateInitialOrderItems(cat, now);
    assert KnownItems(cat, items) by {
      forall j | 0 <= j < |items|
        ensures HasKey(cat, items[j].drinkType)
      {
        assert cat[j].key == items[j].drinkType;
      }
    }
    assert forall i :: 0 <= i < |orders| ==> r[i] == orders[i];
    assert r[..|r| - 1] == orders;
    NothingOrderedNothingNeeded(cat, items, n);
  }

  // What the bottle totals mean.

  /** Bottles of drink `name` in a list of items. */
  function ItemsBottles(cat: Catalog, items: seq<OrderItem>, name: string): int
    requires KnownItems(cat, items)
  {
    if items == [] then 0
    else
      var item := items[|items| - 1];
      ItemsBottles(cat, items[..|items| - 1], name) + (if RecipeAt(cat, item.drinkType).name == name then item.quantity else 0)
  }

  /** Bottles of drink `name` over all orders. */
  function OrdersBottles(cat: Catalog, orders: seq<CustomerOrder>, name: string): int
    requires KnownDrinks(cat, orders)
  {
    if orders == [] then 0
    else OrdersBottles(cat, orders[..|orders| - 1], name) + ItemsBottles(cat, orders[|orders| - 1].items, name)
  }

  /** Some item of some order is a drink with display name `name`. */
  predicate Ordered(cat: Catalog, orders: seq<CustomerOrder>, name: string)
    requires KnownDrinks(cat, orders)
  {
    exists i :: 0 <= i < |orders| && OrderedIn(cat, orders[i].items, name)
  }

  lemma {:induction false} DrinkSum(cat: Catalog, items: seq<OrderItem>, name: string)
    requires KnownItems(cat, items)
    ensures Sum(DrinkEntries(cat, items), name) == ItemsBottles(cat, items, name)
  {
    if items != [] {
      var es := DrinkEntries(cat, items);
      var init := items[..|items| - 1];
      assert es[..|es| - 1] == DrinkEntries(cat, init);
      DrinkSum(cat, init, name);
    }
  }

  /** Some item of the list is a drink with display name `name`. */
  predicate OrderedIn(cat: Catalog, items: seq<OrderItem>, name: string)
    requires KnownItems(cat, items)
  {
    exists j :: 0 <= j < |items| && RecipeAt(cat, items[j].drinkType).name == name
  }

  lemma DrinkNames(cat: Catalog, items: seq<OrderItem>, name: string)
    requires KnownItems(cat, items)
    ensures name in Names(DrinkEntries(cat, items)) <==> OrderedIn(cat, items, name)
  {
    var es := DrinkEntries(cat, items);
    if name in Names(es) {
      var j :| 0 <= j < |es| && es[j].name == name;
      assert RecipeAt(cat, items[j].drinkType).name == name;
    }
    if OrderedIn(cat, items, name) {
      var j :| 0 <= j < |items| && RecipeAt(cat, items[j].drinkType).name == name;
      assert es[j].name == name;
    }
  }

  lemma {:induction false} BottleSum(cat: Catalog, orders: seq<CustomerOrder>, name: string)
    requires KnownDrinks(cat, orders)
    ensures Sum(BottleEntries(cat, orders), name) == OrdersBottles(cat, orders, name)
  {
    if orders != [] {
      var init, last := orders[..|orders| - 1], orders[|orders| - 1];
      BottleSum(cat, init, name);
      DrinkSum(cat, last.items, name);
      SumAppend(BottleEntries(cat, init), DrinkEntries(cat, last.items), name);
    }
  }

  lemma OrderedSnoc(cat: Catalog, orders: seq<CustomerOrder>, name: string)
    requires KnownDrinks(cat, orders) && orders != []
    ensures KnownDrinks(cat, orders[..|orders| - 1])
    ensures Ordered(cat, orders, name) <==>
              Ordered(cat, orders[..|orders| - 1], name) || OrderedIn(cat, orders[|orders| - 1].items, name)
  {
    var init := orders[..|orders| - 1];
    assert forall i :: 0 <= i < |init| ==> init[i] == orders[i];
    if Ordered(cat, orders, name) {
      var i :| 0 <= i < |orders| && OrderedIn(cat, orders[i].items, name);
      if i < |init| {
        assert init[i] == orders[i];
      }
    }
    if Ordered(cat, init, name) {
      var i :| 0 <= i < |init| && OrderedIn(cat, init[i].items, name);
      assert orders[i] == init[i];
    }
  }

  lemma {:induction false} BottleNames(cat: Catalog, orders: seq<CustomerOrder>, name: string)
    requires KnownDrinks(cat, orders)
    ensures name in Names(BottleEntries(cat, orders)) <==> Ordered(cat, orders, name)
  {
    if orders != [] {
      var init, last := orders[..|orders| - 1], orders[|orders| - 1];
      OrderedSnoc(cat, orders, name);
      BottleNames(cat, init, name);
      DrinkNames(cat, last.items, name);
      NamesAppend(BottleEntries(cat, init), DrinkEntries(cat, last.items));
    }
  }

  /**
   * `getTotalsByDrink` name by name: a drink name has an entry exactly when
   * some item is that drink (even with quantity 0), and its count is the
   * sum of the quantities of those items.
   */
  lemma TotalsByDrinkMeaning(cat: Catalog, orders: seq<CustomerOrder>, name: string)
    requires KnownDrinks(cat, orders)
    ensures var t := BottleTotals(cat, orders);
            && (name in t <==> Ordered(cat, orders, name))
            && (name in t ==> t[name] == OrdersBottles(cat, orders, name))
  {
    BottleSum(cat, orders, name);
    BottleNames(cat, orders, name);
  }
  // Which drinks have a positive count.

  /** Some item of the list is drink `name` with a positive quantity. */
  predicate PositiveIn(cat: Catalog, items: seq<OrderItem>, name: string)
    requires KnownItems(cat, items)
  {
    exists j :: 0 <= j < |items| && RecipeAt(cat, items[j].drinkType).name == name && items[j].quantity > 0
  }

  /** Some item of some order is drink `name` with a positive quantity. */
  predicate PositivelyOrdered(cat: Catalog, orders: seq<CustomerOrder>, name: string)
    requires KnownDrinks(cat, orders)
  {
    exists i :: 0 <= i < |orders| && PositiveIn(cat, orders[i].items, name)
  }

  /** With no negative quantity, a drink's bottle count is positive exactly when one of its items is. */
  lemma {:induction false} ItemsBottlesPositive(cat: Catalog, items: seq<OrderItem>, name: string)
    requires KnownItems(cat, items)
    requires forall j :: 0 <= j < |items| ==> items[j].quantity >= 0
    ensures ItemsBottles(cat, items, name) >= 0
    ensures ItemsBottles(cat, items, name) > 0 <==> PositiveIn(cat, items, name)
  {
    if items != [] {
      var init := items[..|items| - 1];
      assert forall j :: 0 <= j < |init| ==> init[j] == items[j];
      ItemsBottlesPositive(cat, init, name);
      if PositiveIn(cat, init, name) {
        var j :| 0 <= j < |init| && RecipeAt(cat, init[j].drinkType).name == name && init[j].quantity > 0;
        assert items[j] == init[j];
      }
    }
  }

  /** Over well-formed orders, a drink's bottle count is positive exactly when one of its items is. */
  lemma {:induction false} OrdersBottlesPositive(cat: Catalog, orders: seq<CustomerOrder>, name: string)
    requires WellFormed(cat, orders)
    ensures KnownDrinks(cat, orders)
    ensures OrdersBottles(cat, orders, name) >= 0
    ensures OrdersBottles(cat, orders, name) > 0 <==> PositivelyOrdered(cat, orders, name)
  {
    WellFormedKnown(cat, orders);
    if orders != [] {
      var init, last := orders[..|orders| - 1], orders[|orders| - 1];
      assert forall i :: 0 <= i < |init| ==> init[i] == orders[i];
      OrdersBottlesPositive(cat, init, name);
      ItemsBottlesPositive(cat, last.items, name);
      if PositivelyOrdered(cat, init, name) {
        var i :| 0 <= i < |init| && PositiveIn(cat, init[i].items, name);
        assert orders[i] == init[i];
      }
    }
  }

  // Deleting an order.

  lemma {:induction false} OrdersNeedAppend(cat: Catalog, a: seq<CustomerOrder>, b: seq<CustomerOrder>, n: string)
    requires KnownDrinks(cat, a) && KnownDrinks(cat, b)
    ensures KnownDrinks(cat, a + b)
    ensures OrdersNeed(cat, a + b, n) == OrdersNeed(cat, a, n) + OrdersNeed(cat, b, n)
    decreases |b|
  {
    assert forall i :: 0 <= i < |a + b| ==> (a + b)[i] == if i < |a| then a[i] else b[i - |a|];
    if b == [] {
      assert a + b == a;
    } else {
      var b' := b[..|b| - 1];
      assert forall i :: 0 <= i < |b'| ==> b'[i] == b[i];
      assert (a + b)[..|a + b| - 1] == a + b';
      assert (a + b)[|a + b| - 1] == b[|b| - 1];
      OrdersNeedAppend(cat, a, b', n);
    }
  }

  lemma {:induction false} OrdersBottlesAppend(cat: Catalog, a: seq<CustomerOrder>, b: seq<CustomerOrder>, name: string)
    requires KnownDrinks(cat, a) && KnownDrinks(cat, b)
    ensures KnownDrinks(cat, a + b)
    ensures OrdersBottles(cat, a + b, name) == OrdersBottles(cat, a, name) + OrdersBottles(cat, b, name)
    decreases |b|
  {
    assert forall i :: 0 <= i < |a + b| ==> (a + b)[i] == if i < |a| then a[i] else b[i - |a|];
    if b == [] {
      assert a + b == a;
    } else {
      var b' := b[..|b| - 1];
      assert forall i :: 0 <= i < |b'| ==> b'[i] == b[i];
      assert (a + b)[..|a + b| - 1] == a + b';
      assert (a + b)[|a + b| - 1] == b[|b| - 1];
      OrdersBottlesAppend(cat, a, b', name);
    }
  }

  /**
   * `deleteOrder(o.id)`, with the id unique to `o`, takes away exactly
   * `o`'s contribution to every ingredient's need and leaves the other
   * orders' contributions as they were.
   */
  lemma DeleteRemovesNeed(cat: Catalog, a: seq<CustomerOrder>, o: CustomerOrder, b: seq<CustomerOrder>, n: string)
    requires KnownDrinks(cat, a) && KnownItems(cat, o.items) && KnownDrinks(cat, b)
    requires forall i :: 0 <= i < |a| ==> a[i].id != o.id
    requires forall i :: 0 <= i < |b| ==> b[i].id != o.id
    ensures DeleteOrder(a + [o] + b, o.id) == a + b
    ensures KnownDrinks(cat, a + [o] + b) && KnownDrinks(cat, a + b)
    ensures OrdersNeed(cat, a + b, n) == OrdersNeed(cat, a + [o] + b, n) - ItemsNeed(cat, o.items, n)
  {
    DeleteUniqueOrder(a, o, b);
    assert KnownDrinks(cat, [o]);
    assert [o][..0] == [];
    OrdersNeedAppend(cat, a, [o], n);
    OrdersNeedAppend(cat, a + [o], b, n);
    OrdersNeedAppend(cat, a, b, n);
  }

  /** The same for bottle counts: deleting `o` takes away exactly its bottles of each drink. */
  lemma DeleteRemovesBottles(cat: Catalog, a: seq<CustomerOrder>, o: CustomerOrder, b: seq<CustomerOrder>, name: string)
    requires KnownDrinks(cat, a) && KnownItems(cat, o.items) && KnownDrinks(cat, b)
    requires forall i :: 0 <= i < |a| ==> a[i].id != o.id
    requires forall i :: 0 <= i < |b| ==> b[i].id != o.id
    ensures DeleteOrder(a + [o] + b, o.id) == a + b
    ensures KnownDrinks(cat, a + [o] + b) && KnownDrinks(cat, a + b)
    ensures OrdersBottles(cat, a + b, name) == OrdersBottles(cat, a + [o] + b, name) - ItemsBottles(cat, o.items, name)
  {
    DeleteUniqueOrder(a, o, b);
    assert KnownDrinks(cat, [o]);
    assert [o][..0] == [];
    OrdersBottlesAppend(cat, a, [o], name);
    OrdersBottlesAppend(cat, a + [o], b, name);
    OrdersBottlesAppend(cat, a, b, name);
  }
}
