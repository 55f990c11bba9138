/**
 * The calculator's order list (src/BottledDrinksCalculator.tsx) and the
 * copy-on-write updates the order screen applies to it. `Date.now()` is the
 * parameter `now` and the answer of the `confirm` dialog the parameter
 * `confirmed`.
 */
module Orders {
  import opened DrinkCatalog
  import Decimal

  datatype OrderItem = OrderItem(id: string, drinkType: string, quantity: int)

  datatype CustomerOrder = CustomerOrder(id: string, customerName: string, items: seq<OrderItem>)

  /** `${Date.now()}-${recipeId}`. */
  function ItemId(now: nat, key: string): (id: string)
    ensures var d := Decimal.Digits(now);
            && |id| == |d| + 1 + |key|
            && id[..|d|] == d && id[|d|] == '-' && id[|d| + 1..] == key
  {
    Decimal.Digits(now) + "-" + key
  }

  /** `createInitialOrderItems()`: one item per catalog key, in key order, none ordered yet. */
  function CreateInitialOrderItems(cat: Catalog, now: nat): (items: seq<OrderItem>)
    ensures |items| == |cat|
    ensures forall i :: 0 <= i < |cat| ==>
              items[i].id == ItemId(now, cat[i].key) && items[i].drinkType == cat[i].key && items[i].quantity == 0
  {
    seq(|cat|, i requires 0 <= i < |cat| => OrderItem(ItemId(now, cat[i].key), cat[i].key, 0))
  }

  /** `addOrder()`: a new order with an empty customer name and a fresh item list goes at the end. */
  function AddOrder(orders: seq<CustomerOrder>, cat: Catalog, now: nat): (r: seq<CustomerOrder>)
    ensures |r| == |orders| + 1 && r[..|orders|] == orders
    ensures r[|orders|].id == Decimal.Digits(now)
    ensures r[|orders|].customerName == "" && r[|orders|].items == CreateInitialOrderItems(cat, now)
  {
    orders + [CustomerOrder(Decimal.Digits(now), "", CreateInitialOrderItems(cat, now))]
  }

  /** `updateOrderCustomer(orderId, customerName)`. */
  function UpdateOrderCustomer(orders: seq<CustomerOrder>, orderId: string, customerName: string): (r: seq<CustomerOrder>)
    ensures |r| == |orders|
    ensures forall i :: 0 <= i < |orders| ==>
              r[i].id == orders[i].id && r[i].items == orders[i].items
              && r[i].customerName == if orders[i].id == orderId then customerName else orders[i].customerName
  {
    seq(|orders|, i requires 0 <= i < |orders| =>
      if orders[i].id == orderId then orders[i].(customerName := customerName) else orders[i])
  }

  function Max(a: int, b: int): int
  {
    if a < b then b else a
  }

  /** The items of one order, with item `itemId` set to `quantity`. */
  function SetItemQuantity(items: seq<OrderItem>, itemId: string, quantity: int): (r: seq<OrderItem>)
    ensures |r| == |items|
    ensures forall j :: 0 <= j < |items| ==>
              r[j].id == items[j].id && r[j].drinkType == items[j].drinkType
              && r[j].quantity == if items[j].id == itemId then quantity else items[j].quantity
  {
    seq(|items|, j requires 0 <= j < |items| =>
      if items[j].id == itemId then items[j].(quantity := quantity) else items[j])
  }

  /** `updateOrderItem(orderId, itemId, quantity)`: the quantity stored is `Math.max(0, quantity)`. */
  function UpdateOrderItem(orders: seq<CustomerOrder>, orderId: string, itemId: string, quantity: int): (r: seq<CustomerOrder>)
    ensures |r| == |orders|
    ensures forall i :: 0 <= i < |orders| ==>
              r[i].id == orders[i].id && r[i].customerName == orders[i].customerName
              && |r[i].items| == |orders[i].items|
    ensures forall i, j :: 0 <= i < |orders| && 0 <= j < |orders[i].items| ==>
              var before, after := orders[i].items[j], r[i].items[j];
              after.id == before.id && after.drinkType == before.drinkType
              && after.quantity == if orders[i].id == orderId && before.id == itemId then Max(0, quantity) else before.quantity
  {
    seq(|orders|, i requires 0 <= i < |orders| =>
      if orders[i].id == orderId then orders[i].(items := SetItemQuantity(orders[i].items, itemId, Max(0, quantity)))
      else orders[i])
  }

  /** `deleteOrder(orderId)`: the orders whose id differs, in their order. */
  function DeleteOrder(orders: seq<CustomerOrder>, orderId: string): (r: seq<CustomerOrder>)
    ensures |r| <= |orders|
    ensures forall o :: o in r <==> o in orders && o.id != orderId
  {
    if orders == [] then []
    else
      var last := orders[|orders| - 1];
      var init := orders[..|orders| - 1];
      assert orders == init + [last];
      DeleteOrder(init, orderId) + (if last.id != orderId then [last] else [])
  }

  /** `resetOrders()`: everything goes, but only once the user has confirmed. */
  function ResetOrders(orders: seq<CustomerOrder>, confirmed: bool): (r: seq<CustomerOrder>)
    ensures confirmed ==> r == []
    ensures !confirmed ==> r == orders
  {
    if confirmed then [] else orders
  }

  // The invariant the order screen keeps.

  /** Every item names a drink of the catalog and holds a quantity of zero or more. */
  predicate WellFormed(cat: Catalog, orders: seq<CustomerOrder>)
  {
    forall i, j :: 0 <= i < |orders| && 0 <= j < |orders[i].items| ==>
      HasKey(cat, orders[i].items[j].drinkType) && orders[i].items[j].quantity >= 0
  }

  lemma AddOrderWellFormed(orders: seq<CustomerOrder>, cat: Catalog, now: nat)
    requires WellFormed(cat, orders)
    ensures WellFormed(cat, AddOrder(orders, cat, now))
  {
    var r := AddOrder(orders, cat, now);
    forall i, j | 0 <= i < |r| && 0 <= j < |r[i].items|
      ensures HasKey(cat, r[i].items[j].drinkType) && r[i].items[j].quantity >= 0
    {
      if i < |orders| {
        assert r[i] == orders[i];
      }
    }
  }

  lemma UpdateOrderCustomerWellFormed(orders: seq<CustomerOrder>, orderId: string, customerName: string, cat: Catalog)
    requires WellFormed(cat, orders)
    ensures WellFormed(cat, UpdateOrderCustomer(orders, orderId, customerName))
  {
  }

  /** Whatever quantity is typed in, none stored is ever negative. */
  lemma UpdateOrderItemWellFormed(orders: seq<CustomerOrder>, orderId: string, itemId: string, quantity: int, cat: Catalog)
    requires WellFormed(cat, orders)
    ensures WellFormed(cat, UpdateOrderItem(orders, orderId, itemId, quantity))
  {
  }

  lemma DeleteOrderWellFormed(orders: seq<CustomerOrder>, orderId: string, cat: Catalog)
    requires WellFormed(cat, orders)
    ensures WellFormed(cat, DeleteOrder(orders, orderId))
  {
    var r := DeleteOrder(orders, orderId);
    forall i, j | 0 <= i < |r| && 0 <= j < |r[i].items|
      ensures HasKey(cat, r[i].items[j].drinkType) && r[i].items[j].quantity >= 0
    {
      assert r[i] in orders;
    }
  }

  // Further properties.

  /** With unique catalog keys, the items of a new order have unique ids. */
  lemma InitialItemIdsDistinct(cat: Catalog, now: nat)
    requires DistinctKeys(cat)
    ensures var items := CreateInitialOrderItems(cat, now);
            forall i, j :: 0 <= i < j < |items| ==> items[i].id != items[j].id
  {
    var items := CreateInitialOrderItems(cat, now);
    var prefix := Decimal.Digits(now) + "-";
    forall i, j | 0 <= i < j < |items|
      ensures items[i].id != items[j].id
    {
      assert items[i].id == prefix + cat[i].key;
      assert items[j].id == prefix + cat[j].key;
      assert (prefix + cat[i].key)[|prefix|..] == cat[i].key;
      assert (prefix + cat[j].key)[|prefix|..] == cat[j].key;
    }
  }

  /** Deleting distributes over a split of the list, so the kept orders keep their relative order. */
  lemma {:induction false} DeleteOrderAppend(a: seq<CustomerOrder>, b: seq<CustomerOrder>, orderId: string)
    ensures DeleteOrder(a + b, orderId) == DeleteOrder(a, orderId) + DeleteOrder(b, orderId)
    decreases |b|
  {
    if b == [] {
      assert a + b == a;
    } else {
      var b' := b[..|b| - 1];
      assert (a + b)[..|a + b| - 1] == a + b';
      assert (a + b)[|a + b| - 1] == b[|b| - 1];
      DeleteOrderAppend(a, b', orderId);
    }
  }

  /** Deleting an id no order has changes nothing. */
  lemma {:induction false} DeleteAbsentOrder(orders: seq<CustomerOrder>, orderId: string)
    requires forall i :: 0 <= i < |orders| ==> orders[i].id != orderId
    ensures DeleteOrder(orders, orderId) == orders
  {
    if orders != [] {
      var init := orders[..|orders| - 1];
      DeleteAbsentOrder(init, orderId);
      assert init + [orders[|orders| - 1]] == orders;
    }
  }

  /** Deleting twice is deleting once. */
  lemma DeleteOrderIdempotent(orders: seq<CustomerOrder>, orderId: string)
    ensures DeleteOrder(DeleteOrder(orders, orderId), orderId) == DeleteOrder(orders, orderId)
  {
    var r := DeleteOrder(orders, orderId);
    forall i | 0 <= i < |r|
      ensures r[i].id != orderId
    {
      assert r[i] in r;
    }
    DeleteAbsentOrder(r, orderId);
  }

  /** Deleting an id that only `o` carries takes `o` out and leaves the others in place. */
  lemma DeleteUniqueOrder(a: seq<CustomerOrder>, o: CustomerOrder, b: seq<CustomerOrder>)
    requires forall i :: 0 <= i < |a| ==> a[i].id != o.id
    requires forall i :: 0 <= i < |b| ==> b[i].id != o.id
    ensures DeleteOrder(a + [o] + b, o.id) == a + b
  {
    assert DeleteOrder([o], o.id) == [] by {
      assert [o][..0] == [];
    }
    assert DeleteOrder(a + [o], o.id) == a by {
      DeleteOrderAppend(a, [o], o.id);
      DeleteAbsentOrder(a, o.id);
    }
    DeleteOrderAppend(a + [o], b, o.id);
    DeleteAbsentOrder(b, o.id);
  }
}
