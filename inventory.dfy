/**
 * Product stock as the order controller (src/controllers/order.controller.js)
 * sees it: a map from product id to quantity. The availability check that
 * `createOrder` runs before it writes anything, and the `$inc` updates it and
 * `updateOrderStatus` send to the product collection, as functions.
 */
module Inventory {
  import opened Outcomes
  import opened OrderSchemas

  /** Product id to quantity in stock. Quantities are `int`: nothing in the
      product collection stops `$inc` from taking one below zero. */
  type Stock = map<string, int>

  datatype StockError =
    | ProductNotFound(productId: string)     // `Products.findById` returned null
    | InsufficientStock(productId: string)   // `product.quantity < item.quantity`

  predicate NonNegative(stock: Stock) {
    forall p | p in stock :: stock[p] >= 0
  }

  // ---------------------------------------------------------------------------
  // The availability check of createOrder
  // ---------------------------------------------------------------------------

  /** One line item passes the check: its product exists and has at least the
      item's quantity, compared item by item against the stock as it stands. */
  predicate Available(stock: Stock, item: CartItem) {
    item.productId in stock && stock[item.productId] >= item.quantity
  }

  /** The error reported for an item that does not pass. */
  function Shortfall(stock: Stock, item: CartItem): (e: StockError)
    requires !Available(stock, item)
    ensures e.productId == item.productId
    ensures e.ProductNotFound? <==> item.productId !in stock
  {
    if item.productId !in stock then ProductNotFound(item.productId)
    else InsufficientStock(item.productId)
  }

  /** The loop over `items` with its early return: the error of the first item
      that does not pass, or nothing. */
  function CheckStock(stock: Stock, items: seq<CartItem>): (r: Option<StockError>)
    ensures r.None? <==> forall i | 0 <= i < |items| :: Available(stock, items[i])
  {
    if items == [] then None
    else if !Available(stock, items[0]) then Some(Shortfall(stock, items[0]))
    else CheckStock(stock, items[1..])
  }

  /** The error reported is that of the first failing item in list order. */
  lemma {:induction false} CheckStockReportsFirst(stock: Stock, items: seq<CartItem>, k: nat)
    requires k < |items| && !Available(stock, items[k])
    requires forall j | 0 <= j < k :: Available(stock, items[j])
    ensures CheckStock(stock, items) == Some(Shortfall(stock, items[k]))
  {
    if k > 0 {
      assert Available(stock, items[0]);
      assert forall j | 0 <= j < k - 1 :: items[1..][j] == items[j + 1];
      CheckStockReportsFirst(stock, items[1..], k - 1);
    }
  }

  // ---------------------------------------------------------------------------
  // `$inc` on the product collection
  // ---------------------------------------------------------------------------

  /** `Products.findByIdAndUpdate(id, {$inc: {quantity: delta}})`: adds `delta`
      to an existing product and does nothing when the id is absent. */
  function Increment(stock: Stock, productId: string, delta: int): (r: Stock)
    ensures r.Keys == stock.Keys
    ensures forall p | p in r :: r[p] == stock[p] + (if p == productId then delta else 0)
  {
    if productId in stock then stock[productId := stock[productId] + delta] else stock
  }

  /** One `$inc` per line item, in list order, by `sign` times the item's
      quantity: `sign == -1` is the decrement of createOrder, `sign == 1` the
      restore of updateOrderStatus. */
  function Shifted(stock: Stock, items: seq<CartItem>, sign: int): (r: Stock)
    ensures r.Keys == stock.Keys
  {
    if items == [] then stock
    else
      var last := items[|items| - 1];
      Increment(Shifted(stock, items[..|items| - 1], sign), last.productId, sign * last.quantity)
  }

  /** The total quantity of the items that name `productId`. */
  function Ordered(items: seq<CartItem>, productId: string): int {
    if items == [] then 0
    else
      var last := items[|items| - 1];
      Ordered(items[..|items| - 1], productId) + (if last.productId == productId then last.quantity else 0)
  }

  /** After the per-item `$inc`s each product has moved by `sign` times the sum
      of the quantities of all items naming it; no product appears or vanishes. */
  lemma {:induction false} ShiftedAt(stock: Stock, items: seq<CartItem>, sign: int, productId: string)
    requires productId in stock
    ensures productId in Shifted(stock, items, sign)
    ensures Shifted(stock, items, sign)[productId] == stock[productId] + sign * Ordered(items, productId)
  {
    if items != [] {
      var n := |items| - 1;
      ShiftedAt(stock, items[..n], sign, productId);
      var before := Ordered(items[..n], productId);
      var q := if items[n].productId == productId then items[n].quantity else 0;
      assert sign * (before + q) == sign * before + sign * q;
    }
  }

  /** Restoring the items of an order undoes its decrement exactly. */
  lemma RestoreUndoesDecrement(stock: Stock, items: seq<CartItem>)
    ensures Shifted(Shifted(stock, items, -1), items, 1) == stock
  {
    var decremented := Shifted(stock, items, -1);
    var restored := Shifted(decremented, items, 1);
    forall p | p in stock
      ensures restored[p] == stock[p]
    {
      ShiftedAt(stock, items, -1, p);
      ShiftedAt(decremented, items, 1, p);
    }
  }

  // ---------------------------------------------------------------------------
  // Repeated product ids
  // ---------------------------------------------------------------------------

  predicate DistinctProducts(items: seq<CartItem>) {
    forall i, j | 0 <= i < j < |items| :: items[i].productId != items[j].productId
  }

  /** With distinct product ids, the total ordered for a product is the quantity
      of the one item naming it, or zero. */
  lemma {:induction false} OrderedDistinct(items: seq<CartItem>, productId: string)
    requires DistinctProducts(items)
    ensures (forall i | 0 <= i < |items| :: items[i].productId != productId) ==> Ordered(items, productId) == 0
    ensures forall k | 0 <= k < |items| && items[k].productId == productId ::
              Ordered(items, productId) == items[k].quantity
  {
    if items != [] {
      var n := |items| - 1;
      assert DistinctProducts(items[..n]);
      OrderedDistinct(items[..n], productId);
      if items[n].productId == productId {
        assert forall i | 0 <= i < n :: items[..n][i].productId != productId;
      }
    }
  }

  /** Items that passed the per-item check keep the stock non-negative when no
      product id repeats. */
  lemma CheckedDistinctItemsKeepStockNonNegative(stock: Stock, items: seq<CartItem>)
    requires NonNegative(stock)
    requires CheckStock(stock, items).None?
    requires DistinctProducts(items)
    ensures NonNegative(Shifted(stock, items, -1))
  {
    forall p | p in Shifted(stock, items, -1)
      ensures Shifted(stock, items, -1)[p] >= 0
    {
      ShiftedAt(stock, items, -1, p);
      OrderedDistinct(items, p);
    }
  }

  /** One unit of P1 in stock and two items of one unit each naming P1: every
      item passes the per-item check, and the decrement leaves P1 at -1. */
  lemma RepeatedProductOverdraws()
    ensures var stock := map["P1" := 1];
            var items := [CartItem("P1", 1, 10), CartItem("P1", 1, 10)];
            && CheckStock(stock, items).None?
            && Shifted(stock, items, -1) == map["P1" := -1]
  {
    var stock := map["P1" := 1];
    var items := [CartItem("P1", 1, 10), CartItem("P1", 1, 10)];
    assert items[..1] == [CartItem("P1", 1, 10)];
    assert items[..1][..0] == [];
    assert Shifted(stock, items[..1], -1) == map["P1" := 0];
  }

  /** The check the controller evidently intends: each item's product must
      cover the total ordered for it across the whole order. */
  predicate AvailableInTotal(stock: Stock, items: seq<CartItem>, item: CartItem) {
    item.productId in stock && stock[item.productId] >= Ordered(items, item.productId)
  }

  /** The aggregated check: the error of the first item whose product is
      missing or cannot cover the order's total for it. */
  function CheckStockInTotal(stock: Stock, items: seq<CartItem>): (r: Option<StockError>)
    ensures r.None? <==> forall i | 0 <= i < |items| :: AvailableInTotal(stock, items, items[i])
  {
    CheckFrom(stock, items, 0)
  }

  function CheckFrom(stock: Stock, items: seq<CartItem>, from: nat): (r: Option<StockError>)
    requires from <= |items|
    ensures r.None? <==> forall i | from <= i < |items| :: AvailableInTotal(stock, items, items[i])
    decreases |items| - from
  {
    if from == |items| then None
    else if !AvailableInTotal(stock, items, items[from]) then
      Some(if items[from].productId !in stock then ProductNotFound(items[from].productId)
           else InsufficientStock(items[from].productId))
    else CheckFrom(stock, items, from + 1)
  }

  /** Items that pass the aggregated check never take stock below zero, repeated
      product ids or not. */
  lemma CheckedInTotalKeepsStockNonNegative(stock: Stock, items: seq<CartItem>)
    requires NonNegative(stock)
    requires CheckStockInTotal(stock, items).None?
    ensures NonNegative(Shifted(stock, items, -1))
  {
    forall p | p in Shifted(stock, items, -1)
      ensures Shifted(stock, items, -1)[p] >= 0
    {
      ShiftedAt(stock, items, -1, p);
      OrderedAbsent(items, p);
    }
  }

  /** A product no item names is ordered zero times. */
  lemma {:induction false} OrderedAbsent(items: seq<CartItem>, productId: string)
    ensures (forall i | 0 <= i < |items| :: items[i].productId != productId) ==> Ordered(items, productId) == 0
  {
    if items != [] {
      OrderedAbsent(items[..|items| - 1], productId);
    }
  }

  /** The aggregated check rejects the order that overdraws under the per-item check. */
  lemma AggregatedCheckRejectsOverdraw()
    ensures CheckStockInTotal(map["P1" := 1], [CartItem("P1", 1, 10), CartItem("P1", 1, 10)])
            == Some(InsufficientStock("P1"))
  {
    var items := [CartItem("P1", 1, 10), CartItem("P1", 1, 10)];
    assert items[..1] == [CartItem("P1", 1, 10)];
    assert items[..1][..0] == [];
    assert Ordered(items, "P1") == 2;
  }
}
