/**
 * The order controllers (src/controllers/order.controller.js) over an
 * in-memory store: the `Products` collection as a map from product id to
 * quantity, the `Orders` collection as a map from order id to order record.
 * Each controller returns a tagged result instead of writing an HTTP response.
 */
module OrderController {
  import opened Outcomes
  import opened OrderSchemas
  import opened Inventory

  type OrderId = nat
  type UserId = string

  /** A stored order. `createdAt` is the creation time the store stamps. */
  datatype Order = Order(
    id: OrderId,
    user: UserId,
    items: seq<CartItem>,
    subTotal: real,
    iva: real,
    total: real,
    totalProducts: int,
    paymentMethod: PaymentMethod,
    status: Status,
    createdAt: nat)

  datatype Failure =
    | OutOfStock(reason: StockError)   // createOrder's availability check
    | InvalidStatus                    // not one of the four status names
    | OrderNotFound                    // no order with that id
    | NotCancelled                     // deleteOrder on an order that is not cancelled

  // ---------------------------------------------------------------------------
  // The stock-restore guard of updateOrderStatus
  // ---------------------------------------------------------------------------

  /** `status === 'cancelled' && order.status !== 'cancelled'`, where `order` is
      whichever record the controller inspects. */
  predicate RestoreGuard(requested: Status, inspected: Order) {
    requested == Cancelled && inspected.status != Cancelled
  }

  /** The controller inspects the record `findByIdAndUpdate(..., {new: true})`
      returns, which already carries the requested status: the guard never holds. */
  lemma GuardOnUpdatedRecordNeverHolds(before: Order, requested: Status)
    ensures !RestoreGuard(requested, before.(status := requested))
  {
  }

  /** The evidently intended restore: the guard evaluated on the record as it
      was before the update, then one `$inc` per item. */
  function RestoreOnCancel(stock: Stock, before: Order, requested: Status): (r: Stock)
    ensures r.Keys == stock.Keys
    ensures !RestoreGuard(requested, before) ==> r == stock
  {
    if RestoreGuard(requested, before) then Shifted(stock, before.items, 1) else stock
  }

  /** Cancelling an order that is not yet cancelled gives back exactly what
      creating it took. */
  lemma CancelRestoresCreate(stock: Stock, order: Order)
    requires order.status != Cancelled
    ensures RestoreOnCancel(Shifted(stock, order.items, -1), order, Cancelled) == stock
  {
    RestoreUndoesDecrement(stock, order.items);
  }

  /** Cancelling again does not restore a second time. */
  lemma CancelTwiceRestoresOnce(stock: Stock, order: Order)
    requires order.status != Cancelled
    ensures var once := RestoreOnCancel(Shifted(stock, order.items, -1), order, Cancelled);
            RestoreOnCancel(once, order.(status := Cancelled), Cancelled) == stock
  {
    CancelRestoresCreate(stock, order);
  }

  // ---------------------------------------------------------------------------
  // `.sort({createdAt: -1})`
  // ---------------------------------------------------------------------------

  predicate NewestFirst(s: seq<Order>) {
    forall i, j | 0 <= i < j < |s| :: s[i].createdAt >= s[j].createdAt
  }

  /** Insertion into a newest-first sequence: `o` goes before the first order
      not newer than it. */
  function InsertNewestFirst(o: Order, s: seq<Order>): (r: seq<Order>)
    requires NewestFirst(s)
    ensures NewestFirst(r)
    ensures |r| == |s| + 1 && (r[0] == o || (s != [] && r[0] == s[0]))
  {
    if s == [] || o.createdAt >= s[0].createdAt then [o] + s
    else
      var rest := InsertNewestFirst(o, s[1..]);
      assert forall j | 0 <= j < |rest| :: rest[j].createdAt <= s[0].createdAt;
      [s[0]] + rest
  }

  /** Insertion adds `o` and loses nothing. */
  lemma {:induction false} InsertIsPermutation(o: Order, s: seq<Order>)
    requires NewestFirst(s)
    ensures multiset(InsertNewestFirst(o, s)) == multiset(s) + multiset{o}
  {
    if s != [] && o.createdAt < s[0].createdAt {
      InsertIsPermutation(o, s[1..]);
      assert s == [s[0]] + s[1..];
    }
  }

  /** The orders rearranged newest first. */
  function SortNewestFirst(s: seq<Order>): (r: seq<Order>)
    ensures NewestFirst(r)
    ensures multiset(r) == multiset(s)
  {
    if s == [] then []
    else
      var rest := SortNewestFirst(s[1..]);
      InsertIsPermutation(s[0], rest);
      assert s == [s[0]] + s[1..];
      InsertNewestFirst(s[0], rest)
  }

  /** `find()` with no filter, or `find({user})`. */
  predicate Selects(owner: Option<UserId>, o: Order) {
    owner.None? || o.user == owner.value
  }

  class OrderStore {
    /** The `Products` collection: product id to quantity. */
    var products: Stock
    /** The `Orders` collection. */
    var orders: map<OrderId, Order>
    /** The id the next created order receives. */
    var nextId: OrderId

    ghost predicate Valid()
      reads this
    {
      forall id | id in orders :: id < nextId && orders[id].id == id
    }

    constructor (stock: Stock)
      ensures Valid()
      ensures products == stock && orders == map[]
    {
      products := stock;
      orders := map[];
      nextId := 0;
    }

    /** The availability loop of `createOrder`: look up each item's product in
        list order and stop at the first that is missing or short. */
    method CheckItems(items: seq<CartItem>) returns (shortfall: Option<StockError>)
      ensures shortfall == CheckStock(products, items)
      ensures shortfall.None? <==> forall i | 0 <= i < |items| :: Available(products, items[i])
    {
      var i := 0;
      while i < |items|
        invariant 0 <= i <= |items|
        invariant forall j | 0 <= j < i :: Available(products, items[j])
      {
        var item := items[i];
        if item.productId !in products || products[item.productId] < item.quantity {
          CheckStockReportsFirst(products, items, i);
          if item.productId !in products {
            return Some(ProductNotFound(item.productId));
          } else {
            return Some(InsufficientStock(item.productId));
          }
        }
        i := i + 1;
      }
      return None;
    }

    /** The `$inc: {quantity: -item.quantity}` of `createOrder`, one item at a time. */
    method TakeStock(items: seq<CartItem>)
      modifies this`products
      ensures products == Shifted(old(products), items, -1)
    {
      var i := 0;
      while i < |items|
        invariant 0 <= i <= |items|
        invariant products == Shifted(old(products), items[..i], -1)
      {
        assert items[..i + 1][..i] == items[..i];
        products := Increment(products, items[i].productId, -items[i].quantity);
        i := i + 1;
      }
      assert items[..|items|] == items;
    }

    /** `createOrder`: check every item against the stock, stopping at the first
        failure; then store a new `received` order owned by `user` and take each
        item's quantity off its product. */
    method CreateOrder(user: UserId, body: ValidOrder, now: nat) returns (r: Result<Order, Failure>)
      requires Valid()
      modifies this
      ensures Valid()
      ensures r.Err? <==> CheckStock(old(products), body.items).Some?
      ensures r.Err? ==> && r.error == OutOfStock(CheckStock(old(products), body.items).value)
                         && products == old(products) && orders == old(orders) && nextId == old(nextId)
      ensures r.Ok? ==> && r.value.id !in old(orders)
                        && orders == old(orders)[r.value.id := r.value]
                        && r.value.user == user && r.value.status == Received
                        && r.value.items == body.items
                        && r.value.subTotal == body.subTotal && r.value.iva == body.iva
                        && r.value.total == body.total && r.value.totalProducts == body.totalProducts
                        && r.value.paymentMethod == body.paymentMethod
                        && r.value.createdAt == now
      ensures r.Ok? ==> && products == Shifted(old(products), body.items, -1)
                        && products.Keys == old(products).Keys
                        && forall p | p in products :: products[p] == old(products)[p] - Ordered(body.items, p)
    {
      var shortfall := CheckItems(body.items);
      if shortfall.Some? {
        return Err(OutOfStock(shortfall.value));
      }
      var order := Order(nextId, user, body.items, body.subTotal, body.iva, body.total,
                         body.totalProducts, body.paymentMethod, Received, now);
      orders := orders[nextId := order];
      nextId := nextId + 1;
      TakeStock(body.items);
      forall p | p in products
        ensures products[p] == old(products)[p] - Ordered(body.items, p)
      {
        ShiftedAt(old(products), body.items, -1, p);
      }
      r := Ok(order);
    }

    /** `updateOrderStatus`: reject an unknown status name or a missing order,
        otherwise overwrite the status, whatever it was. The restore guard is
        evaluated on the updated record, as the controller does. */
    method UpdateOrderStatus(id: OrderId, status: string) returns (r: Result<Order, Failure>)
      requires Valid()
      modifies this
      ensures Valid()
      ensures r.Err? <==> ParseStatus(status).None? || id !in old(orders)
      ensures r.Err? ==> && r.error == (if ParseStatus(status).None? then InvalidStatus else OrderNotFound)
                         && orders == old(orders)
      ensures r.Ok? ==> && r.value == old(orders)[id].(status := ParseStatus(status).value)
                        && orders == old(orders)[id := r.value]
      ensures products == old(products) && nextId == old(nextId)
    {
      var requested := ParseStatus(status);
      if requested.None? {
        return Err(InvalidStatus);
      }
      if id !in orders {
        return Err(OrderNotFound);
      }
      var updated := orders[id].(status := requested.value);
      orders := orders[id := updated];
      // The restore reads the record just written: its guard cannot hold.
      products := if RestoreGuard(requested.value, updated) then Shifted(products, updated.items, 1) else products;
      r := Ok(updated);
    }

    /** `deleteOrder`: only a cancelled order is removed; the caller receives the
        record as it was before the deletion. */
    method DeleteOrder(id: OrderId) returns (r: Result<Order, Failure>)
      requires Valid()
      modifies this
      ensures Valid()
      ensures id !in old(orders) ==> r == Err(OrderNotFound) && orders == old(orders)
      ensures id in old(orders) && old(orders)[id].status != Cancelled ==>
                r == Err(NotCancelled) && orders == old(orders)
      ensures id in old(orders) && old(orders)[id].status == Cancelled ==>
                r == Ok(old(orders)[id]) && orders == old(orders) - {id}
      ensures products == old(products) && nextId == old(nextId)
    {
      if id !in orders {
        return Err(OrderNotFound);
      }
      var order := orders[id];
      if order.status != Cancelled {
        return Err(NotCancelled);
      }
      orders := orders - {id};
      r := Ok(order);
    }

    /** `getOrderById`. */
    function GetOrderById(id: OrderId): (r: Result<Order, Failure>)
      reads this
      requires Valid()
      ensures r.Ok? <==> id in orders
      ensures r.Ok? ==> r.value == orders[id] && r.value.id == id
      ensures r.Err? ==> r.error == OrderNotFound
    {
      if id in orders then Ok(orders[id]) else Err(OrderNotFound)
    }

    /** The stored orders with id at least `from` that `owner` selects. */
    ghost function MatchingFrom(from: nat, owner: Option<UserId>): set<Order>
      reads this
    {
      set id | id in orders && from <= id && Selects(owner, orders[id]) :: orders[id]
    }

    /** The orders with id in `from..nextId` that `owner` selects, in id order. */
    function Collect(from: nat, owner: Option<UserId>): (r: seq<Order>)
      reads this
      requires Valid()
      ensures multiset(r) == multiset(MatchingFrom(from, owner))
      decreases if from <= nextId then nextId - from else 0
    {
      if from >= nextId then
        assert MatchingFrom(from, owner) == {};
        []
      else
        var selected := from in orders && Selects(owner, orders[from]);
        var here := if selected then [orders[from]] else [];
        MatchingFromSplits(from, owner);
        assert multiset(here) == multiset(if selected then {orders[from]} else {});
        here + Collect(from + 1, owner)
    }

    /** The orders matching from `from` are the one with id `from`, when it is
        selected, and those matching from `from + 1`. */
    lemma MatchingFromSplits(from: nat, owner: Option<UserId>)
      requires Valid()
      ensures var here := if from in orders && Selects(owner, orders[from]) then {orders[from]} else {};
              && MatchingFrom(from, owner) == here + MatchingFrom(from + 1, owner)
              && here !! MatchingFrom(from + 1, owner)
    {
      forall o | o in MatchingFrom(from, owner)
        ensures o in MatchingFrom(from + 1, owner) || o == orders[from]
      {
        var id :| id in orders && from <= id && Selects(owner, orders[id]) && o == orders[id];
      }
    }

    /** `getAllOrders`: every order, newest first. */
    function GetAllOrders(): (r: seq<Order>)
      reads this
      requires Valid()
      ensures NewestFirst(r)
      ensures multiset(r) == multiset(MatchingFrom(0, None))
      ensures forall o :: o in r <==> exists id | id in orders :: orders[id] == o
    {
      var r := SortNewestFirst(Collect(0, None));
      assert forall o :: o in r <==> o in multiset(r);
      r
    }

    /** `getUserOrders`: exactly the caller's orders, each once, newest first;
        empty (not an error) when the caller has none. */
    function GetUserOrders(user: UserId): (r: seq<Order>)
      reads this
      requires Valid()
      ensures NewestFirst(r)
      ensures multiset(r) == multiset(MatchingFrom(0, Some(user)))
      ensures forall o :: o in r <==> exists id | id in orders :: orders[id] == o && o.user == user
      ensures (forall id | id in orders :: orders[id].user != user) ==> r == []
    {
      var r := SortNewestFirst(Collect(0, Some(user)));
      assert forall o :: o in r <==> o in multiset(r);
      r
    }
  }
}
