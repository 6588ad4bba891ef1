/** App.tsx: how realtime change events are folded into the in-memory
    orders and products lists, and the two calls that write orders to the
    hosted store (`addOrder` with its fallback insert, `updateOrderStatus`).
    The store itself is not modelled: the error each request would get back
    is a parameter. */
module App {
  import opened Types
  import Seqs

  /** A change event from a realtime channel: the new row for INSERT and
      UPDATE, the old row's id for DELETE. */
  datatype Change<T> = Insert(row: T) | Update(row: T) | Delete(oldId: string)

  /** Order ids are unique in the list. */
  predicate UniqueOrderIds(orders: seq<Order>)
  {
    Seqs.UniqueBy(orders, OrderId)
  }

  predicate HasOrder(orders: seq<Order>, id: string)
  {
    Seqs.HasKey(orders, id, OrderId)
  }

  /** Orders INSERT: a row whose id is already listed is ignored, a new one
      goes to the front. */
  function InsertOrder(orders: seq<Order>, o: Order): (r: seq<Order>)
    ensures HasOrder(orders, o.id) ==> r == orders
    ensures !HasOrder(orders, o.id) ==> |r| == |orders| + 1 && r[0] == o && r[1..] == orders
    ensures UniqueOrderIds(orders) ==> UniqueOrderIds(r)
    ensures HasOrder(r, o.id)
  {
    if HasOrder(orders, o.id) then orders
    else
      var r := [o] + orders;
      assert r[1..] == orders;
      assert OrderId(r[0]) == o.id;
      assert UniqueOrderIds(orders) ==> UniqueOrderIds(r) by {
        if UniqueOrderIds(orders) {
          forall i, j | 0 <= i < j < |r| ensures r[i].id != r[j].id {
            assert r[j] == orders[j - 1];
            if i > 0 { assert r[i] == orders[i - 1]; }
          }
        }
      }
      r
  }

  /** Orders UPDATE: every listed order with the row's id is replaced in
      place; an unknown id changes nothing and is never inserted. */
  function UpdateOrder(orders: seq<Order>, o: Order): (r: seq<Order>)
    ensures |r| == |orders|
    ensures forall i :: 0 <= i < |orders| ==> r[i].id == orders[i].id
    ensures forall i :: 0 <= i < |orders| ==> r[i] == if orders[i].id == o.id then o else orders[i]
    ensures !HasOrder(orders, o.id) ==> r == orders
    ensures UniqueOrderIds(orders) ==> UniqueOrderIds(r)
  {
    Seqs.ReplaceByKey(orders, o, OrderId)
  }

  /** Orders DELETE: every order with the old id goes; the rest keep their
      relative order (the result is a subsequence of the list). */
  function DeleteOrder(orders: seq<Order>, id: string): (r: seq<Order>)
    ensures !HasOrder(r, id)
    ensures forall i :: 0 <= i < |r| ==> r[i] in orders
    ensures forall i :: 0 <= i < |orders| && orders[i].id != id ==> orders[i] in r
    ensures HasOrder(orders, id) ==> |r| < |orders|
    ensures !HasOrder(orders, id) ==> r == orders
    ensures UniqueOrderIds(orders) ==> UniqueOrderIds(r)
    ensures Seqs.Subsequence(r, orders)
    ensures |r| == Seqs.Count(orders, Seqs.KeyOtherThan(id, OrderId))
  {
    Seqs.RemoveByKey(orders, id, OrderId)
  }

  /** DELETE distributes over concatenation: the orders that stay keep
      their relative order. */
  lemma DeleteOrderConcat(a: seq<Order>, b: seq<Order>, id: string)
    ensures DeleteOrder(a + b, id) == DeleteOrder(a, id) + DeleteOrder(b, id)
  {
    Seqs.RemoveByKeyConcat(a, b, id, OrderId);
  }

  /** The orders channel's handler. */
  function ApplyOrderChange(orders: seq<Order>, e: Change<Order>): (r: seq<Order>)
    ensures UniqueOrderIds(orders) ==> UniqueOrderIds(r)
    ensures e.Update? ==> |r| == |orders|
    ensures e.Delete? ==> !HasOrder(r, e.oldId)
    ensures !e.Delete? ==> HasOrder(orders, e.row.id) ==> |r| == |orders|
  {
    match e
    case Insert(o) => InsertOrder(orders, o)
    case Update(o) => UpdateOrder(orders, o)
    case Delete(id) => DeleteOrder(orders, id)
  }

  /** Folding any sequence of order events into a list with unique ids
      keeps the ids unique. */
  lemma {:induction false} OrderEventsKeepIdsUnique(orders: seq<Order>, events: seq<Change<Order>>)
    requires UniqueOrderIds(orders)
    ensures UniqueOrderIds(ApplyOrderChanges(orders, events))
    decreases |events|
  {
    if events != [] {
      OrderEventsKeepIdsUnique(ApplyOrderChange(orders, events[0]), events[1..]);
    }
  }

  function ApplyOrderChanges(orders: seq<Order>, events: seq<Change<Order>>): seq<Order>
    decreases |events|
  {
    if events == [] then orders else ApplyOrderChanges(ApplyOrderChange(orders, events[0]), events[1..])
  }

  /** A delivered INSERT echo is idempotent: a second copy of the same
      event leaves the list as the first one did. */
  lemma InsertEchoIdempotent(orders: seq<Order>, o: Order)
    ensures InsertOrder(InsertOrder(orders, o), o) == InsertOrder(orders, o)
  {
  }

  /** Products INSERT: appended at the end with no duplicate check. */
  function InsertProduct(products: seq<Product>, p: Product): (r: seq<Product>)
    ensures |r| == |products| + 1
    ensures r[..|products|] == products && r[|products|] == p
  {
    products + [p]
  }

  /** A products INSERT whose id is already listed leaves two products with
      that id: the products list does not keep ids unique. */
  lemma ProductInsertCanDuplicate(products: seq<Product>, p: Product)
    requires Seqs.HasKey(products, p.id, ProductId)
    ensures !Seqs.UniqueBy(InsertProduct(products, p), ProductId)
  {
    var r := InsertProduct(products, p);
    var k :| 0 <= k < |products| && products[k].id == p.id;
    assert r[k] == products[k] && r[|products|] == p;
    assert ProductId(r[k]) == ProductId(r[|products|]);
  }

  /** Products UPDATE, as for orders. */
  function UpdateProduct(products: seq<Product>, p: Product): (r: seq<Product>)
    ensures |r| == |products|
    ensures forall i :: 0 <= i < |products| ==> r[i].id == products[i].id
    ensures forall i :: 0 <= i < |products| ==> r[i] == if products[i].id == p.id then p else products[i]
    ensures !Seqs.HasKey(products, p.id, ProductId) ==> r == products
  {
    Seqs.ReplaceByKey(products, p, ProductId)
  }

  /** Products DELETE, as for orders. */
  function DeleteProduct(products: seq<Product>, id: string): (r: seq<Product>)
    ensures !Seqs.HasKey(r, id, ProductId)
    ensures forall i :: 0 <= i < |r| ==> r[i] in products
    ensures forall i :: 0 <= i < |products| && products[i].id != id ==> products[i] in r
    ensures !Seqs.HasKey(products, id, ProductId) ==> r == products
    ensures Seqs.Subsequence(r, products)
    ensures |r| == Seqs.Count(products, Seqs.KeyOtherThan(id, ProductId))
  {
    Seqs.RemoveByKey(products, id, ProductId)
  }

  /** The products channel's handler. */
  function ApplyProductChange(products: seq<Product>, e: Change<Product>): (r: seq<Product>)
    ensures e.Insert? ==> |r| == |products| + 1
    ensures e.Update? ==> |r| == |products|
    ensures e.Delete? ==> |r| <= |products|
  {
    match e
    case Insert(p) => InsertProduct(products, p)
    case Update(p) => UpdateProduct(products, p)
    case Delete(id) => DeleteProduct(products, id)
  }

  /** The reduced record the fallback insert sends: exactly id, items,
      total, status, createdAt, type and tableNumber. */
  datatype BasicOrder = BasicOrder(
    id: string,
    items: seq<OrderItem>,
    total: int,
    status: OrderStatus,
    createdAt: int,
    orderType: OrderType,
    tableNumber: Option<string>)

  function Basic(o: Order): (b: BasicOrder)
    ensures b.id == o.id && b.items == o.items && b.total == o.total && b.status == o.status
    ensures b.createdAt == o.createdAt && b.orderType == o.orderType && b.tableNumber == o.tableNumber
  {
    BasicOrder(o.id, o.items, o.total, o.status, o.createdAt, o.orderType, o.tableNumber)
  }

  /** The row the store holds after accepting a reduced record: every
      field the reduced record lacks is absent. */
  function Stored(b: BasicOrder): Order
  {
    Order(b.id, b.orderType, b.tableNumber, None, b.items, b.status, b.total, b.createdAt, None, None, None, None)
  }

  /** The fallback loses exactly customerName, paymentMethod,
      deliveryAddress, notes and changeFor: the stored row equals the order
      iff the order had none of them. */
  lemma BasicDropsOptionalFields(o: Order)
    ensures Stored(Basic(o)) == o <==>
      o.customerName.None? && o.paymentMethod.None? && o.deliveryAddress.None? &&
      o.notes.None? && o.changeFor.None?
  {
  }

  /** The body of an insert request. */
  datatype InsertPayload = FullRecord(order: Order) | BasicRecord(basic: BasicOrder)

  /** `addOrder`: insert the whole order; only if the store rejects it,
      insert the reduced record once; throw the second error if that fails
      too. `fullError` and `basicError` are the store's answers. */
  method AddOrder(order: Order, fullError: Option<string>, basicError: Option<string>)
    returns (sent: seq<InsertPayload>, thrown: Option<string>)
    ensures 1 <= |sent| <= 2 && sent[0] == FullRecord(order)
    ensures |sent| == 2 <==> fullError.Some?
    ensures |sent| == 2 ==> sent[1] == BasicRecord(Basic(order))
    ensures thrown.Some? <==> fullError.Some? && basicError.Some?
    ensures thrown.Some? ==> thrown == basicError
  {
    sent := [FullRecord(order)];
    thrown := None;
    if fullError.Some? {
      sent := sent + [BasicRecord(Basic(order))];
      if basicError.Some? {
        thrown := basicError;
      }
    }
  }

  /** The body of `updateOrderStatus`'s request: the id it filters on and
      the one column it writes. */
  datatype StatusUpdate = StatusUpdate(id: string, status: OrderStatus)

  /** `updateOrderStatus`: one update request carrying only the status,
      with no check that the transition is allowed; the store's error is
      rethrown. */
  method UpdateOrderStatus(id: string, status: OrderStatus, storeError: Option<string>)
    returns (request: StatusUpdate, thrown: Option<string>)
    ensures request.id == id && request.status == status
    ensures thrown == storeError
  {
    request := StatusUpdate(id, status);
    thrown := storeError;
  }

  /** What the store does with a status update: every row with that id
      gets the new status and keeps all its other fields. */
  function ApplyStatusUpdate(rows: seq<Order>, u: StatusUpdate): (r: seq<Order>)
    ensures |r| == |rows|
    ensures forall i :: 0 <= i < |rows| && rows[i].id == u.id ==> r[i] == rows[i].(status := u.status)
    ensures forall i :: 0 <= i < |rows| && rows[i].id != u.id ==> r[i] == rows[i]
  {
    seq(|rows|, i requires 0 <= i < |rows| => if rows[i].id == u.id then rows[i].(status := u.status) else rows[i])
  }

  /** Nothing stops a status from moving backwards: a delivered order that
      is sent back to PREPARANDO is stored as PREPARANDO. */
  lemma NoTransitionCheck(rows: seq<Order>, k: int)
    requires 0 <= k < |rows| && rows[k].status == Entregue
    ensures ApplyStatusUpdate(rows, StatusUpdate(rows[k].id, Preparando))[k].status == Preparando
  {
  }
}
