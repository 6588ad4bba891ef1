/** pages/OrdersList.tsx: the kitchen's order board. The table grid and
    which tables show as occupied, the status buttons each order card
    offers, and the manual-order dialog with its own cart, product search
    and checkout. */
module OrdersList {
  import opened Types
  import Seqs
  import Text
  import Cart
  import App

  /** The table grid: the labels "1" to "12". */
  function Tables(): (r: seq<string>)
    ensures |r| == 12
    ensures forall i :: 0 <= i < 12 ==> r[i] == Text.NatToString(i + 1)
  {
    seq(12, i requires 0 <= i < 12 => Text.NatToString(i + 1))
  }

  /** The grid's labels, written out. */
  lemma TablesAreOneToTwelve()
    ensures Tables() == ["1", "2", "3", "4", "5", "6", "7", "8", "9", "10", "11", "12"]
  {
    var t := Tables();
    assert Text.NatToString(10) == "10";
    assert Text.NatToString(11) == "11";
    assert Text.NatToString(12) == "12";
  }

  /** Order `o` marks table `t` as occupied: it is not delivered and its
      table number is `t` and not empty. */
  predicate Occupies(o: Order, t: string)
  {
    o.status != Entregue && Filled(o.tableNumber) && o.tableNumber.value == t
  }

  /** `occupiedTables`: the table numbers of the orders not yet delivered. */
  function OccupiedTables(orders: seq<Order>): (r: set<string>)
    ensures forall t :: t in r <==> exists i :: 0 <= i < |orders| && Occupies(orders[i], t)
  {
    if orders == [] then {}
    else
      var rest := OccupiedTables(orders[1..]);
      var r := (if orders[0].status != Entregue && Filled(orders[0].tableNumber)
                then {orders[0].tableNumber.value} else {}) + rest;
      assert forall t :: t in r <==> exists i :: 0 <= i < |orders| && Occupies(orders[i], t) by {
        forall t
          ensures t in r <==> exists i :: 0 <= i < |orders| && Occupies(orders[i], t)
        {
          if exists i :: 0 <= i < |orders| && Occupies(orders[i], t) {
            var i :| 0 <= i < |orders| && Occupies(orders[i], t);
            if i > 0 {
              assert orders[1..][i - 1] == orders[i];
            }
          }
          if t in rest {
            var i :| 0 <= i < |orders[1..]| && Occupies(orders[1..][i], t);
            assert orders[i + 1] == orders[1..][i];
          }
        }
      }
      r
  }

  /** Only a delivered order frees its table: a cancelled order keeps its
      table marked occupied. */
  lemma CancelledStillOccupies(orders: seq<Order>, k: int)
    requires 0 <= k < |orders| && orders[k].status == Cancelado && Filled(orders[k].tableNumber)
    ensures orders[k].tableNumber.value in OccupiedTables(orders)
  {
    assert Occupies(orders[k], orders[k].tableNumber.value);
  }

  /** Once every order of a table is delivered, the table is free. */
  lemma DeliveredFreesTable(orders: seq<Order>, t: string)
    requires forall i :: 0 <= i < |orders| && orders[i].tableNumber == Some(t) ==> orders[i].status == Entregue
    ensures t !in OccupiedTables(orders)
  {
  }

  /** The status buttons on an order card. */
  datatype Action = MarkReady | Deliver | Cancel

  /** Which buttons a card offers and the status each one asks for:
      'Pronto' only while preparing, 'Entregar' only when ready, and the
      cancel button on every card, delivered and cancelled ones included. */
  function OfferedActions(s: OrderStatus): (r: set<Action>)
    ensures Cancel in r
    ensures MarkReady in r <==> s == Preparando
    ensures Deliver in r <==> s == Pronto
  {
    (if s == Preparando then {MarkReady} else {}) + (if s == Pronto then {Deliver} else {}) + {Cancel}
  }

  /** The status a button passes to `updateStatus`. */
  function Target(a: Action): (r: OrderStatus)
    ensures r != Preparando
  {
    match a
    case MarkReady => Pronto
    case Deliver => Entregue
    case Cancel => Cancelado
  }

  /** The buttons never move an order back to PREPARANDO, and besides
      cancelling they only move it one step forward; the cancel button is
      the one way a card can ask for a change out of a final status. */
  lemma ActionsMoveForward(s: OrderStatus, a: Action)
    requires a in OfferedActions(s)
    ensures a != Cancel ==> (s == Preparando && Target(a) == Pronto) || (s == Pronto && Target(a) == Entregue)
    ensures (s == Entregue || s == Cancelado) ==> Target(a) == Cancelado
  {
  }

  function InPicker(term: string): Product -> bool
  {
    (p: Product) => p.isActive && Text.MatchesSearch(p.name, term)
  }

  /** `filteredProducts`: the active products whose name contains the
      search term, ignoring case, in catalogue order. */
  function PickerProducts(products: seq<Product>, term: string): (r: seq<Product>)
    ensures forall i :: 0 <= i < |r| ==> r[i] in products && r[i].isActive && Text.MatchesSearch(r[i].name, term)
    ensures forall i :: 0 <= i < |products| && products[i].isActive && Text.MatchesSearch(products[i].name, term) ==> products[i] in r
    ensures Seqs.Subsequence(r, products)
    ensures |r| == Seqs.Count(products, InPicker(term))
  {
    Seqs.Filter(products, InPicker(term))
  }

  /** With an empty search the picker lists exactly the active products. */
  lemma EmptySearchShowsActive(products: seq<Product>, p: Product)
    requires p in products
    ensures p in PickerProducts(products, "") <==> p.isActive
  {
    Text.EmptySearchMatchesAll(p.name);
    var i :| 0 <= i < |products| && products[i] == p;
  }

  /** The dialog's target: the order type and, for the table grid's
      buttons, the table. */
  datatype ManualTarget = ManualTarget(orderType: OrderType, table: Option<string>)

  /** `handleManualCheckout`'s order: nothing without items or an open
      dialog; otherwise a PREPARANDO order of the dialog's type and table
      with the cart's items and total and none of the optional fields. */
  function BuildManualOrder(cart: seq<OrderItem>, target: Option<ManualTarget>, id: string, now: int): (r: Option<Order>)
    ensures r.None? <==> cart == [] || target.None?
    ensures r.Some? ==>
      var o := r.value;
      && o.id == id && o.createdAt == now && o.items == cart
      && o.orderType == target.value.orderType && o.tableNumber == target.value.table
      && o.status == Preparando && o.total == Cart.Total(cart)
      && o.customerName.None? && o.paymentMethod.None? && o.deliveryAddress.None?
      && o.notes.None? && o.changeFor.None?
  {
    if cart == [] || target.None? then None
    else
      Some(Order(id, target.value.orderType, target.value.table, None, cart, Preparando,
                 Cart.Total(cart), now, None, None, None, None))
  }

  /** A manual order loses nothing if the store only takes the reduced
      record: the row stored by the fallback insert is the order itself. */
  lemma ManualOrderSurvivesFallback(cart: seq<OrderItem>, target: Option<ManualTarget>, id: string, now: int)
    requires BuildManualOrder(cart, target, id, now).Some?
    ensures App.Stored(App.Basic(BuildManualOrder(cart, target, id, now).value)) == BuildManualOrder(cart, target, id, now).value
  {
    App.BasicDropsOptionalFields(BuildManualOrder(cart, target, id, now).value);
  }

  /** An order placed from table `t`'s button marks that table occupied as
      soon as its INSERT event reaches the list. */
  lemma {:induction false} PlacedTableOrderOccupies(orders: seq<Order>, cart: seq<OrderItem>, t: string, id: string, now: int)
    requires cart != [] && t != ""
    requires !App.HasOrder(orders, id)
    ensures t in OccupiedTables(App.InsertOrder(orders, BuildManualOrder(cart, Some(ManualTarget(Mesa, Some(t))), id, now).value))
  {
    var o := BuildManualOrder(cart, Some(ManualTarget(Mesa, Some(t))), id, now).value;
    var r := App.InsertOrder(orders, o);
    assert r[0] == o;
    assert Occupies(r[0], t);
  }

  /** The dialog and its cart. `target` is None while the dialog is
      closed; `manualCart` survives closing it. */
  class ManualOrderPanel {
    var target: Option<ManualTarget>
    var manualCart: seq<OrderItem>
    var searchTerm: string

    constructor ()
      ensures target.None? && manualCart == [] && searchTerm == ""
    {
      target := None;
      manualCart := [];
      searchTerm := "";
    }

    /** The picker's search box; the picker then lists
      `PickerProducts(products, searchTerm)`. */
    method TypeSearch(term: string)
      modifies this`searchTerm
      ensures searchTerm == term
    {
      searchTerm := term;
    }

    /** A table button (type MESA with its table), 'Nova Entrega' or
      'Nova Retirada Balcão'. */
    method Open(t: ManualTarget)
      modifies this`target
      ensures target == Some(t)
    {
      target := Some(t);
    }

    /** The dialog's close button: the cart is kept. */
    method Close()
      modifies this`target
      ensures target.None?
    {
      target := None;
    }

    /** `addToManualCart`: the same merge as the customer cart, without
      the active check (the picker lists only active products). */
    method AddToManualCart(p: Product)
      modifies this`manualCart
      ensures manualCart == Cart.AddLine(old(manualCart), p)
    {
      manualCart := Cart.AddLine(manualCart, p);
    }

    /** `removeFromManualCart` */
    method RemoveFromManualCart(productId: string)
      modifies this`manualCart
      ensures manualCart == Cart.RemoveLine(old(manualCart), productId)
    {
      manualCart := Cart.RemoveLine(manualCart, productId);
    }

    /** `handleManualCheckout`: with items and an open dialog, hands the
      order to `addOrder` without waiting for it, then empties the cart
      and closes the dialog whatever the store answers. */
    method ManualCheckout(id: string, now: int, fullError: Option<string>, basicError: Option<string>)
      returns (placed: Option<Order>, requests: seq<App.InsertPayload>)
      modifies this`manualCart, this`target
      ensures placed == BuildManualOrder(old(manualCart), old(target), id, now)
      ensures placed.None? ==> requests == [] && manualCart == old(manualCart) && target == old(target)
      ensures placed.Some? ==>
        && |requests| >= 1 && requests[0] == App.FullRecord(placed.value)
        && (|requests| == 2 <==> fullError.Some?)
        && (|requests| == 2 ==> requests[1] == App.BasicRecord(App.Basic(placed.value)))
        && manualCart == [] && target.None?
    {
      placed := BuildManualOrder(manualCart, target, id, now);
      if placed.None? {
        requests := [];
        return;
      }
      var thrown;
      requests, thrown := App.AddOrder(placed.value, fullError, basicError);
      manualCart := [];
      target := None;
    }
  }
}
