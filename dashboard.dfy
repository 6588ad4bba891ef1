/** pages/AdminDashboard.tsx: the figures on the admin home page. The
    sales total and order count cover every order in the list, whatever
    its status or date; the popular list is the start of the catalogue. */
module Dashboard {
  import opened Types
  import Seqs
  import App

  /** `totalSales`: the sum of every order's total. */
  function TotalSales(orders: seq<Order>): (r: int)
    ensures orders == [] ==> r == 0
    ensures (forall i :: 0 <= i < |orders| ==> orders[i].total >= 0) ==> r >= 0
  {
    if orders == [] then 0 else orders[0].total + TotalSales(orders[1..])
  }

  /** `totalOrders` */
  function TotalOrders(orders: seq<Order>): (r: nat)
    ensures orders == [] <==> r == 0
  {
    |orders|
  }

  /** The total of a concatenation is the sum of the totals. */
  lemma {:induction false} TotalSalesConcat(a: seq<Order>, b: seq<Order>)
    ensures TotalSales(a + b) == TotalSales(a) + TotalSales(b)
  {
    if a == [] {
      assert a + b == b;
    } else {
      assert (a + b)[1..] == a[1..] + b;
      TotalSalesConcat(a[1..], b);
    }
  }

  function StatusOtherThan(s: OrderStatus): Order -> bool
  {
    (o: Order) => o.status != s
  }

  /** Splitting the list by any one status splits the sales total: the
      figure includes the orders with that status, cancelled ones too. */
  lemma {:induction false} SalesIncludeEveryStatus(orders: seq<Order>, s: OrderStatus)
    ensures TotalSales(orders) ==
      TotalSales(Seqs.Filter(orders, StatusIs(s))) + TotalSales(Seqs.Filter(orders, StatusOtherThan(s)))
  {
    if orders != [] {
      SalesIncludeEveryStatus(orders[1..], s);
    }
  }

  /** Two lists whose orders have the same totals, position by position,
      have the same sales total. */
  lemma {:induction false} SameTotalsSameSales(a: seq<Order>, b: seq<Order>)
    requires |a| == |b| && forall i :: 0 <= i < |a| ==> a[i].total == b[i].total
    ensures TotalSales(a) == TotalSales(b)
  {
    if a != [] {
      SameTotalsSameSales(a[1..], b[1..]);
    }
  }

  /** Cancelling an order, or any other status change, leaves the sales
      total as it was. */
  lemma StatusChangeKeepsSales(orders: seq<Order>, u: App.StatusUpdate)
    ensures TotalSales(App.ApplyStatusUpdate(orders, u)) == TotalSales(orders)
  {
    SameTotalsSameSales(App.ApplyStatusUpdate(orders, u), orders);
  }

  /** A new order's INSERT event adds its total to the sales figure and
      one to the order count; a repeated event changes neither. */
  lemma InsertAddsToFigures(orders: seq<Order>, o: Order)
    ensures !App.HasOrder(orders, o.id) ==>
      TotalSales(App.InsertOrder(orders, o)) == TotalSales(orders) + o.total &&
      TotalOrders(App.InsertOrder(orders, o)) == TotalOrders(orders) + 1
    ensures App.HasOrder(orders, o.id) ==>
      TotalSales(App.InsertOrder(orders, o)) == TotalSales(orders) &&
      TotalOrders(App.InsertOrder(orders, o)) == TotalOrders(orders)
  {
    if !App.HasOrder(orders, o.id) {
      assert App.InsertOrder(orders, o)[1..] == orders;
    }
  }

  /** The popular-products list: the first five products in catalogue
      order, or all of them when there are fewer. */
  function Popular(products: seq<Product>): (r: seq<Product>)
    ensures |r| == Seqs.Min(5, |products|)
    ensures forall i :: 0 <= i < |r| ==> r[i] == products[i]
  {
    Seqs.Take(products, 5)
  }

  /** Products added once five are listed never reach the popular list. */
  lemma PopularIgnoresLaterProducts(products: seq<Product>, p: Product)
    requires |products| >= 5
    ensures Popular(App.InsertProduct(products, p)) == Popular(products)
  {
    var a, b := Popular(App.InsertProduct(products, p)), Popular(products);
    assert |a| == |b|;
  }
}
