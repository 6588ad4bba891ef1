/** pages/TVBoard.tsx: the customer-facing screen with two columns, the
    orders being prepared and the orders ready for pickup, eight at most
    each, labelled by table or by the end of the order id. */
module TVBoard {
  import opened Types
  import Seqs
  import Text
  import App

  /** The board shows at most this many orders per column. */
  const ColumnSize: nat := 8

  /** One column: the first eight orders with status `s`, in list order,
      or all of them when fewer match. */
  function Column(orders: seq<Order>, s: OrderStatus): (r: seq<Order>)
    ensures |r| == Seqs.Min(ColumnSize, |Seqs.Filter(orders, StatusIs(s))|)
    ensures r == Seqs.Take(Seqs.Filter(orders, StatusIs(s)), ColumnSize)
    ensures forall i :: 0 <= i < |r| ==> r[i] in orders && r[i].status == s
    ensures Seqs.Subsequence(r, orders)
    ensures |Seqs.Filter(orders, StatusIs(s))| <= ColumnSize ==>
      forall i :: 0 <= i < |orders| && orders[i].status == s ==> orders[i] in r
  {
    var all := Seqs.Filter(orders, StatusIs(s));
    var r := Seqs.Take(all, ColumnSize);
    assert r == all[..|r|];
    Seqs.PrefixIsSubsequence(all, orders, |r|);
    r
  }

  /** `preparing` */
  function Preparing(orders: seq<Order>): (r: seq<Order>)
    ensures r == Column(orders, Preparando)
    ensures forall i :: 0 <= i < |r| ==> r[i].status == Preparando
  {
    Column(orders, Preparando)
  }

  /** `ready` */
  function Ready(orders: seq<Order>): (r: seq<Order>)
    ensures r == Column(orders, Pronto)
    ensures forall i :: 0 <= i < |r| ==> r[i].status == Pronto
  {
    Column(orders, Pronto)
  }

  /** No order is in both columns, and delivered and cancelled orders are
      in neither. */
  lemma ColumnsDisjoint(orders: seq<Order>, o: Order)
    ensures !(o in Preparing(orders) && o in Ready(orders))
    ensures o.status == Entregue || o.status == Cancelado ==> o !in Preparing(orders) && o !in Ready(orders)
  {
  }

  /** A new order reaching the list by its INSERT event is shown first in
      the preparing column. */
  lemma {:induction false} NewOrderShownFirst(orders: seq<Order>, o: Order)
    requires !App.HasOrder(orders, o.id) && o.status == Preparando
    ensures Preparing(App.InsertOrder(orders, o))[0] == o
  {
    var r := App.InsertOrder(orders, o);
    assert r == [o] + orders;
    Seqs.FilterConcat([o], orders, StatusIs(Preparando));
    assert Seqs.Filter([o], StatusIs(Preparando)) == [o];
  }

  /** The big text on a card: the table number when there is one,
      otherwise the last three characters of the id in capitals. */
  function Label(o: Order): (r: string)
    ensures Filled(o.tableNumber) ==> r == o.tableNumber.value
    ensures !Filled(o.tableNumber) ==>
      |r| == Seqs.Min(3, |o.id|) &&
      forall i :: 0 <= i < |r| ==> r[i] == Text.UpperChar(o.id[|o.id| - |r| + i])
  {
    if Filled(o.tableNumber) then o.tableNumber.value else Text.Upper(Text.TakeLast(o.id, 3))
  }

  /** The preparing column puts '#' before the label; the ready column
      shows it bare. */
  function PreparingLabel(o: Order): (r: string)
    ensures |r| == |Label(o)| + 1 && r[0] == '#' && r[1..] == Label(o)
  {
    "#" + Label(o)
  }

  /** Orders without a table, with ids of three or more characters, are
      told apart on the board only by the last three characters of their
      ids: two such ids that end alike get the same label. */
  lemma LabelsCollide(a: Order, b: Order)
    requires !Filled(a.tableNumber) && !Filled(b.tableNumber)
    requires |a.id| >= 3 && |b.id| >= 3 && a.id[|a.id| - 3..] == b.id[|b.id| - 3..]
    ensures Label(a) == Label(b)
  {
    var la, lb := Label(a), Label(b);
    assert |la| == 3 && |lb| == 3;
    forall i | 0 <= i < 3 ensures la[i] == lb[i] {
      assert a.id[|a.id| - 3..][i] == b.id[|b.id| - 3..][i];
    }
  }
}
