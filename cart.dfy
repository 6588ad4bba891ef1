/** The cart accumulator: a sequence of order lines keyed by product id.
    The digital menu's cart (pages/DigitalMenu.tsx) and the admin's manual
    cart (pages/OrdersList.tsx) are two copies of the same transforms; the
    only difference is that the customer cart ignores inactive products. */
module Cart {
  import opened Types
  import Seqs

  /** Some line of `cart` is for product `pid` (`prev.find(...)`). */
  predicate HasLine(cart: seq<OrderItem>, pid: string)
  {
    Seqs.HasKey(cart, pid, LineProductId)
  }

  /** No two lines of `cart` are for the same product. */
  predicate UniqueLines(cart: seq<OrderItem>)
  {
    Seqs.UniqueBy(cart, LineProductId)
  }

  /** Every line has a quantity of at least one. */
  predicate PositiveQuantities(cart: seq<OrderItem>)
  {
    forall i :: 0 <= i < |cart| ==> cart[i].quantity >= 1
  }

  /** `prev.map(item => item.productId === pid ? {...item, quantity: item.quantity + 1} : item)`:
      the lines for `pid` gain one unit and keep their name and price;
      every other line is untouched. */
  function Bump(cart: seq<OrderItem>, pid: string): (r: seq<OrderItem>)
    ensures |r| == |cart|
    ensures forall i :: 0 <= i < |cart| && cart[i].productId != pid ==> r[i] == cart[i]
    ensures forall i :: 0 <= i < |cart| && cart[i].productId == pid ==>
      r[i] == cart[i].(quantity := cart[i].quantity + 1)
  {
    if cart == [] then []
    else
      var head := if cart[0].productId == pid then cart[0].(quantity := cart[0].quantity + 1) else cart[0];
      [head] + Bump(cart[1..], pid)
  }

  /** The line a product gets when it first enters a cart: one unit, with
      the product's name and price at this moment. */
  function NewLine(p: Product): (l: OrderItem)
    ensures l.productId == p.id && l.quantity == 1
    ensures l.name == p.name && l.price == p.price
  {
    OrderItem(p.id, p.name, 1, p.price)
  }

  /** Add one unit of `p`: merge into its line when there is one, else
      append a new line (the manual cart's `addToManualCart`). */
  function AddLine(cart: seq<OrderItem>, p: Product): (r: seq<OrderItem>)
    ensures HasLine(cart, p.id) ==> |r| == |cart|
    ensures HasLine(cart, p.id) ==> forall i :: 0 <= i < |cart| ==>
      r[i] == if cart[i].productId == p.id then cart[i].(quantity := cart[i].quantity + 1) else cart[i]
    ensures !HasLine(cart, p.id) ==> r == cart + [NewLine(p)]
    ensures HasLine(r, p.id)
    ensures UniqueLines(cart) ==> UniqueLines(r)
    ensures PositiveQuantities(cart) ==> PositiveQuantities(r)
  {
    if HasLine(cart, p.id) then
      var r := Bump(cart, p.id);
      assert forall i :: 0 <= i < |r| ==> r[i].productId == cart[i].productId;
      assert HasLine(r, p.id) by {
        var k :| 0 <= k < |cart| && cart[k].productId == p.id;
        assert r[k].productId == p.id;
      }
      r
    else
      var r := cart + [NewLine(p)];
      assert r[|cart|].productId == p.id;
      r
  }

  /** The customer cart's `addToCart`: an inactive product is refused and
      leaves the cart as it was; an active one is added like any other. */
  function AddToCart(cart: seq<OrderItem>, p: Product): (r: seq<OrderItem>)
    ensures !p.isActive ==> r == cart
    ensures p.isActive ==> r == AddLine(cart, p)
  {
    if !p.isActive then cart else AddLine(cart, p)
  }

  /** `prev.filter(item => item.productId !== pid)`: the whole line goes,
      whatever its quantity, and the other lines keep their order. */
  function RemoveLine(cart: seq<OrderItem>, pid: string): (r: seq<OrderItem>)
    ensures !HasLine(r, pid)
    ensures forall i :: 0 <= i < |r| ==> r[i] in cart
    ensures forall i :: 0 <= i < |cart| && cart[i].productId != pid ==> cart[i] in r
    ensures !HasLine(cart, pid) ==> r == cart
    ensures UniqueLines(cart) ==> UniqueLines(r)
    ensures PositiveQuantities(cart) ==> PositiveQuantities(r)
    ensures Seqs.Subsequence(r, cart)
  {
    var r := Seqs.RemoveByKey(cart, pid, LineProductId);
    assert PositiveQuantities(cart) ==> PositiveQuantities(r) by {
      if PositiveQuantities(cart) {
        forall i | 0 <= i < |r| ensures r[i].quantity >= 1 {
          var k :| 0 <= k < |cart| && cart[k] == r[i];
        }
      }
    }
    r
  }

  /** Removing then order is relative: a line's removal does not move the
      others, so removing from a concatenation removes from each part. */
  lemma RemoveLineConcat(a: seq<OrderItem>, b: seq<OrderItem>, pid: string)
    ensures RemoveLine(a + b, pid) == RemoveLine(a, pid) + RemoveLine(b, pid)
  {
    Seqs.RemoveByKeyConcat(a, b, pid, LineProductId);
  }

  /** `cart.reduce((acc, item) => acc + item.price * item.quantity, 0)` */
  function Total(cart: seq<OrderItem>): (r: int)
    ensures cart == [] ==> r == 0
    ensures |cart| == 1 ==> r == cart[0].price * cart[0].quantity
  {
    if cart == [] then 0 else cart[0].price * cart[0].quantity + Total(cart[1..])
  }

  /** The header badge: `cart.reduce((a, b) => a + b.quantity, 0)` */
  function ItemCount(cart: seq<OrderItem>): (r: nat)
    ensures cart == [] ==> r == 0
    ensures |cart| == 1 ==> r == cart[0].quantity
  {
    if cart == [] then 0 else cart[0].quantity + ItemCount(cart[1..])
  }

  /** Both sums split over a concatenation of carts. */
  lemma {:induction false} SumsConcat(a: seq<OrderItem>, b: seq<OrderItem>)
    ensures Total(a + b) == Total(a) + Total(b)
    ensures ItemCount(a + b) == ItemCount(a) + ItemCount(b)
  {
    if a == [] {
      assert a + b == b;
    } else {
      assert (a + b)[1..] == a[1..] + b;
      SumsConcat(a[1..], b);
    }
  }

  /** A cart whose lines all have a unit or more shows at least as many
      units on the badge as it has lines, so the badge is positive exactly
      when the cart has a line. */
  lemma {:induction false} BadgeCountsLines(cart: seq<OrderItem>)
    requires PositiveQuantities(cart)
    ensures ItemCount(cart) >= |cart|
    ensures ItemCount(cart) > 0 <==> |cart| > 0
  {
    if cart != [] {
      BadgeCountsLines(cart[1..]);
    }
  }

  /** Bumping a product with no line changes nothing. */
  lemma BumpAbsent(cart: seq<OrderItem>, pid: string)
    requires !HasLine(cart, pid)
    ensures Bump(cart, pid) == cart
  {
  }

  /** In a cart with one line per product, adding a product that already
      has line `k` adds one unit and that line's own (snapshot) price. */
  lemma {:induction false} AddLineToExistingSums(cart: seq<OrderItem>, p: Product, k: int)
    requires UniqueLines(cart)
    requires 0 <= k < |cart| && cart[k].productId == p.id
    ensures ItemCount(AddLine(cart, p)) == ItemCount(cart) + 1
    ensures Total(AddLine(cart, p)) == Total(cart) + cart[k].price
  {
    assert HasLine(cart, p.id);
    var r := Bump(cart, p.id);
    assert r == [r[0]] + r[1..];
    Seqs.UniqueTail(cart, LineProductId);
    if k == 0 {
      BumpAbsent(cart[1..], p.id);
      assert r[1..] == Bump(cart[1..], p.id);
    } else {
      var rest := cart[1..];
      assert rest[k - 1] == cart[k];
      assert HasLine(rest, p.id);
      AddLineToExistingSums(rest, p, k - 1);
      assert r[1..] == Bump(rest, p.id);
      assert cart[0].productId != p.id;
    }
  }

  /** Adding a product that has no line appends its price and one unit. */
  lemma AddLineNewSums(cart: seq<OrderItem>, p: Product)
    requires !HasLine(cart, p.id)
    ensures ItemCount(AddLine(cart, p)) == ItemCount(cart) + 1
    ensures Total(AddLine(cart, p)) == Total(cart) + p.price
  {
    SumsConcat(cart, [NewLine(p)]);
  }

  /** In a cart with one line per product, removing product `cart[k]`
      takes exactly that line's units and subtotal away. */
  lemma {:induction false} RemoveLineSums(cart: seq<OrderItem>, k: int)
    requires UniqueLines(cart)
    requires 0 <= k < |cart|
    ensures ItemCount(RemoveLine(cart, cart[k].productId)) == ItemCount(cart) - cart[k].quantity
    ensures Total(RemoveLine(cart, cart[k].productId)) == Total(cart) - cart[k].price * cart[k].quantity
  {
    var pid := cart[k].productId;
    var rest := cart[1..];
    RemoveLineCons(cart, pid);
    Seqs.UniqueTail(cart, LineProductId);
    if k == 0 {
      assert RemoveLine(cart, pid) == rest;
    } else {
      assert rest[k - 1] == cart[k];
      RemoveLineSums(rest, k - 1);
      assert RemoveLine(cart, pid) == [cart[0]] + RemoveLine(rest, pid);
    }
  }

  /** One step of `RemoveLine`: the first line goes or stays, then the rest. */
  lemma RemoveLineCons(cart: seq<OrderItem>, pid: string)
    requires cart != []
    ensures RemoveLine(cart, pid) ==
      (if cart[0].productId == pid then [] else [cart[0]]) + RemoveLine(cart[1..], pid)
  {
    assert cart == [cart[0]] + cart[1..];
    RemoveLineConcat([cart[0]], cart[1..], pid);
    if cart[0].productId == pid {
      SingleRemoved([cart[0]], pid);
    }
  }

  /** Adding a product and then removing it leaves the rest of the cart
      exactly as removing it alone would: the two operations touch only
      that product's line. */
  lemma {:induction false} RemoveAfterAdd(cart: seq<OrderItem>, p: Product)
    ensures RemoveLine(AddLine(cart, p), p.id) == RemoveLine(cart, p.id)
  {
    if HasLine(cart, p.id) {
      BumpThenRemove(cart, p.id);
    } else {
      RemoveLineConcat(cart, [NewLine(p)], p.id);
      SingleRemoved([NewLine(p)], p.id);
      assert RemoveLine(cart, p.id) + [] == RemoveLine(cart, p.id);
    }
  }

  lemma {:induction false} BumpThenRemove(cart: seq<OrderItem>, pid: string)
    ensures RemoveLine(Bump(cart, pid), pid) == RemoveLine(cart, pid)
  {
    if cart != [] {
      var b := Bump(cart, pid);
      assert b == [b[0]] + Bump(cart[1..], pid);
      assert cart == [cart[0]] + cart[1..];
      RemoveLineConcat([b[0]], Bump(cart[1..], pid), pid);
      RemoveLineConcat([cart[0]], cart[1..], pid);
      BumpThenRemove(cart[1..], pid);
      if cart[0].productId == pid {
        SingleRemoved([b[0]], pid);
        SingleRemoved([cart[0]], pid);
      } else {
        assert b[0] == cart[0];
      }
    }
  }

  lemma SingleRemoved(one: seq<OrderItem>, pid: string)
    requires |one| == 1 && one[0].productId == pid
    ensures RemoveLine(one, pid) == []
  {
  }
}
