/** pages/DigitalMenu.tsx: the customer-facing menu. Its cart, the
    three-step checkout dialog and the construction of the order that
    checkout hands to `addOrder`. */
module DigitalMenu {
  import opened Types
  import Seqs
  import Cart
  import App

  /** The product of the day: the first product featured on weekday
      `today` that is active. */
  predicate IsFeatured(p: Product, today: int)
  {
    p.featuredDay == Some(today) && p.isActive
  }

  /** Position `k` holds the first featured product. */
  predicate FirstFeaturedAt(products: seq<Product>, today: int, k: int)
  {
    0 <= k < |products| && IsFeatured(products[k], today) &&
    forall j :: 0 <= j < k ==> !IsFeatured(products[j], today)
  }

  /** `products.find(p => p.featuredDay === today && p.isActive)` */
  function FeaturedProduct(products: seq<Product>, today: int): (r: Option<Product>)
    ensures r.None? <==> forall i :: 0 <= i < |products| ==> !IsFeatured(products[i], today)
    ensures r.Some? ==> exists k :: FirstFeaturedAt(products, today, k) && products[k] == r.value
  {
    if products == [] then None
    else if IsFeatured(products[0], today) then Some(products[0])
    else
      var r := FeaturedProduct(products[1..], today);
      assert forall j :: 1 <= j < |products| ==> products[j] == products[1..][j - 1];
      r
  }

  /** The category tabs: 'Todos' followed by the store's categories. */
  function CategoryTabs(categories: seq<string>): (r: seq<string>)
    ensures |r| == |categories| + 1 && r[0] == "Todos" && r[1..] == categories
  {
    ["Todos"] + categories
  }

  function InCategory(c: string): Product -> bool
  {
    (p: Product) => p.category == c
  }

  /** The products listed under the selected tab: all of them, active or
      not, under 'Todos'; otherwise those of that category, in order. */
  function VisibleProducts(products: seq<Product>, activeCategory: string): (r: seq<Product>)
    ensures activeCategory == "Todos" ==> r == products
    ensures activeCategory != "Todos" ==>
      (forall i :: 0 <= i < |r| ==> r[i] in products && r[i].category == activeCategory) &&
      (forall i :: 0 <= i < |products| && products[i].category == activeCategory ==> products[i] in r) &&
      Seqs.Subsequence(r, products) &&
      |r| == Seqs.Count(products, InCategory(activeCategory))
  {
    if activeCategory == "Todos" then products else Seqs.Filter(products, InCategory(activeCategory))
  }

  /** The dialog's three steps. */
  datatype Step = CartStep | Details | Payment

  /** A step's position in the dialog: cart, details, payment. */
  function StepIndex(s: Step): (n: nat)
    ensures n <= 2
  {
    match s
    case CartStep => 0
    case Details => 1
    case Payment => 2
  }

  /** The 'Continue' button's move before the last step: one step forward,
      cart to details and details to payment. */
  function Advance(s: Step): (r: Step)
    requires s != Payment
    ensures StepIndex(r) == StepIndex(s) + 1
  {
    if s == CartStep then Details else Payment
  }

  /** The back button's move (it is shown only past the first step): one
      step back, payment to details and details to cart. */
  function Previous(s: Step): (r: Step)
    requires s != CartStep
    ensures StepIndex(r) == StepIndex(s) - 1
  {
    if s == Payment then Details else CartStep
  }

  /** Back undoes Continue and Continue undoes Back. */
  lemma StepsAreInverse(s: Step)
    ensures s != Payment ==> Previous(Advance(s)) == s
    ensures s != CartStep ==> Advance(Previous(s)) == s
  {
  }

  /** The checkout form's fields. `changeFor` is the cash amount in cents
      typed into the change field, None while that field is empty. */
  datatype CheckoutForm = CheckoutForm(
    orderType: OrderType,
    manualTable: string,
    address: string,
    payment: PaymentMethod,
    notes: string,
    changeFor: Option<int>)

  /** The form as the page opens: a table order for the table the device
      is logged into, else a counter order; PIX; everything else empty. */
  function InitialForm(tableNumber: Option<string>): (f: CheckoutForm)
    ensures f.orderType == (if Filled(tableNumber) then Mesa else Balcao)
    ensures f.manualTable == (if Filled(tableNumber) then tableNumber.value else "")
    ensures f.address == "" && f.payment == Pix && f.notes == "" && f.changeFor.None?
  {
    CheckoutForm(
      if Filled(tableNumber) then Mesa else Balcao,
      if Filled(tableNumber) then tableNumber.value else "",
      "", Pix, "", None)
  }

  /** Why checkout built no order. */
  datatype Rejection = EmptyCart | MissingTable | MissingAddress

  datatype Checkout = Rejected(reason: Rejection) | Built(order: Order)

  /** `handleCheckout`'s validation and the order it builds. `id` and `now`
      stand for the random id and the clock. */
  function BuildOrder(cart: seq<OrderItem>, form: CheckoutForm, id: string, now: int): (r: Checkout)
    ensures r.Rejected? <==>
      cart == [] ||
      (form.orderType == Mesa && form.manualTable == "") ||
      (form.orderType == Entrega && form.address == "")
    ensures r.Rejected? && cart == [] ==> r.reason == EmptyCart
    ensures r.Rejected? && cart != [] ==> r.reason == (if form.orderType == Mesa then MissingTable else MissingAddress)
    ensures r.Built? ==>
      var o := r.order;
      && o.id == id && o.createdAt == now && o.orderType == form.orderType
      && o.items == cart && o.status == Preparando && o.total == Cart.Total(cart)
      && (Filled(o.tableNumber) <==> form.orderType == Mesa)
      && (o.tableNumber.Some? ==> o.tableNumber.value == form.manualTable)
      && (form.orderType != Mesa ==> o.tableNumber.None?)
      && (Filled(o.deliveryAddress) <==> form.orderType == Entrega)
      && (o.deliveryAddress.Some? ==> o.deliveryAddress.value == form.address)
      && (form.orderType != Entrega ==> o.deliveryAddress.None?)
      && (o.changeFor.Some? <==> form.payment == Dinheiro && form.changeFor.Some?)
      && (o.changeFor.Some? ==> o.changeFor == form.changeFor)
      && o.paymentMethod == Some(form.payment) && o.notes == Some(form.notes)
      && o.customerName.None?
  {
    if cart == [] then Rejected(EmptyCart)
    else if form.orderType == Mesa && form.manualTable == "" then Rejected(MissingTable)
    else if form.orderType == Entrega && form.address == "" then Rejected(MissingAddress)
    else
      Built(Order(
        id := id,
        orderType := form.orderType,
        tableNumber := if form.orderType == Mesa then Some(form.manualTable) else None,
        customerName := None,
        items := cart,
        status := Preparando,
        total := Cart.Total(cart),
        createdAt := now,
        paymentMethod := Some(form.payment),
        deliveryAddress := if form.orderType == Entrega then Some(form.address) else None,
        notes := Some(form.notes),
        changeFor := if form.payment == Dinheiro && form.changeFor.Some? then form.changeFor else None))
  }

  /** A counter order needs nothing but a non-empty cart. */
  lemma CounterOrderNeedsOnlyItems(cart: seq<OrderItem>, form: CheckoutForm, id: string, now: int)
    requires form.orderType == Balcao
    ensures BuildOrder(cart, form, id, now).Built? <==> cart != []
  {
  }

  /** What one press of the dialog's main button led to. */
  datatype Submission =
    | NotSubmitted
    | Refused(reason: Rejection)
    | Sent(order: Order, requests: seq<App.InsertPayload>, error: Option<string>)

  /** The page's state: the cart, the dialog, its step, the sending flag
      and the checkout form. */
  class MenuSession {
    var cart: seq<OrderItem>
    var cartOpen: bool
    var step: Step
    var sending: bool
    var form: CheckoutForm

    constructor (tableNumber: Option<string>)
      ensures cart == [] && !cartOpen && step == CartStep && !sending
      ensures form == InitialForm(tableNumber)
    {
      cart := [];
      cartOpen := false;
      step := CartStep;
      sending := false;
      form := InitialForm(tableNumber);
    }

    /** `addToCart` */
    method AddToCart(p: Product)
      modifies this`cart
      ensures cart == Cart.AddToCart(old(cart), p)
    {
      cart := Cart.AddToCart(cart, p);
    }

    /** `removeFromCart` */
    method RemoveFromCart(productId: string)
      modifies this`cart
      ensures cart == Cart.RemoveLine(old(cart), productId)
    {
      cart := Cart.RemoveLine(cart, productId);
    }

    /** The cart icon: opens the dialog on its first step. */
    method OpenCart()
      modifies this`cartOpen, this`step
      ensures cartOpen && step == CartStep
    {
      cartOpen := true;
      step := CartStep;
    }

    /** The dialog's close button. */
    method CloseCart()
      modifies this`cartOpen
      ensures !cartOpen
    {
      cartOpen := false;
    }

    /** The back button, shown only past the first step. */
    method Back()
      modifies this`step
      ensures step == if old(step) == CartStep then CartStep else Previous(old(step))
    {
      if step != CartStep {
        step := Previous(step);
      }
    }

    /** The form's inputs and buttons (order type, table, address,
      payment method, notes, change): each replaces its own field. */
    method EditForm(f: CheckoutForm)
      modifies this`form
      ensures form == f
    {
      form := f;
    }

    /** `handleCheckout`. `fullError` and `basicError` are the store's
      answers to the two inserts `addOrder` may make. Nothing is sent when
      validation fails; the cart is emptied and the dialog reset only when
      `addOrder` returns without throwing; `sending` ends false. */
    method Checkout(id: string, now: int, fullError: Option<string>, basicError: Option<string>)
      returns (outcome: Submission)
      modifies this`cart, this`cartOpen, this`step, this`sending
      ensures BuildOrder(old(cart), form, id, now).Rejected? ==>
        && outcome == Refused(BuildOrder(old(cart), form, id, now).reason)
        && cart == old(cart) && cartOpen == old(cartOpen) && step == old(step) && sending == old(sending)
      ensures BuildOrder(old(cart), form, id, now).Built? ==>
        && outcome.Sent? && outcome.order == BuildOrder(old(cart), form, id, now).order
        && |outcome.requests| >= 1 && outcome.requests[0] == App.FullRecord(outcome.order)
        && (|outcome.requests| == 2 <==> fullError.Some?)
        && (|outcome.requests| == 2 ==> outcome.requests[1] == App.BasicRecord(App.Basic(outcome.order)))
        && (outcome.error.None? <==> fullError.None? || basicError.None?)
        && !sending
      ensures outcome.Sent? && outcome.error.None? ==> cart == [] && !cartOpen && step == CartStep
      ensures outcome.Sent? && outcome.error.Some? ==>
        cart == old(cart) && cartOpen == old(cartOpen) && step == old(step)
    {
      var b := BuildOrder(cart, form, id, now);
      if b.Rejected? {
        outcome := Refused(b.reason);
        return;
      }
      sending := true;
      var requests, thrown := App.AddOrder(b.order, fullError, basicError);
      if thrown.None? {
        cart := [];
        cartOpen := false;
        step := CartStep;
      }
      sending := false;
      outcome := Sent(b.order, requests, thrown);
    }

    /** The dialog's main button: disabled while the cart is empty or an
      order is being sent; otherwise it moves to the next step, and on the
      payment step it checks out. */
    method Continue(id: string, now: int, fullError: Option<string>, basicError: Option<string>)
      returns (outcome: Submission)
      modifies this`cart, this`cartOpen, this`step, this`sending
      ensures old(cart) == [] || old(sending) ==>
        outcome == NotSubmitted && cart == old(cart) && step == old(step) && cartOpen == old(cartOpen) && sending == old(sending)
      ensures old(cart) != [] && !old(sending) && old(step) != Payment ==>
        outcome == NotSubmitted && step == Advance(old(step)) && cart == old(cart) && cartOpen == old(cartOpen) && sending == old(sending)
      ensures (old(cart) != [] && !old(sending) && old(step) == Payment &&
               BuildOrder(old(cart), form, id, now).Rejected?) ==>
        && outcome == Refused(BuildOrder(old(cart), form, id, now).reason)
        && cart == old(cart) && cartOpen == old(cartOpen) && step == old(step) && sending == old(sending)
      ensures (old(cart) != [] && !old(sending) && old(step) == Payment &&
               BuildOrder(old(cart), form, id, now).Built?) ==>
        && outcome.Sent? && outcome.order == BuildOrder(old(cart), form, id, now).order
        && |outcome.requests| >= 1 && outcome.requests[0] == App.FullRecord(outcome.order)
        && (|outcome.requests| == 2 <==> fullError.Some?)
        && (|outcome.requests| == 2 ==> outcome.requests[1] == App.BasicRecord(App.Basic(outcome.order)))
        && (outcome.error.None? <==> fullError.None? || basicError.None?)
        && !sending
      ensures outcome.Sent? && outcome.error.None? ==> cart == [] && !cartOpen && step == CartStep
      ensures outcome.Sent? && outcome.error.Some? ==>
        cart == old(cart) && cartOpen == old(cartOpen) && step == old(step)
    {
      if cart == [] || sending {
        outcome := NotSubmitted;
      } else if step != Payment {
        step := Advance(step);
        outcome := NotSubmitted;
      } else {
        outcome := Checkout(id, now, fullError, basicError);
      }
    }
  }
}
