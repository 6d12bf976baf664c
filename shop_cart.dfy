/** The shop page: products as the page derives them from the shop endpoint, the cart
    (a list of lines, updated by `map`/`filter` into a new list), its totals, and the
    checkout that folds the whole cart into one order.

    The page's network calls are not modelled: the reply of `POST /api/orders` is a
    parameter of the checkout. */
module ShopCart {
  import opened Common
  import opened Strings
  import opened Tables
  import opened Models
  import ShopRouter
  import OrdersRouter

  /** A product as the page keeps it (the fields the cart uses). */
  datatype CartProduct = CartProduct(id: int, name: string, price: int, minOrder: int)

  /** `parseInt(product.quantity?.split(' ')[0]) || 50`: NaN and 0 are falsy. */
  function MinOrder(quantity: string): (m: int)
    ensures m != 0
  {
    match ParseIntJs(Split(quantity, ' ')[0])
    case None => 50
    case Some(n) => if n == 0 then 50 else n
  }

  /** A quantity that starts with a non-zero number followed by a space orders in steps of
      that number. */
  lemma MinOrderOfLeadingNumber(n: int, rest: string)
    requires n != 0
    ensures MinOrder(IntToString(n) + " " + rest) == n
  {
    var s := IntToString(n);
    assert ' ' !in s by {
      assert ParseIntJs(s) == Some(n) by { ParseIntOfIntToString(n); }
      NumberHasNoSpace(n);
    }
    assert s + " " + rest == s + [' '] + rest;
    SplitHead(s, ' ', rest);
    ParseIntOfIntToString(n);
  }

  lemma NumberHasNoSpace(n: int)
    ensures ' ' !in IntToString(n)
  {
    var s := IntToString(n);
    if n >= 0 {
      NatDigits(n);
    } else {
      NatDigits(-n);
      assert s == "-" + NatToString(-n);
    }
  }

  lemma NatDigits(n: nat)
    ensures ' ' !in NatToString(n)
  {
    DecimalValueOfNatToString(n);
  }

  /** `parseInt(product.price) || 0`: the integer price comes through unchanged. */
  function PagePrice(price: int): (r: int)
    ensures r == price
  {
    ParseIntOfIntToString(price);
    match ParseIntJs(IntToString(price))
    case None => 0
    case Some(v) => if v == 0 then 0 else v
  }

  /** The defaults the page adds to each fetched product. */
  function FromShopItem(item: ShopRouter.ShopItem): (p: CartProduct)
    ensures p.id == item.id && p.name == item.name && p.price == item.price
    ensures p.minOrder != 0
  {
    CartProduct(item.id, item.name, PagePrice(item.price), MinOrder(item.quantity))
  }

  /** The static products shown when the shop endpoint cannot be reached. */
  const FallbackProducts: seq<CartProduct> :=
    [CartProduct(1, "Premium PPE Kit", 499, 100), CartProduct(2, "Surgical Face Masks", 299, 50)]

  /** The product list: the fetched products with their defaults, or the fallback list
      when the request failed. */
  function LoadProducts(response: Option<seq<ShopRouter.ShopItem>>): (r: seq<CartProduct>)
    ensures response.None? ==> r == FallbackProducts
    ensures response.Some? ==> |r| == |response.value|
    ensures response.Some? ==> forall i :: 0 <= i < |r| ==> r[i].id == response.value[i].id && r[i].price == response.value[i].price
  {
    match response
    case None => FallbackProducts
    case Some(items) => Project(items, FromShopItem)
  }

  // ---------------------------------------------------------------- the cart

  datatype CartLine = CartLine(id: int, name: string, price: int, minOrder: int, quantity: int)

  function LineId(l: CartLine): int { l.id }

  /** A cart the page can reach: one line per product, none below its minimum. */
  predicate CartValid(cart: seq<CartLine>) {
    KeysDistinct(cart, LineId) && forall i :: 0 <= i < |cart| ==> cart[i].quantity >= cart[i].minOrder
  }

  function Bump(p: CartProduct): CartLine -> CartLine {
    (l: CartLine) => if l.id == p.id then l.(quantity := l.quantity + p.minOrder) else l
  }

  function NewLine(p: CartProduct): CartLine {
    CartLine(p.id, p.name, p.price, p.minOrder, p.minOrder)
  }

  /** `addToCart`. */
  function AddToCart(cart: seq<CartLine>, p: CartProduct): (r: seq<CartLine>)
    ensures Keys(r, LineId) == Keys(cart, LineId) + {p.id}
  {
    if p.id in Keys(cart, LineId) then
      var r := Project(cart, Bump(p));
      assert forall i :: 0 <= i < |cart| ==> r[i].id == cart[i].id;
      r
    else
      KeysAppend(cart, LineId, NewLine(p));
      cart + [NewLine(p)]
  }

  /** On a product already in the cart, only its line grows, by exactly `minOrder`. */
  lemma AddExisting(cart: seq<CartLine>, p: CartProduct, i: nat)
    requires KeysDistinct(cart, LineId) && i < |cart| && cart[i].id == p.id
    ensures AddToCart(cart, p) == cart[i := cart[i].(quantity := cart[i].quantity + p.minOrder)]
  {
    assert cart[i].id in Keys(cart, LineId);
  }

  /** On a new product, exactly one line with `minOrder` pieces is appended, and the
      cart keeps one line per product. */
  lemma AddNew(cart: seq<CartLine>, p: CartProduct)
    requires p.id !in Keys(cart, LineId)
    ensures AddToCart(cart, p) == cart + [NewLine(p)]
    ensures KeysDistinct(cart, LineId) ==> KeysDistinct(AddToCart(cart, p), LineId)
  {
    if KeysDistinct(cart, LineId) {
      AppendFreshUnique(cart, LineId, NewLine(p));
    }
  }

  function Step(id: int, delta: int): CartLine -> CartLine {
    (l: CartLine) => if l.id == id then l.(quantity := Max(l.minOrder, l.quantity + delta)) else l
  }

  /** `updateQuantity`: the line moves by `delta` but never below its minimum. */
  function UpdateQuantity(cart: seq<CartLine>, id: int, delta: int): (r: seq<CartLine>)
    ensures |r| == |cart|
    ensures forall i :: 0 <= i < |r| ==> r[i].id == cart[i].id && r[i].minOrder == cart[i].minOrder
    ensures forall i :: 0 <= i < |r| && cart[i].id == id ==> r[i].quantity >= r[i].minOrder
    ensures forall i :: 0 <= i < |r| && cart[i].id != id ==> r[i] == cart[i]
  {
    Project(cart, Step(id, delta))
  }

  /** With one line per product, `updateQuantity` changes exactly that line. */
  lemma UpdateOne(cart: seq<CartLine>, id: int, delta: int, i: nat)
    requires KeysDistinct(cart, LineId) && i < |cart| && cart[i].id == id
    ensures UpdateQuantity(cart, id, delta)
            == cart[i := cart[i].(quantity := Max(cart[i].minOrder, cart[i].quantity + delta))]
  {
  }

  /** `removeFromCart`: `filter(item => item.id !== id)`. */
  function RemoveFromCart(cart: seq<CartLine>, id: int): (r: seq<CartLine>)
    ensures id !in Keys(r, LineId)
    ensures forall i :: 0 <= i < |cart| && cart[i].id != id ==> cart[i] in r
    ensures forall i :: 0 <= i < |r| ==> r[i] in cart
  {
    var r := Where(cart, (l: CartLine) => l.id != id);
    assert forall i :: 0 <= i < |r| ==> r[i].id != id;
    r
  }

  /** With one line per product, removing deletes that one line and keeps the rest in
      order. */
  lemma RemoveOne(cart: seq<CartLine>, id: int, i: nat)
    requires KeysDistinct(cart, LineId) && i < |cart| && cart[i].id == id
    ensures RemoveFromCart(cart, id) == RemoveAt(cart, i)
  {
    WhereDropsOne(cart, (l: CartLine) => l.id != id, i);
  }

  /** Adding a product whose line (if any) was made from the same product, with a
      non-negative step, keeps the cart valid. */
  lemma AddKeepsValid(cart: seq<CartLine>, p: CartProduct)
    requires CartValid(cart) && p.minOrder >= 0
    requires forall i :: 0 <= i < |cart| && cart[i].id == p.id ==> cart[i].minOrder == p.minOrder
    ensures CartValid(AddToCart(cart, p))
  {
    if p.id in Keys(cart, LineId) {
      var i :| 0 <= i < |cart| && LineId(cart[i]) == p.id;
      var l := cart[i].(quantity := cart[i].quantity + p.minOrder);
      AddExisting(cart, p, i);
      ReplaceKeepsDistinct(cart, LineId, i, l);
    } else {
      AddNew(cart, p);
    }
  }

  /** `updateQuantity` keeps the cart valid. */
  lemma UpdateKeepsValid(cart: seq<CartLine>, id: int, delta: int)
    requires CartValid(cart)
    ensures CartValid(UpdateQuantity(cart, id, delta))
  {
    var u := UpdateQuantity(cart, id, delta);
    assert forall i :: 0 <= i < |u| ==> LineId(u[i]) == LineId(cart[i]);
  }

  /** `removeFromCart` keeps the cart valid. */
  lemma RemoveKeepsValid(cart: seq<CartLine>, id: int)
    requires CartValid(cart)
    ensures CartValid(RemoveFromCart(cart, id))
  {
    if id in Keys(cart, LineId) {
      var i :| 0 <= i < |cart| && LineId(cart[i]) == id;
      RemoveOne(cart, id, i);
      RemoveAtDistinct(cart, LineId, i);
    } else {
      WhereAll(cart, (l: CartLine) => l.id != id);
    }
  }

  /** `cartTotal`: Σ price × quantity. */
  function CartTotal(cart: seq<CartLine>): int
    decreases |cart|
  {
    if cart == [] then 0 else CartTotal(cart[..|cart| - 1]) + cart[|cart| - 1].price * cart[|cart| - 1].quantity
  }

  /** `cartCount`: Σ quantity. */
  function CartCount(cart: seq<CartLine>): int
    decreases |cart|
  {
    if cart == [] then 0 else CartCount(cart[..|cart| - 1]) + cart[|cart| - 1].quantity
  }

  /** Changing one line's quantity by `d` moves the totals by exactly that change. */
  lemma {:induction false} TotalsOfUpdate(cart: seq<CartLine>, i: nat, d: int)
    requires i < |cart|
    ensures CartTotal(cart[i := cart[i].(quantity := cart[i].quantity + d)]) == CartTotal(cart) + cart[i].price * d
    ensures CartCount(cart[i := cart[i].(quantity := cart[i].quantity + d)]) == CartCount(cart) + d
    decreases |cart|
  {
    var l := cart[i].(quantity := cart[i].quantity + d);
    var c := cart[i := l];
    var n := |cart| - 1;
    if i < n {
      assert c[..n] == cart[..n][i := l];
      TotalsOfUpdate(cart[..n], i, d);
    } else {
      assert c[..n] == cart[..n];
      assert l.price * l.quantity == cart[i].price * cart[i].quantity + cart[i].price * d;
    }
  }

  /** Appending a line adds its value to the totals. */
  lemma TotalsOfAppend(cart: seq<CartLine>, l: CartLine)
    ensures CartTotal(cart + [l]) == CartTotal(cart) + l.price * l.quantity
    ensures CartCount(cart + [l]) == CartCount(cart) + l.quantity
  {
    assert (cart + [l])[..|cart|] == cart;
  }

  /** Adding a product to the cart adds `minOrder` pieces at the line's price. */
  lemma {:induction false} TotalsOfAdd(cart: seq<CartLine>, p: CartProduct)
    requires KeysDistinct(cart, LineId)
    requires forall i :: 0 <= i < |cart| && cart[i].id == p.id ==> cart[i].price == p.price
    ensures CartTotal(AddToCart(cart, p)) == CartTotal(cart) + p.price * p.minOrder
    ensures CartCount(AddToCart(cart, p)) == CartCount(cart) + p.minOrder
  {
    if p.id in Keys(cart, LineId) {
      var i :| 0 <= i < |cart| && LineId(cart[i]) == p.id;
      AddExisting(cart, p, i);
      TotalsOfUpdate(cart, i, p.minOrder);
    } else {
      AddNew(cart, p);
      TotalsOfAppend(cart, NewLine(p));
    }
  }

  // ---------------------------------------------------------------- checkout

  datatype CheckoutForm = CheckoutForm(name: string, email: string, phone: string, address: string)

  const EmptyForm := CheckoutForm("", "", "", "")

  /** The body of `POST /api/orders` the checkout sends. */
  datatype OrderPayload = OrderPayload(
    userId: Option<int>, userName: string, userEmail: string, userPhone: string,
    userAddress: string, readymadeProductId: Option<int>, productName: string,
    quantity: string, quality: string, amount: int)

  /** One cart line in the combined product name: "name (xQ)". */
  function LineLabel(l: CartLine): string {
    l.name + " (x" + IntToString(l.quantity) + ")"
  }

  /** The single order the checkout builds from the whole cart. */
  function CheckoutPayload(cart: seq<CartLine>, form: CheckoutForm): (p: OrderPayload)
    ensures p.amount == CartTotal(cart)
    ensures p.quantity == IntToString(CartCount(cart)) && ParseIntJs(p.quantity) == Some(CartCount(cart))
    ensures p.productName == Join(Project(cart, LineLabel), ", ")
    ensures p.readymadeProductId.Some? ==> cart != [] && p.readymadeProductId.value == cart[0].id
    ensures cart != [] && cart[0].id != 0 ==> p.readymadeProductId == Some(cart[0].id)
    ensures p.quality == "Multiple Items" && p.userId.None?
    ensures p.userName == form.name && p.userEmail == form.email
    ensures p.userPhone == form.phone && p.userAddress == form.address
  {
    ParseIntOfIntToString(CartCount(cart));
    OrderPayload(None, form.name, form.email, form.phone, form.address,
                 if cart != [] && cart[0].id != 0 then Some(cart[0].id) else None,
                 Join(Project(cart, LineLabel), ", "), IntToString(CartCount(cart)),
                 "Multiple Items", CartTotal(cart))
  }

  /** The request body as the orders endpoint parses it. */
  function ToOrderCreate(p: OrderPayload): OrdersRouter.OrderCreate {
    OrdersRouter.OrderCreate(p.userId, Some(p.userName), Some(p.userEmail), Some(p.userPhone),
                             Some(p.userAddress), p.readymadeProductId, None, Some(p.productName),
                             Some(p.quantity), Some(p.quality), Some(p.amount as real))
  }

  /** Cart to Sale: the Sale row written for a checkout's order carries the cart total,
      and the order's quantity reads back as the cart's piece count. */
  lemma CheckoutReachesSales(cart: seq<CartLine>, form: CheckoutForm, saleId: int, id: nat,
                             now: Timestamp, stamp: string, weekday: string)
    ensures var d := ToOrderCreate(CheckoutPayload(cart, form));
      OrdersRouter.NewSale(saleId, id, d, now, stamp, weekday).amount == CartTotal(cart) as real
      && ParseIntJs(OrdersRouter.NewOrder(id, d, now).quantity.value) == Some(CartCount(cart))
  {
  }

  /** The page's checkout steps (`null`, 'info', 'confirm', 'success'). */
  datatype CheckoutStep = NoStep | InfoStep | ConfirmStep | SuccessStep

  /** What `POST /api/orders` answered: a body with the new id, an empty body, or an error
      with the server's `detail` (if any) and the error's own message. */
  datatype OrderReply = Replied(createdId: Option<int>) | Refused(detail: Option<string>, message: string)

  const FillAllFields := "Please fill all required fields"
  const NoBody := "Failed to create order"

  /** The state of the shop page that the checkout touches. */
  class ShopPage {
    var cart: seq<CartLine>
    var showCart: bool
    var checkoutStep: CheckoutStep
    var orderLoading: bool
    var form: CheckoutForm
    var createdOrderId: Option<int>

    predicate FormFilled()
      reads this
    {
      form.name != "" && form.email != "" && form.phone != "" && form.address != ""
    }

    constructor ()
      ensures cart == [] && !showCart && checkoutStep == NoStep && !orderLoading
      ensures form == EmptyForm && createdOrderId.None?
    {
      cart := [];
      showCart := false;
      checkoutStep := NoStep;
      orderLoading := false;
      form := EmptyForm;
      createdOrderId := None;
    }

    /** `handleCheckout`. With a field missing nothing is sent and only the loading flag is
        (re)set by the `finally` block. Otherwise the one payload is sent; on success the
        cart is emptied, the form reset and the success step shown; on failure an alert
        names the reason and the cart and form stay. */
    method HandleCheckout(reply: OrderReply) returns (sent: Option<OrderPayload>, alert: Option<string>)
      modifies this
      ensures !orderLoading
      ensures !old(FormFilled()) ==>
        sent.None? && alert == Some(FillAllFields)
        && cart == old(cart) && form == old(form) && checkoutStep == old(checkoutStep)
        && showCart == old(showCart) && createdOrderId == old(createdOrderId)
      ensures old(FormFilled()) ==> sent == Some(CheckoutPayload(old(cart), old(form)))
      ensures old(FormFilled()) && reply.Replied? && reply.createdId.Some? ==>
        alert.None? && createdOrderId == reply.createdId && checkoutStep == SuccessStep
        && cart == [] && !showCart && form == EmptyForm
      ensures old(FormFilled()) && !(reply.Replied? && reply.createdId.Some?) ==>
        alert == Some("Order creation failed: " +
                      (if reply.Refused? then StringOr(reply.detail, reply.message) else NoBody))
        && cart == old(cart) && form == old(form) && checkoutStep == old(checkoutStep)
        && showCart == old(showCart) && createdOrderId == old(createdOrderId)
    {
      if !FormFilled() {
        alert := Some(FillAllFields);
        sent := None;
        orderLoading := false;
        return;
      }
      orderLoading := true;
      var payload := CheckoutPayload(cart, form);
      sent := Some(payload);
      if reply.Replied? && reply.createdId.Some? {
        createdOrderId := reply.createdId;
        checkoutStep := SuccessStep;
        cart := [];
        showCart := false;
        form := EmptyForm;
        alert := None;
      } else if reply.Replied? {
        alert := Some("Order creation failed: " + NoBody);
      } else {
        alert := Some("Order creation failed: " + StringOr(reply.detail, reply.message));
      }
      orderLoading := false;
    }
  }
}
