/** The orders endpoints: checkout creates an order together with its one Sale row, a
    customer may flag an order for cancellation (after an exact e-mail match), and the
    admin deletes an order together with its Sale rows. */
module OrdersRouter {
  import opened Common
  import opened Strings
  import opened Tables
  import opened Sorting
  import opened Models

  /** The request body of `POST /api/orders/`; every field may be left out. */
  datatype OrderCreate = OrderCreate(
    userId: Option<int>, userName: Option<string>, userEmail: Option<string>,
    userPhone: Option<string>, userAddress: Option<string>,
    readymadeProductId: Option<int>, productId: Option<int>, productName: Option<string>,
    quantity: Option<string>, quality: Option<string>, amount: Option<real>)

  /** An order as the read endpoints return it. */
  datatype OrderView = OrderView(
    id: int, userName: Option<string>, userEmail: Option<string>, userPhone: Option<string>,
    userAddress: Option<string>, productName: Option<string>, quantity: Option<string>,
    amount: Option<real>, createdAt: Timestamp, cancellationRequested: int)

  /** The response of `create_order` and the confirmation mail it schedules, if any. */
  datatype Created = Created(
    id: int, userName: Option<string>, productName: Option<string>, quantity: Option<string>,
    amount: Option<real>, createdAt: Timestamp, mail: Option<Mail>)

  /** The response of `request_cancellation`. */
  datatype CancelResponse = CancelResponse(id: int, message: string, cancellationRequested: int)

  /** The response of `delete_order` (captured before the delete) and the mail it schedules. */
  datatype Deleted = Deleted(
    id: int, userName: Option<string>, userEmail: Option<string>, userPhone: Option<string>,
    productName: Option<string>, message: string, mail: Option<Mail>)

  const CancelRequestedMessage := "Cancellation request submitted. Admin will process your request shortly."
  const OrderCancelledMessage := "Order cancelled successfully"

  /** Python truthiness of an optional integer: None and 0 are falsy. */
  predicate TruthyId(x: Option<int>) { x.Some? && x.value != 0 }

  function View(o: Order): (v: OrderView)
    ensures v.id == o.id && v.cancellationRequested == o.cancellationRequested
  {
    OrderView(o.id, o.userName, o.userEmail, o.userPhone, o.userAddress, o.productName,
              o.quantity, o.amount, o.createdAt, o.cancellationRequested)
  }

  /** `ORDER BY created_at DESC`. */
  function NewestFirst(a: Order, b: Order): bool { a.createdAt >= b.createdAt }

  lemma NewestFirstTotal()
    ensures IsTotalPreorder(NewestFirst)
  {
  }

  /** The row `create_order` inserts: the request's fields, the creation time, and the
      column default for the cancellation flag. */
  function NewOrder(id: int, d: OrderCreate, now: Timestamp): Order {
    Order(id, d.userId, d.userName, d.userEmail, d.userPhone, d.userAddress, d.productId,
          d.readymadeProductId, d.productName, d.quantity, d.quality, d.amount, now,
          CancellationFlagDefault)
  }

  /** The Sale row `create_order` writes for order `id`. */
  function NewSale(saleId: int, id: nat, d: OrderCreate, now: Timestamp, stamp: string, weekday: string): (s: Sale)
    ensures TxnFor(s.transactionId, id)
  {
    var t := TxnPrefix(id) + stamp;
    assert t[..|TxnPrefix(id)|] == TxnPrefix(id);
    Sale(saleId, now, AmountOr0(d.amount), Some(weekday), t, Some(id))
  }

  /** Appending the order `create_order` builds, with its Sale, keeps the database
      consistent once the order's references resolve. */
  lemma CreateOrderKeepsConsistent(st: Store, d: OrderCreate, now: Timestamp, stamp: string, weekday: string)
    requires Consistent(st)
    requires OrderRefsOk(NewOrder(st.nextOrderId, d, now), st.users, st.products, st.readymade)
    ensures var o := NewOrder(st.nextOrderId, d, now);
            Consistent(st.(orders := st.orders + [o],
                           sales := st.sales + [NewSale(st.nextSaleId, o.id, d, now, stamp, weekday)],
                           nextOrderId := st.nextOrderId + 1, nextSaleId := st.nextSaleId + 1))
  {
    var o := NewOrder(st.nextOrderId, d, now);
    OrderBookAppend(st.orders, st.nextOrderId, st.sales, st.nextSaleId, st.invoices, st.nextInvoiceId,
                    st.users, st.products, st.readymade, o, NewSale(st.nextSaleId, o.id, d, now, stamp, weekday));
  }

  /** `create_order`. The explicit product check runs only for a truthy
      `readymade_product_id`; the remaining references are checked by the database when
      the order row is flushed. `now` is the UTC time, `stamp` its rendering as a POSIX
      time stamp and `weekday` its weekday name. */
  method CreateOrder(db: Session, d: OrderCreate, now: Timestamp, stamp: string, weekday: string)
    returns (r: Result<Created>)
    requires db.Valid()
    modifies db
    ensures db.Valid()
    ensures TruthyId(d.readymadeProductId)
            && d.readymadeProductId.value !in Keys(old(db.store.readymade), ReadymadeKey)
            ==> r == Err(NotFound("Product not found"))
    ensures r.Err? ==> r.error == NotFound("Product not found") || r.error == IntegrityError
    ensures r.Err? ==> db.store == old(db.store)
    ensures r.Ok? <==> OrderRefsOk(NewOrder(old(db.store.nextOrderId), d, now), db.store.users,
                                   db.store.products, db.store.readymade)
    ensures r.Ok? ==>
      var st := old(db.store);
      var o := NewOrder(st.nextOrderId, d, now);
      && r.value.id == o.id && o.id !in Keys(st.orders, OrderKey)
      && db.store == st.(orders := st.orders + [o],
                         sales := st.sales + [NewSale(st.nextSaleId, o.id, d, now, stamp, weekday)],
                         nextOrderId := st.nextOrderId + 1, nextSaleId := st.nextSaleId + 1)
      && r.value.userName == d.userName && r.value.productName == d.productName
      && r.value.quantity == d.quantity && r.value.amount == d.amount && r.value.createdAt == now
      && r.value.mail == (if TruthyString(d.userEmail) then Some(Mail(d.userEmail, OrderConfirmation)) else None)
  {
    if TruthyId(d.readymadeProductId) {
      var found := Find(db.store.readymade, ReadymadeKey, d.readymadeProductId.value);
      if found.None? {
        return Err(NotFound("Product not found"));
      }
    }
    var st := db.store;
    var o := NewOrder(st.nextOrderId, d, now);
    if !OrderRefsOk(o, st.users, st.products, st.readymade) {
      return Err(IntegrityError);
    }
    var s := NewSale(st.nextSaleId, o.id, d, now, stamp, weekday);
    CreateOrderKeepsConsistent(st, d, now, stamp, weekday);
    db.store := st.(orders := st.orders + [o], sales := st.sales + [s],
                    nextOrderId := st.nextOrderId + 1, nextSaleId := st.nextSaleId + 1);
    var mail := if TruthyString(d.userEmail) then Some(Mail(d.userEmail, OrderConfirmation)) else None;
    r := Ok(Created(o.id, o.userName, o.productName, o.quantity, o.amount, o.createdAt, mail));
  }

  /** Viewing the rows after an insertion adds the inserted row's view and keeps the others. */
  lemma {:induction false} ProjectInsert<T, U>(x: T, s: seq<T>, leq: (T, T) -> bool, f: T -> U)
    ensures multiset(Project(Insert(x, s, leq), f)) == multiset(Project(s, f)) + multiset{f(x)}
    decreases |s|
  {
    if s == [] {
      assert Project([x], f) == [f(x)];
    } else if leq(x, s[0]) {
      assert Project([x] + s, f) == [f(x)] + Project(s, f);
    } else {
      var rest := Insert(x, s[1..], leq);
      ProjectInsert(x, s[1..], leq, f);
      assert Project([s[0]] + rest, f) == [f(s[0])] + Project(rest, f);
      assert Project(s, f) == [f(s[0])] + Project(s[1..], f);
    }
  }

  /** Sorting the rows before viewing them leaves the views a permutation. */
  lemma {:induction false} ProjectSortBy<T, U>(s: seq<T>, leq: (T, T) -> bool, f: T -> U)
    ensures multiset(Project(SortBy(s, leq), f)) == multiset(Project(s, f))
    decreases |s|
  {
    if s != [] {
      ProjectSortBy(s[1..], leq, f);
      ProjectInsert(s[0], SortBy(s[1..], leq), leq, f);
      assert Project(s, f) == [f(s[0])] + Project(s[1..], f);
    }
  }

  /** `get_all_orders`: every order, newest first. */
  function GetAllOrders(orders: seq<Order>): (r: seq<OrderView>)
    ensures |r| == |orders|
    ensures forall i, j :: 0 <= i < j < |r| ==> r[i].createdAt >= r[j].createdAt
    ensures forall i :: 0 <= i < |orders| ==> View(orders[i]) in r
    ensures multiset(r) == multiset(Project(orders, View))
  {
    var sorted := SortBy(orders, NewestFirst);
    ProjectSortBy(orders, NewestFirst, View);
    NewestFirstTotal();
    SortBySorted(orders, NewestFirst);
    forall i | 0 <= i < |orders| ensures View(orders[i]) in Project(sorted, View) {
      SortByMembers(orders, NewestFirst, orders[i]);
      var k :| 0 <= k < |sorted| && sorted[k] == orders[i];
    }
    Project(sorted, View)
  }

  /** `get_order`. */
  function GetOrder(orders: seq<Order>, id: int): (r: Result<OrderView>)
    ensures r.Err? <==> id !in Keys(orders, OrderKey)
    ensures r.Err? ==> r.error == NotFound("Order not found")
    ensures r.Ok? ==> r.value.id == id && exists i :: 0 <= i < |orders| && r.value == View(orders[i])
  {
    match Find(orders, OrderKey, id)
    case None => Err(NotFound("Order not found"))
    case Some(i) => Ok(View(orders[i]))
  }

  /** The order with its cancellation flag set. */
  function Flagged(o: Order): (f: Order)
    ensures f.id == o.id && f.cancellationRequested == CancellationRequested
  {
    o.(cancellationRequested := CancellationRequested)
  }

  /** Flagging order `i` keeps the database consistent. */
  lemma CancellationKeepsConsistent(st: Store, i: nat)
    requires Consistent(st) && i < |st.orders|
    ensures Consistent(st.(orders := st.orders[i := Flagged(st.orders[i])]))
  {
    OrderBookFlag(st.orders, st.nextOrderId, st.sales, st.nextSaleId, st.invoices, st.nextInvoiceId,
                  st.users, st.products, st.readymade, i);
  }

  /** `request_cancellation`: existence is checked first, then exact equality of the stored
      e-mail with the supplied one (a missing stored e-mail never matches). */
  method RequestCancellation(db: Session, orderId: int, email: string) returns (r: Result<CancelResponse>)
    requires db.Valid()
    modifies db
    ensures db.Valid()
    ensures orderId !in Keys(old(db.store.orders), OrderKey) ==> r == Err(NotFound("Order not found"))
    ensures r.Err? ==> db.store == old(db.store)
    ensures orderId in Keys(old(db.store.orders), OrderKey) ==>
      var st := old(db.store);
      var i := Find(st.orders, OrderKey, orderId).value;
      if st.orders[i].userEmail != Some(email) then r == Err(Forbidden("Email does not match order"))
      else r == Ok(CancelResponse(orderId, CancelRequestedMessage, CancellationRequested))
           && db.store == st.(orders := st.orders[i := Flagged(st.orders[i])])
  {
    var st := db.store;
    var found := Find(st.orders, OrderKey, orderId);
    if found.None? {
      return Err(NotFound("Order not found"));
    }
    var i := found.value;
    if st.orders[i].userEmail != Some(email) {
      return Err(Forbidden("Email does not match order"));
    }
    CancellationKeepsConsistent(st, i);
    db.store := st.(orders := st.orders[i := Flagged(st.orders[i])]);
    r := Ok(CancelResponse(orderId, CancelRequestedMessage, CancellationRequested));
  }

  /** The orders table after a successful `request_cancellation` differs from the one
      before only in the flag of that order, and a second request changes nothing. */
  lemma CancellationIdempotent(orders: seq<Order>, i: nat)
    requires i < |orders|
    ensures var once := orders[i := Flagged(orders[i])];
            once[i := Flagged(once[i])] == once
  {
  }

  /** The Sales rows that survive `query(Sales).filter(Sales.order_id == id).delete()`. */
  function KeepsSale(orderId: int): Sale -> bool {
    (s: Sale) => s.orderId != Some(orderId)
  }

  /** With one Sale per order, deleting the Sale rows of order `i` removes exactly the
      Sale at the same position. */
  lemma {:induction false} SalesOfOrderRemoved(sales: seq<Sale>, orders: seq<Order>, i: nat)
    requires SalesTrackOrders(sales, orders) && KeysDistinct(orders, OrderKey)
    requires i < |orders|
    ensures Where(sales, KeepsSale(orders[i].id)) == RemoveAt(sales, i)
  {
    var p := KeepsSale(orders[i].id);
    forall j | 0 <= j < |sales| && j != i ensures p(sales[j]) {
      assert SaleOf(sales[j], orders[j]) && OrderKey(orders[j]) != OrderKey(orders[i]);
    }
    assert SaleOf(sales[i], orders[i]);
    WhereDropsOne(sales, p, i);
  }

  /** Deleting order `i` and its Sale keeps the database consistent when no invoice refers
      to the order. */
  lemma DeleteOrderKeepsConsistent(st: Store, i: nat)
    requires Consistent(st) && i < |st.orders|
    requires st.orders[i].id !in Keys(st.invoices, (v: Invoice) => v.orderId)
    ensures Consistent(st.(orders := RemoveAt(st.orders, i), sales := RemoveAt(st.sales, i)))
  {
    OrderBookRemove(st.orders, st.nextOrderId, st.sales, st.nextSaleId, st.invoices, st.nextInvoiceId,
                    st.users, st.products, st.readymade, i);
  }

  /** `delete_order`. The Sale rows go first, then the order; if an invoice still refers to
      the order the commit fails on the `invoices.order_id` foreign key and nothing changes. */
  method DeleteOrder(db: Session, orderId: int) returns (r: Result<Deleted>)
    requires db.Valid()
    modifies db
    ensures db.Valid()
    ensures orderId !in Keys(old(db.store.orders), OrderKey) ==> r == Err(NotFound("Order not found"))
    ensures r.Err? ==> db.store == old(db.store)
    ensures r.Err? ==> r.error == NotFound("Order not found") || r.error == IntegrityError
    ensures orderId in Keys(old(db.store.orders), OrderKey) ==>
      (r.Ok? <==> orderId !in Keys(db.store.invoices, (v: Invoice) => v.orderId))
    ensures r.Ok? ==>
      var st := old(db.store);
      var i := Find(st.orders, OrderKey, orderId).value;
      var o := st.orders[i];
      && db.store == st.(orders := RemoveAt(st.orders, i), sales := Where(st.sales, KeepsSale(orderId)))
      && Where(st.sales, KeepsSale(orderId)) == RemoveAt(st.sales, i)
      && orderId !in Keys(db.store.orders, OrderKey)
      && r.value == Deleted(o.id, o.userName, o.userEmail, o.userPhone, o.productName, OrderCancelledMessage,
                            if TruthyString(o.userEmail) then Some(Mail(o.userEmail, CancellationConfirmation)) else None)
  {
    var st := db.store;
    var found := Find(st.orders, OrderKey, orderId);
    if found.None? {
      return Err(NotFound("Order not found"));
    }
    var i := found.value;
    var o := st.orders[i];
    var invoiced := Find(st.invoices, (v: Invoice) => v.orderId, orderId);
    if invoiced.Some? {
      return Err(IntegrityError);
    }
    SalesOfOrderRemoved(st.sales, st.orders, i);
    DeleteOrderKeepsConsistent(st, i);
    RemoveAtKeys(st.orders, OrderKey, st.nextOrderId, i);
    db.store := st.(orders := RemoveAt(st.orders, i), sales := Where(st.sales, KeepsSale(orderId)));
    var mail := if TruthyString(o.userEmail) then Some(Mail(o.userEmail, CancellationConfirmation)) else None;
    r := Ok(Deleted(o.id, o.userName, o.userEmail, o.userPhone, o.productName, OrderCancelledMessage, mail));
  }
}
