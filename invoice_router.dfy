/** The invoice endpoints of the back office: generating an invoice from an order, listing
    and looking up invoices, and overwriting an invoice's payment status. */
module InvoiceRouter {
  import opened Common
  import opened Tables
  import opened Sorting
  import opened Models

  /** The request body of `POST /api/invoices/generate`. `taxRate` and `paymentStatus`
      hold what the client sent, with pydantic's defaults (0.0 and "Pending") already
      filled in for fields it left out; `None` is an explicit null. */
  datatype InvoiceCreate = InvoiceCreate(
    orderId: int, taxRate: Option<real>, paymentMethod: Option<string>,
    paymentStatus: Option<string>, dueDate: Option<Timestamp>, notes: Option<string>)

  /** The status `generate_invoice` falls back to. */
  const RouterStatusDefault := "Pending"
  const GuestCustomer := "Guest Customer"

  /** The tax on `subtotal` at `rate` percent, and the total with tax. */
  function TaxAmount(subtotal: real, rate: real): real { subtotal * rate / 100.0 }

  /** The row `generate_invoice` writes for order `o`: amounts from the order amount and the
      requested rate (each `or 0`), the customer columns copied from the order, and the
      requested status or "Pending". */
  function NewInvoice(id: int, number: string, o: Order, data: InvoiceCreate, now: Timestamp): Invoice {
    var subtotal := AmountOr0(o.amount);
    var rate := AmountOr0(data.taxRate);
    var tax := TaxAmount(subtotal, rate);
    Invoice(id, number, o.id, StringOr(o.userName, GuestCustomer), o.userEmail, o.userAddress,
            o.userPhone, o.productName, o.quantity, o.quality, subtotal, rate, tax, subtotal + tax,
            StringOr(data.paymentStatus, RouterStatusDefault), data.paymentMethod, now, data.dueDate,
            data.notes, now)
  }

  /** The invoice's total is its subtotal scaled by `1 + rate/100`, the tax is the
      difference, and with a non-negative subtotal and rate the total is at least the
      subtotal. */
  lemma InvoiceTotals(id: int, number: string, o: Order, data: InvoiceCreate, now: Timestamp)
    ensures var v := NewInvoice(id, number, o, data, now);
            && v.subtotal == AmountOr0(o.amount)
            && v.totalAmount == v.subtotal * (100.0 + v.taxRate) / 100.0
            && v.taxAmount == v.totalAmount - v.subtotal
            && (v.subtotal >= 0.0 && v.taxRate >= 0.0 ==> v.subtotal <= v.totalAmount)
  {
    var v := NewInvoice(id, number, o, data, now);
    assert v.subtotal * (100.0 + v.taxRate) / 100.0 == v.subtotal + v.subtotal * v.taxRate / 100.0;
    if v.subtotal >= 0.0 && v.taxRate >= 0.0 {
      assert v.subtotal * v.taxRate >= 0.0;
    }
  }

  /** An order of 1000 invoiced at 18% carries a tax of 180 and a total of 1180. */
  lemma InvoiceAtEighteenPercent(id: int, number: string, o: Order, data: InvoiceCreate, now: Timestamp)
    requires o.amount == Some(1000.0) && data.taxRate == Some(18.0)
    ensures NewInvoice(id, number, o, data, now).taxAmount == 180.0
    ensures NewInvoice(id, number, o, data, now).totalAmount == 1180.0
  {
  }

  /** The customer name column is never empty, and a request without a status yields
      "Pending", which is not the column default "Paid". */
  lemma InvoiceDefaults(id: int, number: string, o: Order, data: InvoiceCreate, now: Timestamp)
    ensures NewInvoice(id, number, o, data, now).customerName != ""
    ensures !TruthyString(o.userName) ==> NewInvoice(id, number, o, data, now).customerName == GuestCustomer
    ensures !TruthyString(data.paymentStatus) ==>
              NewInvoice(id, number, o, data, now).paymentStatus == RouterStatusDefault != InvoiceStatusColumnDefault
    ensures TruthyString(data.paymentStatus) ==>
              NewInvoice(id, number, o, data, now).paymentStatus == data.paymentStatus.value
  {
  }

  /** Appending an invoice for an existing order under the next id and a fresh number keeps
      the database consistent. */
  lemma GenerateKeepsConsistent(st: Store, v: Invoice)
    requires Consistent(st)
    requires v.id == st.nextInvoiceId && v.orderId in Keys(st.orders, OrderKey)
    requires v.invoiceNumber !in Keys(st.invoices, InvoiceNumber)
    ensures Consistent(st.(invoices := st.invoices + [v], nextInvoiceId := st.nextInvoiceId + 1))
  {
    AppendFreshKey(st.invoices, InvoiceKey, st.nextInvoiceId, v);
    AppendFreshUnique(st.invoices, InvoiceNumber, v);
    var t := st.invoices + [v];
    assert forall i :: 0 <= i < |st.invoices| ==> t[i] == st.invoices[i];
  }

  /** `generate_invoice`. `day` is today's date as `yyyymmdd`, `uuid` a fresh random UUID
      and `now` the UTC time. Nothing stops a second invoice for the same order; a clash of
      invoice numbers is refused by the unique column. */
  method GenerateInvoice(db: Session, data: InvoiceCreate, day: string, uuid: string, now: Timestamp)
    returns (r: Result<Invoice>)
    requires db.Valid()
    modifies db
    ensures db.Valid()
    ensures r.Err? ==> db.store == old(db.store)
    ensures data.orderId !in Keys(old(db.store.orders), OrderKey) <==> r == Err(NotFound("Order not found"))
    ensures r.Ok? <==> data.orderId in Keys(old(db.store.orders), OrderKey)
                       && DocumentNumber("INV-", day, uuid) !in Keys(old(db.store.invoices), InvoiceNumber)
    ensures r.Err? ==> r.error == NotFound("Order not found") || r.error == IntegrityError
    ensures r.Ok? ==>
      var st := old(db.store);
      var o := st.orders[Find(st.orders, OrderKey, data.orderId).value];
      && r.value == NewInvoice(st.nextInvoiceId, DocumentNumber("INV-", day, uuid), o, data, now)
      && db.store == st.(invoices := st.invoices + [r.value], nextInvoiceId := st.nextInvoiceId + 1)
  {
    var st := db.store;
    var found := Find(st.orders, OrderKey, data.orderId);
    if found.None? {
      return Err(NotFound("Order not found"));
    }
    var o := st.orders[found.value];
    var number := DocumentNumber("INV-", day, uuid);
    var v := NewInvoice(st.nextInvoiceId, number, o, data, now);
    var clash := Find(st.invoices, InvoiceNumber, number);
    if clash.Some? {
      return Err(IntegrityError);
    }
    GenerateKeepsConsistent(st, v);
    db.store := st.(invoices := st.invoices + [v], nextInvoiceId := st.nextInvoiceId + 1);
    r := Ok(v);
  }

  /** Generating an invoice succeeds for an order that already has invoices just as for one
      that has none: the outcome depends only on the order's existence and the number. */
  lemma RepeatedInvoicesAccepted(st: Store, v: Invoice)
    requires Consistent(st) && v.orderId in Keys(st.orders, OrderKey)
    requires v.id == st.nextInvoiceId && v.invoiceNumber !in Keys(st.invoices, InvoiceNumber)
    ensures var after := st.invoices + [v];
            |InvoicesOfOrder(after, v.orderId)| == |InvoicesOfOrder(st.invoices, v.orderId)| + 1
  {
    WhereAppend(st.invoices, [v], (w: Invoice) => w.orderId == v.orderId);
  }

  /** `ORDER BY created_at DESC`. */
  function InvoiceNewestFirst(a: Invoice, b: Invoice): bool { a.createdAt >= b.createdAt }

  /** `list_invoices`: newest first, `skip` rows skipped, at most `limit` returned. */
  function ListInvoices(invoices: seq<Invoice>, skip: nat, limit: nat): (r: seq<Invoice>)
    ensures |r| <= limit && (skip + limit <= |invoices| ==> |r| == limit)
    ensures |r| == if skip >= |invoices| then 0 else Min(limit, |invoices| - skip)
    ensures r == SkipLimit(SortBy(invoices, InvoiceNewestFirst), skip, limit)
    ensures forall i, j :: 0 <= i < j < |r| ==> r[i].createdAt >= r[j].createdAt
    ensures forall i :: 0 <= i < |r| ==> r[i] in invoices
  {
    assert IsTotalPreorder(InvoiceNewestFirst);
    OrderedPage(invoices, InvoiceNewestFirst, skip, limit)
  }

  /** `get_invoice`. */
  function GetInvoice(invoices: seq<Invoice>, id: int): (r: Result<Invoice>)
    ensures r.Err? <==> id !in Keys(invoices, InvoiceKey)
    ensures r.Err? ==> r.error == NotFound("Invoice not found")
    ensures r.Ok? ==> r.value in invoices && r.value.id == id
  {
    match Find(invoices, InvoiceKey, id)
    case None => Err(NotFound("Invoice not found"))
    case Some(i) => Ok(invoices[i])
  }

  /** `get_invoices_by_order`: exactly the invoices of that order, in table order. */
  function InvoicesOfOrder(invoices: seq<Invoice>, orderId: int): (r: seq<Invoice>)
    ensures forall i :: 0 <= i < |r| ==> r[i] in invoices && r[i].orderId == orderId
    ensures forall i :: 0 <= i < |invoices| && invoices[i].orderId == orderId ==> invoices[i] in r
    ensures forall v :: multiset(r)[v] == if v.orderId == orderId then multiset(invoices)[v] else 0
  {
    WhereCount(invoices, (v: Invoice) => v.orderId == orderId);
    Where(invoices, (v: Invoice) => v.orderId == orderId)
  }

  /** The order's invoices come in table order: invoices added later are listed after the
      earlier ones. */
  lemma InvoicesOfOrderInTableOrder(earlier: seq<Invoice>, later: seq<Invoice>, orderId: int)
    ensures InvoicesOfOrder(earlier + later, orderId)
            == InvoicesOfOrder(earlier, orderId) + InvoicesOfOrder(later, orderId)
  {
    WhereAppend(earlier, later, (v: Invoice) => v.orderId == orderId);
  }

  /** Overwriting the status keeps every key, unique number and reference. */
  lemma StatusKeepsConsistent(st: Store, i: nat, status: string)
    requires Consistent(st) && i < |st.invoices|
    ensures Consistent(st.(invoices := st.invoices[i := st.invoices[i].(paymentStatus := status)]))
  {
    var v := st.invoices[i].(paymentStatus := status);
    ReplaceKeepsKeys(st.invoices, InvoiceKey, st.nextInvoiceId, i, v);
    ReplaceKeepsDistinct(st.invoices, InvoiceNumber, i, v);
    var t := st.invoices[i := v];
    assert forall k :: 0 <= k < |t| ==> t[k].orderId == st.invoices[k].orderId;
  }

  /** `update_invoice_status`: any string is accepted; only `payment_status` changes. */
  method UpdateInvoiceStatus(db: Session, invoiceId: int, status: string) returns (r: Result<Invoice>)
    requires db.Valid()
    modifies db
    ensures db.Valid()
    ensures r.Err? <==> invoiceId !in Keys(old(db.store.invoices), InvoiceKey)
    ensures r.Err? ==> r == Err(NotFound("Invoice not found")) && db.store == old(db.store)
    ensures r.Ok? ==>
      var st := old(db.store);
      var i := Find(st.invoices, InvoiceKey, invoiceId).value;
      && r.value == st.invoices[i].(paymentStatus := status)
      && db.store == st.(invoices := st.invoices[i := r.value])
  {
    var st := db.store;
    var found := Find(st.invoices, InvoiceKey, invoiceId);
    if found.None? {
      return Err(NotFound("Invoice not found"));
    }
    var i := found.value;
    var v := st.invoices[i].(paymentStatus := status);
    StatusKeepsConsistent(st, i, status);
    db.store := st.(invoices := st.invoices[i := v]);
    r := Ok(v);
  }
}
