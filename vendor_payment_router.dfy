/** The vendor payment endpoints: recording a payment to an existing vendor, listing
    (optionally by status), looking up, partially updating (`exclude_unset`) and deleting
    payments. Every response carries a summary of the vendor, or None when the vendor row
    is missing. */
module VendorPaymentRouter {
  import opened Common
  import opened Tables
  import opened Sorting
  import opened Models

  /** The request body of `POST /api/vendor-payments/`. `status` holds what the client sent,
      with pydantic's default "Pending" already filled in when it was left out. */
  datatype PaymentCreate = PaymentCreate(
    vendorId: int, description: Option<string>, amount: real, paymentMethod: Option<string>,
    paymentDate: Option<Timestamp>, dueDate: Option<Timestamp>, status: Option<string>,
    referenceNumber: Option<string>, billReference: Option<string>, notes: Option<string>)

  /** The `vendor` object of a response. */
  datatype VendorInfo = VendorInfo(id: int, name: string, companyName: Option<string>)

  /** `VendorPaymentResponse`: `payment_date` and `status` are required there. */
  datatype PaymentView = PaymentView(
    id: int, vendorId: int, paymentNumber: string, description: Option<string>, amount: real,
    paymentMethod: Option<string>, paymentDate: Timestamp, dueDate: Option<Timestamp>,
    status: string, referenceNumber: Option<string>, billReference: Option<string>,
    notes: Option<string>, createdAt: Timestamp, vendor: Option<VendorInfo>)

  const PaymentNotFound := NotFound("Vendor payment not found")
  const RouterStatusDefault := "Pending"

  /** The row `create_vendor_payment` writes: the request's fields, `status or "Pending"`,
      `payment_date or now`, and the generated number. */
  function NewPayment(id: int, number: string, d: PaymentCreate, now: Timestamp): VendorPayment {
    VendorPayment(id, d.vendorId, number, d.description, d.amount, d.paymentMethod,
                  Some(if d.paymentDate.Some? then d.paymentDate.value else now), d.dueDate,
                  Some(StringOr(d.status, RouterStatusDefault)), d.referenceNumber, d.billReference,
                  d.notes, now)
  }

  /** A created payment always has a non-empty status ("Pending" unless one was sent) and a
      payment date (now unless one was sent), so it can always be shown. */
  lemma NewPaymentDefaults(id: int, number: string, d: PaymentCreate, now: Timestamp)
    ensures var p := NewPayment(id, number, d, now);
      && Renderable(p) && p.status.value != ""
      && (!TruthyString(d.status) ==> p.status == Some(RouterStatusDefault) == Some(PaymentStatusColumnDefault))
      && (d.paymentDate.None? ==> p.paymentDate == Some(now))
      && (d.paymentDate.Some? ==> p.paymentDate == d.paymentDate)
  {
  }

  /** `{"id": ..., "name": ..., "company_name": ...} if vendor else None`. */
  function Info(vendors: seq<Vendor>, vendorId: int): (r: Option<VendorInfo>)
    ensures r.None? <==> vendorId !in Keys(vendors, VendorKey)
    ensures r.Some? ==> r.value.id == vendorId
  {
    match Find(vendors, VendorKey, vendorId)
    case None => None
    case Some(i) => Some(VendorInfo(vendors[i].id, vendors[i].name, vendors[i].companyName))
  }

  /** The response model accepts a row only when it has a payment date and a status. */
  predicate Renderable(p: VendorPayment) { p.paymentDate.Some? && p.status.Some? }

  function View(p: VendorPayment, vendor: Option<VendorInfo>): PaymentView
    requires Renderable(p)
  {
    PaymentView(p.id, p.vendorId, p.paymentNumber, p.description, p.amount, p.paymentMethod,
                p.paymentDate.value, p.dueDate, p.status.value, p.referenceNumber, p.billReference,
                p.notes, p.createdAt, vendor)
  }

  /** Appending a payment for an existing vendor under the next id and a fresh number keeps
      the database consistent. */
  lemma CreatePaymentKeepsConsistent(st: Store, p: VendorPayment)
    requires Consistent(st) && p.id == st.nextPaymentId
    requires p.vendorId in Keys(st.vendors, VendorKey) && p.paymentNumber !in Keys(st.payments, PaymentNumber)
    ensures Consistent(st.(payments := st.payments + [p], nextPaymentId := st.nextPaymentId + 1))
  {
    AppendFreshKey(st.payments, PaymentKey, st.nextPaymentId, p);
    AppendFreshUnique(st.payments, PaymentNumber, p);
    var t := st.payments + [p];
    assert forall i :: 0 <= i < |st.payments| ==> t[i] == st.payments[i];
  }

  /** `create_vendor_payment`. `day` is today as `yyyymmdd`, `uuid` a fresh random UUID and
      `now` the UTC time. */
  method CreatePayment(db: Session, d: PaymentCreate, day: string, uuid: string, now: Timestamp)
    returns (r: Result<PaymentView>)
    requires db.Valid()
    modifies db
    ensures db.Valid()
    ensures r.Err? ==> db.store == old(db.store)
    ensures d.vendorId !in Keys(old(db.store.vendors), VendorKey) <==> r == Err(NotFound("Vendor not found"))
    ensures r.Ok? <==> d.vendorId in Keys(old(db.store.vendors), VendorKey)
                       && DocumentNumber("VP-", day, uuid) !in Keys(old(db.store.payments), PaymentNumber)
    ensures r.Err? ==> r.error == NotFound("Vendor not found") || r.error == IntegrityError
    ensures r.Ok? ==>
      var st := old(db.store);
      var p := NewPayment(st.nextPaymentId, DocumentNumber("VP-", day, uuid), d, now);
      && Renderable(p)
      && db.store == st.(payments := st.payments + [p], nextPaymentId := st.nextPaymentId + 1)
      && r.value == View(p, Info(st.vendors, d.vendorId)) && r.value.vendor.Some?
  {
    var st := db.store;
    var found := Find(st.vendors, VendorKey, d.vendorId);
    if found.None? {
      return Err(NotFound("Vendor not found"));
    }
    var number := DocumentNumber("VP-", day, uuid);
    var p := NewPayment(st.nextPaymentId, number, d, now);
    var clash := Find(st.payments, PaymentNumber, number);
    if clash.Some? {
      return Err(IntegrityError);
    }
    CreatePaymentKeepsConsistent(st, p);
    db.store := st.(payments := st.payments + [p], nextPaymentId := st.nextPaymentId + 1);
    var v := st.vendors[found.value];
    r := Ok(View(p, Some(VendorInfo(v.id, v.name, v.companyName))));
  }

  /** `ORDER BY payment_date DESC`; MySQL puts NULL dates last in a descending order. */
  function LaterPaid(a: VendorPayment, b: VendorPayment): bool {
    match (a.paymentDate, b.paymentDate)
    case (_, None) => true
    case (None, Some(_)) => false
    case (Some(x), Some(y)) => x >= y
  }

  lemma LaterPaidTotal()
    ensures IsTotalPreorder(LaterPaid)
  {
    forall a, b, c | LaterPaid(a, b) && LaterPaid(b, c) ensures LaterPaid(a, c) {
    }
  }

  /** `query.filter(VendorPayment.status == status)` when `status` is truthy; the whole
      table otherwise. */
  function WithStatus(payments: seq<VendorPayment>, status: Option<string>): (r: seq<VendorPayment>)
    ensures !TruthyString(status) ==> r == payments
    ensures TruthyString(status) ==>
      && (forall i :: 0 <= i < |r| ==> r[i] in payments && r[i].status == status)
      && (forall i :: 0 <= i < |payments| && payments[i].status == status ==> payments[i] in r)
      && (forall p :: multiset(r)[p] == if p.status == status then multiset(payments)[p] else 0)
  {
    WhereCount(payments, (p: VendorPayment) => p.status == status);
    if TruthyString(status) then Where(payments, (p: VendorPayment) => p.status == status) else payments
  }

  /** The rows `list_vendor_payments` returns before rendering. */
  function PaymentPage(payments: seq<VendorPayment>, skip: nat, limit: nat, status: Option<string>): (r: seq<VendorPayment>)
    ensures var f := WithStatus(payments, status);
      && r == SkipLimit(SortBy(f, LaterPaid), skip, limit)
      && |r| == if skip >= |f| then 0 else Min(limit, |f| - skip)
    ensures |r| <= limit
    ensures forall i :: 0 <= i < |r| ==> r[i] in payments
    ensures TruthyString(status) ==> forall i :: 0 <= i < |r| ==> r[i].status == status
    ensures Sorted(r, LaterPaid)
  {
    LaterPaidTotal();
    var filtered := WithStatus(payments, status);
    var page := OrderedPage(filtered, LaterPaid, skip, limit);
    assert forall i :: 0 <= i < |page| ==> page[i] in filtered;
    page
  }

  /** The response loop of the list endpoints: each row with the summary of its vendor. The
      first row the response model refuses ends the request with a server error. */
  method RenderAll(page: seq<VendorPayment>, vendors: seq<Vendor>) returns (r: Result<seq<PaymentView>>)
    ensures r.Ok? <==> forall i :: 0 <= i < |page| ==> Renderable(page[i])
    ensures r.Err? ==> r.error == ResponseInvalid
    ensures r.Ok? ==> |r.value| == |page|
                      && forall i :: 0 <= i < |page| ==> r.value[i] == View(page[i], Info(vendors, page[i].vendorId))
  {
    var results: seq<PaymentView> := [];
    for k := 0 to |page|
      invariant forall i :: 0 <= i < k ==> Renderable(page[i])
      invariant |results| == k
      invariant forall i :: 0 <= i < k ==> results[i] == View(page[i], Info(vendors, page[i].vendorId))
    {
      var p := page[k];
      if !Renderable(p) {
        return Err(ResponseInvalid);
      }
      results := results + [View(p, Info(vendors, p.vendorId))];
    }
    r := Ok(results);
  }

  /** `list_vendor_payments`. */
  method ListPayments(db: Session, skip: nat, limit: nat, status: Option<string>)
    returns (r: Result<seq<PaymentView>>)
    ensures var page := PaymentPage(db.store.payments, skip, limit, status);
      && (r.Ok? <==> forall i :: 0 <= i < |page| ==> Renderable(page[i]))
      && (r.Err? ==> r.error == ResponseInvalid)
      && (r.Ok? ==> |r.value| == |page| && |r.value| <= limit
                    && forall i :: 0 <= i < |page| ==>
                         r.value[i] == View(page[i], Info(db.store.vendors, page[i].vendorId)))
  {
    var page := PaymentPage(db.store.payments, skip, limit, status);
    r := RenderAll(page, db.store.vendors);
  }

  /** `get_vendor_payment`. */
  function GetPayment(st: Store, id: int): (r: Result<PaymentView>)
    ensures id !in Keys(st.payments, PaymentKey) <==> r == Err(PaymentNotFound)
    ensures r.Ok? ==> r.value.id == id && r.value.vendor == Info(st.vendors, r.value.vendorId)
    ensures r.Err? ==> r.error == PaymentNotFound || r.error == ResponseInvalid
    ensures forall i :: 0 <= i < |st.payments| && st.payments[i].id == id
                        && (forall j :: 0 <= j < i ==> st.payments[j].id != id) ==>
              if Renderable(st.payments[i]) then r == Ok(View(st.payments[i], Info(st.vendors, st.payments[i].vendorId)))
              else r == Err(ResponseInvalid)
  {
    var found := Find(st.payments, PaymentKey, id);
    if found.None? then
      assert forall j :: 0 <= j < |st.payments| ==> st.payments[j].id != id by {
        forall j | 0 <= j < |st.payments| ensures st.payments[j].id != id {
          assert PaymentKey(st.payments[j]) in Keys(st.payments, PaymentKey);
        }
      }
      Err(PaymentNotFound)
    else
      var i := found.value;
      assert forall j :: (0 <= j < |st.payments| && st.payments[j].id == id
                          && forall m :: 0 <= m < j ==> st.payments[m].id != id) ==> j == i by {
        forall j | 0 <= j < |st.payments| && st.payments[j].id == id
                   && (forall m :: 0 <= m < j ==> st.payments[m].id != id)
          ensures j == i
        {
          assert PaymentKey(st.payments[j]) == id && st.payments[i].id == id;
        }
      }
      var p := st.payments[i];
      if Renderable(p) then Ok(View(p, Info(st.vendors, p.vendorId))) else Err(ResponseInvalid)
  }

  /** `get_vendor_payments_by_vendor`: exactly that vendor's payments, latest first. */
  function PaymentsOfVendor(payments: seq<VendorPayment>, vendorId: int): (r: seq<VendorPayment>)
    ensures forall i :: 0 <= i < |r| ==> r[i] in payments && r[i].vendorId == vendorId
    ensures forall i :: 0 <= i < |payments| && payments[i].vendorId == vendorId ==> payments[i] in r
    ensures forall p :: multiset(r)[p] == if p.vendorId == vendorId then multiset(payments)[p] else 0
    ensures Sorted(r, LaterPaid)
  {
    LaterPaidTotal();
    var mine := Where(payments, (p: VendorPayment) => p.vendorId == vendorId);
    WhereCount(payments, (p: VendorPayment) => p.vendorId == vendorId);
    var r := SortBy(mine, LaterPaid);
    SortBySorted(mine, LaterPaid);
    forall i | 0 <= i < |r| ensures r[i] in mine {
      SortByMembers(mine, LaterPaid, r[i]);
    }
    forall i | 0 <= i < |payments| && payments[i].vendorId == vendorId ensures payments[i] in r {
      SortByMembers(mine, LaterPaid, payments[i]);
    }
    r
  }

  method PaymentsByVendor(db: Session, vendorId: int) returns (r: Result<seq<PaymentView>>)
    ensures var rows := PaymentsOfVendor(db.store.payments, vendorId);
      && (r.Ok? <==> forall i :: 0 <= i < |rows| ==> Renderable(rows[i]))
      && (r.Ok? ==> |r.value| == |rows|
                    && forall i :: 0 <= i < |rows| ==> r.value[i] == View(rows[i], Info(db.store.vendors, vendorId)))
  {
    var rows := PaymentsOfVendor(db.store.payments, vendorId);
    r := RenderAll(rows, db.store.vendors);
  }

  // ---------------------------------------------------------------- partial update

  /** One item of `payment_update.dict(exclude_unset=True)`. */
  datatype PaymentEdit =
    | SetDescription(description: Option<string>)
    | SetAmount(amount: Option<real>)
    | SetMethod(paymentMethod: Option<string>)
    | SetPaymentDate(paymentDate: Option<Timestamp>)
    | SetDueDate(dueDate: Option<Timestamp>)
    | SetStatus(status: Option<string>)
    | SetReference(referenceNumber: Option<string>)
    | SetBillReference(billReference: Option<string>)
    | SetNotes(notes: Option<string>)

  /** A payment row being edited in the session. The `amount` attribute is held apart, since
      the session lets it become None, which the NOT NULL column refuses at commit. */
  datatype PaymentDraft = PaymentDraft(row: VendorPayment, amount: Option<real>)

  function Editing(p: VendorPayment): PaymentDraft { PaymentDraft(p, Some(p.amount)) }

  /** The row the commit writes, when the amount is set. */
  function Committed(d: PaymentDraft): VendorPayment
    requires d.amount.Some?
  {
    d.row.(amount := d.amount.value)
  }

  /** `setattr(payment, key, value)` for one sent item. */
  function Apply(d: PaymentDraft, e: PaymentEdit): PaymentDraft {
    var p := d.row;
    match e
    case SetDescription(x) => d.(row := p.(description := x))
    case SetAmount(x) => d.(amount := x)
    case SetMethod(x) => d.(row := p.(paymentMethod := x))
    case SetPaymentDate(x) => d.(row := p.(paymentDate := x))
    case SetDueDate(x) => d.(row := p.(dueDate := x))
    case SetStatus(x) => d.(row := p.(status := x))
    case SetReference(x) => d.(row := p.(referenceNumber := x))
    case SetBillReference(x) => d.(row := p.(billReference := x))
    case SetNotes(x) => d.(row := p.(notes := x))
  }

  /** The draft after the `setattr` loop has run over `edits` in order. */
  function Patched(d: PaymentDraft, edits: seq<PaymentEdit>): PaymentDraft
    decreases |edits|
  {
    if edits == [] then d else Apply(Patched(d, edits[..|edits| - 1]), edits[|edits| - 1])
  }

  /** Whether the client sent a field, and the value it sent. */
  datatype Patch<T> = Unset | Set(value: T)

  function Or<T>(p: Patch<T>, current: T): T {
    if p.Set? then p.value else current
  }

  /** `VendorPaymentUpdate` seen as one patch per column. */
  datatype PaymentPatch = PaymentPatch(
    description: Patch<Option<string>>, amount: Patch<Option<real>>,
    paymentMethod: Patch<Option<string>>, paymentDate: Patch<Option<Timestamp>>,
    dueDate: Patch<Option<Timestamp>>, status: Patch<Option<string>>,
    referenceNumber: Patch<Option<string>>, billReference: Patch<Option<string>>,
    notes: Patch<Option<string>>)

  const Untouched := PaymentPatch(Unset, Unset, Unset, Unset, Unset, Unset, Unset, Unset, Unset)

  function Record(q: PaymentPatch, e: PaymentEdit): PaymentPatch {
    match e
    case SetDescription(x) => q.(description := Set(x))
    case SetAmount(x) => q.(amount := Set(x))
    case SetMethod(x) => q.(paymentMethod := Set(x))
    case SetPaymentDate(x) => q.(paymentDate := Set(x))
    case SetDueDate(x) => q.(dueDate := Set(x))
    case SetStatus(x) => q.(status := Set(x))
    case SetReference(x) => q.(referenceNumber := Set(x))
    case SetBillReference(x) => q.(billReference := Set(x))
    case SetNotes(x) => q.(notes := Set(x))
  }

  /** The last value sent for each column. */
  function Collect(edits: seq<PaymentEdit>): PaymentPatch
    decreases |edits|
  {
    if edits == [] then Untouched else Record(Collect(edits[..|edits| - 1]), edits[|edits| - 1])
  }

  /** Column by column: a sent column takes the value sent, every other column, the id,
      the vendor, the number and the creation time keep theirs. */
  function Overwrite(p: VendorPayment, q: PaymentPatch): PaymentDraft {
    PaymentDraft(
      VendorPayment(p.id, p.vendorId, p.paymentNumber, Or(q.description, p.description), p.amount,
                    Or(q.paymentMethod, p.paymentMethod), Or(q.paymentDate, p.paymentDate),
                    Or(q.dueDate, p.dueDate), Or(q.status, p.status),
                    Or(q.referenceNumber, p.referenceNumber), Or(q.billReference, p.billReference),
                    Or(q.notes, p.notes), p.createdAt),
      Or(q.amount, Some(p.amount)))
  }

  /** The `setattr` loop is a partial update: it equals overwriting exactly the columns the
      client sent, each with the last value sent for it. */
  lemma {:induction false} PatchedIsOverwrite(p: VendorPayment, edits: seq<PaymentEdit>)
    ensures Patched(Editing(p), edits) == Overwrite(p, Collect(edits))
    decreases |edits|
  {
    if edits != [] {
      PatchedIsOverwrite(p, edits[..|edits| - 1]);
      ApplyOverwrite(p, Collect(edits[..|edits| - 1]), edits[|edits| - 1]);
    }
  }

  /** One more `setattr` on an overwritten row is recording one more sent column. */
  lemma ApplyOverwrite(p: VendorPayment, q: PaymentPatch, e: PaymentEdit)
    ensures Apply(Overwrite(p, q), e) == Overwrite(p, Record(q, e))
  {
  }

  /** The update never moves a payment to another vendor and never renumbers it: the
      update schema has no such columns. */
  lemma UpdateKeepsIdentity(p: VendorPayment, edits: seq<PaymentEdit>)
    ensures var d := Patched(Editing(p), edits);
      && d.row.id == p.id && d.row.vendorId == p.vendorId
      && d.row.paymentNumber == p.paymentNumber && d.row.createdAt == p.createdAt
      && (Collect(edits).status.Unset? ==> d.row.status == p.status)
      && (Collect(edits).amount.Unset? ==> d.amount == Some(p.amount))
  {
    PatchedIsOverwrite(p, edits);
  }

  /** Replacing a payment row by one with the same id, vendor and number keeps the database
      consistent. */
  lemma ReplacePaymentKeepsConsistent(st: Store, i: nat, p: VendorPayment)
    requires Consistent(st) && i < |st.payments|
    requires p.id == st.payments[i].id && p.vendorId == st.payments[i].vendorId
    requires p.paymentNumber == st.payments[i].paymentNumber
    ensures Consistent(st.(payments := st.payments[i := p]))
  {
    ReplaceKeepsKeys(st.payments, PaymentKey, st.nextPaymentId, i, p);
    ReplaceKeepsDistinct(st.payments, PaymentNumber, i, p);
    var t := st.payments[i := p];
    assert forall k :: 0 <= k < |t| ==> t[k].vendorId == st.payments[k].vendorId;
  }

  /** `update_vendor_payment`. The sent items are applied one by one and committed; a null
      amount is refused by the NOT NULL column and nothing changes. A row left without a
      status or payment date is committed, but the response model then refuses it. */
  method UpdatePayment(db: Session, id: int, edits: seq<PaymentEdit>) returns (r: Result<PaymentView>)
    requires db.Valid()
    modifies db
    ensures db.Valid()
    ensures id !in Keys(old(db.store.payments), PaymentKey) ==> r == Err(PaymentNotFound) && db.store == old(db.store)
    ensures id in Keys(old(db.store.payments), PaymentKey) ==>
      var st := old(db.store);
      var i := Find(st.payments, PaymentKey, id).value;
      var d := Overwrite(st.payments[i], Collect(edits));
      if d.amount.None? then r == Err(IntegrityError) && db.store == st
      else
        var p := Committed(d);
        && db.store == st.(payments := st.payments[i := p])
        && r == (if Renderable(p) then Ok(View(p, Info(st.vendors, p.vendorId))) else Err(ResponseInvalid))
  {
    var st := db.store;
    var found := Find(st.payments, PaymentKey, id);
    if found.None? {
      return Err(PaymentNotFound);
    }
    var i := found.value;
    var d := Editing(st.payments[i]);
    for k := 0 to |edits|
      invariant d == Patched(Editing(st.payments[i]), edits[..k])
    {
      assert edits[..k + 1][..k] == edits[..k];
      d := Apply(d, edits[k]);
    }
    assert edits[..|edits|] == edits;
    PatchedIsOverwrite(st.payments[i], edits);
    if d.amount.None? {
      return Err(IntegrityError);
    }
    var p := Committed(d);
    ReplacePaymentKeepsConsistent(st, i, p);
    db.store := st.(payments := st.payments[i := p]);
    if !Renderable(p) {
      return Err(ResponseInvalid);
    }
    r := Ok(View(p, Info(st.vendors, p.vendorId)));
  }

  /** Deleting a payment keeps the database consistent. */
  lemma DeletePaymentKeepsConsistent(st: Store, i: nat)
    requires Consistent(st) && i < |st.payments|
    ensures Consistent(st.(payments := RemoveAt(st.payments, i)))
  {
    RemoveAtKeys(st.payments, PaymentKey, st.nextPaymentId, i);
    RemoveAtDistinct(st.payments, PaymentNumber, i);
  }

  /** `delete_vendor_payment`. */
  method DeletePayment(db: Session, id: int) returns (r: Result<string>)
    requires db.Valid()
    modifies db
    ensures db.Valid()
    ensures id !in Keys(old(db.store.payments), PaymentKey) <==> r == Err(PaymentNotFound)
    ensures r.Err? ==> db.store == old(db.store)
    ensures r.Ok? ==>
      var st := old(db.store);
      && r.value == "Vendor payment deleted successfully"
      && db.store == st.(payments := RemoveAt(st.payments, Find(st.payments, PaymentKey, id).value))
      && id !in Keys(db.store.payments, PaymentKey)
  {
    var st := db.store;
    var found := Find(st.payments, PaymentKey, id);
    if found.None? {
      return Err(PaymentNotFound);
    }
    DeletePaymentKeepsConsistent(st, found.value);
    RemoveAtKeys(st.payments, PaymentKey, st.nextPaymentId, found.value);
    db.store := st.(payments := RemoveAt(st.payments, found.value));
    r := Ok("Vendor payment deleted successfully");
  }
}
