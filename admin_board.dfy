/** The admin back office page (`AdminAnalyticsBoard.jsx`): the shared refresh counter,
    the dashboard's order table and its delete action, the customer-invoice view (the
    orders offered for invoicing, generating an invoice, the invoice e-mail, the totals
    cards) and the vendor-payment view's save handler with its Paid-transition refresh. */
module AdminBoard {
  import opened Common
  import opened Strings
  import opened Tables
  import opened Sorting
  import opened Models
  import OrdersRouter
  import InvoiceRouter
  import VendorPaymentRouter

  type OrderView = OrdersRouter.OrderView
  type PaymentView = VendorPaymentRouter.PaymentView

  // ---------------------------------------------------------------- sums

  /** `reduce((sum, x) => sum + f(x), 0)`. */
  function SumBy<T>(s: seq<T>, f: T -> real): real {
    if s == [] then 0.0 else f(s[0]) + SumBy(s[1..], f)
  }

  /** Replacing one element changes the sum by the difference of the two summands. */
  lemma {:induction false} SumByUpdate<T>(s: seq<T>, f: T -> real, i: nat, x: T)
    requires i < |s|
    ensures SumBy(s[i := x], f) == SumBy(s, f) - f(s[i]) + f(x)
    decreases |s|
  {
    if i > 0 {
      assert s[i := x][1..] == s[1..][i - 1 := x];
      SumByUpdate(s[1..], f, i - 1, x);
    }
  }

  /** `f` where `p` holds and 0 elsewhere. */
  function Masked<T>(p: T -> bool, f: T -> real): T -> real {
    x => if p(x) then f(x) else 0.0
  }

  /** Summing the filtered list is summing the whole list with the others counted as 0. */
  lemma {:induction false} SumOfWhere<T>(s: seq<T>, p: T -> bool, f: T -> real)
    ensures SumBy(Where(s, p), f) == SumBy(s, Masked(p, f))
    decreases |s|
  {
    if s != [] {
      SumOfWhere(s[1..], p, f);
      if p(s[0]) {
        assert ([s[0]] + Where(s[1..], p))[1..] == Where(s[1..], p);
      }
    }
  }

  // ---------------------------------------------------------------- refresh key

  /** The tabs of the side bar; each renders one view. */
  datatype Tab = DashboardTab | ProductsTab | EmailTab | BillingTab | EmployeesTab
               | FabricsTab | PaymentsTab | VendorPaymentsTab

  /** The `refreshKey` prop the view of `tab` is rendered with, if any. */
  function RefreshKeyProp(tab: Tab, refreshKey: int): (r: Option<int>)
    ensures r.Some? ==> r.value == refreshKey
  {
    if tab == VendorPaymentsTab then Some(refreshKey) else None
  }

  /** Only the vendor-payments view can observe a change of the key: every other view,
      the dashboard included, is rendered with the same props whatever the key. */
  lemma OnlyVendorPaymentsSeeRefresh(tab: Tab, k1: int, k2: int)
    ensures RefreshKeyProp(tab, k1) == RefreshKeyProp(tab, k2) <==> tab != VendorPaymentsTab || k1 == k2
  {
  }

  /** A vendor-payment form; every input holds text. */
  datatype PaymentForm = PaymentForm(
    vendorId: string, description: string, amount: string, paymentMethod: string,
    dueDate: string, status: string, referenceNumber: string, billReference: string,
    notes: string)

  const EmptyPaymentForm := PaymentForm("", "", "", "", "", "Pending", "", "", "")
  const PaymentSaveFailed := "Failed to save payment"

  /** What the save handler sends: a PUT for the payment being edited, a POST otherwise. */
  datatype PaymentSave = PutPayment(id: int, form: PaymentForm) | PostPayment(form: PaymentForm)

  /** A save refreshes the other views exactly when an existing payment that was not Paid
      is saved as Paid. */
  predicate UpdatedToPaid(editing: Option<PaymentView>, form: PaymentForm) {
    editing.Some? && editing.value.status != "Paid" && form.status == "Paid"
  }

  /** Creating a payment never counts as a transition to Paid, whatever its status. */
  lemma CreatingNeverRefreshes(form: PaymentForm)
    ensures !UpdatedToPaid(None, form)
  {
  }

  /** The board and its vendor-payments view: the shared counter, the number of times
      that view has fetched its lists, and the payment modal's state. */
  class AdminBoard {
    var refreshKey: int
    var vendorFetches: nat
    var paymentModalOpen: bool
    var editingPayment: Option<PaymentView>
    var paymentForm: PaymentForm

    constructor ()
      ensures refreshKey == 0 && vendorFetches == 0
      ensures !paymentModalOpen && editingPayment == None && paymentForm == EmptyPaymentForm
    {
      refreshKey := 0;
      vendorFetches := 0;
      paymentModalOpen := false;
      editingPayment := None;
      paymentForm := EmptyPaymentForm;
    }

    /** `triggerGlobalRefresh`: the key goes up by one, and the vendor-payments view,
        whose fetch effect depends on the key, fetches again. */
    method TriggerGlobalRefresh()
      modifies this
      ensures refreshKey == old(refreshKey) + 1
      ensures vendorFetches == old(vendorFetches) + 1
      ensures paymentModalOpen == old(paymentModalOpen) && editingPayment == old(editingPayment)
      ensures paymentForm == old(paymentForm)
    {
      refreshKey := refreshKey + 1;
      vendorFetches := vendorFetches + 1;
    }

    /** `handlePaymentSubmit`. `saved` is whether the PUT or POST succeeded. On success the
        modal closes, the form resets, the view refetches, and the key is bumped only for
        an edit that moved the payment to Paid; on failure only an alert is shown. */
    method HandlePaymentSubmit(saved: bool) returns (request: PaymentSave, alert: Option<string>)
      modifies this
      ensures request == if old(editingPayment).Some? then PutPayment(old(editingPayment).value.id, old(paymentForm))
                         else PostPayment(old(paymentForm))
      ensures refreshKey >= old(refreshKey)
      ensures !saved ==>
        && alert == Some(PaymentSaveFailed)
        && refreshKey == old(refreshKey) && vendorFetches == old(vendorFetches)
        && paymentModalOpen == old(paymentModalOpen) && editingPayment == old(editingPayment)
        && paymentForm == old(paymentForm)
      ensures saved ==>
        var bump := if UpdatedToPaid(old(editingPayment), old(paymentForm)) then 1 else 0;
        && alert == None
        && refreshKey == old(refreshKey) + bump
        && vendorFetches == old(vendorFetches) + 1 + bump
        && !paymentModalOpen && editingPayment == None && paymentForm == EmptyPaymentForm
    {
      var updatedToPaid := false;
      if editingPayment.Some? {
        var prevStatus := editingPayment.value.status;
        request := PutPayment(editingPayment.value.id, paymentForm);
        if !saved {
          return request, Some(PaymentSaveFailed);
        }
        if prevStatus != "Paid" && paymentForm.status == "Paid" {
          updatedToPaid := true;
        }
      } else {
        request := PostPayment(paymentForm);
        if !saved {
          return request, Some(PaymentSaveFailed);
        }
      }
      paymentModalOpen := false;
      editingPayment := None;
      paymentForm := EmptyPaymentForm;
      vendorFetches := vendorFetches + 1;
      if updatedToPaid {
        TriggerGlobalRefresh();
      }
      alert := None;
    }
  }

  // ---------------------------------------------------------------- vendor totals

  function HasStatus(status: string): PaymentView -> bool {
    (p: PaymentView) => p.status == status
  }

  function PaymentAmount(p: PaymentView): real { p.amount }

  /** `payments.filter(p => p.status === status).reduce((sum, p) => sum + (p.amount || 0), 0)`. */
  function StatusTotal(payments: seq<PaymentView>, status: string): real {
    SumBy(Where(payments, HasStatus(status)), PaymentAmount)
  }

  /** Marking a Pending payment as Paid moves its amount from the pending card to the
      paid card, which is what the refresh after such a save brings to the screen. */
  lemma MarkPaidMovesAmount(payments: seq<PaymentView>, i: nat)
    requires i < |payments| && payments[i].status == "Pending"
    ensures var after := payments[i := payments[i].(status := "Paid")];
            && StatusTotal(after, "Pending") == StatusTotal(payments, "Pending") - payments[i].amount
            && StatusTotal(after, "Paid") == StatusTotal(payments, "Paid") + payments[i].amount
  {
    var after := payments[i := payments[i].(status := "Paid")];
    SumOfWhere(payments, HasStatus("Pending"), PaymentAmount);
    SumOfWhere(after, HasStatus("Pending"), PaymentAmount);
    SumOfWhere(payments, HasStatus("Paid"), PaymentAmount);
    SumOfWhere(after, HasStatus("Paid"), PaymentAmount);
    SumByUpdate(payments, Masked(HasStatus("Pending"), PaymentAmount), i, after[i]);
    SumByUpdate(payments, Masked(HasStatus("Paid"), PaymentAmount), i, after[i]);
  }

  // ---------------------------------------------------------------- order table

  const TableRows := 20

  function IsRequest(o: OrderView): bool { o.cancellationRequested == CancellationRequested }

  /** The comparator of the order table: orders flagged for cancellation come first, then
      higher ids first. */
  function RankedBefore(a: OrderView, b: OrderView): bool {
    if IsRequest(a) != IsRequest(b) then IsRequest(a) else a.id >= b.id
  }

  lemma RankedBeforeTotal()
    ensures IsTotalPreorder(RankedBefore)
  {
  }

  /** The rows the table shows: the first 20 of the ranked orders. */
  function OrderTable(orders: seq<OrderView>): (r: seq<OrderView>)
    ensures |r| == Min(|orders|, TableRows)
    ensures r == SortBy(orders, RankedBefore)[..|r|]
    ensures forall i, j :: 0 <= i < j < |r| && IsRequest(r[j]) ==> IsRequest(r[i])
    ensures forall i, j :: 0 <= i < j < |r| && IsRequest(r[i]) == IsRequest(r[j]) ==> r[i].id >= r[j].id
    ensures forall k :: 0 <= k < |r| ==> r[k] in orders
  {
    var sorted := SortBy(orders, RankedBefore);
    RankedBeforeTotal();
    SortBySorted(orders, RankedBefore);
    var r := Slice(sorted, 0, TableRows);
    forall k | 0 <= k < |r| ensures r[k] in orders {
      SortByMembers(orders, RankedBefore, r[k]);
    }
    r
  }

  /** An order left off the table ranks after every order on it: the table shows the top
      of the ranking. */
  lemma OrderTableShowsTopRanked(orders: seq<OrderView>, o: OrderView)
    requires o in orders && o !in OrderTable(orders)
    ensures forall i :: 0 <= i < |OrderTable(orders)| ==> RankedBefore(OrderTable(orders)[i], o)
  {
    var sorted := SortBy(orders, RankedBefore);
    var r := OrderTable(orders);
    RankedBeforeTotal();
    SortBySorted(orders, RankedBefore);
    SortByMembers(orders, RankedBefore, o);
    var k :| 0 <= k < |sorted| && sorted[k] == o;
    assert forall j :: 0 <= j < |r| ==> sorted[j] != o by {
      forall j | 0 <= j < |r| ensures sorted[j] != o {
        assert r[j] == sorted[j];
      }
    }
    forall i | 0 <= i < |r| ensures RankedBefore(r[i], o) {
      assert r[i] == sorted[i];
    }
  }

  /** `cancellationRequests`: the orders flagged for cancellation, in list order. */
  function CancellationRequests(orders: seq<OrderView>): (r: seq<OrderView>)
    ensures forall o :: o in r <==> o in orders && IsRequest(o)
    ensures forall o :: multiset(r)[o] == if IsRequest(o) then multiset(orders)[o] else 0
  {
    WhereCount(orders, IsRequest);
    Where(orders, IsRequest)
  }

  /** The flagged orders keep the list's order: those of a later part of the list come
      after those of an earlier part. */
  lemma CancellationRequestsInListOrder(earlier: seq<OrderView>, later: seq<OrderView>)
    ensures CancellationRequests(earlier + later)
            == CancellationRequests(earlier) + CancellationRequests(later)
  {
    WhereAppend(earlier, later, IsRequest);
  }

  lemma {:induction false} WhereInsertLength<T>(x: T, s: seq<T>, leq: (T, T) -> bool, p: T -> bool)
    ensures |Where(Insert(x, s, leq), p)| == |Where(s, p)| + (if p(x) then 1 else 0)
    decreases |s|
  {
    if s != [] && !leq(x, s[0]) {
      WhereInsertLength(x, s[1..], leq, p);
      assert ([s[0]] + Insert(x, s[1..], leq))[1..] == Insert(x, s[1..], leq);
    } else if s != [] {
      assert ([x] + s)[1..] == s;
    }
  }

  /** Sorting does not change how many elements satisfy a condition. */
  lemma {:induction false} WhereSortLength<T>(s: seq<T>, leq: (T, T) -> bool, p: T -> bool)
    ensures |Where(SortBy(s, leq), p)| == |Where(s, p)|
    decreases |s|
  {
    if s != [] {
      WhereSortLength(s[1..], leq, p);
      WhereInsertLength(s[0], SortBy(s[1..], leq), leq, p);
    }
  }

  /** A list whose first `m` elements satisfy `p` has at least `m` of them. */
  lemma {:induction false} WherePrefixLength<T>(s: seq<T>, p: T -> bool, m: nat)
    requires m <= |s| && forall k :: 0 <= k < m ==> p(s[k])
    ensures |Where(s, p)| >= m
    decreases m
  {
    if m > 0 {
      WherePrefixLength(s[1..], p, m - 1);
    }
  }

  /** When at most 20 orders are flagged, every flagged order is on screen. */
  lemma RequestsAllShown(orders: seq<OrderView>, o: OrderView)
    requires |CancellationRequests(orders)| <= TableRows
    requires o in orders && IsRequest(o)
    ensures o in OrderTable(orders)
  {
    FewFlaggedAllShown(orders, o);
  }

  lemma FewFlaggedAllShown(orders: seq<OrderView>, o: OrderView)
    requires |Where(orders, IsRequest)| <= TableRows
    requires o in orders && IsRequest(o)
    ensures o in OrderTable(orders)
  {
    var sorted := SortBy(orders, RankedBefore);
    RankedBeforeTotal();
    SortBySorted(orders, RankedBefore);
    SortByMembers(orders, RankedBefore, o);
    var k :| 0 <= k < |sorted| && sorted[k] == o;
    assert forall j :: 0 <= j < k + 1 ==> IsRequest(sorted[j]) by {
      forall j | 0 <= j < k + 1 ensures IsRequest(sorted[j]) {
        if j < k { assert RankedBefore(sorted[j], sorted[k]); }
      }
    }
    WherePrefixLength(sorted, IsRequest, k + 1);
    WhereSortLength(orders, RankedBefore, IsRequest);
    assert OrderTable(orders)[k] == sorted[k];
  }

  // ---------------------------------------------------------------- dashboard

  const DeleteFailed := "Failed to cancel order"

  /** The dashboard's order list and the state of its delete dialog; `fetches` counts the
      calls of `fetchData`. */
  class Dashboard {
    var orders: seq<OrderView>
    var deleteConfirm: Option<int>
    var deleting: bool
    var deleteSuccess: bool
    var fetches: nat

    constructor ()
      ensures orders == [] && deleteConfirm == None && !deleting && !deleteSuccess && fetches == 0
    {
      orders := [];
      deleteConfirm := None;
      deleting := false;
      deleteSuccess := false;
      fetches := 0;
    }

    /** Rendering the table sorts the state list in place by the table's comparator and
        shows its first 20 rows. */
    method RenderOrderTable() returns (rows: seq<OrderView>)
      modifies this
      ensures orders == SortBy(old(orders), RankedBefore)
      ensures rows == OrderTable(old(orders))
      ensures deleteConfirm == old(deleteConfirm) && deleting == old(deleting)
      ensures deleteSuccess == old(deleteSuccess) && fetches == old(fetches)
    {
      orders := SortBy(orders, RankedBefore);
      rows := Slice(orders, 0, TableRows);
    }

    /** `handleDeleteOrder`. `ok` is whether `DELETE /api/orders/{id}` succeeded. Without
        a pending confirmation nothing happens. On success the order leaves the local list,
        the success notice shows and the lists are fetched again; on failure an alert shows
        and the dialog closes. */
    method HandleDeleteOrder(ok: bool) returns (alert: Option<string>)
      modifies this
      ensures old(deleteConfirm).None? ==>
        alert == None && orders == old(orders) && deleteConfirm == None && deleting == old(deleting)
        && deleteSuccess == old(deleteSuccess) && fetches == old(fetches)
      ensures old(deleteConfirm).Some? ==> !deleting
      ensures old(deleteConfirm).Some? && ok ==>
        var id := old(deleteConfirm).value;
        && alert == None && orders == Where(old(orders), (o: OrderView) => o.id != id)
        && deleteSuccess && deleteConfirm == old(deleteConfirm) && fetches == old(fetches) + 1
      ensures old(deleteConfirm).Some? && !ok ==>
        && alert == Some(DeleteFailed) && orders == old(orders) && deleteConfirm == None
        && deleteSuccess == old(deleteSuccess) && fetches == old(fetches)
    {
      if deleteConfirm.None? {
        return None;
      }
      deleting := true;
      var id := deleteConfirm.value;
      if ok {
        orders := Where(orders, (o: OrderView) => o.id != id);
        deleteSuccess := true;
        fetches := fetches + 1;
        alert := None;
      } else {
        alert := Some(DeleteFailed);
        deleteConfirm := None;
      }
      deleting := false;
    }

    /** The timer set after a successful delete closes the dialog and hides the notice. */
    method DeleteNoticeExpires()
      modifies this
      ensures deleteConfirm == None && !deleteSuccess
      ensures orders == old(orders) && deleting == old(deleting) && fetches == old(fetches)
    {
      deleteConfirm := None;
      deleteSuccess := false;
    }
  }

  /** With distinct ids, the local delete removes exactly that order, and the pending
      requests lose at most that one order. */
  lemma {:induction false} LocalDeleteRemovesOne(orders: seq<OrderView>, i: nat)
    requires i < |orders| && KeysDistinct(orders, (o: OrderView) => o.id)
    ensures Where(orders, (o: OrderView) => o.id != orders[i].id) == RemoveAt(orders, i)
    ensures forall o :: o in CancellationRequests(RemoveAt(orders, i)) <==>
                          o in CancellationRequests(orders) && o.id != orders[i].id
  {
    var p := (o: OrderView) => o.id != orders[i].id;
    forall j | 0 <= j < |orders| && j != i ensures p(orders[j]) {
      assert orders[j].id != orders[i].id;
    }
    WhereDropsOne(orders, p, i);
    var r := RemoveAt(orders, i);
    forall o | o in CancellationRequests(orders) && o.id != orders[i].id ensures o in r {
      var j :| 0 <= j < |orders| && orders[j] == o;
      if j < i { assert r[j] == o; } else { assert r[j - 1] == o; }
    }
    forall o | o in r ensures o in orders && o.id != orders[i].id {
      var j :| 0 <= j < |r| && r[j] == o;
      if j < i { assert o == orders[j]; } else { assert o == orders[j + 1]; }
    }
  }

  // ---------------------------------------------------------------- customer invoices

  function InvoiceOrder(v: Invoice): int { v.orderId }

  /** An order may be invoiced when it has a truthy amount and no invoice refers to it. */
  function Invoiceable(invoices: seq<Invoice>): OrderView -> bool {
    (o: OrderView) => TruthyAmount(o.amount) && Find(invoices, InvoiceOrder, o.id).None?
  }

  /** The choices of the generate-invoice dialog. */
  function InvoiceChoices(orders: seq<OrderView>, invoices: seq<Invoice>): (r: seq<OrderView>)
    ensures forall o :: o in r <==>
      o in orders && TruthyAmount(o.amount) && o.id !in Keys(invoices, InvoiceOrder)
  {
    Where(orders, Invoiceable(invoices))
  }

  function OtherThan(id: int): OrderView -> bool {
    (o: OrderView) => o.id != id
  }

  /** Once an invoice for an order exists, that order leaves the choices and nothing else
      does. The server itself accepts a second invoice for an order, so this filter is the
      only guard against one. */
  lemma {:induction false} InvoicedOrderLeavesChoices(orders: seq<OrderView>, invoices: seq<Invoice>, v: Invoice)
    ensures InvoiceChoices(orders, invoices + [v]) == Where(InvoiceChoices(orders, invoices), OtherThan(v.orderId))
    decreases |orders|
  {
    KeysAppend(invoices, InvoiceOrder, v);
    if orders != [] {
      InvoicedOrderLeavesChoices(orders[1..], invoices, v);
      var o := orders[0];
      var rest := Where(orders[1..], Invoiceable(invoices));
      if Invoiceable(invoices)(o) {
        assert ([o] + rest)[1..] == rest;
      }
    }
  }

  /** What "Generate" posts, in the server's request terms. */
  function GenerateRequest(orderId: int, taxRate: real, status: string): (r: InvoiceRouter.InvoiceCreate)
    ensures r.orderId == orderId && r.taxRate == Some(taxRate) && r.paymentStatus == Some(status)
    ensures r.paymentMethod == Some("Online Payment") && r.dueDate.None? && r.notes.None?
  {
    InvoiceRouter.InvoiceCreate(orderId, Some(taxRate), Some("Online Payment"), Some(status), None, None)
  }

  const InvoiceGenerated := "Invoice generated successfully!"
  const InvoiceGenerateFailed := "Failed to generate invoice"

  /** The customer-invoice view's dialog state; `invoiceFetches` counts `fetchInvoices`. */
  class InvoicePanel {
    var generateModalOpen: bool
    var selectedOrderId: Option<int>
    var taxRate: real
    var invoiceStatus: string
    var invoiceFetches: nat

    constructor ()
      ensures !generateModalOpen && selectedOrderId == None && taxRate == 18.0
      ensures invoiceStatus == "Pending" && invoiceFetches == 0
    {
      generateModalOpen := false;
      selectedOrderId := None;
      taxRate := 18.0;
      invoiceStatus := "Pending";
      invoiceFetches := 0;
    }

    /** `handleGenerateInvoice`. With no order selected (nothing, or the falsy id 0) nothing
        is sent and nothing changes. Otherwise the request is sent; on success (`ok`) the
        dialog closes, the selection clears, the status returns to "Pending" and the
        invoices are fetched again. */
    method HandleGenerateInvoice(ok: bool) returns (request: Option<InvoiceRouter.InvoiceCreate>, alert: Option<string>)
      modifies this
      ensures !OrdersRouter.TruthyId(old(selectedOrderId)) ==>
        request == None && alert == None
        && generateModalOpen == old(generateModalOpen) && selectedOrderId == old(selectedOrderId)
        && taxRate == old(taxRate) && invoiceStatus == old(invoiceStatus) && invoiceFetches == old(invoiceFetches)
      ensures OrdersRouter.TruthyId(old(selectedOrderId)) ==>
        request == Some(GenerateRequest(old(selectedOrderId).value, old(taxRate), old(invoiceStatus)))
      ensures OrdersRouter.TruthyId(old(selectedOrderId)) && ok ==>
        && alert == Some(InvoiceGenerated) && !generateModalOpen && selectedOrderId == None
        && invoiceStatus == "Pending" && taxRate == old(taxRate) && invoiceFetches == old(invoiceFetches) + 1
      ensures OrdersRouter.TruthyId(old(selectedOrderId)) && !ok ==>
        && alert == Some(InvoiceGenerateFailed) && generateModalOpen == old(generateModalOpen)
        && selectedOrderId == old(selectedOrderId) && invoiceStatus == old(invoiceStatus)
        && taxRate == old(taxRate) && invoiceFetches == old(invoiceFetches)
    {
      if !OrdersRouter.TruthyId(selectedOrderId) {
        return None, None;
      }
      request := Some(GenerateRequest(selectedOrderId.value, taxRate, invoiceStatus));
      if !ok {
        return request, Some(InvoiceGenerateFailed);
      }
      generateModalOpen := false;
      selectedOrderId := None;
      invoiceStatus := "Pending";
      invoiceFetches := invoiceFetches + 1;
      alert := Some(InvoiceGenerated);
    }
  }

  /** The revenue card: the sum of the invoice totals. */
  function InvoiceTotal(v: Invoice): real { v.totalAmount }

  function InvoiceRevenue(invoices: seq<Invoice>): real { SumBy(invoices, InvoiceTotal) }

  function IsPaidInvoice(v: Invoice): bool { v.paymentStatus == "Paid" }

  /** The paid-invoices card. */
  function PaidInvoiceCount(invoices: seq<Invoice>): (n: nat)
    ensures n <= |invoices|
  {
    |Where(invoices, IsPaidInvoice)|
  }

  /** A status change from Paid to anything else lowers the paid count by one and leaves
      the revenue card alone. */
  lemma {:induction false} UnpaidLowersPaidCount(invoices: seq<Invoice>, i: nat, status: string)
    requires i < |invoices| && invoices[i].paymentStatus == "Paid" && status != "Paid"
    ensures var after := invoices[i := invoices[i].(paymentStatus := status)];
            && PaidInvoiceCount(after) == PaidInvoiceCount(invoices) - 1
            && InvoiceRevenue(after) == InvoiceRevenue(invoices)
    decreases |invoices|
  {
    var after := invoices[i := invoices[i].(paymentStatus := status)];
    SumByUpdate(invoices, InvoiceTotal, i, after[i]);
    if i > 0 {
      assert after[1..] == invoices[1..][i - 1 := invoices[i].(paymentStatus := status)];
      UnpaidLowersPaidCount(invoices[1..], i - 1, status);
    } else {
      assert after[1..] == invoices[1..];
    }
  }

  // ---------------------------------------------------------------- invoice e-mail

  const MailClosing := "<p>Thank you,<br/>BIM Mills Team</p>"
  const InvoiceMailSent := "Invoice email sent successfully!"
  const InvoiceMailFailed := "Failed to send invoice email."

  function InvoiceSubject(number: string): (r: string)
    ensures |r| == |number| + 24
    ensures r[..9] == "Invoice #" && r[9..|r| - 15] == number && r[|r| - 15..] == " from BIM Mills"
  {
    "Invoice #" + number + " from BIM Mills"
  }

  function Greeting(name: string): string { "<p>Dear " + name + ",</p>" }

  /** The status paragraph; `total` is the total as the locale renders it. */
  function StatusParagraph(status: string, number: string, total: string): string {
    if status == "Pending" then
      "<p>Please find your invoice attached. Kindly pay the amount of <b>₹" + total
      + "</b> at your earliest convenience.</p>"
    else if status == "Overdue" then
      "<p><b>Overdue Notice:</b> Your payment for invoice <b>#" + number + "</b> is overdue. Please pay <b>₹"
      + total + "</b> immediately to avoid service interruption.</p>"
    else "<p>Your invoice is attached for your records.</p>"
  }

  /** The body: greeting, the status paragraph, closing. */
  function InvoiceBody(v: Invoice, money: real -> string): string {
    Greeting(v.customerName) + StatusParagraph(v.paymentStatus, v.invoiceNumber, money(v.totalAmount))
    + MailClosing
  }

  /** A settled or other-status invoice gets the same body whatever its number and total. */
  lemma OtherStatusIgnoresAmount(v: Invoice, w: Invoice, money: real -> string)
    requires v.paymentStatus != "Pending" && v.paymentStatus != "Overdue"
    requires w.paymentStatus == v.paymentStatus && w.customerName == v.customerName
    ensures InvoiceBody(v, money) == InvoiceBody(w, money)
  {
  }

  /** A string contains each of its middle pieces. */
  lemma ContainsMiddle(a: string, m: string, b: string)
    ensures Contains(a + m + b, m)
  {
    var s := a + m + b;
    assert s[|a|..|a| + |m|] == m;
    assert OccursAt(s, m, |a|);
    ContainsIff(s, m);
  }

  /** What a piece contains, the text around it contains too. */
  lemma ContainsWithin(a: string, s: string, b: string, m: string)
    requires Contains(s, m)
    ensures Contains(a + s + b, m)
  {
    ContainsIff(s, m);
    var i :| OccursAt(s, m, i);
    var t := a + s + b;
    assert t[|a| + i..|a| + i + |m|] == s[i..i + |m|];
    assert OccursAt(t, m, |a| + i);
    ContainsIff(t, m);
  }

  /** A Pending body asks for the rendered total. */
  lemma PendingQuotesTotal(v: Invoice, money: real -> string)
    requires v.paymentStatus == "Pending"
    ensures Contains(InvoiceBody(v, money), money(v.totalAmount))
  {
    var total := money(v.totalAmount);
    ContainsMiddle("<p>Please find your invoice attached. Kindly pay the amount of <b>₹", total,
                   "</b> at your earliest convenience.</p>");
    ContainsWithin(Greeting(v.customerName), StatusParagraph(v.paymentStatus, v.invoiceNumber, total),
                   MailClosing, total);
  }

  /** An Overdue body names the invoice number and asks for the rendered total. */
  lemma OverdueQuotesNumberAndTotal(v: Invoice, money: real -> string)
    requires v.paymentStatus == "Overdue"
    ensures Contains(InvoiceBody(v, money), v.invoiceNumber)
    ensures Contains(InvoiceBody(v, money), money(v.totalAmount))
  {
    var total := money(v.totalAmount);
    var n := v.invoiceNumber;
    var lead := "<p><b>Overdue Notice:</b> Your payment for invoice <b>#";
    var mid := "</b> is overdue. Please pay <b>₹";
    var tail := "</b> immediately to avoid service interruption.</p>";
    var para := StatusParagraph(v.paymentStatus, n, total);
    assert para == lead + n + (mid + total + tail);
    ContainsMiddle(lead, n, mid + total + tail);
    ContainsMiddle(lead + n + mid, total, tail);
    ContainsWithin(Greeting(v.customerName), para, MailClosing, n);
    ContainsWithin(Greeting(v.customerName), para, MailClosing, total);
  }

  /** A request to the admin send-mail endpoint. */
  datatype EmailRequest = EmailRequest(to: Option<string>, subject: string, body: string)

  /** `handleSendInvoiceEmail`: the subject and the body are built step by step and posted;
      `delivered` is whether the post succeeded. */
  method SendInvoiceEmail(v: Invoice, money: real -> string, delivered: bool)
    returns (request: EmailRequest, alert: string)
    ensures request.to == v.customerEmail
    ensures request.subject == InvoiceSubject(v.invoiceNumber)
    ensures request.body == InvoiceBody(v, money)
    ensures alert == if delivered then InvoiceMailSent else InvoiceMailFailed
  {
    var subject := "Invoice #" + v.invoiceNumber + " from BIM Mills";
    var body := "<p>Dear " + v.customerName + ",</p>";
    var total := money(v.totalAmount);
    if v.paymentStatus == "Pending" {
      body := body + ("<p>Please find your invoice attached. Kindly pay the amount of <b>₹" + total
                      + "</b> at your earliest convenience.</p>");
    } else if v.paymentStatus == "Overdue" {
      body := body + ("<p><b>Overdue Notice:</b> Your payment for invoice <b>#" + v.invoiceNumber
                      + "</b> is overdue. Please pay <b>₹" + total + "</b> immediately to avoid service interruption.</p>");
    } else {
      body := body + "<p>Your invoice is attached for your records.</p>";
    }
    body := body + MailClosing;
    request := EmailRequest(v.customerEmail, subject, body);
    alert := if delivered then InvoiceMailSent else InvoiceMailFailed;
  }
}
