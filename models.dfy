/** The SQLAlchemy record definitions of the back end (one datatype per table), their
    column defaults and unique columns, and the database the routers share.

    Nullable columns are `Option`s. Two exceptions are noted where they occur: a user row
    and an admin row are only ever written by the register endpoints, which fill every
    column, so those columns are plain values here.

    The database engine (MySQL with InnoDB) enforces the declared foreign keys and unique
    columns: a commit that would break one fails with an integrity error and the session
    rolls back. `Consistent` states these constraints and the invariant that ties the
    sales table to the orders table. */
module Models {
  import opened Common
  import opened Strings
  import opened Tables

  datatype Admin = Admin(id: int, email: string, password: string)

  datatype User = User(id: int, name: string, phone: string, email: string, password: string)

  datatype Enquiry = Enquiry(
    id: int, createdAt: Timestamp, name: string, phone: string, company: Option<string>,
    email: string, message: string)

  /** A bulk fabric of the catalogue (table `products`). */
  datatype Product = Product(
    id: int, name: Option<string>, description: Option<string>, price: Option<int>,
    quantity: Option<string>, quality: Option<string>, image: Option<string>,
    file: Option<string>, category: Option<string>, features: Option<string>)

  datatype ReadymadeProduct = ReadymadeProduct(
    id: int, name: string, quantity: string, quality: string, price: Option<int>)

  datatype Order = Order(
    id: int, userId: Option<int>, userName: Option<string>, userEmail: Option<string>,
    userPhone: Option<string>, userAddress: Option<string>, productId: Option<int>,
    readymadeProductId: Option<int>, productName: Option<string>, quantity: Option<string>,
    quality: Option<string>, amount: Option<real>, createdAt: Timestamp,
    cancellationRequested: int)

  datatype Sale = Sale(
    id: int, date: Timestamp, amount: real, day: Option<string>, transactionId: string,
    orderId: Option<int>)

  datatype Employee = Employee(
    id: int, name: string, email: Option<string>, phone: Option<string>,
    position: Option<string>, salary: Option<int>, joinedDate: Timestamp)

  datatype Invoice = Invoice(
    id: int, invoiceNumber: string, orderId: int, customerName: string,
    customerEmail: Option<string>, customerAddress: Option<string>,
    customerPhone: Option<string>, productName: Option<string>, quantity: Option<string>,
    quality: Option<string>, subtotal: real, taxRate: real, taxAmount: real,
    totalAmount: real, paymentStatus: string, paymentMethod: Option<string>,
    issueDate: Timestamp, dueDate: Option<Timestamp>, notes: Option<string>,
    createdAt: Timestamp)

  datatype Vendor = Vendor(
    id: int, name: string, companyName: Option<string>, contactPerson: Option<string>,
    email: Option<string>, phone: Option<string>, address: Option<string>,
    vendorType: Option<string>, gstin: Option<string>, pan: Option<string>,
    bankAccount: Option<string>, bankName: Option<string>, ifscCode: Option<string>,
    notes: Option<string>, createdAt: Timestamp)

  datatype VendorPayment = VendorPayment(
    id: int, vendorId: int, paymentNumber: string, description: Option<string>,
    amount: real, paymentMethod: Option<string>, paymentDate: Option<Timestamp>,
    dueDate: Option<Timestamp>, status: Option<string>, referenceNumber: Option<string>,
    billReference: Option<string>, notes: Option<string>, createdAt: Timestamp)

  // ---------------------------------------------------------------- column defaults

  /** `Order.cancellation_requested`: 0 = no request, 1 = requested. */
  const CancellationFlagDefault := 0
  const CancellationRequested := 1

  /** The `invoices` column defaults. The invoice router always writes these columns, so
      the defaults never reach a row it creates. */
  const InvoiceTaxRateDefault := 0.0
  const InvoiceTaxAmountDefault := 0.0
  const InvoiceStatusColumnDefault := "Paid"

  const PaymentStatusColumnDefault := "Pending"

  // ---------------------------------------------------------------- keys

  function AdminKey(a: Admin): int { a.id }
  function AdminEmail(a: Admin): string { a.email }
  function UserKey(u: User): int { u.id }
  function UserEmail(u: User): string { u.email }
  function EnquiryKey(e: Enquiry): int { e.id }
  function ProductKey(p: Product): int { p.id }
  function ReadymadeKey(p: ReadymadeProduct): int { p.id }
  function OrderKey(o: Order): int { o.id }
  function SaleKey(s: Sale): int { s.id }
  function SaleTxn(s: Sale): string { s.transactionId }
  function EmployeeKey(e: Employee): int { e.id }
  function InvoiceKey(i: Invoice): int { i.id }
  function InvoiceNumber(i: Invoice): string { i.invoiceNumber }
  function VendorKey(v: Vendor): int { v.id }
  function PaymentKey(p: VendorPayment): int { p.id }
  function PaymentNumber(p: VendorPayment): string { p.paymentNumber }

  // ---------------------------------------------------------------- sales rows

  /** The prefix of the `transaction_id` that `create_order` gives the Sale of order `id`:
      "TXN-", the id in decimal, then "-" and a time stamp. */
  function TxnPrefix(id: nat): (p: string)
    ensures |p| >= 6 && p[..4] == "TXN-" && p[|p| - 1] == '-'
  {
    "TXN-" + NatToString(id) + "-"
  }

  predicate TxnFor(t: string, id: int) {
    id >= 0 && |TxnPrefix(id)| <= |t| && t[..|TxnPrefix(id)|] == TxnPrefix(id)
  }

  /** A transaction id names exactly one order: the decimal digits stop at the first '-'. */
  lemma TxnForUnique(t: string, a: int, b: int)
    requires TxnFor(t, a) && TxnFor(t, b)
    ensures a == b
  {
    var da, db := NatToString(a), NatToString(b);
    var pa, pb := TxnPrefix(a), TxnPrefix(b);
    assert pa[4..4 + |da|] == da && pa[4 + |da|] == '-';
    assert pb[4..4 + |db|] == db && pb[4 + |db|] == '-';
    if |da| < |db| {
      assert false;
    } else if |db| < |da| {
      assert false;
    } else {
      assert da == t[4..4 + |da|] == db;
      NatToStringInjective(a, b);
    }
  }

  /** The Sale row is the one `create_order` wrote for that order: it points back at the
      order, carries `order.amount or 0` and its transaction id names the order. */
  predicate SaleOf(s: Sale, o: Order) {
    s.orderId == Some(o.id) && s.amount == AmountOr0(o.amount) && TxnFor(s.transactionId, o.id)
  }

  /** The sales table holds exactly one row per order, in the same order. */
  predicate SalesTrackOrders(sales: seq<Sale>, orders: seq<Order>) {
    |sales| == |orders| && forall i :: 0 <= i < |sales| ==> SaleOf(sales[i], orders[i])
  }

  // ---------------------------------------------------------------- document numbers

  /** The numbers `generate_invoice` and `create_payment` give their rows: a prefix, the
      day as `yyyymmdd`, a dash and the first eight characters of a random UUID in upper
      case (`str(uuid)[:8].upper()`). */
  function DocumentNumber(prefix: string, day: string, uuid: string): (n: string)
    ensures |n| == |prefix| + |day| + 1 + Min(8, |uuid|)
    ensures n[..|prefix|] == prefix && n[|prefix|..|prefix| + |day|] == day && n[|prefix| + |day|] == '-'
    ensures forall k :: |prefix| + |day| + 1 <= k < |n| ==> !IsLower(n[k])
  {
    prefix + day + "-" + ToUpper(uuid[..Min(8, |uuid|)])
  }

  // ---------------------------------------------------------------- foreign keys

  predicate RefOk(r: Option<int>, keys: set<int>) {
    r.None? || r.value in keys
  }

  predicate OrderRefsOk(o: Order, users: seq<User>, products: seq<Product>, readymade: seq<ReadymadeProduct>) {
    RefOk(o.userId, Keys(users, UserKey)) && RefOk(o.productId, Keys(products, ProductKey))
    && RefOk(o.readymadeProductId, Keys(readymade, ReadymadeKey))
  }

  predicate OrdersReference(orders: seq<Order>, users: seq<User>, products: seq<Product>, readymade: seq<ReadymadeProduct>) {
    forall i :: 0 <= i < |orders| ==> OrderRefsOk(orders[i], users, products, readymade)
  }

  predicate InvoicesReference(invoices: seq<Invoice>, orders: seq<Order>) {
    forall i :: 0 <= i < |invoices| ==> invoices[i].orderId in Keys(orders, OrderKey)
  }

  predicate PaymentsReference(payments: seq<VendorPayment>, vendors: seq<Vendor>) {
    forall i :: 0 <= i < |payments| ==> payments[i].vendorId in Keys(vendors, VendorKey)
  }

  /** A table whose primary keys come from an auto-increment counter at `next`. */
  predicate Table<T>(s: seq<T>, key: T -> int, next: int) {
    next >= 1 && KeysDistinct(s, key) && KeysBelow(s, key, next)
  }

  /** The columns `Base.metadata.create_all` gives a fresh `products` table. */
  const ProductColumns: set<string> :=
    {"id", "name", "description", "price", "quantity", "quality", "image", "file", "category", "features"}

  predicate AccountsValid(admins: seq<Admin>, nextAdminId: int, users: seq<User>, nextUserId: int) {
    Table(admins, AdminKey, nextAdminId) && KeysDistinct(admins, AdminEmail)
    && Table(users, UserKey, nextUserId) && KeysDistinct(users, UserEmail)
  }

  predicate CatalogValid(products: seq<Product>, nextProductId: int, readymade: seq<ReadymadeProduct>, nextReadymadeId: int) {
    Table(products, ProductKey, nextProductId) && Table(readymade, ReadymadeKey, nextReadymadeId)
  }

  predicate OrderBookValid(orders: seq<Order>, nextOrderId: int, sales: seq<Sale>, nextSaleId: int,
                           invoices: seq<Invoice>, nextInvoiceId: int,
                           users: seq<User>, products: seq<Product>, readymade: seq<ReadymadeProduct>) {
    Table(orders, OrderKey, nextOrderId)
    && OrdersReference(orders, users, products, readymade)
    && Table(sales, SaleKey, nextSaleId)
    && SalesTrackOrders(sales, orders)
    && Table(invoices, InvoiceKey, nextInvoiceId) && KeysDistinct(invoices, InvoiceNumber)
    && InvoicesReference(invoices, orders)
  }

  predicate VendorBookValid(vendors: seq<Vendor>, nextVendorId: int, payments: seq<VendorPayment>, nextPaymentId: int) {
    Table(vendors, VendorKey, nextVendorId)
    && Table(payments, PaymentKey, nextPaymentId) && KeysDistinct(payments, PaymentNumber)
    && PaymentsReference(payments, vendors)
  }

  /** The committed contents of the database: every table in insertion order, the next
      value of each auto-increment counter, and the column names the `products` table has. */
  datatype Store = Store(
    admins: seq<Admin>, users: seq<User>, enquiries: seq<Enquiry>, products: seq<Product>,
    readymade: seq<ReadymadeProduct>, orders: seq<Order>, sales: seq<Sale>,
    employees: seq<Employee>, invoices: seq<Invoice>, vendors: seq<Vendor>,
    payments: seq<VendorPayment>, productColumns: set<string>,
    nextAdminId: int, nextUserId: int, nextEnquiryId: int, nextProductId: int,
    nextReadymadeId: int, nextOrderId: int, nextSaleId: int, nextEmployeeId: int,
    nextInvoiceId: int, nextVendorId: int, nextPaymentId: int)

  /** The primary keys, unique columns and foreign keys the schema declares, plus one Sale
      per order. */
  predicate Consistent(st: Store) {
    AccountsValid(st.admins, st.nextAdminId, st.users, st.nextUserId)
    && Table(st.enquiries, EnquiryKey, st.nextEnquiryId)
    && CatalogValid(st.products, st.nextProductId, st.readymade, st.nextReadymadeId)
    && OrderBookValid(st.orders, st.nextOrderId, st.sales, st.nextSaleId, st.invoices,
                      st.nextInvoiceId, st.users, st.products, st.readymade)
    && Table(st.employees, EmployeeKey, st.nextEmployeeId)
    && VendorBookValid(st.vendors, st.nextVendorId, st.payments, st.nextPaymentId)
  }

  /** A database whose tables are empty; `columns` are the columns the existing `products`
      table has. */
  function EmptyStore(columns: set<string>): Store {
    Store([], [], [], [], [], [], [], [], [], [], [], columns, 1, 1, 1, 1, 1, 1, 1, 1, 1, 1, 1)
  }

  lemma EmptyStoreConsistent(columns: set<string>)
    ensures Consistent(EmptyStore(columns))
    ensures EmptyStore(columns).productColumns == columns
  {
  }

  /** The database session the routers share: each endpoint reads `store` and replaces it
      when it commits. */
  class Session {
    var store: Store

    ghost predicate Valid()
      reads this
    {
      Consistent(store)
    }

    constructor (columns: set<string>)
      ensures store == EmptyStore(columns)
      ensures Valid()
    {
      store := EmptyStore(columns);
      EmptyStoreConsistent(columns);
    }
  }

  /** Appending an order whose references resolve, with its Sale, keeps every foreign key
      and the one-Sale-per-order invariant. */
  lemma OrderAppended(orders: seq<Order>, sales: seq<Sale>, invoices: seq<Invoice>, users: seq<User>,
                      products: seq<Product>, readymade: seq<ReadymadeProduct>, o: Order, s: Sale)
    requires OrdersReference(orders, users, products, readymade) && OrderRefsOk(o, users, products, readymade)
    requires SalesTrackOrders(sales, orders) && SaleOf(s, o)
    requires InvoicesReference(invoices, orders)
    ensures OrdersReference(orders + [o], users, products, readymade)
    ensures SalesTrackOrders(sales + [s], orders + [o])
    ensures InvoicesReference(invoices, orders + [o])
  {
    KeysAppend(orders, OrderKey, o);
    var os, ss := orders + [o], sales + [s];
    assert forall i :: 0 <= i < |orders| ==> os[i] == orders[i] && ss[i] == sales[i];
  }

  /** Deleting order `i` and its Sale keeps every foreign key and the one-Sale-per-order
      invariant, provided no invoice refers to the order. */
  lemma OrderRemoved(orders: seq<Order>, sales: seq<Sale>, invoices: seq<Invoice>, users: seq<User>,
                     products: seq<Product>, readymade: seq<ReadymadeProduct>, i: nat)
    requires i < |orders| && KeysDistinct(orders, OrderKey)
    requires OrdersReference(orders, users, products, readymade)
    requires SalesTrackOrders(sales, orders)
    requires InvoicesReference(invoices, orders)
    requires orders[i].id !in Keys(invoices, (v: Invoice) => v.orderId)
    ensures OrdersReference(RemoveAt(orders, i), users, products, readymade)
    ensures SalesTrackOrders(RemoveAt(sales, i), RemoveAt(orders, i))
    ensures InvoicesReference(invoices, RemoveAt(orders, i))
  {
    RemoveAtKeySet(orders, OrderKey, i);
    forall k | 0 <= k < |invoices| ensures invoices[k].orderId != orders[i].id {
      assert invoices[k].orderId in Keys(invoices, (v: Invoice) => v.orderId);
    }
  }

  /** The order book stays valid when `create_order` appends an order with resolvable
      references under the next order id, together with its Sale under the next sale id. */
  lemma OrderBookAppend(orders: seq<Order>, nextOrderId: int, sales: seq<Sale>, nextSaleId: int,
                        invoices: seq<Invoice>, nextInvoiceId: int,
                        users: seq<User>, products: seq<Product>, readymade: seq<ReadymadeProduct>, o: Order, s: Sale)
    requires OrderBookValid(orders, nextOrderId, sales, nextSaleId, invoices, nextInvoiceId, users, products, readymade)
    requires o.id == nextOrderId && s.id == nextSaleId
    requires OrderRefsOk(o, users, products, readymade) && SaleOf(s, o)
    ensures OrderBookValid(orders + [o], nextOrderId + 1, sales + [s], nextSaleId + 1, invoices, nextInvoiceId, users, products, readymade)
  {
    AppendFreshKey(orders, OrderKey, nextOrderId, o);
    AppendFreshKey(sales, SaleKey, nextSaleId, s);
    OrderAppended(orders, sales, invoices, users, products, readymade, o, s);
  }

  /** The order book stays valid when order `i` and its Sale are deleted, provided no
      invoice refers to the order. */
  lemma OrderBookRemove(orders: seq<Order>, nextOrderId: int, sales: seq<Sale>, nextSaleId: int,
                        invoices: seq<Invoice>, nextInvoiceId: int,
                        users: seq<User>, products: seq<Product>, readymade: seq<ReadymadeProduct>, i: nat)
    requires OrderBookValid(orders, nextOrderId, sales, nextSaleId, invoices, nextInvoiceId, users, products, readymade)
    requires i < |orders| && orders[i].id !in Keys(invoices, (v: Invoice) => v.orderId)
    ensures OrderBookValid(RemoveAt(orders, i), nextOrderId, RemoveAt(sales, i), nextSaleId, invoices, nextInvoiceId, users, products, readymade)
  {
    RemoveAtKeys(orders, OrderKey, nextOrderId, i);
    RemoveAtKeys(sales, SaleKey, nextSaleId, i);
    OrderRemoved(orders, sales, invoices, users, products, readymade, i);
  }

  /** The order book stays valid when order `i` is flagged for cancellation. */
  lemma OrderBookFlag(orders: seq<Order>, nextOrderId: int, sales: seq<Sale>, nextSaleId: int,
                      invoices: seq<Invoice>, nextInvoiceId: int,
                      users: seq<User>, products: seq<Product>, readymade: seq<ReadymadeProduct>, i: nat)
    requires OrderBookValid(orders, nextOrderId, sales, nextSaleId, invoices, nextInvoiceId, users, products, readymade)
    requires i < |orders|
    ensures OrderBookValid(orders[i := orders[i].(cancellationRequested := CancellationRequested)], nextOrderId,
                           sales, nextSaleId, invoices, nextInvoiceId, users, products, readymade)
  {
    var o := orders[i].(cancellationRequested := CancellationRequested);
    ReplaceKeepsKeys(orders, OrderKey, nextOrderId, i, o);
    var os := orders[i := o];
    assert forall k :: 0 <= k < |orders| ==> SaleOf(sales[k], orders[k]) ==> SaleOf(sales[k], os[k]);
  }

  /** In a valid database the unique `transaction_id` column holds: the sales of distinct
      orders carry distinct transaction ids. */
  lemma TransactionIdsDistinct(sales: seq<Sale>, orders: seq<Order>)
    requires SalesTrackOrders(sales, orders) && KeysDistinct(orders, OrderKey)
    ensures KeysDistinct(sales, SaleTxn)
  {
    forall i, j | 0 <= i < j < |sales| ensures SaleTxn(sales[i]) != SaleTxn(sales[j]) {
      if SaleTxn(sales[i]) == SaleTxn(sales[j]) {
        assert SaleOf(sales[i], orders[i]) && SaleOf(sales[j], orders[j]);
        TxnForUnique(sales[i].transactionId, orders[i].id, orders[j].id);
        assert false;
      }
    }
  }
}
