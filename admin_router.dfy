/** The admin back-office endpoints: enquiries, the readymade products of the shop, the
    bulk fabrics of the catalogue, the billing summary and the employee register.

    The product, fabric and employee updates are full overwrites: every field of the
    request body replaces the stored one, whether it was sent or left at its default. */
module AdminRouter {
  import opened Common
  import opened Tables
  import opened Sorting
  import opened Models
  import opened SalesRouter

  const EnquiryNotFound := NotFound("Enquiry not found")
  const ProductNotFound := NotFound("Product not found")
  const FabricNotFound := NotFound("Fabric not found")
  const EmployeeNotFound := NotFound("Employee not found")

  // ---------------------------------------------------------------- enquiries

  function EnquiryNewestFirst(a: Enquiry, b: Enquiry): bool { a.createdAt >= b.createdAt }

  /** `get_enquiries`: every enquiry, newest `created_at` first. */
  function GetEnquiries(enquiries: seq<Enquiry>): (r: seq<Enquiry>)
    ensures multiset(r) == multiset(enquiries)
    ensures forall i, j :: 0 <= i < j < |r| ==> r[i].createdAt >= r[j].createdAt
  {
    assert IsTotalPreorder(EnquiryNewestFirst);
    SortBySorted(enquiries, EnquiryNewestFirst);
    SortBy(enquiries, EnquiryNewestFirst)
  }

  /** No table refers to enquiries, so deleting one keeps the database consistent. */
  lemma DeleteEnquiryKeepsConsistent(st: Store, i: nat)
    requires Consistent(st) && i < |st.enquiries|
    ensures Consistent(st.(enquiries := RemoveAt(st.enquiries, i)))
    ensures Keys(RemoveAt(st.enquiries, i), EnquiryKey) == Keys(st.enquiries, EnquiryKey) - {st.enquiries[i].id}
  {
    RemoveAtKeys(st.enquiries, EnquiryKey, st.nextEnquiryId, i);
  }

  /** `delete_enquiry`. */
  method DeleteEnquiry(db: Session, id: int) returns (r: Result<string>)
    requires db.Valid()
    modifies db
    ensures db.Valid()
    ensures r.Err? ==> r == Err(EnquiryNotFound) && db.store == old(db.store)
    ensures r.Ok? <==> id in Keys(old(db.store.enquiries), EnquiryKey)
    ensures r.Ok? ==>
      var st := old(db.store);
      r.value == "Enquiry deleted successfully"
      && db.store == st.(enquiries := RemoveAt(st.enquiries, Find(st.enquiries, EnquiryKey, id).value))
      && Keys(db.store.enquiries, EnquiryKey) == Keys(st.enquiries, EnquiryKey) - {id}
  {
    var st := db.store;
    var found := Find(st.enquiries, EnquiryKey, id);
    if found.None? {
      return Err(EnquiryNotFound);
    }
    DeleteEnquiryKeepsConsistent(st, found.value);
    db.store := st.(enquiries := RemoveAt(st.enquiries, found.value));
    r := Ok("Enquiry deleted successfully");
  }

  // ---------------------------------------------------------------- readymade products

  /** The `ProductCreate` request body. */
  datatype ProductCreate = ProductCreate(
    name: string, quantity: string, quality: string, price: int,
    image: Option<string>, collection: Option<string>)

  /** The row `create_product` inserts: only name, quantity, quality and price are kept. */
  function NewReadymade(id: int, p: ProductCreate): ReadymadeProduct {
    ReadymadeProduct(id, p.name, p.quantity, p.quality, Some(p.price))
  }

  /** `image` and `collection` are accepted but never stored. */
  lemma CreateProductDropsExtras(id: int, p: ProductCreate, image: Option<string>, collection: Option<string>)
    ensures NewReadymade(id, p.(image := image, collection := collection)) == NewReadymade(id, p)
    ensures NewReadymade(id, p).id == id && NewReadymade(id, p).price == Some(p.price)
  {
  }

  lemma CreateReadymadeKeepsConsistent(st: Store, p: ReadymadeProduct)
    requires Consistent(st) && p.id == st.nextReadymadeId
    ensures Consistent(st.(readymade := st.readymade + [p], nextReadymadeId := st.nextReadymadeId + 1))
  {
    AppendFreshKey(st.readymade, ReadymadeKey, st.nextReadymadeId, p);
    var st' := st.(readymade := st.readymade + [p], nextReadymadeId := st.nextReadymadeId + 1);
    assert forall k :: k in Keys(st.readymade, ReadymadeKey) ==> k in Keys(st'.readymade, ReadymadeKey);
  }

  /** `create_product`. */
  method CreateProduct(db: Session, p: ProductCreate) returns (row: ReadymadeProduct)
    requires db.Valid()
    modifies db
    ensures db.Valid()
    ensures row == NewReadymade(old(db.store.nextReadymadeId), p)
    ensures row.id !in Keys(old(db.store.readymade), ReadymadeKey)
    ensures db.store == old(db.store).(readymade := old(db.store.readymade) + [row],
                                       nextReadymadeId := old(db.store.nextReadymadeId) + 1)
  {
    var st := db.store;
    row := NewReadymade(st.nextReadymadeId, p);
    CreateReadymadeKeepsConsistent(st, row);
    db.store := st.(readymade := st.readymade + [row], nextReadymadeId := st.nextReadymadeId + 1);
  }

  /** `update_product` overwrites the four stored fields, so the updated row is the row
      `create_product` would have made from the same body under the same id. */
  lemma UpdateProductIsOverwrite(row: ReadymadeProduct, p: ProductCreate)
    ensures row.(name := p.name, quantity := p.quantity, quality := p.quality, price := Some(p.price))
            == NewReadymade(row.id, p)
  {
  }

  lemma ReplaceReadymadeKeepsConsistent(st: Store, i: nat, p: ReadymadeProduct)
    requires Consistent(st) && i < |st.readymade| && p.id == st.readymade[i].id
    ensures Consistent(st.(readymade := st.readymade[i := p]))
  {
    ReplaceKeepsKeys(st.readymade, ReadymadeKey, st.nextReadymadeId, i, p);
  }

  /** `update_product`. */
  method UpdateProduct(db: Session, id: int, p: ProductCreate) returns (r: Result<ReadymadeProduct>)
    requires db.Valid()
    modifies db
    ensures db.Valid()
    ensures r.Err? ==> r == Err(ProductNotFound) && db.store == old(db.store)
    ensures r.Ok? <==> id in Keys(old(db.store.readymade), ReadymadeKey)
    ensures r.Ok? ==>
      var st := old(db.store);
      var i := Find(st.readymade, ReadymadeKey, id).value;
      r.value == NewReadymade(id, p) && db.store == st.(readymade := st.readymade[i := r.value])
  {
    var st := db.store;
    var found := Find(st.readymade, ReadymadeKey, id);
    if found.None? {
      return Err(ProductNotFound);
    }
    var i := found.value;
    var row := st.readymade[i];
    row := row.(name := p.name);
    row := row.(quantity := p.quantity);
    row := row.(quality := p.quality);
    row := row.(price := Some(p.price));
    UpdateProductIsOverwrite(st.readymade[i], p);
    ReplaceReadymadeKeepsConsistent(st, i, row);
    db.store := st.(readymade := st.readymade[i := row]);
    r := Ok(row);
  }

  function OrderReadymade(o: Order): Option<int> { o.readymadeProductId }

  /** Deleting a readymade product no order refers to keeps the database consistent. */
  lemma DeleteReadymadeKeepsConsistent(st: Store, i: nat)
    requires Consistent(st) && i < |st.readymade|
    requires Some(st.readymade[i].id) !in Keys(st.orders, OrderReadymade)
    ensures Consistent(st.(readymade := RemoveAt(st.readymade, i)))
  {
    var rest := RemoveAt(st.readymade, i);
    RemoveAtKeys(st.readymade, ReadymadeKey, st.nextReadymadeId, i);
    forall k | 0 <= k < |st.orders|
      ensures OrderRefsOk(st.orders[k], st.users, st.products, rest)
    {
      assert OrderReadymade(st.orders[k]) in Keys(st.orders, OrderReadymade);
    }
  }

  /** `delete_product`. An order that still points at the product makes the foreign key
      refuse the delete. */
  method DeleteProduct(db: Session, id: int) returns (r: Result<string>)
    requires db.Valid()
    modifies db
    ensures db.Valid()
    ensures id !in Keys(old(db.store.readymade), ReadymadeKey) ==> r == Err(ProductNotFound)
    ensures r.Err? ==> db.store == old(db.store)
    ensures id in Keys(old(db.store.readymade), ReadymadeKey) ==>
      var st := old(db.store);
      if Some(id) in Keys(st.orders, OrderReadymade) then r == Err(IntegrityError)
      else r == Ok("Product deleted")
           && db.store == st.(readymade := RemoveAt(st.readymade, Find(st.readymade, ReadymadeKey, id).value))
           && Keys(db.store.readymade, ReadymadeKey) == Keys(st.readymade, ReadymadeKey) - {id}
  {
    var st := db.store;
    var found := Find(st.readymade, ReadymadeKey, id);
    if found.None? {
      return Err(ProductNotFound);
    }
    var referenced := Find(st.orders, OrderReadymade, Some(id));
    if referenced.Some? {
      return Err(IntegrityError);
    }
    DeleteReadymadeKeepsConsistent(st, found.value);
    RemoveAtKeySet(st.readymade, ReadymadeKey, found.value);
    db.store := st.(readymade := RemoveAt(st.readymade, found.value));
    r := Ok("Product deleted");
  }

  // ---------------------------------------------------------------- fabrics

  /** The `FabricCreate` request body. */
  datatype FabricCreate = FabricCreate(
    name: string, description: string, price: int, quantity: Option<string>,
    quality: Option<string>, image: Option<string>, file: Option<string>,
    category: Option<string>, features: Option<string>)

  /** The row `create_fabric` inserts: every field of the body. */
  function NewFabric(id: int, f: FabricCreate): Product {
    Product(id, Some(f.name), Some(f.description), Some(f.price), f.quantity, f.quality,
            f.image, f.file, f.category, f.features)
  }

  /** A fabric row determines the body it was made from: nothing of the body is lost. */
  lemma NewFabricInjective(id: int, f: FabricCreate, g: FabricCreate)
    requires NewFabric(id, f) == NewFabric(id, g)
    ensures f == g
  {
  }

  /** The nine assignments of `update_fabric` leave a row that depends on its id alone:
      the result is the row `create_fabric` makes from the same body. */
  lemma UpdateFabricIsOverwrite(row: Product, f: FabricCreate)
    ensures row.(name := Some(f.name), description := Some(f.description), price := Some(f.price),
                 quantity := f.quantity, quality := f.quality, image := f.image, file := f.file,
                 category := f.category, features := f.features)
            == NewFabric(row.id, f)
  {
  }

  lemma CreateFabricKeepsConsistent(st: Store, p: Product)
    requires Consistent(st) && p.id == st.nextProductId
    ensures Consistent(st.(products := st.products + [p], nextProductId := st.nextProductId + 1))
  {
    AppendFreshKey(st.products, ProductKey, st.nextProductId, p);
    var st' := st.(products := st.products + [p], nextProductId := st.nextProductId + 1);
    assert forall k :: k in Keys(st.products, ProductKey) ==> k in Keys(st'.products, ProductKey);
  }

  /** `create_fabric`. */
  method CreateFabric(db: Session, f: FabricCreate) returns (row: Product)
    requires db.Valid()
    modifies db
    ensures db.Valid()
    ensures row == NewFabric(old(db.store.nextProductId), f)
    ensures row.id !in Keys(old(db.store.products), ProductKey)
    ensures db.store == old(db.store).(products := old(db.store.products) + [row],
                                       nextProductId := old(db.store.nextProductId) + 1)
  {
    var st := db.store;
    row := NewFabric(st.nextProductId, f);
    CreateFabricKeepsConsistent(st, row);
    db.store := st.(products := st.products + [row], nextProductId := st.nextProductId + 1);
  }

  lemma ReplaceFabricKeepsConsistent(st: Store, i: nat, p: Product)
    requires Consistent(st) && i < |st.products| && p.id == st.products[i].id
    ensures Consistent(st.(products := st.products[i := p]))
  {
    ReplaceKeepsKeys(st.products, ProductKey, st.nextProductId, i, p);
  }

  /** `update_fabric`. */
  method UpdateFabric(db: Session, id: int, f: FabricCreate) returns (r: Result<Product>)
    requires db.Valid()
    modifies db
    ensures db.Valid()
    ensures r.Err? ==> r == Err(FabricNotFound) && db.store == old(db.store)
    ensures r.Ok? <==> id in Keys(old(db.store.products), ProductKey)
    ensures r.Ok? ==>
      var st := old(db.store);
      var i := Find(st.products, ProductKey, id).value;
      r.value == NewFabric(id, f) && db.store == st.(products := st.products[i := r.value])
  {
    var st := db.store;
    var found := Find(st.products, ProductKey, id);
    if found.None? {
      return Err(FabricNotFound);
    }
    var i := found.value;
    var row := st.products[i];
    row := row.(name := Some(f.name));
    row := row.(description := Some(f.description));
    row := row.(price := Some(f.price));
    row := row.(quantity := f.quantity);
    row := row.(quality := f.quality);
    row := row.(image := f.image);
    row := row.(file := f.file);
    row := row.(category := f.category);
    row := row.(features := f.features);
    UpdateFabricIsOverwrite(st.products[i], f);
    ReplaceFabricKeepsConsistent(st, i, row);
    db.store := st.(products := st.products[i := row]);
    r := Ok(row);
  }

  function OrderProduct(o: Order): Option<int> { o.productId }

  /** Deleting a fabric no order refers to keeps the database consistent. */
  lemma DeleteFabricKeepsConsistent(st: Store, i: nat)
    requires Consistent(st) && i < |st.products|
    requires Some(st.products[i].id) !in Keys(st.orders, OrderProduct)
    ensures Consistent(st.(products := RemoveAt(st.products, i)))
  {
    var rest := RemoveAt(st.products, i);
    RemoveAtKeys(st.products, ProductKey, st.nextProductId, i);
    forall k | 0 <= k < |st.orders|
      ensures OrderRefsOk(st.orders[k], st.users, rest, st.readymade)
    {
      assert OrderProduct(st.orders[k]) in Keys(st.orders, OrderProduct);
    }
  }

  /** `delete_fabric`. An order that still points at the fabric makes the foreign key
      refuse the delete. */
  method DeleteFabric(db: Session, id: int) returns (r: Result<string>)
    requires db.Valid()
    modifies db
    ensures db.Valid()
    ensures id !in Keys(old(db.store.products), ProductKey) ==> r == Err(FabricNotFound)
    ensures r.Err? ==> db.store == old(db.store)
    ensures id in Keys(old(db.store.products), ProductKey) ==>
      var st := old(db.store);
      if Some(id) in Keys(st.orders, OrderProduct) then r == Err(IntegrityError)
      else r == Ok("Fabric deleted")
           && db.store == st.(products := RemoveAt(st.products, Find(st.products, ProductKey, id).value))
           && Keys(db.store.products, ProductKey) == Keys(st.products, ProductKey) - {id}
  {
    var st := db.store;
    var found := Find(st.products, ProductKey, id);
    if found.None? {
      return Err(FabricNotFound);
    }
    var referenced := Find(st.orders, OrderProduct, Some(id));
    if referenced.Some? {
      return Err(IntegrityError);
    }
    DeleteFabricKeepsConsistent(st, found.value);
    RemoveAtKeySet(st.products, ProductKey, found.value);
    db.store := st.(products := RemoveAt(st.products, found.value));
    r := Ok("Fabric deleted");
  }

  // ---------------------------------------------------------------- billing

  /** The sum of the truthy order amounts (`if o.amount: total_revenue += o.amount`). */
  function Revenue(orders: seq<Order>): real
    decreases |orders|
  {
    if orders == [] then 0.0
    else Revenue(orders[..|orders| - 1])
         + (if TruthyAmount(orders[|orders| - 1].amount) then orders[|orders| - 1].amount.value else 0.0)
  }

  datatype BillingInvoice = BillingInvoice(id: string, date: string, amount: int, status: string)

  datatype Billing = Billing(
    subscriptionPlan: string, nextBillingDate: string, amountDue: int, paymentMethod: string,
    invoices: seq<BillingInvoice>, totalOrdersProcessed: nat, totalRevenueProcessed: real)

  /** The fixed part of the billing summary. */
  const SubscriptionPlan := "Premium Enterprise"
  const NextBillingDate := "2026-02-01"
  const BillingPaymentMethod := "Visa ending in 4242"
  const BillingInvoices := [BillingInvoice("INV-001", "2026-01-01", 2999, "Paid"),
                            BillingInvoice("INV-002", "2025-12-01", 2999, "Paid")]

  /** `get_billing_info`: the order count and the running sum of the truthy amounts. */
  method GetBillingInfo(orders: seq<Order>) returns (b: Billing)
    ensures b.totalOrdersProcessed == |orders|
    ensures b.totalRevenueProcessed == Revenue(orders)
    ensures b.subscriptionPlan == SubscriptionPlan && b.amountDue == 0 && b.invoices == BillingInvoices
  {
    var totalRevenue := 0.0;
    for k := 0 to |orders|
      invariant totalRevenue == Revenue(orders[..k])
    {
      assert orders[..k + 1][..k] == orders[..k];
      var o := orders[k];
      if TruthyAmount(o.amount) {
        totalRevenue := totalRevenue + o.amount.value;
      }
    }
    assert orders[..|orders|] == orders;
    b := Billing(SubscriptionPlan, NextBillingDate, 0, BillingPaymentMethod, BillingInvoices,
                 |orders|, totalRevenue);
  }

  /** Because every order has exactly one Sale carrying `amount or 0`, the revenue on the
      billing page equals the revenue of the analytics summary. */
  lemma {:induction false} BillingMatchesAnalytics(sales: seq<Sale>, orders: seq<Order>)
    requires SalesTrackOrders(sales, orders)
    ensures Revenue(orders) == Total(sales)
    decreases |orders|
  {
    if orders != [] {
      var n := |orders| - 1;
      assert SaleOf(sales[n], orders[n]);
      BillingMatchesAnalytics(sales[..n], orders[..n]);
    }
  }

  // ---------------------------------------------------------------- employees

  /** The `EmployeeCreate` request body. */
  datatype EmployeeCreate = EmployeeCreate(
    name: string, email: Option<string>, phone: Option<string>, position: Option<string>,
    salary: Option<int>)

  /** The row `create_employee` inserts; `joined_date` takes its column default, now. */
  function NewEmployee(id: int, e: EmployeeCreate, now: Timestamp): Employee {
    Employee(id, e.name, e.email, e.phone, e.position, e.salary, now)
  }

  /** `update_employee` overwrites all five body fields and keeps the id and joining
      date: the result is the row `create_employee` would have made at that date. */
  lemma UpdateEmployeeIsOverwrite(row: Employee, e: EmployeeCreate)
    ensures row.(name := e.name, email := e.email, phone := e.phone, position := e.position,
                 salary := e.salary)
            == NewEmployee(row.id, e, row.joinedDate)
  {
  }

  lemma CreateEmployeeKeepsConsistent(st: Store, e: Employee)
    requires Consistent(st) && e.id == st.nextEmployeeId
    ensures Consistent(st.(employees := st.employees + [e], nextEmployeeId := st.nextEmployeeId + 1))
  {
    AppendFreshKey(st.employees, EmployeeKey, st.nextEmployeeId, e);
  }

  /** `create_employee`. */
  method CreateEmployee(db: Session, e: EmployeeCreate, now: Timestamp) returns (row: Employee)
    requires db.Valid()
    modifies db
    ensures db.Valid()
    ensures row == NewEmployee(old(db.store.nextEmployeeId), e, now)
    ensures row.id !in Keys(old(db.store.employees), EmployeeKey)
    ensures db.store == old(db.store).(employees := old(db.store.employees) + [row],
                                       nextEmployeeId := old(db.store.nextEmployeeId) + 1)
  {
    var st := db.store;
    row := NewEmployee(st.nextEmployeeId, e, now);
    CreateEmployeeKeepsConsistent(st, row);
    db.store := st.(employees := st.employees + [row], nextEmployeeId := st.nextEmployeeId + 1);
  }

  lemma ReplaceEmployeeKeepsConsistent(st: Store, i: nat, e: Employee)
    requires Consistent(st) && i < |st.employees| && e.id == st.employees[i].id
    ensures Consistent(st.(employees := st.employees[i := e]))
  {
    ReplaceKeepsKeys(st.employees, EmployeeKey, st.nextEmployeeId, i, e);
  }

  /** `update_employee`. */
  method UpdateEmployee(db: Session, id: int, e: EmployeeCreate) returns (r: Result<Employee>)
    requires db.Valid()
    modifies db
    ensures db.Valid()
    ensures r.Err? ==> r == Err(EmployeeNotFound) && db.store == old(db.store)
    ensures r.Ok? <==> id in Keys(old(db.store.employees), EmployeeKey)
    ensures r.Ok? ==>
      var st := old(db.store);
      var i := Find(st.employees, EmployeeKey, id).value;
      r.value == NewEmployee(id, e, st.employees[i].joinedDate)
      && db.store == st.(employees := st.employees[i := r.value])
  {
    var st := db.store;
    var found := Find(st.employees, EmployeeKey, id);
    if found.None? {
      return Err(EmployeeNotFound);
    }
    var i := found.value;
    var row := st.employees[i];
    row := row.(name := e.name);
    row := row.(email := e.email);
    row := row.(phone := e.phone);
    row := row.(position := e.position);
    row := row.(salary := e.salary);
    UpdateEmployeeIsOverwrite(st.employees[i], e);
    ReplaceEmployeeKeepsConsistent(st, i, row);
    db.store := st.(employees := st.employees[i := row]);
    r := Ok(row);
  }

  lemma DeleteEmployeeKeepsConsistent(st: Store, i: nat)
    requires Consistent(st) && i < |st.employees|
    ensures Consistent(st.(employees := RemoveAt(st.employees, i)))
    ensures Keys(RemoveAt(st.employees, i), EmployeeKey) == Keys(st.employees, EmployeeKey) - {st.employees[i].id}
  {
    RemoveAtKeys(st.employees, EmployeeKey, st.nextEmployeeId, i);
  }

  /** `delete_employee`. */
  method DeleteEmployee(db: Session, id: int) returns (r: Result<string>)
    requires db.Valid()
    modifies db
    ensures db.Valid()
    ensures r.Err? ==> r == Err(EmployeeNotFound) && db.store == old(db.store)
    ensures r.Ok? <==> id in Keys(old(db.store.employees), EmployeeKey)
    ensures r.Ok? ==>
      var st := old(db.store);
      r.value == "Employee deleted"
      && db.store == st.(employees := RemoveAt(st.employees, Find(st.employees, EmployeeKey, id).value))
      && Keys(db.store.employees, EmployeeKey) == Keys(st.employees, EmployeeKey) - {id}
  {
    var st := db.store;
    var found := Find(st.employees, EmployeeKey, id);
    if found.None? {
      return Err(EmployeeNotFound);
    }
    DeleteEmployeeKeepsConsistent(st, found.value);
    db.store := st.(employees := RemoveAt(st.employees, found.value));
    r := Ok("Employee deleted");
  }
}
