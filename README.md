# BIM Mills shop and back office, modelled in Dafny

This project models the logic of a textile shop and its admin back office. The shop has a
React frontend and a FastAPI/SQLAlchemy backend. The model covers:

- **The database.** Every table of the schema is a sequence of records. An auto-increment
  counter gives each primary key, and the declared unique columns and foreign keys are
  invariants (`Models.Consistent`). One more invariant is that `create_order` writes
  exactly one Sale per order. The routers' endpoints are methods on one `Models.Session`.
  Each endpoint states the whole new store and keeps it consistent.
- **The routers.**
  - Orders: checkout, cancellation requests, and deletion together with the order's Sales.
  - Invoices: arithmetic, defaults and status overwrite.
  - Vendors and vendor payments: partial updates, defaults and the status filter.
  - Sales analytics: totals and group-by-day.
  - The admin CRUD: full overwrites and the billing sum.
  - The shop's product mapping and catalogue.
  - User and admin registration and login.
  - The startup migration and catalogue seeding.
- **The request schemas.** Length bounds, password rules and phone normalisation.
- **The frontend.**
  - The shop cart and checkout.
  - The admin analytics board: refresh counter, payment save, order ranking, invoice
    eligibility, invoice e-mail and statistics.
  - The enquiry dashboard: search, sort, paging, selection, single and bulk delete, and
    CSV export.
  - The customer's cancel-order page.
  - The customer enquiry call.

Shared building blocks:

- `Common`: option and result types, and the HTTP errors.
- `Strings`: JavaScript and Python string primitives.
- `Tables`: filters, lookups and keys over record sequences.
- `Sorting`: a stable insertion sort, with its sortedness, permutation and idempotence
  proved.

Conventions:

- Amounts are exact `real`s, and cart values are integers.
- Times are integer time stamps.
- Random UUIDs, the clock, password hashing and token signing are parameters.

## Model

| member | source | states |
|---|---|---|
| UserSchemas.StrongPasswordRule | backend/backend/user/schemas.py:10-18 | the validator accepts a password iff it has 8 or more characters, a digit and an uppercase letter; otherwise it names the first rule broken |
| UserSchemas.Bounded | backend/backend/user/schemas.py:5-6 | a `min_length`/`max_length` field passes iff its length lies within the bounds, and every problem names that field |
| UserSchemas.EmailField | backend/backend/user/schemas.py:7 | an `EmailStr` field passes iff the outside e-mail check accepts it |
| UserSchemas.UserPasswordProblems | backend/backend/user/schemas.py:8-18 | the `UserCreate` password passes iff it has length at least 8, a digit and an uppercase letter; it reports at most one problem |
| UserSchemas.ValidatorLengthRuleUnreachable | backend/backend/user/schemas.py:12-13 | the validator's own length message never appears, because `min_length=8` refuses such passwords first |
| UserSchemas.FieldsOf | backend/backend/user/schemas.py:4-8 | a 422 response lists one failing field per problem, in order |
| UserSchemas.Validated | backend/backend/user/schemas.py:4-35 | the body handed in is accepted iff it has no problem; otherwise the request fails with 422 naming the failing fields |
| UserSchemas.UserCreateProblems | backend/backend/user/schemas.py:4-18 | `UserCreate` has no problem iff name is 3..50 characters, phone 10..12, the e-mail passes and the password rules hold |
| UserSchemas.ValidateUserCreate | backend/backend/user/schemas.py:4-18 | `UserCreate` is accepted iff it has no problem, and then carries `EmailStr`'s normalised address with every other field as sent |
| UserSchemas.ValidateUserLogin | backend/backend/user/schemas.py:21-23 | `UserLogin` is accepted iff the e-mail passes and the password has at least 8 characters, and then carries the normalised address and the password as sent |
| UserSchemas.NormalizePhone | backend/backend/user/schemas.py:33-35 | a text phone is kept as it is; a number becomes its decimal string, which parses back to the number |
| UserSchemas.NormalizePhoneInjective | backend/backend/user/schemas.py:33-35 | two numeric phones with the same string are equal |
| UserSchemas.EnquiryProblems | backend/backend/user/schemas.py:26-31 | an enquiry has no problem iff name is 3..100 characters, the e-mail passes and message is 10..1000 characters; company and phone are never refused |
| UserSchemas.ValidateEnquiry | backend/backend/user/schemas.py:26-35 | an enquiry is accepted iff it has no problem, and then carries the normalised phone, the normalised address and the name, company and message as sent |
| AuthSchemas.AdminPasswordRule | backend/backend/auth/schemas.py:7-13 | the admin validator accepts iff the password has a digit and an uppercase letter, and otherwise names the missing one |
| AuthSchemas.AdminPasswordProblems | backend/backend/auth/schemas.py:5-13 | the `AdminCreate` password passes iff it has length at least 8, a digit and an uppercase letter |
| AuthSchemas.SamePasswordRules | backend/backend/auth/schemas.py:5-13 | admin and user passwords are refused for the same reasons, with the same messages |
| AuthSchemas.ValidateAdminCreate | backend/backend/auth/schemas.py:3-13 | `AdminCreate` is accepted iff the e-mail passes and the password rules hold, and then carries the normalised address and the password as sent |
| AuthSchemas.ValidateLoginAdmin | backend/backend/auth/schemas.py:16-18 | `LoginAdminSchema` is accepted iff the e-mail passes and the password has at least 8 characters, and then carries the normalised address and the password as sent |
| Models.TxnPrefix | backend/backend/orders/orders_router.py:74 | the transaction id of order `id` starts with `TXN-`, and the decimal id is followed by `-` |
| Models.TxnForUnique | backend/backend/orders/orders_router.py:74 | a transaction id names at most one order |
| Models.TransactionIdsDistinct | backend/backend/models.py:82 | with one Sale per order, the Sales of distinct orders have distinct `transaction_id`s, so the unique column never refuses checkout |
| Models.DocumentNumber | backend/backend/payments/invoice_router.py:69 | an invoice or payment number is the prefix, the day, a dash and up to eight UUID characters, none of them lower case |
| Models.EmptyStoreConsistent | backend/backend/models.py:12-157 | empty tables satisfy every primary key, unique column and foreign key |
| Models.Session.constructor | backend/backend/models.py:12-157 | a new session holds empty tables, which are consistent |
| Models.OrderAppended | backend/backend/orders/orders_router.py:53-81 | appending an order whose references resolve, with its Sale, keeps the foreign keys and the one-Sale-per-order pairing |
| Models.OrderRemoved | backend/backend/orders/orders_router.py:191-196 | removing an order that no invoice refers to, with its Sale, keeps the foreign keys and the pairing |
| Models.OrderBookAppend | backend/backend/orders/orders_router.py:68-81 | the orders, sales and invoices stay valid after checkout's insert under the next ids |
| Models.OrderBookRemove | backend/backend/orders/orders_router.py:191-196 | the orders, sales and invoices stay valid after an order and its Sale are deleted |
| Models.OrderBookFlag | backend/backend/orders/orders_router.py:163-165 | the orders, sales and invoices stay valid when an order is flagged for cancellation |
| OrdersRouter.View | backend/backend/orders/orders_router.py:112-126 | an order's view keeps its id and its `cancellation_requested` |
| OrdersRouter.NewestFirstTotal | backend/backend/orders/orders_router.py:111 | `created_at DESC` is a total preorder, so sorting by it is well defined |
| OrdersRouter.NewSale | backend/backend/orders/orders_router.py:72-78 | the Sale written for order `id` carries a transaction id that names that order |
| OrdersRouter.CreateOrderKeepsConsistent | backend/backend/orders/orders_router.py:53-81 | inserting the new order and its one Sale keeps the database consistent |
| OrdersRouter.CreateOrder | backend/backend/orders/orders_router.py:40-105 | an unknown truthy `readymade_product_id` gives 404 and no change; otherwise it appends exactly one order and its one Sale with `amount or 0`, and schedules a mail iff `user_email` is truthy |
| OrdersRouter.GetAllOrders | backend/backend/orders/orders_router.py:108-126 | the views are a permutation of the orders' views (each order's view as often as the order), newest `created_at` first, with the cancellation flag |
| OrdersRouter.ProjectInsert | backend/backend/orders/orders_router.py:111-126 | viewing a list after an insertion adds exactly the inserted row's view |
| OrdersRouter.ProjectSortBy | backend/backend/orders/orders_router.py:111-126 | viewing the sorted rows gives a permutation of the views of the rows as stored |
| OrdersRouter.GetOrder | backend/backend/orders/orders_router.py:129-147 | an unknown id gives 404 "Order not found"; otherwise the result is that order's view |
| OrdersRouter.Flagged | backend/backend/orders/orders_router.py:164 | flagging sets `cancellation_requested` to 1 and keeps the id |
| OrdersRouter.CancellationKeepsConsistent | backend/backend/orders/orders_router.py:163-165 | flagging an order keeps the database consistent |
| OrdersRouter.RequestCancellation | backend/backend/orders/orders_router.py:152-172 | an unknown id gives 404; otherwise a stored e-mail that differs gives 403; otherwise only that order's flag becomes 1 |
| OrdersRouter.CancellationIdempotent | backend/backend/orders/orders_router.py:163-165 | a second cancellation request changes nothing |
| OrdersRouter.SalesOfOrderRemoved | backend/backend/orders/orders_router.py:191-192 | with one Sale per order, deleting the Sales of an order removes exactly its one Sale |
| OrdersRouter.DeleteOrderKeepsConsistent | backend/backend/orders/orders_router.py:191-196 | deleting an uninvoiced order with its Sale keeps the database consistent |
| OrdersRouter.DeleteOrder | backend/backend/orders/orders_router.py:174-208 | an unknown id gives 404; otherwise it removes that order and every Sale of it and leaves the rest; the response carries the details captured before deletion |
| InvoiceRouter.InvoiceTotals | backend/backend/payments/invoice_router.py:63-66 | subtotal is `amount or 0`; total = subtotal × (100 + rate)/100; tax = total − subtotal; the total is at least the subtotal for non-negative inputs |
| InvoiceRouter.InvoiceAtEighteenPercent | backend/backend/payments/invoice_router.py:63-66 | a worked illustration of `InvoiceTotals`: 1000 at 18% gives tax 180 and total 1180 |
| InvoiceRouter.InvoiceDefaults | backend/backend/payments/invoice_router.py:75-86 | the customer name is never empty and is "Guest Customer" without a user name; a missing status becomes "Pending", unlike the column default "Paid" |
| InvoiceRouter.GenerateKeepsConsistent | backend/backend/payments/invoice_router.py:93-95 | appending an invoice for an existing order, with a fresh number, keeps the database consistent |
| InvoiceRouter.GenerateInvoice | backend/backend/payments/invoice_router.py:54-97 | an unknown order gives 404 and no change; otherwise it appends exactly the computed invoice, unless its number clashes |
| InvoiceRouter.RepeatedInvoicesAccepted | backend/backend/payments/invoice_router.py:54-97 | an order that already has invoices gets one more |
| InvoiceRouter.ListInvoices | backend/backend/payments/invoice_router.py:100-104 | the result is exactly the window `skip`..`skip+limit` of the invoices sorted newest first, so its length is `min(limit, invoices - skip)` (0 when `skip` is past the end); newest first; all from the table |
| InvoiceRouter.GetInvoice | backend/backend/payments/invoice_router.py:107-113 | an unknown id gives 404 "Invoice not found"; otherwise the invoice with that id |
| InvoiceRouter.InvoicesOfOrder | backend/backend/payments/invoice_router.py:116-120 | exactly the invoices with that `order_id`, each as often as the table holds it and no other |
| InvoiceRouter.InvoicesOfOrderInTableOrder | backend/backend/payments/invoice_router.py:116-120 | the order's invoices come in table order: those of a later part of the table follow those of an earlier part |
| InvoiceRouter.StatusKeepsConsistent | backend/backend/payments/invoice_router.py:130-131 | overwriting a status keeps every key, unique number and reference |
| InvoiceRouter.UpdateInvoiceStatus | backend/backend/payments/invoice_router.py:123-134 | an unknown id gives 404 and no change; otherwise any string replaces `payment_status` and nothing else changes |
| VendorRouter.NewVendorCarriesFields | backend/backend/payments/vendor_router.py:67-74 | the created vendor carries every field of the request, the next id and the creation time |
| VendorRouter.PatchedFieldwise | backend/backend/payments/vendor_router.py:100-102 | after the `setattr` loop, a column takes the value last sent for it and every column not sent keeps its value |
| VendorRouter.ReplaceVendorKeepsConsistent | backend/backend/payments/vendor_router.py:104 | replacing a vendor row by one with the same id keeps the database consistent |
| VendorRouter.CreateVendorKeepsConsistent | backend/backend/payments/vendor_router.py:71-72 | appending a vendor under the next id keeps the database consistent |
| VendorRouter.DeleteVendorKeepsConsistent | backend/backend/payments/vendor_router.py:116-117 | deleting a vendor that no payment refers to keeps the database consistent |
| VendorRouter.CreateVendor | backend/backend/payments/vendor_router.py:67-74 | exactly one vendor is appended, with a fresh id and every provided field |
| VendorRouter.ListVendors | backend/backend/payments/vendor_router.py:77-81 | the result is exactly the window `skip`..`skip+limit` of the vendors sorted by newest `created_at`, so its length is `min(limit, vendors - skip)` (0 when `skip` is past the end); all from the table |
| VendorRouter.GetVendor | backend/backend/payments/vendor_router.py:84-90 | an unknown id gives 404 "Vendor not found"; otherwise the vendor with that id |
| VendorRouter.UpdateVendor | backend/backend/payments/vendor_router.py:93-106 | an unknown id gives 404 and no change; otherwise only that row changes, to the patched draft (a null name is refused and changes nothing) |
| VendorRouter.DeleteVendor | backend/backend/payments/vendor_router.py:109-118 | an unknown id gives 404; otherwise that vendor alone is removed, unless payments still refer to it |
| VendorPaymentRouter.NewPaymentDefaults | backend/backend/payments/vendor_payment_router.py:72-84 | a new payment always has a non-empty status ("Pending" unless one was sent) and a payment date (now unless one was sent) |
| VendorPaymentRouter.Info | backend/backend/payments/vendor_payment_router.py:138 | the `vendor` summary is None exactly when the vendor row is missing |
| VendorPaymentRouter.CreatePaymentKeepsConsistent | backend/backend/payments/vendor_payment_router.py:86-88 | appending a payment for an existing vendor under the next id and a fresh number keeps the database consistent |
| VendorPaymentRouter.CreatePayment | backend/backend/payments/vendor_payment_router.py:60-110 | an unknown vendor gives 404 and no change; otherwise exactly one payment numbered `VP-<day>-<UUID prefix>` is appended, unless the number clashes |
| VendorPaymentRouter.LaterPaidTotal | backend/backend/payments/vendor_payment_router.py:119 | `payment_date DESC` is a total preorder |
| VendorPaymentRouter.WithStatus | backend/backend/payments/vendor_payment_router.py:116-118 | with a truthy status, exactly the payments with that status, each as often as the table holds it and no other; otherwise all of them |
| VendorPaymentRouter.PaymentPage | backend/backend/payments/vendor_payment_router.py:116-119 | the page is exactly the window `skip`..`skip+limit` of the status-filtered payments sorted latest payment date first, of length `min(limit, filtered - skip)`; all from the table, all with the filtered status |
| VendorPaymentRouter.RenderAll | backend/backend/payments/vendor_payment_router.py:121-142 | the response loop succeeds iff every row can be rendered, and then renders each row with its vendor summary, in order |
| VendorPaymentRouter.ListPayments | backend/backend/payments/vendor_payment_router.py:113-142 | the list is the page of filtered and sorted payments (the exact window above), each with its vendor summary |
| VendorPaymentRouter.GetPayment | backend/backend/payments/vendor_payment_router.py:145-168 | an unknown id gives 404 "Vendor payment not found"; otherwise the first row with that id is returned as its view with its vendor's summary when it is renderable, and a response validation error when it is not |
| VendorPaymentRouter.PaymentsOfVendor | backend/backend/payments/vendor_payment_router.py:220 | exactly that vendor's payments, each as often as the table holds it and no other, latest payment date first |
| VendorPaymentRouter.PaymentsByVendor | backend/backend/payments/vendor_payment_router.py:217-243 | the response renders exactly that vendor's payments, in order |
| VendorPaymentRouter.PatchedIsOverwrite | backend/backend/payments/vendor_payment_router.py:178-181 | the `setattr` loop equals overwriting exactly the columns sent, with the last value sent for each |
| VendorPaymentRouter.ApplyOverwrite | backend/backend/payments/vendor_payment_router.py:180-181 | one more `setattr` on an overwritten row is one more recorded column |
| VendorPaymentRouter.UpdateKeepsIdentity | backend/backend/payments/vendor_payment_router.py:27-36 | an update never changes the id, vendor, number or creation time, and an unsent status or amount is kept |
| VendorPaymentRouter.ReplacePaymentKeepsConsistent | backend/backend/payments/vendor_payment_router.py:183 | replacing a payment by one with the same id, vendor and number keeps the database consistent |
| VendorPaymentRouter.UpdatePayment | backend/backend/payments/vendor_payment_router.py:171-202 | an unknown id gives 404 and no change; otherwise only that payment changes, to the patched row |
| VendorPaymentRouter.DeletePaymentKeepsConsistent | backend/backend/payments/vendor_payment_router.py:212-213 | deleting a payment keeps the database consistent |
| VendorPaymentRouter.DeletePayment | backend/backend/payments/vendor_payment_router.py:205-214 | an unknown id gives 404 and no change; otherwise that payment alone is removed |
| SalesRouter.GetAnalytics | backend/backend/sales/sales_router.py:9-35 | `total_orders` is the number of orders; with no sales the revenue is 0 and there are no day groups |
| SalesRouter.SumOfAppend | backend/backend/sales/sales_router.py:20-28 | the sum over the day groups grows by the amount of an appended group |
| SalesRouter.SumOfUpdate | backend/backend/sales/sales_router.py:20-28 | changing one group's amount changes the sum by exactly the difference |
| SalesRouter.AddToSum | backend/backend/sales/sales_router.py:20-23 | adding a sale to the groups adds its amount to their sum |
| SalesRouter.ByDayAddsUp | backend/backend/sales/sales_router.py:14-28 | the `sales_by_day` amounts add up to `total_revenue` |
| SalesRouter.AddToGroups | backend/backend/sales/sales_router.py:20-23 | adding a sale grows only its day's group, and a new group appears only for a day not yet seen |
| SalesRouter.ByDayGroups | backend/backend/sales/sales_router.py:20-28 | `GROUP BY day` gives one group per distinct day, whose amount is the sum of that day's sales |
| SalesRouter.DaySumAbsent | backend/backend/sales/sales_router.py:20-23 | a day with no sale sums to 0 |
| SalesRouter.AllSales | backend/backend/sales/sales_router.py:37-51 | every sale is returned once, newest date first |
| ShopRouter.ShopView | backend/backend/shop/shop_router.py:23-33 | the shop item keeps id and name, gets a quantity of "1 unit" and a quality of "Standard" when those are empty, and a price of `int(price)` or 0 |
| ShopRouter.GetReadymadeProducts | backend/backend/shop/shop_router.py:19-33 | one item per product, in table order: item `i` is the shop view of row `i`, never with an empty quantity or quality |
| ShopRouter.GetReadymadeProduct | backend/backend/shop/shop_router.py:36-50 | a missing product gives the body `{"error": "Product not found"}` instead of an HTTP error; otherwise that product's item |
| ShopRouter.CreatedProductInShop | backend/backend/shop/shop_router.py:27-29 | a product the admin creates is shown under its name at the price it was given |
| ShopRouter.Features | backend/backend/shop/shop_router.py:65 | empty or null features give `[]`; otherwise pieces without commas that join back, with ",", to the stored string |
| ShopRouter.FeaturesRoundTrip | backend/backend/shop/shop_router.py:65 | features stored comma-joined come back as the list they were joined from |
| ShopRouter.CatalogueView | backend/backend/shop/shop_router.py:60-68 | `title` is the name and `desc` the description; category, image and file are copied |
| ShopRouter.GetCatalogueProducts | backend/backend/shop/shop_router.py:55-70 | one item per fabric, in table order: item `i` is the catalogue view of row `i`, with its features split |
| AdminRouter.GetEnquiries | backend/backend/admin/admin_router.py:11-18 | every enquiry is returned once, newest `created_at` first |
| AdminRouter.DeleteEnquiryKeepsConsistent | backend/backend/admin/admin_router.py:26-27 | deleting an enquiry keeps the database consistent and removes exactly its id |
| AdminRouter.DeleteEnquiry | backend/backend/admin/admin_router.py:19-29 | an unknown id gives 404 and no change; otherwise exactly that enquiry is removed |
| AdminRouter.CreateProductDropsExtras | backend/backend/admin/admin_router.py:62-74 | `image` and `collection` do not affect the stored row, which keeps the price it was given |
| AdminRouter.CreateReadymadeKeepsConsistent | backend/backend/admin/admin_router.py:71-72 | appending a product under the next id keeps the database consistent |
| AdminRouter.CreateProduct | backend/backend/admin/admin_router.py:62-74 | exactly one product is appended, with a fresh id and only name, quantity, quality and price |
| AdminRouter.UpdateProductIsOverwrite | backend/backend/admin/admin_router.py:82-85 | the four assignments give the row `create_product` makes from the same body under that id |
| AdminRouter.ReplaceReadymadeKeepsConsistent | backend/backend/admin/admin_router.py:88 | replacing a product by one with the same id keeps the database consistent |
| AdminRouter.UpdateProduct | backend/backend/admin/admin_router.py:76-89 | an unknown id gives 404 and no change; otherwise only that row changes, in exactly the four fields |
| AdminRouter.DeleteReadymadeKeepsConsistent | backend/backend/admin/admin_router.py:96-97 | deleting a product that no order refers to keeps the database consistent |
| AdminRouter.DeleteProduct | backend/backend/admin/admin_router.py:91-98 | an unknown id gives 404; otherwise that product alone is removed, unless an order still refers to it |
| AdminRouter.NewFabricInjective | backend/backend/admin/admin_router.py:118-135 | the created fabric row determines the body it came from: nothing sent is lost |
| AdminRouter.UpdateFabricIsOverwrite | backend/backend/admin/admin_router.py:143-151 | the nine assignments give the row `create_fabric` makes from the same body: a full overwrite |
| AdminRouter.CreateFabricKeepsConsistent | backend/backend/admin/admin_router.py:132-133 | appending a fabric under the next id keeps the database consistent |
| AdminRouter.CreateFabric | backend/backend/admin/admin_router.py:118-135 | exactly one fabric is appended, with a fresh id and every field of the body |
| AdminRouter.ReplaceFabricKeepsConsistent | backend/backend/admin/admin_router.py:153 | replacing a fabric by one with the same id keeps the database consistent |
| AdminRouter.UpdateFabric | backend/backend/admin/admin_router.py:137-154 | an unknown id gives 404 and no change; otherwise only that row changes, to the overwritten row |
| AdminRouter.DeleteFabricKeepsConsistent | backend/backend/admin/admin_router.py:161-162 | deleting a fabric that no order refers to keeps the database consistent |
| AdminRouter.DeleteFabric | backend/backend/admin/admin_router.py:156-163 | an unknown id gives 404; otherwise that fabric alone is removed, unless an order still refers to it |
| AdminRouter.GetBillingInfo | backend/backend/admin/admin_router.py:168-191 | the loop's result is the order count and the sum of the truthy order amounts, with the fixed plan fields |
| AdminRouter.BillingMatchesAnalytics | backend/backend/admin/admin_router.py:172-176 | with one Sale per order carrying `amount or 0`, the billing revenue equals the analytics revenue |
| AdminRouter.UpdateEmployeeIsOverwrite | backend/backend/admin/admin_router.py:227-231 | the five assignments give the row `create_employee` makes from the same body at the same joining date |
| AdminRouter.CreateEmployeeKeepsConsistent | backend/backend/admin/admin_router.py:216-217 | appending an employee under the next id keeps the database consistent |
| AdminRouter.CreateEmployee | backend/backend/admin/admin_router.py:207-219 | exactly one employee is appended, with a fresh id and every field of the body |
| AdminRouter.ReplaceEmployeeKeepsConsistent | backend/backend/admin/admin_router.py:233 | replacing an employee by one with the same id keeps the database consistent |
| AdminRouter.UpdateEmployee | backend/backend/admin/admin_router.py:221-234 | an unknown id gives 404 and no change; otherwise only that row changes, to the overwritten row |
| AdminRouter.DeleteEmployeeKeepsConsistent | backend/backend/admin/admin_router.py:241-242 | deleting an employee keeps the database consistent and removes exactly its id |
| AdminRouter.DeleteEmployee | backend/backend/admin/admin_router.py:236-243 | an unknown id gives 404 and no change; otherwise exactly that employee is removed |
| UserRouter.RegisterUserKeepsConsistent | backend/backend/user/user_router.py:36-37 | a new user with an unused e-mail under the next id keeps the database consistent |
| UserRouter.RegisterUser | backend/backend/user/user_router.py:21-38 | a registered e-mail gives 400 "Email already registered" and no change; otherwise exactly one user is added, with the hashed password |
| UserRouter.LoginUser | backend/backend/user/user_router.py:42-53 | an unknown e-mail or a failed hash check gives 401; success is a bearer token with sub = the e-mail and role "user" |
| UserRouter.LoginUserIff | backend/backend/user/user_router.py:44-50 | with unique e-mails, login succeeds iff a user with that e-mail has a stored hash that verifies |
| UserRouter.RegisterThenLogin | backend/backend/user/user_router.py:29-53 | a user who has just registered can log in with the same password |
| UserRouter.SubmitEnquiryKeepsConsistent | backend/backend/user/user_router.py:63-66 | adding an enquiry under the next id keeps the database consistent |
| UserRouter.SubmitEnquiry | backend/backend/user/user_router.py:57-85 | exactly one enquiry is added with every submitted field, and two mails are scheduled: to the sender and to the admin address |
| AuthRouter.RegisterAdminKeepsConsistent | backend/backend/auth/auth_router.py:26-27 | a new admin with an unused e-mail under the next id keeps the database consistent |
| AuthRouter.RegisterAdmin | backend/backend/auth/auth_router.py:13-28 | an existing admin e-mail gives 400 "Admin already exists" and no change; otherwise exactly one admin is added, with the hashed password |
| AuthRouter.LoginAdminUser | backend/backend/auth/auth_router.py:31-49 | an unknown e-mail or a failed hash check gives 401; success is a bearer token with sub = the e-mail and role "admin" |
| AuthRouter.LoginAdminIff | backend/backend/auth/auth_router.py:33-39 | with unique e-mails, login succeeds iff an admin with that e-mail has a stored hash that verifies |
| AuthRouter.RegisterThenLoginAdmin | backend/backend/auth/auth_router.py:21-44 | an admin who has just registered can log in with the same password |
| Startup.Missing | backend/backend/main.py:36-44 | the checked columns the table lacks are exactly image, file, category and features minus those present |
| Startup.FreshTableNeedsNoMigration | backend/backend/main.py:28-44 | a table made by `create_all` needs no column added |
| Startup.AddMissingColumns | backend/backend/main.py:42-47 | the loop alters exactly the missing columns, in order, and afterwards the table has all four |
| Startup.MigrateColumns | backend/backend/main.py:35-48 | the migration adds the missing columns and changes nothing else |
| Startup.MigrationIdempotent | backend/backend/main.py:42-47 | a second migration adds nothing |
| Startup.SeededShape | backend/backend/main.py:110-126 | seeding keeps the existing products in front, gives every entry's title a product, and adds only rows with price 0, "In Stock", "Premium" and a name not there before |
| Startup.SeedNothingNew | backend/backend/main.py:112-113 | when every title is already a product name, seeding changes nothing |
| Startup.SeedIdempotent | backend/backend/main.py:110-127 | seeding twice adds nothing the second time |
| Startup.SeedCatalogue | backend/backend/main.py:110-127 | the seeding loop leaves the products the seeding function gives, and nothing else changes |
| Startup.RunMigrations | backend/backend/main.py:32-128 | startup adds the missing columns, then seeds the six catalogue entries |
| ShopCart.MinOrder | frontend/src/pages/Shop.jsx:58 | the order step is never 0: NaN and 0 fall back to 50 |
| ShopCart.MinOrderOfLeadingNumber | frontend/src/pages/Shop.jsx:58 | a quantity that starts with a non-zero integer and a space orders in steps of that integer |
| ShopCart.PagePrice | frontend/src/pages/Shop.jsx:59 | an integer price comes through the parse-or-0 default unchanged |
| ShopCart.FromShopItem | frontend/src/pages/Shop.jsx:56-61 | a fetched product keeps its id, name and price, and gets a non-zero order step |
| ShopCart.LoadProducts | frontend/src/pages/Shop.jsx:43-75 | a failed fetch shows the fallback products; otherwise one product per fetched item, with its id and price |
| ShopCart.AddToCart | frontend/src/pages/Shop.jsx:133-144 | after adding, the cart's product ids are the old ones plus the product's |
| ShopCart.AddExisting | frontend/src/pages/Shop.jsx:134-140 | on a product already in the cart, only its line grows, by exactly `minOrder` |
| ShopCart.AddNew | frontend/src/pages/Shop.jsx:141-143 | on a new product exactly one line with `minOrder` pieces is appended, and the ids stay distinct |
| ShopCart.UpdateQuantity | frontend/src/pages/Shop.jsx:146-152 | the matching lines never fall below their minimum, and every other line is unchanged |
| ShopCart.UpdateOne | frontend/src/pages/Shop.jsx:146-152 | with one line per product, exactly that line becomes `max(minOrder, quantity + delta)` |
| ShopCart.RemoveFromCart | frontend/src/pages/Shop.jsx:154-156 | no line with that id remains, and every other line is kept |
| ShopCart.RemoveOne | frontend/src/pages/Shop.jsx:154-156 | with one line per product, removing deletes that one line and keeps the rest in order |
| ShopCart.AddKeepsValid | frontend/src/pages/Shop.jsx:133-144 | adding keeps one line per product, none below its minimum |
| ShopCart.UpdateKeepsValid | frontend/src/pages/Shop.jsx:146-152 | changing a quantity keeps the cart valid |
| ShopCart.RemoveKeepsValid | frontend/src/pages/Shop.jsx:154-156 | removing keeps the cart valid |
| ShopCart.TotalsOfUpdate | frontend/src/pages/Shop.jsx:158-159 | changing one line's quantity by `d` moves `cartTotal` by price × d and `cartCount` by d |
| ShopCart.TotalsOfAppend | frontend/src/pages/Shop.jsx:158-159 | appending a line adds its value and its quantity to the totals |
| ShopCart.TotalsOfAdd | frontend/src/pages/Shop.jsx:133-159 | adding a product adds `minOrder` pieces at its price to the totals |
| ShopCart.CheckoutPayload | frontend/src/pages/Shop.jsx:92-107 | the order has amount = cart total, the decimal string of the cart count as quantity (which parses back to it), the "name (xQ)" labels joined by ", ", the first line's id or null, "Multiple Items" and the form fields |
| ShopCart.CheckoutReachesSales | frontend/src/pages/Shop.jsx:92-110 | the Sale the server writes for a checkout's order carries the cart total |
| ShopCart.ShopPage.constructor | frontend/src/pages/Shop.jsx:30-40 | the page starts with an empty cart, no step, an empty form and no order id |
| ShopCart.ShopPage.HandleCheckout | frontend/src/pages/Shop.jsx:81-131 | with a field missing nothing is sent and the cart is kept; otherwise it sends the combined payload, and a reply with an id empties the cart, resets the form and shows success; loading ends either way |
| AdminBoard.SumByUpdate | frontend/src/admin/AdminAnalyticsBoard.jsx:1902-1903 | replacing one element changes a reduce-sum by the difference of the old and new summands |
| AdminBoard.SumOfWhere | frontend/src/admin/AdminAnalyticsBoard.jsx:1902-1903 | summing a filtered list equals summing the whole list with the filtered-out elements counted as 0 |
| AdminBoard.RefreshKeyProp | frontend/src/admin/AdminAnalyticsBoard.jsx:78-85 | a view that receives the refresh key receives exactly the board's current key |
| AdminBoard.OnlyVendorPaymentsSeeRefresh | frontend/src/admin/AdminAnalyticsBoard.jsx:78-85 | two keys give the same props to a tab iff the tab is not the vendor-payments view or the keys are equal |
| AdminBoard.CreatingNeverRefreshes | frontend/src/admin/AdminAnalyticsBoard.jsx:1884-1886 | saving a new payment never counts as a transition to Paid, whatever status the form holds |
| AdminBoard.AdminBoard.constructor | frontend/src/admin/AdminAnalyticsBoard.jsx:48 | the refresh key starts at 0, no fetch has happened, the payment dialog is closed with an empty form |
| AdminBoard.AdminBoard.TriggerGlobalRefresh | frontend/src/admin/AdminAnalyticsBoard.jsx:50-51 | the key goes up by one and the vendor-payments view fetches once more; nothing else changes |
| AdminBoard.AdminBoard.HandlePaymentSubmit | frontend/src/admin/AdminAnalyticsBoard.jsx:1868-1898 | a PUT for the payment being edited and a POST otherwise; on failure only an alert; on success the dialog closes, the form resets, the view refetches, and the key moves (by one) exactly when an edit moved a non-Paid payment to Paid |
| AdminBoard.MarkPaidMovesAmount | frontend/src/admin/AdminAnalyticsBoard.jsx:1902-1903 | marking a Pending payment Paid lowers the pending total and raises the paid total by its amount |
| AdminBoard.RankedBeforeTotal | frontend/src/admin/AdminAnalyticsBoard.jsx:340-345 | the order-table comparator (flagged first, then higher id first) is a total preorder |
| AdminBoard.OrderTable | frontend/src/admin/AdminAnalyticsBoard.jsx:340-345 | the first `min(orders, 20)` orders of the ranking: flagged orders precede unflagged ones, and within each group ids descend |
| AdminBoard.OrderTableShowsTopRanked | frontend/src/admin/AdminAnalyticsBoard.jsx:340-345 | an order left out of the table ranks after every order shown |
| AdminBoard.CancellationRequests | frontend/src/admin/AdminAnalyticsBoard.jsx:205 | exactly the orders flagged for cancellation, each as often as the list holds it and no other |
| AdminBoard.CancellationRequestsInListOrder | frontend/src/admin/AdminAnalyticsBoard.jsx:205 | the flagged orders keep list order: those of a later part of the list follow those of an earlier part |
| AdminBoard.WhereInsertLength | frontend/src/admin/AdminAnalyticsBoard.jsx:340-345 | inserting into a sorted list adds one to the count of elements meeting a condition exactly when the new element meets it |
| AdminBoard.WhereSortLength | frontend/src/admin/AdminAnalyticsBoard.jsx:340-345 | sorting keeps the number of elements meeting a condition |
| AdminBoard.WherePrefixLength | frontend/src/admin/AdminAnalyticsBoard.jsx:340-345 | a list whose first m elements meet a condition has at least m such elements |
| AdminBoard.RequestsAllShown | frontend/src/admin/AdminAnalyticsBoard.jsx:340-345 | when at most 20 orders are flagged, every flagged order appears in the table (the proof is `FewFlaggedAllShown`) |
| AdminBoard.FewFlaggedAllShown | frontend/src/admin/AdminAnalyticsBoard.jsx:340-345 | the same fact over the flag filter: with at most 20 flagged orders, a flagged order ranks within the first 20 |
| AdminBoard.Dashboard.constructor | frontend/src/admin/AdminAnalyticsBoard.jsx:145-151 | the dashboard starts with no orders, no pending confirmation, no delete in progress and no fetch |
| AdminBoard.Dashboard.RenderOrderTable | frontend/src/admin/AdminAnalyticsBoard.jsx:340-345 | the state list is sorted in place by the table comparator and the rows shown are the ranked table |
| AdminBoard.Dashboard.HandleDeleteOrder | frontend/src/admin/AdminAnalyticsBoard.jsx:176-202 | without a pending confirmation nothing happens; a successful delete drops that id from the local list, shows the notice and refetches; a failed one alerts and closes the dialog; the spinner ends either way |
| AdminBoard.Dashboard.DeleteNoticeExpires | frontend/src/admin/AdminAnalyticsBoard.jsx:187-190 | the timer closes the dialog and hides the notice, changing nothing else |
| AdminBoard.LocalDeleteRemovesOne | frontend/src/admin/AdminAnalyticsBoard.jsx:184 | with distinct ids the local filter removes exactly the chosen order, and the flagged list loses only that order |
| AdminBoard.InvoiceChoices | frontend/src/admin/AdminAnalyticsBoard.jsx:1560 | an order is offered iff it is listed, has a non-zero amount and no invoice refers to it |
| AdminBoard.InvoicedOrderLeavesChoices | frontend/src/admin/AdminAnalyticsBoard.jsx:1560 | after one more invoice the choices are the old ones without the invoiced order |
| AdminBoard.GenerateRequest | frontend/src/admin/AdminAnalyticsBoard.jsx:1387-1392 | the post carries the selected order, the tax rate, the chosen status, "Online Payment" and no due date or notes |
| AdminBoard.InvoicePanel.constructor | frontend/src/admin/AdminAnalyticsBoard.jsx:1355-1357 | the dialog is closed with no order selected, tax rate 18 and status Pending |
| AdminBoard.InvoicePanel.HandleGenerateInvoice | frontend/src/admin/AdminAnalyticsBoard.jsx:1384-1402 | without a truthy order id nothing is sent or changed; otherwise the request is sent; success closes the dialog, clears the selection, resets the status and refetches; failure only alerts |
| AdminBoard.PaidInvoiceCount | frontend/src/admin/AdminAnalyticsBoard.jsx:1457 | the paid card never exceeds the number of invoices |
| AdminBoard.UnpaidLowersPaidCount | frontend/src/admin/AdminAnalyticsBoard.jsx:1449-1457 | moving a Paid invoice to another status lowers the paid card by one and leaves the revenue card unchanged |
| AdminBoard.InvoiceSubject | frontend/src/admin/AdminAnalyticsBoard.jsx:1327 | the subject is "Invoice #", then the invoice number, then " from BIM Mills" |
| AdminBoard.OtherStatusIgnoresAmount | frontend/src/admin/AdminAnalyticsBoard.jsx:1333-1335 | a body for a status other than Pending or Overdue depends only on the status and the customer's name |
| AdminBoard.ContainsMiddle | frontend/src/admin/AdminAnalyticsBoard.jsx:1326-1346 | a concatenation contains each of its middle pieces |
| AdminBoard.ContainsWithin | frontend/src/admin/AdminAnalyticsBoard.jsx:1326-1346 | text around a piece contains whatever the piece contains |
| AdminBoard.PendingQuotesTotal | frontend/src/admin/AdminAnalyticsBoard.jsx:1329-1330 | a Pending body quotes the rendered total |
| AdminBoard.OverdueQuotesNumberAndTotal | frontend/src/admin/AdminAnalyticsBoard.jsx:1331-1332 | an Overdue body names the invoice number and quotes the rendered total |
| AdminBoard.SendInvoiceEmail | frontend/src/admin/AdminAnalyticsBoard.jsx:1326-1346 | the step-by-step message goes to the customer's address with the subject and body above, and the alert tells delivery from failure |
| EnquiryDashboard.Visible | frontend/src/admin/admindashboard.jsx:60-86 | the listed enquiries are a permutation of the fetched ones that match the query (all of them for the empty query): each matching enquiry as often as fetched and no other, newest created_at first |
| EnquiryDashboard.ServerOrderKept | frontend/src/admin/admindashboard.jsx:73-83 | with no query, the list the server already sorted newest first is shown unchanged |
| EnquiryDashboard.TotalPages | frontend/src/admin/admindashboard.jsx:135 | the ceiling of n/10: enough pages for every row, no empty last page, and 0 pages exactly for no rows |
| EnquiryDashboard.PageRows | frontend/src/admin/admindashboard.jsx:136-140 | page p holds at most 10 rows, the rows starting at (p-1)*10 in order; a page within the count is non-empty and one beyond it is empty |
| EnquiryDashboard.RowOnItsPage | frontend/src/admin/admindashboard.jsx:135-140 | row i is within the page count, on page i/10+1 at position i%10 |
| EnquiryDashboard.ToggleSelect | frontend/src/admin/admindashboard.jsx:150-154 | the toggled id is selected afterwards iff it was not before; every other id keeps its state |
| EnquiryDashboard.WhereDistinct | frontend/src/admin/admindashboard.jsx:150-154 | filtering a duplicate-free id list keeps it duplicate-free |
| EnquiryDashboard.ToggleTwice | frontend/src/admin/admindashboard.jsx:150-154 | toggling keeps the selection duplicate-free; toggling twice restores the same ids, and the very same list when the id was not selected |
| EnquiryDashboard.ToggleSelectAll | frontend/src/admin/admindashboard.jsx:142-148 | a selection as long as the page is cleared; any other becomes the page's ids in row order |
| EnquiryDashboard.SelectAllTwice | frontend/src/admin/admindashboard.jsx:142-148 | on a non-empty page not fully selected, select-all selects the page and pressing again clears it |
| EnquiryDashboard.LocalDeleteMatchesServer | frontend/src/admin/admindashboard.jsx:90-95 | with distinct ids the local filter after a delete removes exactly the deleted row |
| EnquiryDashboard.DeleteEach | frontend/src/admin/admindashboard.jsx:99-101 | the requests sent are a prefix of the selection; all ids are sent, each succeeding, iff every request succeeds; otherwise the last one sent is the first that failed |
| EnquiryDashboard.Dashboard.constructor | frontend/src/admin/admindashboard.jsx:32-52 | after the fetch both lists hold the fetched enquiries, with no query, no selection, page 1 and no details open |
| EnquiryDashboard.Dashboard.Refilter | frontend/src/admin/admindashboard.jsx:60-86 | the listed enquiries become the filtered and sorted view of the fetched ones; nothing else changes |
| EnquiryDashboard.Dashboard.Search | frontend/src/admin/admindashboard.jsx:209 | the query is stored and the list follows it; the page and the selection are kept |
| EnquiryDashboard.Dashboard.Shown | frontend/src/admin/admindashboard.jsx:136-140 | the rows on screen are exactly the current page's slice of the filtered enquiries, at most 10 |
| EnquiryDashboard.Dashboard.PreviousPage | frontend/src/admin/admindashboard.jsx:295-300 | the page goes down by one except on page 1 |
| EnquiryDashboard.Dashboard.NextPage | frontend/src/admin/admindashboard.jsx:302-307 | the page goes up by one except when it equals the page count |
| EnquiryDashboard.Dashboard.Toggle | frontend/src/admin/admindashboard.jsx:256 | the selection becomes the toggled selection; nothing else changes |
| EnquiryDashboard.Dashboard.ToggleAll | frontend/src/admin/admindashboard.jsx:239 | the selection becomes the select-all result for the rows on screen; nothing else changes |
| EnquiryDashboard.Dashboard.HandleDelete | frontend/src/admin/admindashboard.jsx:90-95 | unconfirmed, nothing is sent; a failed request changes nothing; a successful one drops that id, closes the details view and lists again |
| EnquiryDashboard.Dashboard.HandleBulkDelete | frontend/src/admin/admindashboard.jsx:97-106 | unconfirmed, nothing is sent; the ids go one at a time in selection order; only when all succeed are they dropped locally and the selection cleared; the first failure stops the loop and leaves the local state as it was |
| EnquiryDashboard.BulkDeleteDropsSelected | frontend/src/admin/admindashboard.jsx:102-104 | after a bulk delete the list holds exactly the enquiries whose id was not selected |
| EnquiryDashboard.DoubleQuotes | frontend/src/admin/admindashboard.jsx:120 | doubling never shortens a message and lengthens any that holds a quote |
| EnquiryDashboard.UnescapeInner | frontend/src/admin/admindashboard.jsx:120 | reading quoted-field contents never lengthens them, and shortens any that holds a quote |
| EnquiryDashboard.UnescapeDoubled | frontend/src/admin/admindashboard.jsx:120 | reading back doubled contents gives the original text |
| EnquiryDashboard.QuoteFieldRoundTrip | frontend/src/admin/admindashboard.jsx:120 | the message field with doubled quotes reads back as the message |
| EnquiryDashboard.QuoteAsWrittenLosesQuotes | frontend/src/admin/admindashboard.jsx:120 | the message field as written does not read back as the message once it holds a quote |
| EnquiryDashboard.QuoteAsWrittenExample | frontend/src/admin/admindashboard.jsx:120 | the message 5" width, written as the export writes it, does not read back at all |
| EnquiryDashboard.DoubleQuotesNoQuote | frontend/src/admin/admindashboard.jsx:120 | a message without a quote is left unchanged by the doubling |
| EnquiryDashboard.JoinNoShorter | frontend/src/admin/admindashboard.jsx:113-123 | joining fields that are each no shorter gives a line no shorter |
| EnquiryDashboard.JoinLonger | frontend/src/admin/admindashboard.jsx:113-123 | joining fields of which one is strictly longer gives a strictly longer line |
| EnquiryDashboard.RowAsWrittenLength | frontend/src/admin/admindashboard.jsx:113-121 | a row as written is never longer than the corrected row, strictly shorter when the message holds a quote, and equal to it otherwise |
| EnquiryDashboard.ExportAsWrittenAgrees | frontend/src/admin/admindashboard.jsx:110-123 | the export as written equals the corrected export if and only if no listed message holds a quote |
| EnquiryDashboard.JoinFree | frontend/src/admin/admindashboard.jsx:121-123 | a character in neither the parts nor the separator is not in their join |
| EnquiryDashboard.DoubleQuotesFree | frontend/src/admin/admindashboard.jsx:120 | doubling quotes adds no other character |
| EnquiryDashboard.RowSingleLine | frontend/src/admin/admindashboard.jsx:114-122 | a row built from single-line fields is one line |
| EnquiryDashboard.ExportLines | frontend/src/admin/admindashboard.jsx:110-123 | when no field holds a line break, the export splits into the header and one line per listed enquiry, in order |
| CancelOrder.SuccessMessage | frontend/src/pages/CancelOrder.jsx:30 | the success message has the order id as typed at its place between the fixed lead and tail |
| CancelOrder.ErrorMessage | frontend/src/pages/CancelOrder.jsx:38-44 | HTTP 404 gives the not-found message, 403 the e-mail-mismatch message, and any other status or no response the generic message, each iff |
| CancelOrder.ReplyOf | frontend/src/pages/CancelOrder.jsx:25-44 | the page sees success iff the server accepted, and otherwise the status code of the server's error |
| CancelOrder.ServerRefusalsTellApart | frontend/src/pages/CancelOrder.jsx:38-41 | the server's not-found and e-mail-mismatch refusals reach the customer as two different specific messages |
| CancelOrder.CancelOrderPage.constructor | frontend/src/pages/CancelOrder.jsx:6-10 | empty inputs, not loading, no status and no message |
| CancelOrder.CancelOrderPage.BeginRequest | frontend/src/pages/CancelOrder.jsx:14-27 | with an input empty only the alert shows and nothing is sent; otherwise loading starts, the status is requesting and the inputs are sent as typed; whenever the button is enabled a request goes out |
| CancelOrder.CancelOrderPage.FinishRequest | frontend/src/pages/CancelOrder.jsx:29-47 | success shows the message naming the order and clears the inputs; failure shows the message for the status and keeps them; loading ends |
| CancelOrder.CancelOrderPage.HandleRequestCancellation | frontend/src/pages/CancelOrder.jsx:14-47 | the whole handler: no request and no change with an input empty; otherwise the request, then the success state (form hidden) or the error state (form still shown) |
| CancelOrder.CancelOrderPage.RequestAnother | frontend/src/pages/CancelOrder.jsx:84-87 | the status and message are cleared and the form shows again; the inputs are kept |
| UserApi.PhoneString | frontend/src/user/api/userApi.js:20 | a text phone is kept; a numeric one becomes a non-empty string that parses back to the number |
| UserApi.CompanyField | frontend/src/user/api/userApi.js:22 | null exactly when the company is absent or blank; otherwise the trimmed, non-empty company |
| UserApi.SendEnquiry | frontend/src/user/api/userApi.js:13-25 | throws "Missing enquiry fields" iff name, phone, e-mail or message is falsy; otherwise posts name, e-mail and message equal to their trimmed inputs, the phone as a string, and the company field |
| UserApi.TrimmedFixed | frontend/src/user/api/userApi.js:19-23 | a string with no white space at either end is its own trim |
| UserApi.TrimIdempotent | frontend/src/user/api/userApi.js:19-23 | trimming twice is trimming once |
| UserApi.SendEnquiryIdempotent | frontend/src/user/api/userApi.js:18-24 | sending the posted body again posts the same body, unless trimming left a required field empty |
| UserApi.ServerKeepsSentPhone | frontend/src/user/api/userApi.js:20 | the server's validated enquiry keeps the phone exactly as the client sent it |
| UserApi.BlankNameRefusedByServer | frontend/src/user/api/userApi.js:14-16 | a name of blanks passes the client's check but the server's validation refuses the enquiry |
| Tables.WhereCount | backend/backend/payments/invoice_router.py:117 | a `filter(...)` keeps each row that meets the condition exactly as often as the table holds it, and no other row |
| Sorting.SortBy | frontend/src/admin/admindashboard.jsx:73-83 | sorting keeps the length and the multiset of elements: it is a permutation |
| Sorting.SortBySorted | frontend/src/admin/admindashboard.jsx:73-83 | under a total preorder the sorted list is in order |
| Sorting.SortByMembers | frontend/src/admin/admindashboard.jsx:73-83 | an element is in the sorted list iff it is in the input |
| Sorting.SortByIdempotent | frontend/src/admin/admindashboard.jsx:73-83 | sorting a sorted list again leaves it unchanged |
| Sorting.SkipLimit | backend/backend/payments/invoice_router.py:103 | `offset(skip).limit(limit)` returns exactly `min(limit, rows - skip)` rows (none when `skip` is past the end), taken in order from position `skip` |
| Sorting.OrderedPage | backend/backend/payments/invoice_router.py:103 | an ordered page is exactly the window `skip`..`skip+limit` of the sorted table, of length `min(limit, rows - skip)`; sorted and all from the table |
| Strings.TrimStart | frontend/src/user/api/userApi.js:19 | the result is a suffix whose first character is not white space, and everything dropped is white space |
| Strings.TrimEnd | frontend/src/user/api/userApi.js:19 | the result is a prefix whose last character is not white space, and everything dropped is white space |
| Strings.Trim | frontend/src/user/api/userApi.js:19 | the result is the middle of the input with no white space at either end, and everything dropped is white space |
| Strings.ToLower | frontend/src/admin/admindashboard.jsx:66 | the same length, with each character mapped to lower case |
| Strings.ContainsIff | frontend/src/admin/admindashboard.jsx:66-69 | `includes` holds iff the pattern occurs at some position |
| Strings.JoinSplit | backend/backend/shop/shop_router.py:65 | joining the pieces of a split with the separator gives back the string |
| Strings.SplitJoin | backend/backend/shop/shop_router.py:65 | splitting a join of separator-free pieces gives back the pieces |
| Strings.NatToStringInjective | backend/backend/user/schemas.py:33-35 | two numbers with the same decimal string are equal |
| Strings.ParseIntOfIntToString | frontend/src/pages/Shop.jsx:58-59 | `parseInt` of an integer's decimal string gives back the integer |

## Left out

- Network and asynchrony: axios calls, awaited promises, the shop's `Promise.race` time-out and every `setTimeout` timer are not modelled as such. A server reply is a parameter of the handler that awaits it (`ok`, `saved`, `delivered`, `succeeds`, `Reply`), and a timer's effect is a separate method (`DeleteNoticeExpires`).
- E-mail delivery: `fastapi_mail`, the HTML templates and FastAPI `BackgroundTasks` are not modelled. An endpoint only returns the mails it schedules; the admin send-mail endpoint and the invoice HTML templates are not part of this model.
- Password hashing, token signing and expiry (bcrypt, HS256 JWT): the hash, verify and sign operations are function parameters, and a token is returned as its claims.
- `uuid4`, `datetime.now()`, the weekday name, date strings and `toLocaleString` are parameters or plain integer time stamps. ISO `created_at` strings are compared as these time stamps.
- Floating point: Python floats and JavaScript numbers that hold amounts are exact reals. IEEE rounding, `parseFloat`, the `Math.round` average order value and the `{amount:,.2f}` formatting are not modelled.
- Column widths: MySQL's `String(n)` limits are not modelled, so an over-long value is stored whole rather than refused.
- Pydantic error texts are abstracted to the failing field and the broken constraint. `EmailStr` is an outside library: its syntax check (`isEmail`) and the normalised address it returns (`normalize`) are parameters, so what the normalisation does to a given address is not modelled.
- `skip` and `limit` are natural numbers, so a negative value, which the database would refuse, is not representable.
- Ties in `ORDER BY`: rows with equal sort keys keep table order (a stable sort). The database gives no such promise.
- `GROUP BY` output order: groups come in order of their first sale. SQL promises no order, and only the set of groups and their sums are stated.
- The enquiry dashboard's comparator returns -1 for equal `created_at` values, which is not a consistent comparator. `EnquiryDashboard.Visible` sorts stably instead, so its order among equal time stamps is one of the orders a browser may produce.
- Strings.ToLower and EnquiryDashboard.Matches: case mapping (`toLowerCase`) covers ASCII letters only; Unicode case folding is not modelled, so the search does not match letters outside A-Z case-insensitively.
- UserSchemas.StrongPasswordRule and AuthSchemas.AdminPasswordRule: a digit is `0`-`9` and an uppercase letter is `A`-`Z`. Python's `str.isdigit` and `str.isupper` also accept other Unicode digits and capitals, so a password such as `Ébauche1` or `Password٣` is accepted by the validators but refused by the model.
- UserRouter.RegisterUser, UserRouter.LoginUser, AuthRouter.RegisterAdmin and AuthRouter.LoginAdminUser: e-mails and other unique columns are compared by exact string equality, as under a binary collation. MySQL's default collations compare case-insensitively (`utf8mb4_0900_ai_ci`, the MySQL 8 default, is also accent-insensitive; only PAD SPACE collations such as `utf8mb4_general_ci` also ignore trailing spaces), so `A@x.com` and `a@x.com` are one account to the database but two to the model. The same holds for the unique columns `Models.Consistent` states.
- VendorPaymentRouter.WithStatus: the `status == status` filter is exact string equality. Under MySQL's case-insensitive collation `?status=paid` also returns the "Paid" rows; in the model it returns none of them.
- VendorPaymentRouter.PaymentPage and VendorPaymentRouter.ListPayments: they filter through `WithStatus` and share its exact status comparison.
- Startup.SeedCatalogue, Startup.Seeded and Startup.RunMigrations: the `Product.name == title` lookup is exact string equality. Under MySQL's case-insensitive collation an existing product named `cotton fabric` stops the entry titled `Cotton Fabric` from being seeded; the model adds a second row.
- UserSchemas.NormalizePhone: the phone arrives as text or an integer. The `pre=True` validator's `str(v)` also turns a JSON null, float or boolean into `None`, `9.5` or `True` before the length check; those inputs are not representable.
- EnquiryDashboard.ExportCsv and EnquiryDashboard.ExportCsvAsWritten: the date, name, phone and e-mail fields are written unquoted, and the date is a parameter. The `en-IN` rendering of `toLocaleString` holds a comma (`16/10/2026, 10:30:00 am`), which would split each row into six fields under a five-column header; the model does not fix the date's text, so this is not stated.
- Startup.RunMigrations: `run_migrations` catches every exception and prints a warning. The model covers only the run in which no statement fails, and the print is not modelled.
- The admin list endpoints `get_products`, `get_fabrics` and `get_employees` return the whole table unchanged and are not modelled separately.
- The dashboard's other statistics, the order status and payment-status change handlers, the vendor form handlers and invoice printing (`window.print`) are not modelled; the cards for invoice revenue, paid invoices and vendor totals are.
- The contact page's own required-field check repeats the one in `sendEnquiry` and is not modelled separately.
- Alembic migrations, configuration from the environment and the static pages (home, about, products, navigation, 3D backgrounds) are not modelled.
- AdminBoard.PendingQuotesTotal and AdminBoard.OverdueQuotesNumberAndTotal: they state what each status paragraph contains, not that the Pending and Overdue bodies differ from each other.
- AdminBoard.PaidInvoiceCount: its own contract gives only the upper bound; how it changes is stated by `UnpaidLowersPaidCount`.
- EnquiryDashboard.ExportLines: the line structure is proved for the export with quotes doubled; the export as written differs from it only in the message field, and that difference is stated by the findings below.

## Findings

| source | as written | input that shows it | evidently intended | confidence | as-written member | corrected member |
|---|---|---|---|---|---|---|
| frontend/src/admin/admindashboard.jsx:120 | the message column is wrapped in double quotes, but quotes inside the message are not doubled | a message `5" width`: the field `"5" width"` has a lone quote after the 5 and does not read back as the message | double each inner quote, as section 2 of RFC 4180 requires, so that the field reads back as the message | not executed | EnquiryDashboard.QuoteAsWrittenLosesQuotes | EnquiryDashboard.QuoteFieldRoundTrip |
