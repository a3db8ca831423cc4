# yellotokri storefront — a Dafny model of its ordering core

yellotokri is a small storefront. Customers browse products, put them in a
cart and check out. An administrator manages products and moves orders
through their statuses. This project models the parts of it that decide
something:

- the two input schemas: the checkout form and the product form;
- the two server routes: creating an order with its lines, and creating and
  listing products;
- the checkout form's submit flow and the order summary beside it;
- the admin dashboard's list handlers and statistics;
- the order list's search, status filter and status update, with the
  order details panel;
- the stock-bounded controls of the product page, the admin product grid and
  the product card.

The model uses the system's own terms. Products, orders, order lines and cart
lines are datatypes (`types.dfy`). Each schema is a `Parse` function whose
result is `None` exactly when its list of issues, each with the schema's own
message, is non-empty. The hosted database is a class per route:

- `OrdersRoute.Database` holds the `orders` table (a map keyed by id), the
  `order_items` table and a log of the calls made.
- `ProductsRoute.ProductStore` holds the `products` table and a log of the
  calls made.

Each database call either succeeds or fails, chosen nondeterministically. The
route methods state what the response and the tables are on every path. The
React components with state are classes:

- `CheckoutForm.CheckoutForm`
- `AdminDashboard.Dashboard`
- `OrderList.OrderListView`
- `ProductList.ProductListView`
- `ProductDetail.ProductDetailView`

Their fields mirror the component's `useState` variables; the checkout form
also holds the values react-hook-form keeps for it, which its checkbox, radio
group and inputs change and which the schema parses on submit. The effects are
recorded as events in order: `alert`, `confirm`, the request sent and
`router.push`. The reply to each `fetch` is a parameter: rejected, or a
status `ok` flag with an optional body. The cart store is a small class
(`CartStore.Cart`). Its own code is not part of this model, so it promises
only what its callers rely on.

Money is an exact `real`. Stock and quantity are `int`. zod's `.email()` and
`.url()` checks are uninterpreted predicates passed in as parameters.

Two facts about the checkout that a reader might not expect:

- The form submits `getTotalPrice()`, the cart subtotal, as `total_amount`.
  The shipping and tax that the summary beside it shows are display only, and
  `CheckoutForm.ChargedTotalIsSubtotal` proves that the stored amount is then
  less than the total the summary shows.
- The schema accepts exactly `card`, `paypal` and `bank` as payment methods,
  and it validates the billing address even when "same as shipping" is set
  (`CheckoutValidation.BillingAlwaysValidated`); see "Findings" for what that
  does to the form.

## Model

| member | source | states |
|---|---|---|
| CheckoutValidation.PaymentMethodNamed | lib/validations/checkout.ts:22-24 | the method named by a string is the unique one whose enumeration value is that string, and there is none for any other string |
| CheckoutValidation.PaymentMethodRoundTrip | lib/validations/checkout.ts:22 | a method's name parses back to that method; exactly "card", "paypal" and "bank" are accepted |
| CheckoutValidation.Parse | lib/validations/checkout.ts:3-33 | the form parses iff no rule reports an issue; the parsed flag is true unless false was submitted (default true); the parsed method's name is the submitted value; all other fields are copied unchanged |
| CheckoutValidation.AddressIssuesIffValid | lib/validations/checkout.ts:7-20 | an address draws no issue iff street ≥ 5, city ≥ 2, state ≥ 2, ZIP ≥ 5 and country ≥ 2 characters, whichever address it is |
| CheckoutValidation.AddressesCheckedAlike | lib/validations/checkout.ts:7-20 | swapping the shipping and billing addresses never changes whether the form is accepted |
| CheckoutValidation.BillingAlwaysValidated | lib/validations/checkout.ts:14-21 | an accepted form has a valid billing address, and a bad billing address is refused even with "same as shipping" set |
| CheckoutValidation.ParseIntended | lib/validations/checkout.ts:14-21 | corrected schema: with "same as shipping" unticked it is the schema as written; otherwise it accepts exactly when the form with the shipping address in place of the billing one is accepted, and the parsed billing address is the shipping address |
| CheckoutValidation.IntendedIgnoresHiddenBilling | lib/validations/checkout.ts:14-21 | under the corrected schema, with the box ticked the billing values do not affect the result at all |
| CheckoutValidation.NoMaximumLengths | lib/validations/checkout.ts:4-32 | lengthening every length-checked field of an accepted form keeps it accepted (there are only minimums) |
| CheckoutValidation.CardDetailsOptional | lib/validations/checkout.ts:25-32 | card details may be left out for any method; when given, all four must meet their minimums |
| ProductValidation.Parse | lib/validations/product.ts:3-10 | the body parses iff no rule reports an issue; the parsed fields equal the submitted ones, with the stock turned into the integer it already is |
| ProductValidation.IssuesEmptyIffValid | lib/validations/product.ts:4-9 | no issue is reported iff name ≥ 2, description ≥ 10, price ≥ 0.01, category ≥ 2, stock a whole number ≥ 0, and the image URL absent, empty or a URL |
| ProductValidation.PriceBoundary | lib/validations/product.ts:6 | a price of 0 is refused; every accepted price is at least 0.01, and 0.01 itself is accepted |
| ProductValidation.StockRule | lib/validations/product.ts:8 | a whole-number stock is accepted iff it is ≥ 0; a fractional stock is refused |
| ProductValidation.ImageUrlRule | lib/validations/product.ts:9 | an absent or empty image URL is accepted without a URL check; any other value is accepted iff it passes that check |
| OrdersRoute.NewOrderFor | app/api/orders/route.ts:21-29 | the inserted order row has status "pending" and the request's customer name, e-mail, phone and total |
| OrdersRoute.AddressesAndPaymentNotStored | app/api/orders/route.ts:9-29 | the inserted row does not depend on the addresses or the payment method read from the body |
| OrdersRoute.ItemRows | app/api/orders/route.ts:39-44 | one row per request item, each tagged with the new order's id |
| OrdersRoute.ItemRowsRoundTrip | app/api/orders/route.ts:39-44 | reading product id, quantity and price back out of the rows gives the request's items, in order |
| OrdersRoute.Database.InsertOrder | app/api/orders/route.ts:21-31 | a call is logged; on success the new order carries the row's fields under a key not used before, and nothing else changes |
| OrdersRoute.Database.InsertItems | app/api/orders/route.ts:46 | a call is logged; the rows are stored all together or not at all, and rows naming a missing order make it fail |
| OrdersRoute.Database.DeleteOrder | app/api/orders/route.ts:51 | a call is logged; the order is removed on success and kept otherwise; lines are untouched |
| OrdersRoute.Post | app/api/orders/route.ts:4-60 | an unreadable body gives 500 "Internal server error" with no call made; a failed order insert gives 500 "Failed to create order" with no line insert; an `items` value that `map` cannot read (not an array, or holding a `null` entry) leaves the order behind with no lines (500 "Internal server error"); a failed line insert gives 500 "Failed to create order items" after exactly one delete of that order; success returns the new pending order with all its lines stored; every line always belongs to a stored order |
| ProductsRoute.NullIfEmpty | app/api/products/route.ts:21 | the stored image URL is null iff the submitted one is absent or empty, and otherwise the submitted one |
| ProductsRoute.RowFor | app/api/products/route.ts:15-22 | the inserted row holds the validated name, description, price, category and stock, and the normalised image URL |
| ProductsRoute.InsertByDate | app/api/products/route.ts:45 | inserting a product adds exactly that product to the list |
| ProductsRoute.InsertByDateKeepsOrder | app/api/products/route.ts:45 | inserting into a newest-first list keeps it newest first |
| ProductsRoute.SortNewestFirst | app/api/products/route.ts:42-45 | the listing is a permutation of the table with `created_at` never increasing |
| ProductsRoute.ProductStore.Insert | app/api/products/route.ts:13-24 | a call is logged; on success the new product carries the row's fields, has a fresh id and is appended to the table |
| ProductsRoute.ProductStore.SelectNewestFirst | app/api/products/route.ts:42-45 | a call is logged, the table is unchanged, and a successful select returns its rows newest first |
| ProductsRoute.Post | app/api/products/route.ts:5-36 | 400 "Invalid request data" iff the body is unreadable or fails the schema, and then no insert is made; otherwise exactly one insert of the validated, normalised row; 500 "Failed to create product" leaves the table unchanged; 200 returns the created product, now in the table |
| ProductsRoute.Get | app/api/products/route.ts:38-57 | the table is never changed; a failed client gives 500 "Database error" with no call made; a failed select gives 500 "Failed to fetch products"; 200 returns a permutation of the table, newest first |
| CheckoutForm.PayloadItems | components/checkout-form.tsx:60-64 | one request item per cart line, in order, with the line's product id and quantity and the product's price |
| CheckoutForm.OrderPayload | components/checkout-form.tsx:55-68 | the posted body carries the customer fields, the cart total, the cart lines, the shipping address, the shipping address as billing iff "same as shipping" is set, and the payment method's name |
| CheckoutForm.CartLinesReachStore | components/checkout-form.tsx:60-64 | end to end with app/api/orders/route.ts:39-44: the stored lines are exactly the cart lines' product ids, quantities and prices, in cart order |
| CheckoutForm.ChargedTotalIsSubtotal | components/checkout-form.tsx:59 | the order is charged the cart subtotal, which for a positive subtotal is less than the total the order summary shows, under either threshold |
| CheckoutForm.StoredLineTotals | components/checkout-form.tsx:60-64 | end to end with components/order-details.tsx: each stored line's total is the cart line's price times its quantity |
| CheckoutForm.DefaultsAgreeWithSchema | components/checkout-form.tsx:31-40 | while only typed inputs change, the default payment method and both default countries draw no issue, and an accepted form is paid by card with billing taken from the shipping address |
| CheckoutForm.HiddenBillingBlocksSubmit | components/checkout-form.tsx:194-234 | as written: billing values holding only the default country, as they do while the billing inputs stay hidden, make the schema refuse the form, with an issue filed under the billing street input, which is not on the page |
| CheckoutForm.IntendedAcceptsHiddenBilling | components/checkout-form.tsx:194-234 | corrected: the same ticked form is refused as written but accepted by the corrected schema once the visible inputs are valid, posting the shipping address as billing |
| CheckoutForm.CheckoutForm.constructor | components/checkout-form.tsx:31-40 | the form starts not submitting, with no events, from its default values: "same as shipping" ticked, payment method "card", both countries "United States", typed inputs empty and no card details |
| CheckoutForm.CheckoutForm.SameAsShipping | components/checkout-form.tsx:43 | the watched checkbox value is the flag the schema parses |
| CheckoutForm.CheckoutForm.SetSameAsShipping | components/checkout-form.tsx:186-190 | the checkbox sets the form's flag to the ticked state and changes nothing else |
| CheckoutForm.CheckoutForm.SetPaymentMethod | components/checkout-form.tsx:244-269 | the radio group sets the form's payment method to one the schema accepts and changes nothing else |
| CheckoutForm.CheckoutForm.EnterCustomer | components/checkout-form.tsx:116-127 | typing sets the name, e-mail and phone values and nothing else |
| CheckoutForm.CheckoutForm.EnterShippingAddress | components/checkout-form.tsx:141-170 | typing sets the shipping address values and nothing else |
| CheckoutForm.CheckoutForm.EnterBillingAddress | components/checkout-form.tsx:194-231 | the billing values change only while "same as shipping" is unticked, when the billing inputs are shown; otherwise nothing changes |
| CheckoutForm.CheckoutForm.EnterCardDetails | components/checkout-form.tsx:271-303 | the card values change only while the card method is chosen, when the card inputs are shown; otherwise nothing changes |
| CheckoutForm.CheckoutForm.OnSubmit | components/checkout-form.tsx:46-91 | an empty cart alerts "Your cart is empty!" and changes nothing else; otherwise one request is sent while submitting, with the shipping address as billing iff the watched checkbox is ticked; on an ok reply with an order the cart is cleared and the page moves to that order's confirmation; on any other reply an error alert is shown and the cart is kept; submitting is over afterwards; the form values never change |
| CheckoutForm.CheckoutForm.Submit | components/checkout-form.tsx:105 | the schema parses the form's own values; values it refuses change nothing, in particular whenever the billing values hold only the default country; accepted values with an empty cart alert "Your cart is empty!" and change nothing else; accepted values with a non-empty cart keep the earlier events and post the payload built from the parsed data with billing chosen by the parsed flag, then either clear the cart and navigate to the order's confirmation (iff the reply succeeded) or keep the cart and alert; the form values never change |
| OrderSummary.Summarize | components/order-summary.tsx:11-14 | shipping is free iff the subtotal exceeds 50 and is 9.99 otherwise; tax is 8% of the subtotal; the total is their sum and never below a non-negative subtotal |
| OrderSummary.AmountToFreeShipping | components/order-summary.tsx:64-65 | the hinted amount brings the subtotal to exactly 50 and is positive whenever the hint shows |
| OrderSummary.HintOrFreeShippingExceptAtThreshold | components/order-summary.tsx:12-64 | a subtotal gets the hint or free shipping except at exactly 50, where it gets neither |
| OrderSummary.HintedAmountStillCharged | components/order-summary.tsx:12-65 | adding the hinted amount never earns free shipping under the component's rule |
| OrderSummary.SummarizeIntended | components/order-summary.tsx:12-65 | with the threshold the hint implies, shipping is free iff no hint is shown |
| OrderSummary.IntendedHintEarnsFreeShipping | components/order-summary.tsx:12-65 | under that threshold, adding the hinted amount earns free shipping, and the two rules differ only at exactly 50 |
| AdminDashboard.ReplaceById | components/admin-dashboard.tsx:30 | the length is kept, entries with the updated product's id become that product, and all others are unchanged |
| AdminDashboard.ReplaceIdempotent | components/admin-dashboard.tsx:30 | applying the same update twice equals applying it once |
| AdminDashboard.RemoveById | components/admin-dashboard.tsx:35 | the result is a subsequence of the list in original order, holds no product with the id, keeps every other product, and is shorter by the number of products with the id |
| AdminDashboard.RemoveNothing | components/admin-dashboard.tsx:35 | deleting an id no product has leaves the list unchanged |
| AdminDashboard.RemoveAfterAdd | components/admin-dashboard.tsx:24-36 | deleting a just-added product whose id was new restores the previous list |
| AdminDashboard.SetStatusById | components/admin-dashboard.tsx:39 | the length is kept, orders differ from before only in `status`, and the status is the new one exactly for orders with the id |
| AdminDashboard.InventoryValueIsSum | components/admin-dashboard.tsx:43 | the left fold equals the sum of price × stock, and the value of a concatenation is the sum of the parts' values |
| AdminDashboard.AddedProductValue | components/admin-dashboard.tsx:24-43 | adding a product raises the inventory value by exactly that product's price × stock |
| AdminDashboard.InventoryValueNonNegative | components/admin-dashboard.tsx:43 | without negative prices or stocks the value is non-negative |
| AdminDashboard.LowStockCount | components/admin-dashboard.tsx:44 | at most the number of products, and equal to it iff every product has stock ≤ 10, out-of-stock products included |
| AdminDashboard.PendingCount | components/admin-dashboard.tsx:46 | never more than the number of orders, and zero iff no order is pending |
| AdminDashboard.PendingAfterStatusUpdate | components/admin-dashboard.tsx:38-46 | setting a status to "pending" never lowers the pending count, and setting any other status never raises it |
| AdminDashboard.Dashboard.constructor | components/admin-dashboard.tsx:19-22 | the lists start as given, the add form is closed and no product is being edited |
| AdminDashboard.Dashboard.PendingOrders | components/admin-dashboard.tsx:45-46 | never exceeds the order count |
| AdminDashboard.Dashboard.LowStockProducts | components/admin-dashboard.tsx:42-44 | never exceeds the product count |
| AdminDashboard.Dashboard.TotalValue | components/admin-dashboard.tsx:43 | the sum of price × stock over the products |
| AdminDashboard.Dashboard.OpenAddForm | components/admin-dashboard.tsx:121 | the add form opens and nothing else changes |
| AdminDashboard.Dashboard.CloseAddForm | components/admin-dashboard.tsx:150 | the add form closes and nothing else changes |
| AdminDashboard.Dashboard.StartEditing | components/admin-dashboard.tsx:127 | the product becomes the one being edited and nothing else changes |
| AdminDashboard.Dashboard.CancelEditing | components/admin-dashboard.tsx:167 | no product is being edited any more, and nothing else changes |
| AdminDashboard.Dashboard.TotalProducts | components/admin-dashboard.tsx:42 | the "Total Products" figure counts the list's entries and is 0 only for an empty list |
| AdminDashboard.Dashboard.TotalOrders | components/admin-dashboard.tsx:45 | the "Total Orders" figure counts the list's entries and is 0 only for an empty list |
| AdminDashboard.Dashboard.HandleProductAdded | components/admin-dashboard.tsx:24-27 | the products become the new one followed by the old list, the product count grows by one, and the add form closes |
| AdminDashboard.Dashboard.HandleProductUpdated | components/admin-dashboard.tsx:29-32 | the products are replaced by id, the product count is kept, and no product is being edited any more |
| AdminDashboard.Dashboard.HandleProductDeleted | components/admin-dashboard.tsx:34-36 | every product with the id is removed and the rest stay in order; the product count drops by the number of entries with the id |
| AdminDashboard.Dashboard.HandleOrderStatusUpdated | components/admin-dashboard.tsx:38-40 | only the status of the orders with the id changes, and the order count is kept |
| OrderDetails.StatusColor | components/order-details.tsx:15-30 | each of the five statuses has its colour, and the colour is gray exactly for any other string |
| OrderDetails.StatusColorsDistinct | components/order-details.tsx:15-30 | different known statuses never share a colour |
| OrderDetails.StatusLabel | components/order-details.tsx:41 | the length is kept, the first character is upper-cased and the rest is unchanged |
| OrderDetails.StatusLabelIdempotent | components/order-details.tsx:41 | capitalising a label again changes nothing, and only the first character ever differs from the status |
| OrderDetails.OrderNumber | components/order-details.tsx:36 | the first eight characters of the id (the whole id when shorter), upper-cased |
| OrderDetails.OrderNumberIgnoresTail | components/order-details.tsx:36 | ids that agree on their first eight characters up to case show the same order number |
| OrderDetails.LineTotal | components/order-details.tsx:116 | a line with quantity 0 totals 0, and a line without negative price or quantity never totals below 0 |
| OrderDetails.TotalsOf | components/order-details.tsx:76-87 | shipping is always shown as "Free", and the items amount and the total are both the stored amount |
| OrderDetails.TotalsOmitSummaryCharges | components/order-details.tsx:80-86 | for a stored amount up to 50 the panel shows free shipping and a total below the one the order summary showed for that subtotal |
| OrderList.FindIn | components/order-list.tsx:57 | the entry found is in the table and has the value; none is found iff no entry has it |
| OrderList.FindInFirst | components/order-list.tsx:57 | the entry found is the first one in the table with the value |
| OrderList.FindStatus | components/order-list.tsx:17-57 | a status is found in the table iff it is one of the five known statuses |
| OrderList.StatusBadge | components/order-list.tsx:56-61 | a known status shows its table colour and label; any other status is gray and labelled with its raw text |
| OrderList.BadgeAgreesWithDetails | components/order-list.tsx:17-61 | the list's badge colour equals the details panel's colour for every status, and its label equals the panel's label for the known ones |
| OrderList.FilterOrders | components/order-list.tsx:63-72 | the shown orders are a subsequence of the orders in original order; each matches the search and the status filter, and every order that matches both is shown, as many times as it occurs in the list |
| OrderList.FilterByStatus | components/order-list.tsx:69 | a filter other than "all" shows only orders with that status |
| OrderList.FilterKeepsAll | components/order-list.tsx:63-72 | an empty search with the "all" filter shows every order |
| OrderList.FilterIgnoresCase | components/order-list.tsx:64-67 | terms equal up to case show the same orders |
| OrderList.UpperCasedSearch | components/order-list.tsx:64-67 | an upper-cased term shows the same orders as the term |
| OrderList.OrderNumberFindsOrder | components/order-list.tsx:64-67 | searching for the order number shown on an order's card finds that order |
| OrderList.OrderListView.constructor | components/order-list.tsx:26-29 | no order is selected, the search is empty, the filter is "all" and no update is running |
| OrderList.OrderListView.FilteredOrders | components/order-list.tsx:63-72 | the shown orders are a subsequence of the dashboard's orders, and all of them at the initial search and filter |
| OrderList.OrderListView.StatusSelectDisabled | components/order-list.tsx:157 | an order's status select is disabled exactly while its own update runs, so at most one id's select is disabled |
| OrderList.OrderListView.SetSearchTerm | components/order-list.tsx:99 | only the search term changes |
| OrderList.OrderListView.SetStatusFilter | components/order-list.tsx:104 | only the status filter changes |
| OrderList.OrderListView.SelectOrder | components/order-list.tsx:174 | only the selected order changes |
| OrderList.OrderListView.HandleStatusUpdate | components/order-list.tsx:31-54 | the request is sent while `updatingStatus` is the order id; an ok reply updates the dashboard's orders; any other reply alerts and leaves them unchanged; afterwards no update is running and no order's select is disabled |
| ProductDetail.Stepped | components/product-detail.tsx:34-39 | a change is applied iff the new quantity lies in [1, stock]; otherwise the quantity stays |
| ProductDetail.SteppedKeepsRange | components/product-detail.tsx:34-39 | a quantity in [1, stock] stays in [1, stock] after any change |
| ProductDetail.NoStepWithoutStock | components/product-detail.tsx:36 | with stock 0 no change is ever applied |
| ProductDetail.ButtonsMatchEffect | components/product-detail.tsx:186-221 | within range, minus is disabled iff pressing it has no effect, likewise plus, and adding is enabled |
| ProductDetail.OutOfStockControls | components/product-detail.tsx:186-224 | with an empty stock, plus and add are disabled at every quantity, no stepper press changes the quantity, and minus is disabled exactly at quantity 1 |
| ProductDetail.AddCaption | components/product-detail.tsx:224 | the button says "Out of Stock" exactly when it is disabled |
| ProductDetail.ProductDetailView.constructor | components/product-detail.tsx:17 | the quantity starts at 1 |
| ProductDetail.ProductDetailView.HandleQuantityChange | components/product-detail.tsx:34-39 | the quantity becomes the stepped one, and a quantity in range stays in range |
| ProductDetail.ProductDetailView.HandleAddToCart | components/product-detail.tsx:41-44 | exactly one add request for the product and the chosen quantity, then the quantity is back to 1 |
| ProductList.BadgesExclusive | components/product-list.tsx:69-75 | the low-stock and out-of-stock badges never show together |
| ProductList.LowStockCountIsBadged | components/product-list.tsx:69-75 | with components/admin-dashboard.tsx:44, for non-negative stocks the dashboard's low-stock count is the number of products carrying a badge |
| ProductList.NegativeStockUnbadged | components/product-list.tsx:69-75 | a negative stock is counted as low by the dashboard but carries no badge |
| ProductList.ConfirmMessage | components/product-list.tsx:20 | the question quotes the product's name between the fixed opening "Are you sure you want to delete" and the closing question mark |
| ProductList.ConfirmNamesProduct | components/product-list.tsx:20 | different names give different questions |
| ProductList.ProductListView.DeleteDisabled | components/product-list.tsx:107 | a product's delete button is disabled exactly while its own delete runs, so at most one id's button is disabled |
| ProductList.ProductListView.constructor | components/product-list.tsx:18 | no delete is running |
| ProductList.ProductListView.HandleEdit | components/product-list.tsx:98 | the product becomes the dashboard's product being edited |
| ProductList.ProductListView.HandleDelete | components/product-list.tsx:20-43 | a declined confirmation sends no request and changes nothing; otherwise one request is sent while `deletingId` is the product id; only an ok reply removes the product from the dashboard; any other reply alerts; afterwards no delete is running and no product's delete button is disabled |
| ProductCard.BadgeFor | components/product-card.tsx:31-34 | "Only N left!" with N the stock iff 0 < stock ≤ 10, "Out of Stock" iff the stock is 0, never both |
| ProductCard.BadgesAgreeWithGrid | components/product-card.tsx:31-34 | the card marks exactly the stocks the admin grid marks, badge for badge |
| ProductCard.AddDisabledIffOutOfStock | components/product-card.tsx:61 | the add button is disabled iff the card shows "Out of Stock" |
| ProductCard.HandleAddToCart | components/product-card.tsx:18-20 | exactly one add request, for quantity 1 |
| CartStore.Cart.ClearCart | components/checkout-form.tsx:83 | the cart ends up empty |
| CartStore.Cart.AddItem | components/product-detail.tsx:42 | the request is recorded |
| Strings.Lower | components/order-list.tsx:65-67 | the same length, each character lower-cased |
| Strings.LowerIdempotent | components/order-list.tsx:65-67 | lower-casing twice is lower-casing once |
| Strings.LowerOfUpper | components/order-list.tsx:64-67 | lower-casing undoes an earlier upper-casing |
| Strings.Upper | components/order-details.tsx:36 | the same length, each character upper-cased |
| Strings.UpperIdempotent | components/order-details.tsx:36 | upper-casing twice is upper-casing once |
| Strings.Take | components/order-details.tsx:36 | a prefix of the string, eight characters long or the whole string when shorter |
| Strings.LowerTake | components/order-list.tsx:129 | lower-casing commutes with taking a prefix |
| Strings.Includes | components/order-list.tsx:65-67 | true iff the needle occurs at some position of the haystack |
| Strings.IncludesEmpty | components/order-list.tsx:65-67 | the empty string occurs in every string |

## Left out

- The cart store (contexts/cart-context) is not part of this model. `CartStore.Cart.AddItem` only records the request. `getTotalPrice` reports a stored total that is not tied to the lines. `ClearCart` promises only an empty cart. No merging or clamping rules are assumed.
- CartStore.Cart.AddItem: states only that the request is recorded, not its effect on the lines, because that effect is the store's own code.
- Other pages and presentational components: components/cart-drawer.tsx, components/cart-table.tsx, app/page.tsx with its reload timer, the page and layout files, the header, hero, product grid and order-confirmation view.
- The `app/api/orders/[id]` and `app/api/products/[id]` routes, which answer the status update and the delete, are not part of this model. Their effect is only seen through the `ok` flag of the reply.
- The product form (components/product-form.tsx) is not part of this model. The dashboard receives its result as a parameter.
- The hosted database: the database client, its SQL and its errors are not modelled. Each call succeeds or fails nondeterministically. The `id` and `created_at` of a stored order line are not modelled.
- An exception thrown by the database client (instead of an error result) is not modelled in the routes, except for the GET's "Database error" path, which is a parameter.
- The customer's e-mail and URL checks are zod's. They are uninterpreted predicates here.
- zod's built-in messages are paraphrased as "Invalid enum value" and "Expected integer, received float". Fields given the wrong JSON type are not modelled.
- Strings are sequences of characters and lengths count characters, not UTF-16 code units. Case mapping is ASCII only.
- Money is exact. `toFixed` rounding, the mock original price and the mock rating are left out. Dates are integers, and their formatting is left out.
- `console.error` logging, the image gallery, the colour choice and other markup are left out, as is the empty-list notice of each list.
- CheckoutForm.CheckoutForm.OnSubmit: an ok reply whose body is not an order is treated like a failure that keeps the cart. In the component, a body that is not JSON does keep the cart, but a `null` body clears the cart before `order.id` throws and the alert shows, and an object without `id` navigates to `/order-confirmation/undefined`.
- CheckoutForm.HiddenBillingBlocksSubmit: an input that was never rendered is modelled as the empty string, like a rendered one left untouched. In the component its value is `undefined`, and zod files "Required" for it rather than the field's length message, so the contract states only that an issue is filed under the billing street path, not its message.
- The value of a registered input nobody has typed into is modelled as the empty string, and the card details as absent until they are entered. The card inputs are rendered from the first paint, since "card" is the default method, so untouched card inputs may read as empty strings to the schema rather than as absent card details, and may still do so after switching to another method; the model does not decide this; react-hook-form's own registration and unregistration rules are not modelled. Typing is modelled per group of inputs, not per keystroke, and inline error display is not modelled.
- Asynchronous steps run in sequence. There is no interleaving between a request and other events.

## Findings

| source | as written | input that shows it | evidently intended | confidence | as-written member | corrected member |
|---|---|---|---|---|---|---|
| components/checkout-form.tsx:194-234 | with "same as shipping" ticked, its default, the billing inputs are never shown, so the billing values hold only the default country; the schema still checks every billing field | any customer who fills in every visible input correctly and keeps the box ticked: the schema refuses the form, nothing is posted, and the only issues are filed under the hidden billing inputs | billing checked only when the box is unticked, the shipping address standing in for it otherwise | not executed | CheckoutForm.HiddenBillingBlocksSubmit | CheckoutValidation.ParseIntended, CheckoutForm.IntendedAcceptsHiddenBilling |
| components/order-summary.tsx:12-65 | shipping is free only for a subtotal over 50, while the hint tells a customer below 50 to add `50 - subtotal` | subtotal 30: the hint says add 20.00. At subtotal 50 shipping is still 9.99, and no hint is shown any more | free shipping from 50 on, so that following the hint earns it | not executed | OrderSummary.HintedAmountStillCharged | OrderSummary.SummarizeIntended, OrderSummary.IntendedHintEarnsFreeShipping |
