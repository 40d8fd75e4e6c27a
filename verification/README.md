# Trendora cart, checkout and catalog filters in Dafny

Trendora is a clothing storefront: a REST backend that keeps one shopping cart per
user, and a single-page client with a product list, a shopping-bag page and a
checkout page. This project models the parts of it that carry business rules.

- **The cart controller** (`cart_lines.dfy`, `cart_controller.dfy`). A `CartStore`
  class maps each user to a `Cart` object. A `Cart` holds its lines, its cached
  `totalPrice` and a counter that supplies fresh line ids. getCart returns the
  user's cart, creating an empty one with total 0 when there is none, and changes
  nothing else. addToCart, updateCartItem and removeFromCart change the lines in
  place and then overwrite the cached total with the recomputed sum. clearCart
  empties the lines and writes 0 to the total directly.
  - addToCart merges on the product id alone; size and color do not count.
  - A new line snapshots the catalog's name, price and image.
  - updateCartItem sets the quantity outright.
  - removeFromCart filters lines out by id; an absent id is not an error.
  - The 404 answers become `Status.NotFound(ProductMissing | CartMissing | ItemMissing)`.

  The same operations on plain line lists are functions in module `CartLines`.
  The class invariant `Cart.Valid()` ties the cached total to the recomputed sum
  and requires at most one line per product and distinct ids below the counter.
  The lemmas in `CartLines` prove that each line operation keeps the last two and
  how it moves the sum.
- **Client pricing** (`client_cart.dfy`, `cart_page.dfy`, `checkout.dfy`). The subtotal
  is the sum of price × quantity, reading the price through the line's product
  reference; a missing product or price counts as 0. Shipping is 20 for express.
  Otherwise it is 0 above 100 and 10 at or below 100. The total is the subtotal plus
  shipping. The page also shows a free-shipping hint and has a quantity guard that
  never sends a quantity below 1.
- **Checkout flow** (`checkout.dfy`). The form is replaced field by field, and the
  shipping check requires a first name, a last name and an address. The steps
  are information → shipping → payment, driven by the forms and the tabs. The order
  payload is built from the cart lines and the form.
- **Catalog filters** (`product_filters.dfy`). The filter effect applies five
  `filter` stages in turn: category, size intersection, the two availability
  check boxes, and a case-insensitive name search. The model also has the size
  toggle and the two availability counts. The lemmas prove that the staged
  pipeline equals a single pass by a `Passes` predicate. From that they derive
  order preservation, soundness and completeness, the four availability cases,
  and the default view.

Product and user identifiers are strings compared by equality. addToCart looks the
product up with `findById` (line 26), which accepts any spelling that casts to the
same ObjectId, but merges by comparing `item.product.toString()` with the raw string
(line 43). The model assumes the canonical lower-case hex id, which is what the pages
send; a differently spelled id for the same product would be found but not merged,
and would get a second line. Line ids are `nat`
values handed out by the cart's counter. Prices and stock are whole currency
units (`nat`). Quantities are `int`, because nothing in the controller stops a zero
or negative quantity.

The model follows the code where it is laxer than one might expect:
- The shipping submit checks only first name, last name and address, not every
  address field.
- The controller accepts any integer quantity; it does not reject non-positive ones.
- The client prices lines from `item.product?.price`, while the server uses the
  price snapshot on the line. The two are modelled as written and not reconciled.

## Model

| member | source | states |
|---|---|---|
| `CartLines.LineAmount` | trendora-backend/controllers/cartController.js:61 | what one line adds to the total: its snapshot price × quantity; no contract of its own, used by `Total` |
| `CartLines.Total` | trendora-backend/controllers/cartController.js:60-63 | the shared `reduce` recomputation, summing snapshot price × quantity over the lines. No contract of its own; `TotalAppend`, `TotalUpdate`, `TotalRemoveAt` and `TotalNonNegative` state its properties, and `Cart.Valid()` requires the cached total to equal it |
| `CartLines.NewLine` | trendora-backend/controllers/cartController.js:49-57 | the pushed line: the request's product id, quantity, size and color with the catalog's name, price and image; no contract of its own, `AddLineAppends` states what it adds |
| `CartLines.AddLine` | trendora-backend/controllers/cartController.js:42-58 | addToCart on the lines: merge into the line `FindProduct` finds, or append `NewLine`. No contract of its own; `AddLineMerges`, `AddLineAppends`, `AddLineKeepsInvariants` and `RepeatedAddsMerge` state its properties |
| `CartLines.SetQuantity` | trendora-backend/controllers/cartController.js:83-89 | keeps the number of lines and every line's product and id; `SetQuantityAt` states the new quantity and total |
| `CartLines.FindProduct` | trendora-backend/controllers/cartController.js:42-44 | the index returned is the first line whose product id equals the requested one; none exactly when no line has that product |
| `CartLines.FindItem` | trendora-backend/controllers/cartController.js:83-87 | the index returned is the first line with the requested item id; none exactly when no line has it |
| `CartLines.WithoutItem` | trendora-backend/controllers/cartController.js:113-115 | filtering by item id never lengthens the list and returns it unchanged when no line has that id |
| `CartLines.WithoutItemMembers` | trendora-backend/controllers/cartController.js:113-115 | after filtering, a line is present exactly when it was present before and its id differs from the removed one |
| `CartLines.TotalAppend` | trendora-backend/controllers/cartController.js:60-63 | the recomputed total of two lists of lines joined is the sum of their totals |
| `CartLines.TotalUpdate` | trendora-backend/controllers/cartController.js:91-94 | replacing one line changes the total by the new line's price × quantity minus the old one's |
| `CartLines.TotalNonNegative` | trendora-backend/controllers/cartController.js:60-63 | with no negative quantities the cart total is not negative |
| `CartLines.AddLineMerges` | trendora-backend/controllers/cartController.js:42-47 | adding a product that already has a line: the line count stays, that line's quantity grows by the requested amount and keeps its size, color and price snapshot, every other line is untouched, and the total grows by price × quantity |
| `CartLines.AddLineAppends` | trendora-backend/controllers/cartController.js:48-58 | adding a product without a line appends exactly one line with the catalog's name, price and image and the requested quantity, size and color; earlier lines keep order and contents; the total grows by price × quantity |
| `CartLines.AddLineMergeKeepsInvariants` | trendora-backend/controllers/cartController.js:46-47 | the merge keeps one line per product and distinct ids below the unchanged counter; the merged line stays the product's only line, with the old quantity plus the added one |
| `CartLines.AddLineAppendKeepsInvariants` | trendora-backend/controllers/cartController.js:48-58 | the append keeps one line per product and distinct ids below the advanced counter; the new last line is the product's only line, with the requested quantity |
| `CartLines.AddLineKeepsInvariants` | trendora-backend/controllers/cartController.js:42-58 | addToCart keeps one line per product and distinct ids below the counter; afterwards the product has a single line whose quantity is the old quantity (0 if none) plus the added one |
| `CartLines.RepeatedAddsMerge` | trendora-backend/controllers/cartController.js:42-58 | any series of adds of one product, in any sizes and colors, leaves a single line for it whose quantity is the old quantity plus the sum of the requested quantities; at most one line is added and lines of other products are untouched |
| `CartLines.SetQuantityAt` | trendora-backend/controllers/cartController.js:83-94 | the line with the given id gets exactly the new quantity (not added, no lower bound), other lines are unchanged, and the total moves by price × (new − old) |
| `CartLines.SetQuantityKeepsInvariants` | trendora-backend/controllers/cartController.js:89 | setting a quantity keeps one line per product and distinct ids |
| `CartLines.WithoutItemPresent` | trendora-backend/controllers/cartController.js:113-115 | with distinct ids, removing a present id deletes exactly that line and keeps the others in order |
| `CartLines.RemoveAtKeepsInvariants` | trendora-backend/controllers/cartController.js:113-115 | deleting one line keeps one line per product and distinct ids |
| `CartLines.TotalRemoveAt` | trendora-backend/controllers/cartController.js:117-120 | deleting the line at a position lowers the recomputed total by that line's amount |
| `CartLines.WithoutItemEffect` | trendora-backend/controllers/cartController.js:113-120 | removal by an absent id leaves lines and total unchanged; by a present id it removes that line and lowers the total by its amount; the invariants are kept |
| `CartController.Cart.constructor` | trendora-backend/controllers/cartController.js:9-13 | a created cart has no lines, total 0, and satisfies the cart invariant |
| `CartController.Cart.Add` | trendora-backend/controllers/cartController.js:42-63 | the in-place merge-or-push leaves the lines equal to `AddLine` of the old lines with the current counter as fresh id, the total equal to the recomputed sum, the counter advanced by one exactly when a line was appended, and the invariant intact |
| `CartController.Cart.SetLineQuantity` | trendora-backend/controllers/cartController.js:83-94 | reports whether the id was found; the lines become `SetQuantity` of the old lines; the total is untouched when the id is absent |
| `CartController.Cart.Remove` | trendora-backend/controllers/cartController.js:113-120 | the lines become the old lines filtered by id; an absent id leaves lines and total unchanged |
| `CartController.Cart.Clear` | trendora-backend/controllers/cartController.js:137-138 | the lines become empty and the total 0 |
| `CartController.CartStore.GetCart` | trendora-backend/controllers/cartController.js:6-14 | an existing cart is returned with its lines, total and the store all unchanged, so a second call returns the same cart; otherwise a fresh empty cart with total 0 is stored under the user |
| `CartController.CartStore.AddToCart` | trendora-backend/controllers/cartController.js:22-70 | a product missing from the catalog gives NotFound(ProductMissing), creates no cart and changes none; otherwise Ok, the user's cart (created if absent) gets `AddLine` of its old lines, the total stays the recomputed sum, and every other user's cart is unchanged |
| `CartController.CartStore.UpdateCartItem` | trendora-backend/controllers/cartController.js:72-101 | NotFound(CartMissing) without a cart, NotFound(ItemMissing) with the lines unchanged when no line has the id, otherwise Ok with `SetQuantity` applied; no cart is created; other carts are unchanged |
| `CartController.CartStore.RemoveFromCart` | trendora-backend/controllers/cartController.js:103-127 | NotFound(CartMissing) without a cart; otherwise Ok, even for an absent id, with the lines filtered by id; other carts are unchanged |
| `CartController.CartStore.ClearCart` | trendora-backend/controllers/cartController.js:129-145 | NotFound(CartMissing) without a cart; otherwise Ok with no lines and total 0; other carts are unchanged |
| `ClientCart.UnitPrice` | trendora-frontend/src/components/Cart.jsx:47 | the price read through the line's product reference, or 0 when the product or its price is missing; no contract of its own, `UnpricedLineAddsNothing` states the missing case |
| `ClientCart.Subtotal` | trendora-frontend/src/components/Checkout.jsx:46-50 | the sum of price × quantity, with a missing product or price read as 0 (the same function as trendora-frontend/src/components/Cart.jsx:45-49); not negative when no quantity is negative |
| `ClientCart.SubtotalAppend` | trendora-frontend/src/components/Cart.jsx:45-49 | the subtotal of two lists joined is the sum of their subtotals |
| `ClientCart.UnpricedLineAddsNothing` | trendora-frontend/src/components/Cart.jsx:47 | a line without product or price contributes 0: removing it anywhere leaves the subtotal unchanged |
| `ClientCart.UnpricedCartIsFree` | trendora-frontend/src/components/Checkout.jsx:48 | a cart whose lines all lack a price has subtotal 0 |
| `CartPage.Shipping` | trendora-frontend/src/components/Cart.jsx:51-54 | shipping is 0 exactly when the subtotal is strictly above 100, else 10 |
| `CartPage.Total` | trendora-frontend/src/components/Cart.jsx:56-58 | the total is never below the subtotal; it equals the subtotal exactly when the subtotal is above 100, and otherwise exceeds it by 10 |
| `CartPage.FreeShippingHint` | trendora-frontend/src/components/Cart.jsx:206-208 | the hint shows exactly when the cart is non-empty (an empty cart gets the empty-cart screen, line 88) and shipping is charged, and its amount 100 − subtotal is then not negative |
| `CartPage.HintFallsShort` | trendora-frontend/src/components/Cart.jsx:206-208 | adding lines worth exactly the hinted amount still leaves shipping at 10 |
| `CartPage.FreeShippingGap` | trendora-frontend/src/components/Cart.jsx:206-208 | the corrected amount 101 − subtotal is shown exactly when the cart is non-empty and shipping is charged, and is at least 1 |
| `CartPage.GapIsExact` | trendora-frontend/src/components/Cart.jsx:51-54 | adding lines makes shipping free exactly when they are worth at least the corrected amount |
| `CartPage.UpdateQuantity` | trendora-frontend/src/components/Cart.jsx:25-29 | an update is sent exactly when the new quantity is at least 1, and then carries the item id and quantity unchanged |
| `CartPage.StepperButtons` | trendora-frontend/src/components/Cart.jsx:147-156 | "−" on a line of quantity 1 sends nothing; "+" on a line of non-negative quantity always sends quantity + 1 |
| `CartPage.GuardedUpdateKeepsQuantitiesPositive` | trendora-frontend/src/components/Cart.jsx:25-29 | an update that passes the page's guard, applied by the controller, keeps every quantity at least 1 |
| `Checkout.Shipping` | trendora-frontend/src/components/Checkout.jsx:52-55 | express costs 20 whatever the subtotal; any other method costs 0 exactly when the subtotal is above 100, else 10 |
| `Checkout.Total` | trendora-frontend/src/components/Checkout.jsx:57-59 | the total is the subtotal plus the method's shipping fee, 0, 10 or 20, so never below the subtotal; with a non-express method it equals the shopping-bag page's total |
| `Checkout.ShippingBoundary` | trendora-frontend/src/components/Checkout.jsx:54 | a subtotal of exactly 100 with standard shipping totals 110; express adds 20 even above 100 |
| `Checkout.SetField` | trendora-frontend/src/components/Checkout.jsx:39-44 | the named field takes the new value and every other field keeps its value |
| `Checkout.ShippingFormComplete` | trendora-frontend/src/components/Checkout.jsx:63 | first name, last name and address are non-empty; no contract of its own, used by `SubmitShipping` and the page invariant |
| `Checkout.SubmitShipping` | trendora-frontend/src/components/Checkout.jsx:61-68 | the step moves to payment when first name, last name and address are non-empty, and is unchanged otherwise |
| `Checkout.Next` | trendora-frontend/src/components/Checkout.jsx:143-183 | the contact form always leads to shipping; the INFORMATION tab always returns to information; the SHIPPING tab leads to shipping except from information; the PAYMENT tab does nothing; edits change only the form; payment is entered only by a shipping submit with the check passing |
| `Checkout.NextKeepsPaymentReady` | trendora-frontend/src/components/Checkout.jsx:63-67 | an event the page can produce keeps "at the payment step the shipping check holds" |
| `Checkout.RunKeepsPaymentReady` | trendora-frontend/src/components/Checkout.jsx:61-68 | along any run of producible events the payment step only shows with first name, last name and address filled in |
| `Checkout.OrderLines` | trendora-frontend/src/components/Checkout.jsx:74-79 | there is a result exactly when every line has a product; it then has one entry per line, in order, copying product id, quantity, size and color |
| `Checkout.AddressOf` | trendora-frontend/src/components/Checkout.jsx:80-88 | the shipping address copied field by field from the form; no contract of its own, `BuildOrder` states that the payload carries it |
| `Checkout.BuildOrder` | trendora-frontend/src/components/Checkout.jsx:70-91 | the payload exists exactly when every line has a product; its items are the mapped lines (product id, quantity, size and color, in order), its totalAmount is the checkout total (at least the subtotal), and its shipping method and address are the form's |
| `Checkout.PlacedOrderHasAddress` | trendora-frontend/src/components/Checkout.jsx:70-91 | an order placed from the payment step of any producible run from the initial page has first name, last name and address non-empty |
| `ProductFilters.Lower` | trendora-frontend/src/components/Products.jsx:60 | `toLowerCase` as a character-by-character ASCII case fold of the same length; its case-insensitivity is stated by `LowerIdempotent` and `NameMatchIgnoresQueryCase` |
| `ProductFilters.LowerIdempotent` | trendora-frontend/src/components/Products.jsx:60 | lower-casing an already lower-cased string changes nothing |
| `ProductFilters.NameMatchIgnoresQueryCase` | trendora-frontend/src/components/Products.jsx:58-62 | a query and its lower-cased form keep exactly the same products, so the search ignores the case of the query |
| `ProductFilters.Contains` | trendora-frontend/src/components/Products.jsx:60 | `includes`: the needle occurs in the name at some position; no contract of its own, used by the name criterion |
| `ProductFilters.Holds` | trendora-frontend/src/components/Products.jsx:41-60 | the five stage predicates: category equal; a sizes list that exists and shares a size with the selection; stock 0; stock above 0; lower-cased name containing the lower-cased query. No contract of its own; `KeptProductsMatch` states what each guarantees |
| `ProductFilters.Keep` | trendora-frontend/src/components/Products.jsx:41 | one filter stage keeps only products satisfying its criterion, all of them from the input, and never lengthens the list; `KeepMembers` gives the converse |
| `ProductFilters.KeepMembers` | trendora-frontend/src/components/Products.jsx:41 | a product is kept by a stage exactly when it is in the input and satisfies the stage's criterion |
| `ProductFilters.ApplyFilters` | trendora-frontend/src/components/Products.jsx:36-65 | the filter effect: category, sizes, the two availability boxes and the search applied in that order, each only when its setting is active. No contract of its own; `ApplyFiltersIsSelect`, `FilteredIsSubsequence` and `KeptProductsMatch` state its properties |
| `ProductFilters.ApplyFiltersAppend` | trendora-frontend/src/components/Products.jsx:37-62 | the staged pipeline distributes over concatenation of product lists |
| `ProductFilters.ApplyFiltersSingle` | trendora-frontend/src/components/Products.jsx:37-62 | on one product the pipeline keeps it exactly when every active filter's criterion holds |
| `ProductFilters.ApplyFiltersIsSelect` | trendora-frontend/src/components/Products.jsx:36-65 | the staged pipeline equals the single pass that keeps the products passing every active filter |
| `ProductFilters.SelectIsSubsequence` | trendora-frontend/src/components/Products.jsx:37-64 | the single-pass result is a subsequence of the product list |
| `ProductFilters.SubsequenceIsShorter` | trendora-frontend/src/components/Products.jsx:37-64 | a subsequence is no longer than the list it comes from |
| `ProductFilters.SelectMembers` | trendora-frontend/src/components/Products.jsx:37-64 | a product is in the single-pass result exactly when it is in the list and passes |
| `ProductFilters.FilteredIsSubsequence` | trendora-frontend/src/components/Products.jsx:37-64 | the filtered list is a subsequence of the products (order kept), no longer than it, and holds exactly the products that pass every active filter |
| `ProductFilters.KeptProductsMatch` | trendora-frontend/src/components/Products.jsx:40-62 | every kept product has the selected category unless it is ALL; has a size among the selected ones when sizes are selected, so products without sizes drop; has zero stock without "Available" and positive stock without "Out Of Stock"; and its name contains the query ignoring case when the query is non-empty |
| `ProductFilters.AvailabilityCases` | trendora-frontend/src/components/Products.jsx:50-55 | with the other filters off: both boxes keep all products, "Available" alone the in-stock ones, "Out Of Stock" alone the zero-stock ones, neither box none |
| `ProductFilters.DefaultShowsInStock` | trendora-frontend/src/components/Products.jsx:12-15 | the initial settings (ALL, no sizes, Available only, empty search) show exactly the in-stock products |
| `ProductFilters.SearchNarrows` | trendora-frontend/src/components/Products.jsx:58-62 | with a non-empty query a product is kept exactly when it is kept without the query and its lower-cased name contains the lower-cased query; an empty query keeps everything |
| `ProductFilters.RemoveSize` | trendora-frontend/src/components/Products.jsx:69 | the result holds exactly the selected sizes other than the removed one |
| `ProductFilters.ToggleSize` | trendora-frontend/src/components/Products.jsx:67-71 | the toggled size's membership flips; every other size keeps its membership |
| `ProductFilters.ToggleTwice` | trendora-frontend/src/components/Products.jsx:67-71 | toggling a size twice restores which sizes are selected, and restores the selection itself when the size was not in it |
| `ProductFilters.ToggleTwiceSameList` | trendora-frontend/src/components/Products.jsx:44-48 | toggling a size twice leaves the filtered product list unchanged |
| `ProductFilters.AvailableCount` | trendora-frontend/src/components/Products.jsx:154 | the number of products with stock above 0; no contract of its own, used by `CountsAddUp` |
| `ProductFilters.OutOfStockCount` | trendora-frontend/src/components/Products.jsx:163 | the number of products with stock 0; no contract of its own, used by `CountsAddUp` |
| `ProductFilters.CountsAddUp` | trendora-frontend/src/components/Products.jsx:154-163 | the "Available" count plus the "Out Of Stock" count is the number of products |

## Left out

- HTTP, Mongoose and async plumbing: `req`/`res`, status codes, `findOne`/`create`/`save`, `findById`, the `API` calls, `alert` and `navigate`. The store is an in-memory map of objects, the catalog is a map passed to addToCart, and each failure is a `Status` value.
- The 500 answers for storage errors: the model has no storage that can fail.
- Concurrency: the read-modify-write race between two addToCart calls and duplicate cart creation on a first concurrent access. Both are storage-layer concerns; the model is sequential.
- Mongoose's generated `_id`s are modelled by a per-cart counter. It yields distinct ids within a cart, not globally unique ObjectIds.
- Floating point: prices are whole units (`nat`). `toFixed(2)` formatting is presentation.
- ProductFilters.Lower: folds only ASCII letters, not Unicode case mapping.
- Browser form validation: the `required` attributes on the inputs are enforced by the browser before a submit handler runs. The model checks only what the handlers check.
- The checkout page shows an empty-cart screen instead of the forms when the cart has no lines. The model does not add that guard to `BuildOrder`.
- The payment card fields are not part of the form state and are not modelled.
- The client lines are assumed to have their product reference either populated (an object with id and price) or null. The getCart shown (trendora-backend/controllers/cartController.js:6-16) calls no `populate`, and the schema that might do so is not part of this model. If the reference arrives as a bare id string, both pages would price every line at 0 (Cart.jsx:47, Checkout.jsx:48), and the payload would be posted with an undefined product (Checkout.jsx:75) instead of failing. `Option<LineProduct>` cannot express that case.
- Order lifecycle (payment, delivery, status updates, listing and reading orders): the order controller is not part of this model, and the order routes file is only a route table.
- `server.js`, the login, navigation and hero components, and the route gate in `App.jsx`: bootstrap, UI and authentication with no cart or pricing rules.
- The product page's own add-to-cart button posts a request and is covered by the controller's addToCart; the page-side call is plumbing.
- The product-detail page's quantity stepper (trendora-frontend/src/components/ProductDetail.jsx:206) never goes below 1. Together with the request at lines 36-40 of that file, it keeps the quantity that page sends to addToCart at 1 or more. It is not modelled; the controller model accepts any integer quantity.

## Findings

| source | as written | input that shows it | evidently intended | confidence | as-written member | corrected member |
|---|---|---|---|---|---|---|
| trendora-frontend/src/components/Cart.jsx:206-208 | the hint asks for 100 − subtotal more, but shipping is free only for a subtotal strictly above 100 (line 53) | a subtotal of 90 shows "Add $10.00 more"; adding 10 gives a subtotal of 100, which still pays 10 | ask for more than 100 − subtotal; in whole units, 101 − subtotal | medium (not executed) | `CartPage.HintFallsShort` | `CartPage.GapIsExact` |
