# Capture Collections checkout and portfolio filtering, modelled in Dafny

A photographer's website has a small shop. This project models the few parts
of it that hold logic:

- **Checkout** (`useCheckout`). `createOrder` checks for a signed-in user and
  a non-empty cart, in that order. It then inserts one pending order whose
  total is the cart total plus 10% tax, rounded. It inserts one order item
  per cart line, each with a snapshot of the unit price. Last, it empties the
  cart and navigates to `/checkout/<id>`. Either insert can fail, and neither
  failure rolls anything back. `processStripePayment` is a stub.
- **Order review** (the `Checkout` page). Its `load` effect fetches the order
  and its item rows by id and ends in one of four outcomes. The page derives
  subtotal, tax and total from the rows and shows a spinner, an error,
  "Order not found." or the summary, in that order of precedence.
- **Portfolio filtering** (the `Portfolio` page and the home page's
  `PortfolioSection`). A fixed list of items is filtered by the selected
  category, and a lightbox or modal opens on a clicked item.

All amounts are integer cents. JavaScript's `Math.round(v)` is
`floor(v + 1/2)`. Dafny's `/` by a positive divisor is floor division. So
`Math.round(n * 0.1)` is `(n + 5) / 10` and `Math.round(n * 1.1)` is
`(11 * n + 5) / 10`, for any integer `n` (module `Money`).

The hosted tables (`orders`, `order_items`, `products`) are sequences and a
map. Each remote call's success or failure is a parameter: the id the store
gives a new order, or none when that insert fails; whether the item batch
insert succeeds; and whether each of the page's two queries reaches the
store. `CheckoutHook.Session` is a class whose `CreateOrder` method changes
the cart, the tables, the `processing` flag and the current location.
`CheckoutPage.OrderReview` is a class whose `Load` method changes the page's
four state variables. Both carry a ghost trace of what they did, so their
contracts can say in which order things happen and which queries are made.
The portfolio views are pure functions over a state datatype.

Module layout: `Wrappers` (Option), `Money`, `Store` (row shapes shared by
the hook and the page), `Assets` (the two bundled pictures), `CheckoutHook`, `CheckoutPage`, `ReviewConsistency`
(the hook and the page together), `CategoryFilter` (the filter both
portfolio views use), `PortfolioPage`, `PortfolioSection`.

On the review page, a missing or empty order id is an error: the page shows
"Missing order id." and queries nothing. Only an id that matches no order
row shows "Order not found." (`CheckoutPage.MissingIdShowsError`,
`CheckoutPage.UnknownIdIsNotFound`).

## Model

| member | source | states |
|---|---|---|
| `Money.RoundTenth` | src/pages/Checkout.tsx:88 | the result is the whole number nearest to n/10, with halves rounded up |
| `Money.WithTax` | src/hooks/useCheckout.tsx:33 | the result is the whole number nearest to 11n/10 (the amount plus 10% tax), with halves rounded up |
| `Money.WithTaxIsAmountPlusRoundedTax` | src/pages/Checkout.tsx:88-89 | rounding the tax-inclusive amount equals adding the rounded tax to the amount |
| `CheckoutHook.OrderItemsFor` | src/hooks/useCheckout.tsx:43-48 | one order item per cart line, in cart order; each has the order id, the line's product id and quantity, and the product's current price |
| `CheckoutHook.PendingOrder` | src/hooks/useCheckout.tsx:29-38 | the inserted row has the user's id, status "pending", currency "usd", and a total equal to the cart total plus 10%, rounded half up |
| `CheckoutHook.ReviewPath` | src/hooks/useCheckout.tsx:63 | the path is "/checkout/" followed by exactly the order id |
| `CheckoutHook.Notice` | src/hooks/useCheckout.tsx:15-66 | each outcome has its own notification; both insert failures show the same generic failure text |
| `CheckoutHook.Session.CreateOrder` | src/hooks/useCheckout.tsx:14-70 | no user: LoginRequired, and nothing changes. User but empty cart: CartEmpty, and nothing changes. Otherwise processing is raised before the order insert and lowered last. A failed order insert writes nothing and keeps the cart. A failed items insert keeps the new order row, writes no items and keeps the cart. Success appends the order row and the cart's snapshot items, empties the cart and sets the location to the review path |
| `CheckoutHook.Session.ProcessStripePayment` | src/hooks/useCheckout.tsx:72-78 | the cart, the tables, the processing flag and the location are unchanged |
| `CheckoutPage.LineAmount` | src/pages/Checkout.tsx:85 | a missing or zero price or quantity contributes 0; otherwise the line is price times quantity |
| `CheckoutPage.Tax` | src/pages/Checkout.tsx:88 | tax is the subtotal's tenth, rounded half up |
| `CheckoutPage.Total` | src/pages/Checkout.tsx:89 | subtotal plus rounded tax equals the subtotal plus 10%, rounded, as checkout stores it |
| `CheckoutPage.Subtotal` | src/pages/Checkout.tsx:83-87 | rows that all contribute 0 give subtotal 0; rows that all contribute a non-negative amount give a non-negative subtotal |
| `CheckoutPage.SubtotalAppend` | src/pages/Checkout.tsx:83-87 | the reduce is additive over concatenated row lists |
| `CheckoutPage.SubtotalPermutation` | src/pages/Checkout.tsx:83-87 | the subtotal does not depend on the order in which the item rows come back: rows with the same multiset give the same subtotal |
| `CheckoutPage.SubtotalIgnoresEmptyRows` | src/pages/Checkout.tsx:85 | rows with a missing price or quantity do not change the subtotal |
| `CheckoutPage.NoRowsNoCharge` | src/pages/Checkout.tsx:83-89 | no rows give subtotal, tax and total 0 |
| `CheckoutPage.TwoLineExample` | src/pages/Checkout.tsx:83-89 | rows 4500 x 1 and 3500 x 2 give 11500, 1150 and 12650 |
| `CheckoutPage.OrderItemsOf` | src/pages/Checkout.tsx:65-68 | every selected `order_items` row has the order's id; an order with no rows selects none |
| `CheckoutPage.OrderItemsOfCounts` | src/pages/Checkout.tsx:65-68 | each row with the order's id is selected as often as it occurs in the table, and no other row is |
| `CheckoutPage.ItemRowsFor` | src/pages/Checkout.tsx:65-68 | the fetched rows are at most the table's rows; an order with no items gets no rows; every fetched row has a price and a quantity |
| `CheckoutPage.ItemRowsShowOrderItems` | src/pages/Checkout.tsx:65-68 | the page gets one row per `order_items` row of the order, and row k carries the quantity and price of the order's k-th item row and its joined product |
| `CheckoutPage.ItemRowsForAppend` | src/pages/Checkout.tsx:65-68 | fetching item rows from a concatenated table gives the concatenation of the fetches |
| `CheckoutPage.OrdersWithId` | src/pages/Checkout.tsx:51-54 | every selected row has the id and comes from the table, and every row with the id is selected |
| `CheckoutPage.OrdersWithIdCounts` | src/pages/Checkout.tsx:51-54 | each order row with the id is selected as often as it occurs in the table, and no other row is |
| `CheckoutPage.KeyMeansAtMostOne` | src/pages/Checkout.tsx:51-55 | when order ids are unique, at most one row matches |
| `CheckoutPage.FetchOrder` | src/pages/Checkout.tsx:51-55 | an unreachable store is an error; an unknown id gives null data, not an error; a returned row is in the table and has the id; with at most one matching row (in particular with unique ids) and a reachable store there is no error, and a row with the id is the one returned; more than one matching row is an error |
| `CheckoutPage.Classify` | src/pages/Checkout.tsx:42-78 | a missing or empty id, and only that, gives MissingId; an unreachable store, or more than one row with the id, is an order-query failure and stops there; with at most one order row for the id (in particular with unique order ids) and the order query answered, the items query decides between Loaded and ItemsLoadFailed, the order is the row with the id when there is one and null when there is none; a load outcome carries the fetched rows and either no order or the table's row with that id |
| `CheckoutPage.Settle` | src/pages/Checkout.tsx:43-77 | loading ends false on every path; the error is cleared only on success; the order is set by both later paths and the items only on success; the missing-id and order-failure paths keep the old order and items; the three failures show "Missing order id.", "Failed to load order." and "Failed to load order items." |
| `CheckoutPage.Queries` | src/pages/Checkout.tsx:43-68 | a missing id, and only that, queries nothing; an order-query failure, and only that, queries only `orders`; the other outcomes query `orders` and then `order_items` |
| `CheckoutPage.OrderRef` | src/pages/Checkout.tsx:163 | the displayed reference is a prefix of the id of at most 8 characters, the whole id when it is that short |
| `CheckoutPage.Render` | src/pages/Checkout.tsx:99-120 | the spinner shows exactly while loading; then the error; then "not found" exactly when there is no order; the summary shows the recomputed subtotal, tax and total of the rows |
| `CheckoutPage.MissingIdShowsError` | src/pages/Checkout.tsx:43-47 | a missing id shows "Missing order id." and queries nothing, whatever the previous state |
| `CheckoutPage.UnknownIdIsNotFound` | src/pages/Checkout.tsx:62-115 | an id with no order row, with both queries succeeding, shows "not found" and not an error |
| `CheckoutPage.OrderQueryFailureStops` | src/pages/Checkout.tsx:57-61 | a failed order query shows "Failed to load order." and the items are never queried |
| `CheckoutPage.ItemsQueryFailureShowsError` | src/pages/Checkout.tsx:62-75 | with unique order ids, a failed items query after a successful order query shows "Failed to load order items." after querying `orders` and then `order_items` |
| `CheckoutPage.KnownIdShowsSummary` | src/pages/Checkout.tsx:62-120 | with unique order ids, a known id with both queries answered shows the summary of that order's item rows with its short reference and recomputed amounts |
| `CheckoutPage.OrderReview.Load` | src/pages/Checkout.tsx:42-78 | the new page state is the settled state of the classified outcome, and the trace gains exactly the queries of that outcome |
| `ReviewConsistency.SnapshotSubtotalIsCartTotal` | src/hooks/useCheckout.tsx:43-48 | reading back the snapshot items gives one row per cart line, and their subtotal is the cart total |
| `ReviewConsistency.FreshOrderIsOnlyMatch` | src/pages/Checkout.tsx:51-55 | after an order with a new id is appended, it is the only row with that id |
| `ReviewConsistency.ReviewTotalIsStoredTotal` | src/pages/Checkout.tsx:83-89 | when the cart total is the sum of the snapshot lines, the review total recomputed from the rows equals the stored total_amount |
| `ReviewConsistency.CheckoutThenReviewAgrees` | src/hooks/useCheckout.tsx:29-63 | on the tables as checkout leaves them, the review page shows the summary with the short reference, one line per cart line, and the stored total |
| `ReviewConsistency.CheckoutThenReview` | src/hooks/useCheckout.tsx:14-70 | running checkout and then the review page on the id read back from the route checkout navigated to: a review happens exactly when checkout navigates, and it shows one line per cart line and the cart total plus 10%, rounded |
| `CategoryFilter.KeepCategory` | src/pages/Portfolio.tsx:76 | the filter never lengthens the list; every result has the category; each item occurs as often as in the input if it has the category, otherwise not at all; relative order is kept |
| `CategoryFilter.Filtered` | src/pages/Portfolio.tsx:73-76 | "All" gives exactly the input; any other category gives exactly the items of that category, each as often as in the input; the result is an order-preserving sublist |
| `CategoryFilter.KeepCategoryIdempotent` | src/pages/Portfolio.tsx:76 | filtering a filtered list by the same category changes nothing |
| `CategoryFilter.FilteredIdempotent` | src/components/sections/PortfolioSection.tsx:68-71 | the view's filter is idempotent, "All" included |
| `CategoryFilter.CategoryOfAnItemShows` | src/components/sections/PortfolioSection.tsx:71 | an item is shown when its own category is selected |
| `CategoryFilter.CountInFour` | src/pages/Portfolio.tsx:76 | over four different categories, an item occurs in the filtered lists together as often as in the input if its category is one of them, otherwise never |
| `CategoryFilter.PartitionByFourCategories` | src/pages/Portfolio.tsx:73-76 | four different categories that cover every item split the items: the filtered lists together have the same items as the input, with the same counts |
| `CategoryFilter.FilteredByFourCategories` | src/pages/Portfolio.tsx:73-76 | four different categories other than "All" that cover every item split what the view shows: the four lists together hold the input's items with the same counts, and their lengths add up to the input's |
| `PortfolioPage.FilteredItems` | src/pages/Portfolio.tsx:73-76 | with "All", the nine items; otherwise exactly the items of the selected category, in order |
| `PortfolioPage.ChooseCategory` | src/pages/Portfolio.tsx:108 | a category button selects that category and leaves the lightbox as it is |
| `PortfolioPage.ClickItem` | src/pages/Portfolio.tsx:128 | clicking an item sets the lightbox image to its picture and keeps the category; the lightbox shows exactly when that picture reference is not empty |
| `PortfolioPage.ClickLightbox` | src/pages/Portfolio.tsx:152-160 | the close button closes the lightbox; a click elsewhere in it changes nothing; the category is kept |
| `PortfolioPage.ChoosingFilters` | src/pages/Portfolio.tsx:73-76 | after a category button the grid is the item list filtered by that category |
| `PortfolioPage.ItemShowsItsCategory` | src/pages/Portfolio.tsx:73-76 | choosing an item's own category shows that item |
| `PortfolioPage.InitialShowsEverything` | src/pages/Portfolio.tsx:11-75 | the page opens on all nine items with the lightbox closed |
| `PortfolioPage.ChoosingAgainChangesNothing` | src/pages/Portfolio.tsx:108 | clicking a category button twice shows the same as clicking it once, and the shown list is already filtered |
| `PortfolioPage.RealCategoriesCoverItems` | src/pages/Portfolio.tsx:14-71 | "All" is the first of five buttons and is no other button; every item's category is one of the other four buttons |
| `PortfolioPage.EveryCategoryShowsSomething` | src/pages/Portfolio.tsx:14-76 | each button other than "All" shows at least one item |
| `PortfolioPage.CategoriesPartitionItems` | src/pages/Portfolio.tsx:16-76 | the grids of the four buttons other than "All" together hold each of the nine items exactly once |
| `PortfolioPage.ClickOpensLightbox` | src/pages/Portfolio.tsx:128 | clicking a shown item opens the lightbox on that item's picture and leaves the grid unchanged |
| `PortfolioPage.CloseButtonCloses` | src/pages/Portfolio.tsx:152-160 | the close button resets the lightbox to null; no other click inside it does anything; open then close restores the closed state |
| `PortfolioSection.FilteredItems` | src/components/sections/PortfolioSection.tsx:68-71 | with "All", the six items; otherwise exactly the items of the active category, in order |
| `PortfolioSection.ChooseCategory` | src/components/sections/PortfolioSection.tsx:94 | a category button makes that category active and leaves the selection as it is |
| `PortfolioSection.SelectItem` | src/components/sections/PortfolioSection.tsx:108 | clicking an item selects it, which shows the modal, and keeps the category |
| `PortfolioSection.ClickModal` | src/components/sections/PortfolioSection.tsx:138-153 | any click inside the modal clears the selection, which hides the modal, and keeps the category |
| `PortfolioSection.ChoosingFilters` | src/components/sections/PortfolioSection.tsx:68-71 | after a category button the grid is the item list filtered by that category |
| `PortfolioSection.ItemShowsItsCategory` | src/components/sections/PortfolioSection.tsx:68-71 | choosing an item's own category shows that item |
| `PortfolioSection.InitialShowsEverything` | src/components/sections/PortfolioSection.tsx:63-70 | the section opens on all six items with no item selected |
| `PortfolioSection.ChoosingAgainChangesNothing` | src/components/sections/PortfolioSection.tsx:94 | clicking a category button twice shows the same as clicking it once |
| `PortfolioSection.RealCategoriesCoverItems` | src/components/sections/PortfolioSection.tsx:15-60 | "All" is the first of five buttons and is no other button; every item's category is one of the other four buttons |
| `PortfolioSection.EveryCategoryShowsSomething` | src/components/sections/PortfolioSection.tsx:15-71 | each button other than "All" shows at least one item |
| `PortfolioSection.CategoriesPartitionItems` | src/components/sections/PortfolioSection.tsx:60-71 | the grids of the four buttons other than "All" together hold each of the six items exactly once |
| `PortfolioSection.SelectOpensModal` | src/components/sections/PortfolioSection.tsx:108 | selecting a shown item sets the selected image to that item and leaves the grid unchanged |
| `PortfolioSection.AnyModalClickCloses` | src/components/sections/PortfolioSection.tsx:138-153 | the backdrop and the close button reset the selection to null. Clicks on the picture or caption bubble to the backdrop, so they close it too. Select then close restores the closed state |

## Left out

- The hosted store's client library is reduced to tables plus success flags. The model leaves out `created_at` and how the store picks a new order id (it is a parameter). It also leaves out the order in which the items query returns rows: the model keeps table order, and the subtotal does not depend on order (`CheckoutPage.SubtotalPermutation`).
- `maybeSingle` is modelled as an error when more than one row matches. This is the client library's documented behaviour, not code in this repository.
- The order query selects only `id,total_amount,currency,status,created_at`, so the page's order object has no `user_id`. `FetchOrder` returns the whole row; no contract reads a field the page does not select.
- Amounts are JavaScript numbers, which hold integers exactly only up to 2^53; the model uses unbounded `int`. No realistic cart comes near that bound, so the model does not check for it.
- The cart context is not part of this model. `cartTotal` is a parameter of `CreateOrder`. `clearCart` is modelled as emptying the cart, and it always succeeds. The cross-checks assume `cartTotal` is the sum of price times quantity (`CheckoutHook.CartTotal`). `addToCart`, `updateQuantity` and `removeFromCart` are not modelled.
- The authentication context is not part of this model; the signed-in user is a parameter.
- Floating point: `Math.round(cartTotal * 1.1)` and `Math.round(subtotal * 0.1)` are exact half-up rounding on integers. Binary rounding error at an exact half cent is not modelled. Display formatting (`/ 100`, `toFixed(2)`) and the unrounded tax and total of the cart page are display-only.
- The two-second simulated payment delay, the toast calls (only their texts, as `CheckoutHook.Notice`), `console` logging and `document.title` are left out.
- Concurrency is left out: double-submitting checkout, and a `load` run that finishes after the route changed or the page unmounted. `Load` states only the state after one whole run. It does not state the intermediate render between the two queries (loading true, error null).
- The joined product's name and image are carried inside the rows but only the ids, prices and quantities are reasoned about. String slicing is on characters, not UTF-16 code units.
- Purely presentational files and UI state are not modelled: the header's scroll and menu, the contact form, the shop's static buttons, and the cart page's view branching.
