# DigiStore storefront: a Dafny model

DigiStore is a small storefront for digital products: templates, courses
and tools. This project models the parts of it that keep state or compute
something:

- the shopping cart provider (`CartContext`). It keeps the cart lines in
  memory, mirrors them to local storage, and derives the item count and the
  total price.
- the constant product catalog and its lookups (`products.ts`).
- the wishlist provider (`WishlistContext`). It holds a local copy of the
  user's `wishlist_items` rows, resolved against the catalog. It also builds
  the insert and delete it sends.
- the order history panel (`OrderHistory`). It holds the fetched orders, the
  open order, and a per-order cache of line items. It also applies a cancel
  locally.
- the products page's category and search filter (`ProductsPage`).
- the per-category product tally on the categories page (`CategoriesPage`).
- the `create-checkout` server function. It authenticates the caller, opens
  a Stripe session, records a pending order and its line rows, and answers
  with the session URL or an error.

Prices are whole cents (`priceCents: nat`) and ratings are tenths. The
source uses floating-point dollars. Strings are `seq<char>`. The backend
(Supabase), Stripe and the auth service are not modelled. Each reply they
give is an input. The selects (orders, order items, wishlist ids) answer
with a `Response` holding optional `data` and an optional `error`. The
other calls answer with an error option (wishlist insert and delete, order
status update), a Stripe outcome, an order id or a failure flag.
The wishlist's insert and delete and the checkout function's calls are
returned as values (the row to insert or delete, the trace of `Call`s).
The other backend calls (the order and wishlist selects and the order
status update) appear only as their replies.

Files and modules:

- `seqs.dfy` (`Seqs`): option, reply, subsequence, filter, find.
- `types.dfy` (`Types`): product, category, toast.
- `catalog.dfy` (`Catalog`)
- `cart.dfy` (`Cart`)
- `wishlist.dfy` (`Wishlist`)
- `orders.dfy` (`Orders`)
- `search.dfy` (`Search`)
- `categories.dfy` (`Categories`)
- `checkout.dfy` (`Checkout`)

The classes `Cart.CartStore`, `Wishlist.WishlistStore`,
`Orders.OrderHistory` and `Search.ProductsPage` hold the state the React
components keep. Each is specified by pure functions of the old state.

Behaviour of the code that the model keeps, although a reader might expect otherwise:

- A failed order fetch empties the order list (`fetchOrders` returns `[]`
  on error). It does not keep the previous list.
- Cancelling an order does not check the order's status. Only the order row
  hides the button unless the status is `booked`.
- Removing a product that is not in the cart leaves the lines as they are.
- The products page's category filter reads the whole catalog, not the
  page's `products`.

## Model

| member | source | states |
|---|---|---|
| Types.Slug | src/types/index.ts:7 | every category's name is a non-empty string of lower-case ASCII letters |
| Types.SlugInjective | src/types/index.ts:7 | two categories have the same name exactly when they are the same category |
| Seqs.Filter | src/data/products.ts:76 | `Array.prototype.filter`; no contract of its own, `FilterSpec` and `FilterConcat` state its laws |
| Seqs.FilterSpec | src/data/products.ts:75-77 | `filter` keeps exactly the elements that pass the test, keeps their order (a subsequence), and never grows the list |
| Seqs.FilterConcat | src/context/CartContext.tsx:92 | filtering a concatenation is the concatenation of the filtered parts |
| Seqs.IndexOf | src/context/CartContext.tsx:50 | the index found is the first one that passes the test; none is found exactly when no element passes |
| Seqs.Find | src/context/CartContext.tsx:77 | `Array.prototype.find` in general (the cart's and catalog's `find` calls are modelled through `IndexOf`, in `LineIndex` and `FindById`): it yields the first element that passes the test (every earlier one fails it); none is found exactly when no element passes |
| Seqs.Any | src/context/WishlistContext.tsx:133 | `some` is true exactly when some element passes the test |
| Seqs.SubsequenceElements | src/data/products.ts:90-92 | a subsequence is no longer than the list and holds only elements of the list |
| Seqs.SubsequenceRefl | src/pages/ProductsPage.tsx:42 | the unfiltered list is a subsequence of itself |
| Seqs.SubsequenceTrans | src/pages/ProductsPage.tsx:45-56 | filtering a filtered list yields a subsequence of the original |
| Catalog.FindById | src/data/products.ts:85-87 | `getProductById` yields the first product with that id, which is in the catalog; it yields nothing exactly when no product has the id |
| Catalog.FindByIdAt | src/data/products.ts:85-87 | with distinct ids, looking up a product's own id yields that product |
| Catalog.ByCategory | src/data/products.ts:90-92 | a product is in the result exactly when it is in the catalog and has that category; the catalog order is kept |
| Catalog.Featured | src/data/products.ts:75-77 | a product is featured-listed exactly when it is in the catalog and flagged featured; the catalog order is kept |
| Catalog.CategoryFiltersPartition | src/data/products.ts:90-92 | the three category filters split any product list: their sizes add up to its length, and each product lands in exactly its own category |
| Catalog.CatalogIdsDistinct | src/data/products.ts:5-72 | the catalog holds six products with pairwise distinct ids |
| Catalog.ProductByIdAt | src/data/products.ts:85-87 | every catalog product is found by its own id |
| Cart.LineIndex | src/context/CartContext.tsx:50 | the line found is the first with that product id; none is found exactly when no line has it |
| Cart.InCart | src/pages/ProductDetail.tsx:28 | a product is in the cart exactly when some line carries its id |
| Cart.Bumped | src/context/CartContext.tsx:54-58 | the `map` that changes quantities keeps the length, changes the quantity of the lines with that id by the step, and keeps every other line |
| Cart.WithoutId | src/context/CartContext.tsx:92 | the `filter` keeps exactly the lines of other products, in order |
| Cart.AddedItems | src/context/CartContext.tsx:47-73 | adding a product already in the cart keeps the number of lines; adding a new one appends a line of quantity 1 |
| Cart.RemovedItems | src/context/CartContext.tsx:75-95 | removing never adds lines, and every line for another product that remains was there before |
| Cart.Count | src/context/CartContext.tsx:43 | the count `reduce`, the sum of the quantities; no contract of its own, `CountTotalConcat`, `CountAtLeastLength` and `CountOfWellFormed` state its laws |
| Cart.Total | src/context/CartContext.tsx:44 | the total `reduce`, the sum of price times quantity; no contract of its own, `CountTotalConcat` and `ThreePartSums` state its laws |
| Cart.Saved | src/context/CartContext.tsx:35-41 | the 'cart' key is absent exactly when the cart is empty |
| Cart.Loaded | src/context/CartContext.tsx:23-32 | an absent key or text that does not parse gives an empty cart |
| Cart.SaveLoadRoundTrip | src/context/CartContext.tsx:23-41 | reloading what the save effect wrote gives back the same lines |
| Cart.CountTotalConcat | src/context/CartContext.tsx:42-44 | count and total add up over a concatenation of line lists |
| Cart.SingleLineSums | src/context/CartContext.tsx:42-44 | helper: one line counts its quantity and costs price times quantity |
| Cart.ThreePartSums | src/context/CartContext.tsx:42-44 | helper: count and total of a list split around one line |
| Cart.ReplaceLineSums | src/context/CartContext.tsx:54-58 | helper: replacing one line changes count and total by that line's difference |
| Cart.DropLineSums | src/context/CartContext.tsx:92 | helper: dropping one line takes its quantity off the count and its line total off the total |
| Cart.LineTotalInc | src/context/CartContext.tsx:56 | helper: one more unit costs one more unit price |
| Cart.LineTotalDec | src/context/CartContext.tsx:83 | helper: one fewer unit costs one unit price less |
| Cart.CountAtLeastLength | src/context/CartContext.tsx:43 | with every quantity at least 1, the count is at least the number of lines |
| Cart.CountOfWellFormed | src/context/CartContext.tsx:43 | in a well-formed cart the count is never negative, and it is zero exactly when the cart is empty |
| Cart.ReplacedSlices | src/context/CartContext.tsx:54-58 | helper: replacing line i keeps the length, puts the new line at i and keeps every other index |
| Cart.ReplacedTwice | src/context/CartContext.tsx:54-58 | helper: replacing a line twice is replacing it once with the second value, and putting back the original line restores the list |
| Cart.BumpedAt | src/context/CartContext.tsx:54-58 | with one line per product, changing the quantity of a product changes exactly its line |
| Cart.WithoutIdConcat | src/context/CartContext.tsx:92 | dropping a product's lines from a concatenation drops them from each part |
| Cart.WithoutAbsent | src/context/CartContext.tsx:92 | dropping a product that has no line changes nothing |
| Cart.WithoutAt | src/context/CartContext.tsx:92 | with one line per product, dropping a product removes exactly its line |
| Cart.AddExisting | src/context/CartContext.tsx:52-63 | with one line per product, adding a product already in the cart raises its line's quantity by 1 in place and keeps every other line |
| Cart.RemoveDecrements | src/context/CartContext.tsx:79-85 | with one line per product, removing a product whose quantity exceeds 1 lowers that quantity by 1 in place |
| Cart.RemoveDropsLine | src/context/CartContext.tsx:86-93 | with one line per product, removing a product whose quantity is 1 deletes its line and keeps the rest in order |
| Cart.RemoveAbsent | src/context/CartContext.tsx:86-93 | removing a product not in the cart leaves the cart unchanged |
| Cart.DropLineWellFormed | src/context/CartContext.tsx:92 | deleting a line keeps one line per product and quantities of at least 1 |
| Cart.ReplaceLineWellFormed | src/context/CartContext.tsx:54-58 | replacing a line by one of the same product with quantity at least 1 keeps the cart well formed |
| Cart.AddPreservesWellFormed | src/context/CartContext.tsx:47-73 | adding keeps one line per product and every quantity at least 1 |
| Cart.RemovePreservesWellFormed | src/context/CartContext.tsx:75-95 | removing keeps one line per product and every quantity at least 1 |
| Cart.AddThenRemoveExisting | src/context/CartContext.tsx:47-95 | in a well-formed cart, adding, then removing, a product already in the cart restores the cart |
| Cart.AddThenRemoveNew | src/context/CartContext.tsx:47-95 | in any cart, adding, then removing, a product not in the cart restores the cart |
| Cart.AddThenRemove | src/context/CartContext.tsx:47-95 | in a well-formed cart, removing a product right after adding it restores the cart exactly |
| Cart.AddExistingSums | src/context/CartContext.tsx:52-63 | with one line per product, adding a product already in the cart raises the count by 1 and the total by that line's unit price |
| Cart.AddNewSums | src/context/CartContext.tsx:64-71 | adding a new product raises the count by 1 and the total by its price |
| Cart.RemovePresentSums | src/context/CartContext.tsx:75-95 | in a well-formed cart, removing a product in the cart lowers the count by 1 and the total by its unit price |
| Cart.AddSums | src/context/CartContext.tsx:42-73 | adding keeps the cart well formed and raises the count by 1; it raises the total by the product's price when the cart's lines for that id hold the same product |
| Cart.RemoveSums | src/context/CartContext.tsx:42-95 | removing keeps the cart well formed and lowers the count by 1 when the product is in the cart (by 0 otherwise) and the total by its unit price (by 0 otherwise) |
| Cart.OneLinePerId | src/context/CartContext.tsx:50-63 | helper: in a cart with one line per product, two lines with the same id are the same line |
| Cart.AddTwiceFromEmpty | src/context/CartContext.tsx:47-73 | adding the same product twice to an empty cart gives one line of quantity 2, count 2 and twice the price |
| Cart.CartStore.Load | src/context/CartContext.tsx:23-45 | on mount the cart holds the stored lines, or nothing when the key is absent or does not parse; count, total and storage agree with the lines |
| Cart.CartStore.Commit | src/context/CartContext.tsx:35-45 | after `setItems`, the effect makes count, total and the 'cart' key agree with the new lines |
| Cart.CartStore.AddItem | src/context/CartContext.tsx:47-73 | the lines become `AddedItems` of the old lines and count, total and storage follow them; when the old cart is well formed (one line per product, quantities at least 1) it stays so and the count rises by 1, and the total rises by the product's price when the stored line holds the same product record |
| Cart.CartStore.RemoveItem | src/context/CartContext.tsx:75-95 | the lines become `RemovedItems` of the old lines and count, total and storage follow them; when the old cart is well formed it stays so and count and total fall by one unit of a product in the cart; removing a product not in the cart leaves lines, count and total unchanged on any cart |
| Cart.CartStore.ClearCart | src/context/CartContext.tsx:97-103 | no lines, count 0, total 0, and the 'cart' key absent |
| Cart.CartStore.IsInCart | src/pages/ProductDetail.tsx:28 | true exactly when some line carries that product id |
| Wishlist.ResolveIn | src/context/WishlistContext.tsx:62-67 | the id-to-product projection yields at most one product per row; `ResolveMembers` and the lemmas after it state which |
| Wishlist.ResolveMembers | src/context/WishlistContext.tsx:62-67 | the projection keeps at most one product per row; each kept product is in the catalog and was asked for; each id naming a product brings that product in |
| Wishlist.ResolveConcat | src/context/WishlistContext.tsx:64-67 | resolving two batches of rows is resolving each in turn, in order |
| Wishlist.ResolveAllFound | src/context/WishlistContext.tsx:64-67 | when every id names a product, nothing is dropped and the i-th product has the i-th id |
| Wishlist.ResolveNoneFound | src/context/WishlistContext.tsx:64-67 | rows whose ids name no product leave nothing |
| Wishlist.Fetched | src/context/WishlistContext.tsx:51-73 | an error or a null reply keeps the current list; otherwise the list becomes the resolved rows |
| Wishlist.Contains | src/context/WishlistContext.tsx:132-134 | true exactly when some wishlist product has that id |
| Wishlist.FetchedIsInWishlist | src/context/WishlistContext.tsx:62-69 | every fetched id that names a product is reported as in the wishlist |
| Wishlist.WishlistStore.constructor | src/context/WishlistContext.tsx:22-49 | before the auth state is known there is no user and the list is empty |
| Wishlist.WishlistStore.FetchWishlist | src/context/WishlistContext.tsx:51-73 | without a user nothing changes; with one the list becomes `Fetched` of the reply |
| Wishlist.WishlistStore.UserChanged | src/context/WishlistContext.tsx:22-49 | signing out empties the list; a signed-in user triggers the fetch |
| Wishlist.WishlistStore.AddToWishlist | src/context/WishlistContext.tsx:75-104 | without a user: no insert and the destructive "Please sign in" toast; with one: the insert of (user, product) and a success or error toast per its outcome |
| Wishlist.WishlistStore.RemoveFromWishlist | src/context/WishlistContext.tsx:106-130 | without a user: nothing at all; with one: the delete of (user, product) and a toast that is destructive exactly when the delete failed |
| Wishlist.WishlistStore.IsInWishlist | src/context/WishlistContext.tsx:132-134 | true exactly when some local wishlist product has that id |
| Orders.RowsOrEmpty | src/services/orderService.ts:5-31 | a failed or null select yields no rows; otherwise the rows returned |
| Orders.CanCancel | src/components/OrderRow.tsx:61 | the cancel button's test, status "booked"; a definition, used by `CancelledNotCancellable` |
| Orders.Cancelled | src/components/OrderHistory.tsx:42-44 | the local rewrite after a cancel keeps the number of orders; `CancelledAt` states what it does at each index |
| Orders.CancelledAt | src/components/OrderHistory.tsx:42-44 | the local cancel keeps the list's length and order, sets the status of the orders with that id to "cancelled", and changes nothing else |
| Orders.CancelledIdempotent | src/components/OrderHistory.tsx:42-44 | cancelling the same order twice is cancelling it once |
| Orders.CancelledCommute | src/components/OrderHistory.tsx:42-44 | cancels of two orders can be applied in either order |
| Orders.CancelledAbsent | src/components/OrderHistory.tsx:42-44 | a cancel of an id no loaded order has changes nothing |
| Orders.CancelledNotCancellable | src/components/OrderRow.tsx:61 | after a local cancel, no order with that id offers the cancel button |
| Orders.OrderHistory.constructor | src/components/OrderHistory.tsx:14-16 | no orders, no open order, an empty item cache |
| Orders.OrderHistory.LoadOrders | src/components/OrderHistory.tsx:27-30 | the list becomes exactly the fetched rows, and a failed fetch empties it; the rest of the state is kept |
| Orders.OrderHistory.HandleFetchOrderItems | src/components/OrderHistory.tsx:32-35 | the cache entry for the order is set to the fetched rows and every other entry is kept |
| Orders.OrderHistory.HandleCancelOrder | src/components/OrderHistory.tsx:37-57 | on success the order is marked cancelled locally and a plain toast shows; on failure nothing changes and a destructive toast shows |
| Orders.OrderHistory.ToggleOrderDetails | src/components/OrderHistory.tsx:59-68 | toggling the open order closes it; opening another fetches its items exactly when the cache has no entry for it, and cached entries are never overwritten |
| Search.LowerChar | src/pages/ProductsPage.tsx:52-54 | upper-case ASCII letters map to their lower-case letters and every other character is kept |
| Search.Lower | src/pages/ProductsPage.tsx:52-54 | `toLowerCase` keeps the length and lower-cases each character |
| Search.LowerIdempotent | src/pages/ProductsPage.tsx:52-54 | lower-casing twice is lower-casing once |
| Search.LowerSlug | src/pages/ProductsPage.tsx:54 | category names are already lower case |
| Search.Includes | src/pages/ProductsPage.tsx:52-54 | `includes` is true exactly when the query occurs at some position |
| Search.Matches | src/pages/ProductsPage.tsx:51-55 | the search test: the lower-cased query occurs in the lower-cased title, description or category; a definition over `Lower` and `Includes` |
| Search.MatchesIgnoresQueryCase | src/pages/ProductsPage.tsx:52-54 | the search ignores the case of the query |
| Search.MatchesOwnCategory | src/pages/ProductsPage.tsx:54 | every product matches its own category's name |
| Search.Narrowed | src/pages/ProductsPage.tsx:40-59 | with a category the shown products are exactly the catalog's products of that category, and with a query exactly those that match; the list order is kept; with neither the page's list is shown unchanged |
| Search.SearchOwnCategory | src/pages/ProductsPage.tsx:45-56 | searching for a category's name with that category selected shows the whole category |
| Search.FilterAll | src/pages/ProductsPage.tsx:51-55 | a filter every element passes keeps the whole list |
| Search.ProductsPage.constructor | src/pages/ProductsPage.tsx:23-38 | after mount the page lists the whole catalog, takes the category from the URL, takes the search text from the URL when it is truthy, and shows the filtered list |
| Search.ProductsPage.ApplyFilters | src/pages/ProductsPage.tsx:40-59 | the shown list becomes `Narrowed` of the page's inputs, and the inputs are kept |
| Search.ProductsPage.SetSearchQuery | src/pages/ProductsPage.tsx:81 | the query is replaced and the shown list recomputed |
| Search.ProductsPage.SetCategory | src/pages/ProductsPage.tsx:61-63 | the category is replaced and the shown list recomputed |
| Search.ProductsPage.SearchParamChanged | src/pages/ProductsPage.tsx:33-38 | only a truthy URL search value replaces the query; the shown list is recomputed |
| Search.ProductsPage.ClearFilters | src/pages/ProductsPage.tsx:130-133 | empty query, no category, and the whole page list shown |
| Categories.CountOfIsFilterSize | src/pages/CategoriesPage.tsx:31-34 | a category's tally equals the size of that category's filter |
| Categories.CountOfPositive | src/pages/CategoriesPage.tsx:31-34 | a tally is positive exactly when some product has that category |
| Categories.CountsCoverCatalog | src/pages/CategoriesPage.tsx:31-34 | the three tallies add up to the number of products |
| Categories.ProductCounts | src/pages/CategoriesPage.tsx:31-34 | the `reduce` gives a key exactly for each category that occurs, holding that category's product count (at least 1) |
| Categories.TallyStep | src/pages/CategoriesPage.tsx:32 | one step of the `reduce` turns a tally of a prefix into a tally of the next prefix |
| Categories.CountOfPositiveEverywhere | src/pages/CategoriesPage.tsx:31-34 | for every key, a tally is positive exactly when that category occurs |
| Categories.CountOfPrefix | src/pages/CategoriesPage.tsx:32 | extending a prefix by one product adds 1 to that product's category only |
| Categories.DisplayedCount | src/pages/CategoriesPage.tsx:62 | `productCounts[slug] \|\| 0`: a missing key shows 0, and a present non-zero key shows its count |
| Categories.CardCounts | src/pages/CategoriesPage.tsx:44-62 | each category card shows its category's product count, and the three add up to the catalog size |
| Checkout.SumFrom | supabase/functions/create-checkout/index.ts:46-47 | the `reduce` as a left fold over the lines; no contract of its own, `SumFromIsTotal` states what it computes |
| Checkout.SumFromIsTotal | supabase/functions/create-checkout/index.ts:46-47 | the `reduce` from any start adds the cart total to it |
| Checkout.TotalAmount | supabase/functions/create-checkout/index.ts:46-47 | the order total equals the cart's own total (`Cart.Total`) |
| Checkout.LineItems | supabase/functions/create-checkout/index.ts:50-61 | one Stripe line item per cart line, in order, with its name, description, image, unit amount and quantity |
| Checkout.ChargedIsTotal | supabase/functions/create-checkout/index.ts:46-61 | the Stripe session charges exactly the order total |
| Checkout.OrderItemRows | supabase/functions/create-checkout/index.ts:91-96 | one `order_items` row per cart line, in order, all under the new order's id |
| Checkout.RowsTotalIsTotal | supabase/functions/create-checkout/index.ts:76-96 | the recorded rows add up to the recorded order total |
| Checkout.StripBearer | supabase/functions/create-checkout/index.ts:38 | `replace("Bearer ", "")`: a header without the prefix comes back unchanged; otherwise exactly the first occurrence of the prefix is cut out and the rest kept; the result is never longer |
| Checkout.StripBearerToken | supabase/functions/create-checkout/index.ts:38 | a header `Bearer <token>` yields the token |
| Checkout.StripBearerNoSpace | supabase/functions/create-checkout/index.ts:38 | a header without a space is passed on unchanged |
| Checkout.HandleCheckout | supabase/functions/create-checkout/index.ts:11-116 | a preflight gets the bare 200 and no call; otherwise the calls are made in order (user lookup, session, order, rows) with the exact arguments, a step that succeeds always leads to the next call, a failing step ends with 500, that step's message and no later call, and a request whose every step succeeds gets 200 with the session URL after exactly four calls; status 200 occurs only then |
| Checkout.CheckoutAmountsAgree | supabase/functions/create-checkout/index.ts:46-104 | the order total, the Stripe charge and the sum of the recorded rows all equal the cart's total |

## Left out

- Floating-point prices are not modelled. The model uses whole cents, so
  `Math.round(price * 100)` is the price itself, and the `toFixed`
  formatting of the pages is left out.
- The stored order total is in cents. The source stores dollars, one
  hundredth of the Stripe unit amounts.
- Case folding is ASCII only. `toLowerCase` on other letters is not
  modelled.
- React's scheduling is not modelled. Each effect runs to completion right
  after the state change that triggers it.
- In the cart, the save effect that first runs at mount with an empty list
  (and, for a stored cart that parses, briefly removes the key) is not
  modelled. For a stored value that does not parse the removal is
  permanent, and `Cart.CartStore.Load` models it.
- Concurrent async handlers and the stale `orders` closure in the cancel
  handler are not modelled. Each handler sees the current state.
- Realtime subscriptions and their teardown (wishlist and orders) are not
  modelled. A change notification is one more call of the fetch.
- Supabase, Stripe and the auth service appear only as their replies
  (inputs) and their requests (outputs). Environment variables, the client
  set-up and the Stripe API version are left out.
- The JSON encoding of the cart and of the request body is abstract:
  - `StoredCart` holds parsed lines or text that does not parse;
  - `Body` holds parsed lines or the parse error's message;
  - a body that parses but is not a list of lines is not modelled.
- The response's CORS headers are reduced to a JSON-content flag.
- The cart toasts and all console logging are left out. The wishlist and
  order toasts are modelled as values.
- View code is left out: layout, navigation, the notifications popover,
  the auth and support pages.
- Catalog.AllProducts is the catalog by definition, so it has no contract
  of its own.
- Catalog.FeaturedProducts is `Featured` applied to the catalog, so its
  contract is that of `Featured`.
- Catalog.ProductById is a one-line application of `FindById` to the
  catalog. Its contract is that of `FindById` (and `ProductByIdAt`).
- Catalog.ProductsByCategory is a one-line application of `ByCategory` to
  the catalog. Its contract is that of `ByCategory`.
- The post-payment status update on the success page is not part of this
  model. It is outside the checkout function.
- Cart.SaveLoadRoundTrip holds by the definitions alone, and adds no proof
  of its own.
- Cart.CartStore.AddItem promises its count and total changes only for a
  well-formed cart. With two lines for one product the source's `map` bumps
  both, so the count rises by more than 1. The total's increase is promised
  only when the existing line holds the same product record. With a stale
  record the source adds the stored line's price, which `AddExistingSums`
  states.
- Cart.CartStore.RemoveItem promises its count and total changes for a
  product in the cart only when the cart is well formed, for the same
  reason.
- Seqs.Filter, Cart.Count, Cart.Total, Checkout.SumFrom, Orders.CanCancel,
  Search.Matches are definitions without an ensures of their own.
  Contracts on these sums slow every cart proof that uses them, so their
  laws are stated as the lemmas named in their rows.
