# Storefront cart, modelled in Dafny

This project models the client-side shopping cart of a Next.js storefront.
The cart is an ordered list of line items `{productId, name, price, quantity}`.
The cart page keeps it in component state and mirrors it to the `"cart"` key of
the browser's local storage. The navigation bar reads that key to show a badge
with the number of items. It also chooses its links from the logged-in user and
that user's role.

Files:

- `wrappers.dfy` — `Option`, for a storage key that may be absent and a user who may be logged out.
- `cart.dfy` — module `Cart`. It holds the line item and the order-request entry as datatypes, and the list transforms of the cart page as pure functions: load, quantity update, removal, total and checkout payload. Lemmas relate them to each other.
- `cart_page.dfy` — module `CartPage`. Class `CartStore` holds the page state (`items`), the stored copy (`stored`) and the `loading` flag. Its methods are the page's handlers. `LoadCart` copies storage into the page. The quantity update and removal write the new list to both places. A placed order clears both places, and a failed one changes neither. The module also holds the checkout-button condition.
- `navbar.dfy` — module `Navbar`. It holds the badge count as a sum of quantities over the stored cart, and the link group as a function of the user and the count.

Modelling choices:

- Money is an integer number of cents. An `int` stands for a product's `_id` value; the code only compares ids with `===`, and the model only compares them for equality.
- The stored copy is `Option<seq<CartItem>>`. `None` is the absent key: successful checkout calls `localStorage.removeItem`, and a later read falls back to `"[]"`. Serialisation is the identity.
- The sums (`Total`, `QuantitySum`) accumulate from the first line to the last, as `reduce` does.
- The order request is an input: `placed` says whether `POST /orders` succeeded. Checkout is split at its `await` into `BeginCheckout` and `FinishCheckout`. This lets other handlers run while the request is outstanding, as they can on the page.
- Lines are added only by the add-to-cart handler of the product detail page (src/app/products/[id]/page.js:44-62), which is outside this model; it merges by productId, raising the quantity of an existing line or appending a new one. The cart page never checks the stored data, so no function here assumes distinct ids. `UniqueIds` is an invariant that removal and quantity update are proved to keep.

A malformed stored value is not read as an empty cart: `JSON.parse` throws at src/app/cart/page.js:25 and src/components/Navbar.js:24, and nothing catches it. The model has no malformed values.

## Model

| member | source | states |
|---|---|---|
| `Cart.Load` | src/app/cart/page.js:24-27 | An absent key reads as the empty cart. A stored list reads back unchanged. |
| `Cart.SetQuantity` | src/app/cart/page.js:32-34 | Same length and order. Each line keeps its id, name and price. Lines of `p` get quantity `q`, and every other line keeps its quantity. |
| `Cart.Remove` | src/app/cart/page.js:41-43 | The length never grows, and no line of `p` remains. |
| `Cart.RemoveMembers` | src/app/cart/page.js:41-43 | A line survives removal exactly when it was in the cart and its id is not `p`. |
| `Cart.RemoveIds` | src/app/cart/page.js:41-43 | After removal the cart holds the old product ids minus `p`. |
| `Cart.WithId` | src/app/cart/page.js:41-43 | Every line it returns has id `p`, and it never has more lines than the cart. |
| `Cart.RemovePartition` | src/app/cart/page.js:41-43 | The lines removal keeps and the lines `WithId` returns together are exactly the cart's lines (as multisets), so `WithId` is the cart's own lines of `p`. |
| `Cart.Total` | src/app/cart/page.js:48-53 | 0 for the empty cart. |
| `Cart.TotalNonNegative` | src/app/cart/page.js:48-53 | The total is never negative when prices are non-negative and quantities positive. |
| `Cart.Payload` | src/app/cart/page.js:58-64 | One request entry per line, in cart order. Each carries that line's productId, quantity and price and nothing else. |
| `Cart.TotalAppend` | src/app/cart/page.js:49-52 | The total of two carts placed end to end is the sum of their totals. |
| `Cart.TotalCons` | src/app/cart/page.js:49-52 | The left-to-right accumulation equals the first line's price × quantity plus the total of the rest. |
| `Cart.TotalAfterRemove` | src/app/cart/page.js:40-53 | Removing `p` lowers the total by exactly the price × quantity of the removed lines. |
| `Cart.TotalAfterSetQuantity` | src/app/cart/page.js:29-53 | After the update, the total is the other lines' total plus `q` times the prices of the lines of `p`. |
| `Cart.PayloadTotal` | src/app/cart/page.js:48-64 | The order request is worth exactly the total shown on the page. |
| `Cart.RemoveAbsent` | src/app/cart/page.js:41-43 | Removing a product that is not in the cart changes nothing. |
| `Cart.RemoveIdempotent` | src/app/cart/page.js:41-43 | Removing a product twice gives the same cart as removing it once. |
| `Cart.RemoveAppend` | src/app/cart/page.js:41-43 | Removal distributes over concatenation, so the lines it keeps stay in their original order. |
| `Cart.RemoveLength` | src/app/cart/page.js:41-43 | The kept lines and the dropped lines together number exactly the original lines. |
| `Cart.RemoveKeepsUnique` | src/app/cart/page.js:41-43 | If product ids were distinct before removal, they still are. |
| `Cart.SetQuantityIds` | src/app/cart/page.js:32-34 | A quantity update neither adds nor drops a product id. |
| `Cart.SetQuantityKeepsUnique` | src/app/cart/page.js:32-34 | If product ids were distinct before the update, they still are. |
| `Cart.SetQuantityKeepsPositive` | src/app/cart/page.js:30-34 | With the guard's `q >= 1`, every quantity stays at least one. |
| `Cart.SetQuantityIdempotent` | src/app/cart/page.js:32-34 | Applying the same update twice gives the same cart as applying it once. |
| `Cart.SetQuantityAbsent` | src/app/cart/page.js:32-34 | Updating a product that is not in the cart changes nothing. |
| `Cart.RemoveAfterSetQuantity` | src/app/cart/page.js:29-46 | Removing a product after changing its quantity gives the same cart as removing it directly. |
| `Cart.WorkedExample` | src/app/cart/page.js:29-53 | Cart [A, price 10, qty 2]: setting A to 3 gives total 30, and removing A then leaves an empty cart with total 0. |
| `CartPage.CheckoutEnabled` | src/app/cart/page.js:175 | The checkout button is enabled exactly when nothing is loading and the cart has a line. The request then has at least one entry. |
| `CartPage.CartStore.constructor` | src/app/cart/page.js:10-11 | A mounted page starts with an empty list, not loading, and storage as found. |
| `CartPage.CartStore.LoadCart` | src/app/cart/page.js:24-27 | The page shows what storage holds, or the empty cart when the key is absent. Storage is not touched. |
| `CartPage.CartStore.UpdateQuantity` | src/app/cart/page.js:29-38 | With `q < 1`, neither page nor storage changes. Otherwise the page shows `SetQuantity` of the old list, and storage holds the same list. It keeps positive quantities, distinct ids and the set of ids. |
| `CartPage.CartStore.RemoveItem` | src/app/cart/page.js:40-46 | The page shows `Remove` of the old list, and storage holds the same list. `p` is gone and the total drops by the removed lines. It keeps positive quantities and distinct ids. |
| `CartPage.CartStore.BeginCheckout` | src/app/cart/page.js:55-66 | Raises `loading` and builds the request from the current cart. Cart and storage are untouched, and the request is worth the cart total. |
| `CartPage.CartStore.FinishCheckout` | src/app/cart/page.js:66-80 | Success removes the key and empties the page. Failure leaves both as they were. `loading` drops either way. |
| `CartPage.CartStore.Checkout` | src/app/cart/page.js:55-81 | The request is the payload of the cart at the click. Success empties the page and storage, so the next load is empty. Failure leaves both unchanged. |
| `CartPage.UpdateDuringCheckout` | src/app/cart/page.js:55-81 | A quantity change made while the request is outstanding is not sent, and a placed order clears it away. |
| `Navbar.QuantitySum` | src/components/Navbar.js:25 | 0 for the empty cart. |
| `Navbar.QuantitySumAtLeastLength` | src/components/Navbar.js:25 | When every quantity is positive, the count is at least the number of lines. |
| `Navbar.CartCount` | src/components/Navbar.js:22-28 | The count is the sum of stored quantities, and 0 when the key is absent. With positive quantities it is positive exactly when the stored cart has a line. |
| `Navbar.Badge` | src/components/Navbar.js:51-55 | The badge is shown, with the count, exactly when the count is positive. |
| `Navbar.NavEntries` | src/components/Navbar.js:42-83 | Logged out: exactly Products, Login, Register. Logged in: exactly five entries, six for an admin, with Products, Cart, My Orders first and the greeting and Logout last. Reports appears exactly for a user whose role is "admin". The badge shows exactly for a logged-in user with a positive count. |
| `Navbar.QuantitySumAppend` | src/components/Navbar.js:25 | The count of two carts placed end to end is the sum of their counts. |
| `Navbar.CountAfterRemove` | src/components/Navbar.js:22-28 | After removing `p`, the count drops by exactly the quantities of its lines. |
| `Navbar.CountAfterSetQuantity` | src/components/Navbar.js:22-28 | After a quantity update, each line of `p` contributes exactly `q` to the count. |
| `Navbar.CountAfterCheckout` | src/components/Navbar.js:24-25 | Once checkout has removed the key, the count is 0 and no badge is shown. |
| `Navbar.BadgeIffNonEmpty` | src/components/Navbar.js:47-56 | With positive quantities, a logged-in user sees the badge exactly when the stored cart has a line. |

## Left out

- Rendering, router navigation and `alert`: presentation, including the redirect of a logged-out visitor away from the cart page and the failure message text.
- The HTTP call `api.post("/orders", …)`: its outcome is the `placed` input.
- `localStorage` and JSON encoding: storage is a field, and serialisation is the identity. A malformed stored value, on which the source throws, is not modelled.
- Floating-point prices and `toFixed(2)` display: prices are integer cents.
- Refresh timing of the navigation bar's count: the source recomputes it on mount and on the browser `storage` event, which fires only for other tabs. The model gives the count as a function of the stored cart at the moment it is read.
- The `typeof window` guard in the count update: server-side rendering is outside the model.
- Cross-tab writes to the same key: concurrency between tabs is not modelled.
- The brand link to the home page: it is static and always shown, so it is not part of the modelled link group.
- The add-to-cart handler of the product detail page (src/app/products/[id]/page.js:44-62): it lives outside the modelled files; it merges by productId, so it keeps ids distinct, but no model operation adds lines.
- The products, orders, reports and home pages, and the rest of the product detail page: fetch-and-render views with no cart logic.
