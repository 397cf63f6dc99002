# Supermarket storefront cart logic, in Dafny

A model of the cart logic of a React storefront, with proofs about it. The storefront keeps two carts:

- **Guest cart.** It lives on the device, in the storage entry `guest_cart`. It is an ordered list of `(productSlug, quantity)` lines with at most one line per slug.
- **Server cart.** It belongs to a signed-in user and is read through the `["cart"]` query cache.

The guest cart is sent to the server, keyed by product id, when its owner signs in or signs up.

Around the two carts the model covers the local cart store, the stock verdicts and the header badge. It also covers the decisions the pages take:

- the cart page's quantity buttons and checkout gate;
- the checkout's guards and payment paths;
- the product card's and product page's add-or-update logic;
- where login and sign-up send the user;
- the product list's filter query string;
- the order pages' loading, screens and display helpers.

**Form of the model**

| source form | model form |
|---|---|
| Stores and components that update state | classes whose fields are the state |
| List and string helpers | functions |

- Each handler is a method. Its `ensures` ties the new state, and an ordered trace of user-visible effects, to specification functions of the old state.
- The properties are lemmas about those functions.
- Every external answer is a parameter of the handler that needs it: a product lookup, a server response, a payment outcome.

**Representation**

- Money is whole paise, so ₹500 is 50000.
- A JavaScript value that may be missing is written in one of two ways:
  - `""` or `0`, when the code only ever tests it for truthiness;
  - an `Option`, when `null` and `""` behave differently.

**Modules**

| module | source |
|---|---|
| `GuestCart` | `src/services/cart.ts` |
| `LocalCart` | `src/store/cartStore.ts` |
| `Totals` | the sums and the delivery fee |
| `CartCount` | `src/hooks/useCartCount.ts` |
| `CartQueries` | `src/hooks/useCart.ts` |
| `Validation` | `src/hooks/useCartValidation.ts` |
| `Auth` | `src/store/authStore.ts` |
| `Effects` | toasts, navigation and requests, in order |
| `CartPage` | `src/pages/Cart.tsx` |
| `Checkout` | `src/pages/Checkout.tsx` |
| `ProductCard` | `src/components/product/ProductCard.tsx` |
| `ProductDetail` | `src/pages/ProductDetail.tsx` |
| `Login` | `src/pages/Login.tsx` |
| `Signup` | `src/pages/Signup.tsx` |
| `Products` | `src/pages/Products.tsx` |
| `Orders` | `src/pages/Orders.tsx` |

`Wrappers`, `Text` and `Domain` hold the shared types and string helpers.

**Code as written**

The model follows the code where it differs from its comments or from the obvious reading:

- Stock validation judges each line by the product record already inside the cart line. It fetches nothing, whatever the comments around it say.
- The session counts as signed in exactly when the token is truthy, so a stored empty token signs nobody in.
- When a thrown login error has a `response` key, the error's own `message` is never consulted.
- A failed signed-in `loadCart` empties the local list.
- The Products inputs are re-copied from the URL only when a watched applied value (a filter or the sort, but not the search) differs from the last one recorded.
- A failed order load keeps whatever order was shown before.

## Model

| member | source | states |
|---|---|---|
| GuestCart.IndexOf | src/services/cart.ts:31 | the first line with the slug: that line matches, no earlier one does; no result exactly when no line matches |
| GuestCart.AddLine | src/services/cart.ts:29-39 | a present slug keeps the length; an absent slug appends exactly one line `(slug, quantity)` at the end; lines of other slugs are unchanged |
| GuestCart.AddLineQuantities | src/services/cart.ts:31-37 | adding raises the slug's held quantity, and the total count, by exactly `quantity`; every other slug's quantity is unchanged |
| GuestCart.AddLineKeepsUnique | src/services/cart.ts:31-37 | add keeps one line per slug; it adds no line for a present slug and one line for a new slug |
| GuestCart.AddTwiceMerges | src/services/cart.ts:31-37 | adding 3 then 2 of one slug to an empty cart gives a single line and a count of 5 |
| GuestCart.RemoveSlug | src/services/cart.ts:58 | the filter never grows the list; every kept line was in the list and has another slug |
| GuestCart.RemoveAbsent | src/services/cart.ts:56-60 | removing an absent slug leaves the list as it was |
| GuestCart.RemovePresent | src/services/cart.ts:56-60 | on a list with one line per slug, removal deletes exactly the slug's line and keeps the others in order |
| GuestCart.RemoveKeepsUnique | src/services/cart.ts:56-60 | removal keeps one line per slug |
| GuestCart.RemoveQuantities | src/services/cart.ts:56-60 | after removal the slug is absent with quantity 0, and every other slug's quantity is unchanged |
| GuestCart.StoredAfterUpdate | src/services/cart.ts:42-54 | updating an absent slug (no stored list, or no line with the slug) leaves storage exactly as it was; a present slug always writes the updated list |
| GuestCart.UpdateNonPositiveIsRemove | src/services/cart.ts:47-48 | an update with quantity ≤ 0 is the removal of the slug |
| GuestCart.UpdatePositive | src/services/cart.ts:49-51 | a positive update overwrites only that slug's line, in place and keeping the order; the slug then holds exactly the new quantity and one line per slug is kept |
| GuestCart.SetToZeroRemovesOneLine | src/services/cart.ts:46-48 | setting a present slug to 0 deletes exactly one line and the slug disappears |
| GuestCart.ApplyKeepsWellFormed | src/services/cart.ts:29-64 | each of add (positive), update, remove and clear keeps one line per slug and all quantities ≥ 1 |
| GuestCart.OperationsKeepWellFormed | src/services/cart.ts:29-64 | any sequence of such operations keeps one line per slug and all quantities ≥ 1 |
| GuestCart.SyncItemsAppend | src/services/cart.ts:105-118 | the batch of a concatenation is the concatenation of the batches, so the guest order is kept |
| GuestCart.ResolveLines | src/store/cartStore.ts:35-63 | a guest load shows at most one line per guest line |
| GuestCart.SyncItems | src/services/cart.ts:105-118 | the sync batch has at most one item per guest line |
| GuestCart.RemoveKeepsOthers | src/services/cart.ts:56-60 | removing one slug leaves the quantity held under every other slug |
| GuestCart.SyncItemsAllResolvable | src/services/cart.ts:105-118 | when every slug is non-blank and resolves, there is one `{productId, quantity}` per line, at the line's position |
| GuestCart.SyncAgreesWithResolve | src/services/cart.ts:105-118 | the batch posts exactly the product ids and quantities of the lines a guest cart page would show, in the same order |
| GuestCart.FindLine | src/services/cart.ts:31 | the loop finds the same index as `IndexOf` |
| GuestCart.ResolveGuestCart | src/store/cartStore.ts:35-63 | the load loop yields `ResolveLines`: non-blank, resolvable lines with their products, in guest order |
| GuestCart.CollectSyncItems | src/services/cart.ts:105-118 | the sync loop yields `SyncItems` of the guest lines |
| GuestCart.GuestCartStore.GetGuestCart | src/services/cart.ts:24-27 | absent storage reads as the empty list; otherwise the stored list |
| GuestCart.GuestCartStore.AddToGuestCart | src/services/cart.ts:29-40 | the stored list becomes `AddLine` of the old one; the default quantity is 1 |
| GuestCart.GuestCartStore.UpdateGuestCartItem | src/services/cart.ts:42-54 | storage becomes `StoredAfterUpdate`: untouched for an absent slug |
| GuestCart.GuestCartStore.RemoveFromGuestCart | src/services/cart.ts:56-60 | the stored list becomes the old one without the slug's lines |
| GuestCart.GuestCartStore.ClearGuestCart | src/services/cart.ts:62-64 | the key is deleted and the cart reads as empty |
| GuestCart.GuestCartStore.SyncGuestCart | src/services/cart.ts:100-122 | posts `SyncItems` of the stored lines; the guest cart is cleared only when the post returns, and a failed post leaves it intact |
| Totals.SumAppend | src/store/cartStore.ts:211-220 | the fold over a concatenation is the sum of the folds |
| Totals.SumUpdate | src/store/cartStore.ts:211-220 | replacing one element changes the fold by the difference of the two terms |
| Totals.SubtotalAndCountAppend | src/store/cartStore.ts:211-220 | appending a line adds price × quantity to the total and its quantity to the count |
| Totals.SubtotalNonNegative | src/store/cartStore.ts:211-220 | with non-negative prices and quantities, neither total is negative |
| Totals.Subtotal | src/store/cartStore.ts:211-216 | the total of the empty cart is 0; the checkout page's `getTotal` is the same fold (also src/pages/Checkout.tsx:110-117) |
| Totals.ItemCount | src/store/cartStore.ts:218-220 | the count of the empty cart is 0 |
| Totals.DeliveryFee | src/pages/Cart.tsx:188 | the fee is 0 exactly when the subtotal is at least ₹500; otherwise it is ₹50, on the cart page and at checkout alike (also src/pages/Checkout.tsx:236) |
| Totals.FreeDeliveryHint | src/pages/Cart.tsx:442-445 | the hint shows only below ₹500; its gap is positive and is exactly what reaches ₹500 |
| Totals.HintMatchesFee | src/pages/Cart.tsx:188 | the hint shows exactly when a fee is charged, and adding the gap makes delivery free (also src/pages/Cart.tsx:442-445) |
| LocalCart.IndexOfId | src/store/cartStore.ts:127-157 | the first line with the product id: that line matches, no earlier one does; no result exactly when no line matches |
| LocalCart.KeepPositive | src/store/cartStore.ts:136 | every line kept has a positive quantity |
| LocalCart.RemoveById | src/store/cartStore.ts:162 | no line with the product id is left |
| LocalCart.RemovedIdsUnique | src/store/cartStore.ts:162 | removal by id keeps one line per product id |
| LocalCart.AddKeepsInSync | src/store/cartStore.ts:88-108 | a guest `addItem` does to the local list what it does to the stored guest cart, so the two stay in step |
| LocalCart.RemoveMirrors | src/store/cartStore.ts:157-163 | removing by id from the list and by key from storage remove the same lines |
| LocalCart.RemoveKeepsInSync | src/store/cartStore.ts:156-164 | a guest `removeItem` of a present line keeps list and storage in step |
| LocalCart.KeepPositiveAfterSet | src/store/cartStore.ts:131-137 | for quantity ≤ 0, setting and then dropping non-positive lines is removal by id; for positive quantities it is a plain set |
| LocalCart.UpdateKeepsInSync | src/store/cartStore.ts:126-138 | a guest `updateQuantity` of a present line keeps list and storage in step |
| LocalCart.LoadMirrors | src/store/cartStore.ts:35-63 | a guest load through a catalog that contains every line reads the guest cart back exactly |
| LocalCart.ItemCountIsGuestCount | src/store/cartStore.ts:218-220 | the list's item count equals the count of the guest lines it mirrors |
| LocalCart.AddRaisesItemCount | src/store/cartStore.ts:85-108 | a guest `addItem` of `quantity` raises `getItemCount()` by exactly `quantity` (also src/store/cartStore.ts:218-220) |
| LocalCart.CartStore.LoadCart | src/store/cartStore.ts:28-83 | guest: the resolvable guest lines with their products; signed in: the fetched items, or `[]` when the fetch fails; loading ends false |
| LocalCart.CartStore.AddItem | src/store/cartStore.ts:85-121 | a guest add goes to storage under slug-or-id and updates the list; a signed-in add reloads only when the command succeeds |
| LocalCart.CartStore.UpdateQuantity | src/store/cartStore.ts:123-151 | guest: nothing for an absent id, otherwise the update in storage and in the list; signed in: a reload on success |
| LocalCart.CartStore.RemoveItem | src/store/cartStore.ts:153-177 | guest: nothing for an absent id, otherwise removal under the line's key in storage and by id in the list; signed in: a reload on success |
| LocalCart.CartStore.ClearCart | src/store/cartStore.ts:179-197 | guest: storage key deleted and list emptied; signed in: a reload on success |
| LocalCart.CartStore.RunServerCommand | src/store/cartStore.ts:112-150 | a server command that goes through reloads the server lines; one that throws leaves the lines; loading ends |
| LocalCart.CartStore.SyncGuestCart | src/store/cartStore.ts:199-209 | posts the guest batch; on success the guest cart is cleared and the list is reloaded; on failure both are unchanged |
| CartCount.AuthenticatedCount | src/hooks/useCartCount.ts:14-20 | 0 when signed out or when no cart is cached |
| CartCount.GuestCountQuery | src/hooks/useCartCount.ts:25-29 | 0 when signed in |
| CartCount.GuestBadge | src/hooks/useCartCount.ts:23-34 | a guest's badge is the sum of the guest quantities |
| CartCount.SignedInBadge | src/hooks/useCartCount.ts:14-34 | a signed-in user's badge is the server cart's item count, whatever the guest query holds |
| CartCount.GuestBadgeNonNegative | src/hooks/useCartCount.ts:26-34 | a guest badge is never negative while all stored quantities are ≥ 1 |
| CartCount.BadgeMatchesStore | src/hooks/useCartCount.ts:26-28 | for a guest, the badge equals the cart store's `getItemCount()` while the store mirrors the guest cart (also src/store/cartStore.ts:218-220) |
| CartCount.GuestAddRaisesBadge | src/hooks/useCartCount.ts:23-34 | a guest add of `quantity` raises the badge by exactly `quantity` |
| CartQueries.AddQuantity | src/hooks/useCart.ts:27 | `quantity \|\| 1`: a non-zero quantity is sent unchanged, and 0 is sent as 1 |
| CartQueries.WriteBackEventsShape | src/hooks/useCart.ts:28-36 | a snapshot is written exactly when the response has a cart; the last two events are invalidate and then refetch |
| CartQueries.WriteBackSnapshot | src/hooks/useCart.ts:30-55 | after a successful add or update, the cache holds exactly the response when it carries a cart, and is unchanged otherwise |
| CartQueries.QueryCache.RunCartQuery | src/hooks/useCart.ts:6-15 | the query runs only when signed in; a failed fetch keeps the cached data |
| CartQueries.QueryCache.WriteBack | src/hooks/useCart.ts:28-58 | the cache log grows by the write-back events of the response, and the snapshot is what they leave |
| CartQueries.QueryCache.AddToCart | src/hooks/useCart.ts:17-38 | sends `quantity \|\| 1`; only success writes back, and a failure leaves cache and log unchanged |
| CartQueries.QueryCache.UpdateCartItem | src/hooks/useCart.ts:40-61 | sends the quantity as given; only success writes back, and a failure leaves the cache unchanged |
| CartQueries.QueryCache.RemoveFromCart | src/hooks/useCart.ts:63-73 | never writes a snapshot; success only invalidates and refetches |
| CartQueries.QueryCache.ClearCart | src/hooks/useCart.ts:75-84 | never writes a snapshot; success only invalidates |
| CartQueries.GuestItems | src/hooks/useCart.ts:91-97 | `[]` when signed in; the stored guest cart otherwise |
| CartQueries.GuestAddItem | src/hooks/useCart.ts:98-104 | no-op when signed in; otherwise a guest add under slug-or-id |
| CartQueries.GuestUpdateQuantity | src/hooks/useCart.ts:105-109 | no-op when signed in; otherwise the guest update |
| CartQueries.GuestRemoveItem | src/hooks/useCart.ts:110-114 | no-op when signed in; otherwise the guest removal |
| CartQueries.GuestClearCart | src/hooks/useCart.ts:115-119 | no-op when signed in; otherwise the storage key is deleted |
| Validation.AvailableStock | src/hooks/useCartValidation.ts:33 | `stockQuantity \|\| stock \|\| 0`: a non-zero `stockQuantity` wins; otherwise the legacy `stock`; 0 exactly when both figures are 0 |
| Validation.ValidationsOf | src/hooks/useCartValidation.ts:20-59 | never more verdicts than lines |
| Validation.ValidationsAppend | src/hooks/useCartValidation.ts:22-42 | the verdicts of a concatenation are those of the parts in order, so input order is kept |
| Validation.ValidationsAllJudged | src/hooks/useCartValidation.ts:22-42 | when every line has a product with an id, there is one verdict per line, at the line's position; it is that line's verdict and copies its product id and requested quantity |
| Validation.StockIssuesIff | src/hooks/useCartValidation.ts:36-42 | the verdicts report a stock issue exactly when some judged line is out of stock or asks for more than is available (also src/pages/Cart.tsx:194-196) |
| Validation.InsufficientExample | src/hooks/useCartValidation.ts:33-41 | 5 requested with 2 left is insufficient but not out of stock, and reports 2 available |
| Validation.NoStockExample | src/hooks/useCartValidation.ts:33-41 | with no stock figure, any request ≥ 1 is both out of stock and insufficient |
| Validation.FallbackAgrees | src/hooks/useCartValidation.ts:43-55 | the `catch` branch gives the same verdict as the main branch for a line with a product |
| Validation.ValidateCartItems | src/hooks/useCartValidation.ts:19-60 | the loop yields `ValidationsOf` the lines |
| Effects.AddFailureLevel | src/components/product/ProductCard.tsx:199-206 | a warning exactly when the message mentions stock or insufficiency, ignoring case; otherwise an error |
| Effects.AddFailureNotice | src/components/product/ProductCard.tsx:194-206 | a failed add shows exactly one toast |
| Effects.AddFailureNoticeClassified | src/components/product/ProductCard.tsx:194-206 | the toast shows the response's error or "Failed to add to cart", as a warning exactly when that text is a stock message |
| Effects.AddFailureLevelIgnoresCase | src/components/product/ProductCard.tsx:199-202 | lower-casing the message first changes nothing |
| Effects.StockAnywhereWarns | src/components/product/ProductCard.tsx:199-202 | a message with "stock" anywhere, in any case, is a warning |
| Domain.ResponseErrorOr | src/components/product/ProductCard.tsx:195-197 | the response body's error when there is one, else the fallback |
| Auth.AuthStore.constructor | src/store/authStore.ts:14-22 | starts from the stored entries; signed in exactly when the stored token is truthy |
| Auth.AuthStore.SetAuth | src/store/authStore.ts:24-28 | both entries are stored and the session is signed in; the invariant holds exactly when the token is non-empty |
| Auth.AuthStore.Logout | src/store/authStore.ts:30-40 | whatever the server answers, both entries are removed and the session is signed out |
| Auth.AuthStore.CheckAuth | src/store/authStore.ts:42-59 | no stored token: signed out with storage untouched; lookup succeeds: the user is stored and the session is signed in; lookup fails: both entries removed and signed out |
| Auth.AuthStore.SignOut | src/store/authStore.ts:36-57 | both stored entries are removed and the session is signed out, keeping the invariant |
| CartPage.FindValidation | src/pages/Cart.tsx:270-274 | the first verdict matching the line by id or by slug-or-id; none exactly when no verdict matches |
| CartPage.OwnVerdictStatus | src/pages/Cart.tsx:275-280 | a line that finds its own verdict is out of stock when no stock is available or its `stockQuantity` is 0; it is short when more is asked than is available, and shows the verdict's stock figure |
| CartPage.NoVerdictStatus | src/pages/Cart.tsx:275-280 | before any verdict, a line is out of stock exactly when its `stockQuantity` is 0; it is never short, and shows `stockQuantity` |
| CartPage.EachLineFindsOwnVerdict | src/pages/Cart.tsx:268-280 | when the shown lines have ids and cannot be mistaken for one another, each line finds the verdict computed for it, at its own position (also src/hooks/useCartValidation.ts:22-42) |
| CartPage.IncrementStaysWithinStock | src/pages/Cart.tsx:377-384 | when the "+" button is enabled, one more unit is not more than is available |
| CartPage.CheckoutGate | src/pages/Cart.tsx:194-196 | checkout is disabled exactly when some shown line is out of stock or asks for more than is available (also src/pages/Cart.tsx:455) |
| CartPage.LegacyStockDisagreement | src/pages/Cart.tsx:275-276 | with `stockQuantity` 0 and legacy `stock` 5, the line shows out of stock while checkout stays enabled (also src/hooks/useCartValidation.ts:33) |
| CartPage.CartView.LoadGuestCart | src/pages/Cart.tsx:57-87 | the shown guest lines are the resolvable guest lines with their products, in guest order, and loading ends |
| CartPage.CartView.HandleRemoveItem | src/pages/Cart.tsx:147-176 | marks the line first; a signed-in removal sends the command and, on success, only invalidates and refetches; a guest removal filters storage and reloads; the line is unmarked except after a signed-in success |
| CartPage.CartView.HandleUpdateQuantity | src/pages/Cart.tsx:101-145 | a quantity ≤ 0 is the removal, with the same effects, marking, guest storage, shown lines and cache as `HandleRemoveItem`; otherwise the line is marked, updated on the server (write-back only on success) or in the guest cart, and unmarked whatever the outcome |
| CartPage.ServerRemove | src/pages/Cart.tsx:151-165 | sends the remove command; success ticks the cart and refetches, failure shows the body's error or "Failed to remove item"; no snapshot is written |
| CartPage.ServerUpdate | src/pages/Cart.tsx:116-134 | sends the update command; success writes the response back and ticks the cart, failure shows the body's error or "Failed to update quantity" and leaves the cache |
| CartPage.MarkingDiscipline | src/pages/Cart.tsx:114-174 | every run marks the line first; an update always ends by unmarking it; a removal does so exactly unless it was a signed-in success |
| Checkout.FirstDefault | src/pages/Checkout.tsx:70 | the index of the first address marked default; none exactly when no address is marked |
| Checkout.DefaultAddress | src/pages/Checkout.tsx:69-71 | none exactly when there are no addresses; the first address marked default when there is one, as `find` takes it; otherwise the first address |
| Checkout.CorrectedIsAnAddress | src/pages/Checkout.tsx:78-86 | once an address exists, the corrected selection names one of them |
| Checkout.CorrectionKeepsValidAndSettles | src/pages/Checkout.tsx:78-86 | a selection that names an address is kept, and correcting twice changes nothing more |
| Checkout.NoAddressesNoCorrection | src/pages/Checkout.tsx:78-86 | with no addresses the selection is left alone |
| Checkout.PaymentFailure | src/pages/Checkout.tsx:199-209 | the payment failure is one notice, shown as info exactly when the thrown error's message is "Payment cancelled by user", else as an error |
| Checkout.GuardsReachNoServer | src/pages/Checkout.tsx:120-141 | with no address, an empty cart or a stock issue the run ends with an error notice (in that order of precedence) and sends nothing; a stock issue also navigates to the cart |
| Checkout.EnabledButtonPassesGuards | src/pages/Checkout.tsx:242-246 | when the Place Order button is enabled, the run's first step is the payment-order request (Razorpay) or the order request (cash on delivery) (also src/pages/Checkout.tsx:491-496, src/pages/Checkout.tsx:119-144) |
| Checkout.CompletionShape | src/pages/Checkout.tsx:186-221 | the completion starts with the order request; the cart is cleared only second and only after the order succeeded; success is reported exactly when both the order and the clear succeeded |
| Checkout.FailuresAreOneNotice | src/pages/Checkout.tsx:199-231 | each failure handler yields exactly one notice, never a success notice |
| Checkout.RazorpayShape | src/pages/Checkout.tsx:144-210 | when the payment order, key, window and verification all pass, the Razorpay path is those three steps then the completion; otherwise it stops after at most three of them with one non-success notice |
| Checkout.ClearOnlyAfterOrder | src/pages/Checkout.tsx:187-219 | on either path, a cart clear comes right after an order request that succeeded |
| Checkout.PlacedIff | src/pages/Checkout.tsx:119-232 | "Order placed successfully!" appears exactly when the run reached the order request and both the order and the clear succeeded |
| Checkout.CancelledIsInfo | src/pages/Checkout.tsx:160-206 | a payment window closed by the user ends the Razorpay run with the info notice "Payment was cancelled" |
| Checkout.CheckoutView.CorrectSelection | src/pages/Checkout.tsx:78-86 | the selection becomes its corrected value; nothing else changes |
| Checkout.CheckoutView.HandlePlaceOrder | src/pages/Checkout.tsx:119-233 | the page's effects grow by the whole place-order trace; selection, payment method and cache snapshot are unchanged, and the cache is invalidated as the mutations do |
| Checkout.PlaceOrder | src/pages/Checkout.tsx:119-233 | the steps of the handler produce the place-order trace |
| Checkout.PayWithRazorpay | src/pages/Checkout.tsx:144-210 | the steps of the Razorpay path produce its trace |
| Checkout.Complete | src/pages/Checkout.tsx:186-222 | the shared completion steps produce the completion trace |
| Checkout.FindAddress | src/pages/Checkout.tsx:79 | none exactly when no address has the id; otherwise an address with that id (also src/pages/Checkout.tsx:172) |
| ProductCard.StockBadge | src/components/product/ProductCard.tsx:44-46 | a red badge exactly when the product is out of stock; it reads "Unavailable" for an unavailable product and "Out of Stock" otherwise (also src/components/product/ProductCard.tsx:252-255) |
| ProductCard.OutOfStockIffNoAllowance | src/components/product/ProductCard.tsx:44-47 | a product is out of stock exactly when the most that may be bought is 0 |
| ProductCard.BadgesExclusive | src/components/product/ProductCard.tsx:252-261 | the red and the amber badge never show together; an available product with 1 to 9 left shows the amber one |
| ProductCard.AddGuardIff | src/components/product/ProductCard.tsx:135-148 | the add goes ahead exactly when the product is in stock and the quantity is within the allowance; after the clamp it goes ahead |
| ProductCard.GuestAddSeen | src/components/product/ProductCard.tsx:51-72 | after a guest add the card finds its line with the old quantity plus the amount added (also src/components/product/ProductCard.tsx:186-190) |
| ProductCard.GuestUpdateSeen | src/components/product/ProductCard.tsx:51-119 | after a guest update to a positive quantity the card finds exactly that quantity |
| ProductCard.GuestRemoveSeen | src/components/product/ProductCard.tsx:51-72 | after a guest removal the card finds no line (also src/components/product/ProductCard.tsx:216-219) |
| ProductCard.CardView.SyncFromCart | src/components/product/ProductCard.tsx:75-86 | a line in the cart shows its quantity and the counter; no line shows 1 and the add button |
| ProductCard.CardView.HandleQuantityChange | src/components/product/ProductCard.tsx:88-132 | below 1 nothing happens; above the allowance only a stock warning; otherwise the counter moves, a line already in the cart is updated on the server or in the guest cart, and a refused server update restores the line's quantity with an error notice |
| ProductCard.CardView.HandleAddToCart | src/components/product/ProductCard.tsx:134-210 | out of stock only errors; too many warns and clamps; otherwise the add runs, the counter shows once it went through, and the adding flag is cleared. On success the cache log grows by the write-back events, and the snapshot is what they leave: the response when it carries a cart. A failure leaves both as they were. |
| ProductCard.CardView.RunAdd | src/components/product/ProductCard.tsx:150-208 | the adding flag is set around the add and cleared at the end; the quantity is kept; effects, counter, guest cart and cache are as for `AddFromCard` |
| ProductCard.CardView.HandleRemoveFromCart | src/components/product/ProductCard.tsx:212-229 | a removal that went through resets the card to 1 and the add button; a refused one leaves the card and shows the error |
| ProductCard.CardView.Decrement | src/components/product/ProductCard.tsx:321-328 | at 1 or less the "-" button is `handleRemoveFromCart`: the remove command and its failure notice, or the guest removal, and the card resets on success. Above 1 it is `handleQuantityChange` with one less: the warning above the allowance, or the counter moves. A line in the cart is then updated on the server (write-back, or restore with the notice on refusal) or in the guest cart |
| ProductCard.AddFromCard | src/components/product/ProductCard.tsx:151-193 | signed in, the signed-in add; as a guest, the amount is added to the guest line under `slug \|\| _id` and the cart ticks; it ran to the end unless the server refused. On success the cache log grows by the write-back events, and the snapshot is what they leave: the response when it carries a cart. A failure leaves both as they were. |
| ProductCard.AddSignedIn | src/components/product/ProductCard.tsx:152-206 | sends an update to the cached quantity plus the amount when the cached cart holds the product, else an add; a failure adds its classified notice. On success the cache log grows by the write-back events, and the snapshot is what they leave: the response when it carries a cart. A failure leaves both as they were. |
| ProductCard.PlanAdd | src/components/product/ProductCard.tsx:153-175 | an update to the cached quantity plus the amount exactly when the cached cart holds the product, else an add of the amount |
| ProductCard.SendAdd | src/components/product/ProductCard.tsx:170-185 | sends the planned update or add. On success the cache log grows by the write-back events, and the snapshot is what they leave: the response when it carries a cart. A failure leaves both as they were. |
| ProductCard.FindCartItem | src/components/product/ProductCard.tsx:158-167 | the index of the first cached line with the product's id, or none |
| ProductDetail.ClampWithinStock | src/pages/ProductDetail.tsx:70-85 | with at least one in stock the selector lands in 1..stock, keeps a request already in range, and a second clamp changes nothing |
| ProductDetail.ClampUnsettledAtZero | src/pages/ProductDetail.tsx:70-85 | with nothing in stock a request of 5 becomes 0, and 0 then becomes 1 |
| ProductDetail.ButtonsStepByOne | src/pages/ProductDetail.tsx:183-195 | while the quantity is in 1..stock an enabled "+" or "-" moves it by exactly one, with no warning (also src/pages/ProductDetail.tsx:70-85) |
| ProductDetail.AddGuardIff | src/pages/ProductDetail.tsx:24-38 | the add goes ahead exactly when the product is loaded, in stock and the quantity is within the stock; after the cut to the stock it goes ahead |
| ProductDetail.DetailView.HandleQuantityChange | src/pages/ProductDetail.tsx:70-85 | the quantity becomes the clamped request, and the warning goes out exactly for a request above the stock |
| ProductDetail.DetailView.HandleAddToCart | src/pages/ProductDetail.tsx:23-68 | a missing or sold-out product only errors; a quantity above the stock warns and is cut to the stock; otherwise the quantity is added on the server (with the classified notice on failure) or to the guest cart. On success the cache log grows by the write-back events, and the snapshot is what they leave: the response when it carries a cart. A failure leaves both as they were. |
| ProductDetail.AddProduct | src/pages/ProductDetail.tsx:40-67 | signed in, the add command and on failure its classified notice; as a guest, the amount is added to the guest line and the cart ticks. On success the cache log grows by the write-back events, and the snapshot is what they leave: the response when it carries a cart. A failure leaves both as they were. |
| ProductDetail.AddToServer | src/pages/ProductDetail.tsx:40-60 | the add command with the amount as given, and on failure its classified notice. On success the cache log grows by the write-back events and the snapshot is what they leave; a failure leaves both as they were |
| Login.Destination | src/pages/Login.tsx:46-71 | never empty: the `return` query value first, then the state's `returnUrl`, then "/cart" exactly when the visitor came from the cart, else "/" |
| Login.SignInAndSync | src/pages/Login.tsx:66-93 | the session is set and stored with the answer's user and token, then the destination is navigated to; a non-empty guest cart is synced (and cleared on success), and the cart query is invalidated except after a failed sync (also src/pages/Signup.tsx:79-106) |
| Login.LoginView.OnSubmit | src/pages/Login.tsx:61-113 | an answer that signs in runs the sign-in sequence; a refused answer shows its error or message or "Login failed"; a thrown one shows the body's error or message, else the error's message, else the default; loading ends |
| Login.CartVisitorReturnsToCart | src/pages/Login.tsx:44-71 | a visitor sent from the cart with no return address lands on "/cart", both after a login and on the automatic redirect |
| Login.NoRedirectWhileLoading | src/pages/Login.tsx:43-45 | no automatic redirect happens while an attempt is running |
| Login.RefusalIsExplained | src/pages/Login.tsx:95-110 | a refused login always shows some text; a thrown one shows the body's error first, and the default when nothing explains it |
| Signup.SignupView.EnterCode | src/pages/Signup.tsx:154-159 | the code field keeps at most its first six characters; nothing else changes |
| Signup.SignupView.OnSubmitSignup | src/pages/Signup.tsx:55-72 | an accepted sign-up stores the address and the test code and moves to the code step; otherwise the step stays and the answer's error or the default is shown; loading ends |
| Signup.SignupView.OnSubmitCode | src/pages/Signup.tsx:74-115 | a verified code runs the same sign-in sequence a login does and reports the sync (success, warning, or nothing without guest lines); otherwise the answer's error or "Invalid OTP", or the body's error or "OTP verification failed."; loading ends |
| Signup.SignupView.HandleResendCode | src/pages/Signup.tsx:117-132 | a new code replaces the shown one; a refusal shows "Failed to resend OTP", a thrown error the body's error or that default |
| Signup.VerifyNeedsFullCode | src/pages/Signup.tsx:159-180 | a code the field accepted enables Verify only when it has exactly six characters and nothing is running |
| Signup.NoRedirectOnCodeStep | src/pages/Signup.tsx:38-45 | on the code step the automatic redirect never fires |
| Signup.SyncReportShape | src/pages/Signup.tsx:92-106 | a sync ends with one notice, only a successful sync ticks the cart, and no sync reports nothing |
| Products.Get | src/pages/Products.tsx:20-25 | `URLSearchParams.get`: none exactly when no pair has the name; otherwise a value paired with it |
| Products.Without | src/pages/Products.tsx:156-177 | no pair under the name is left |
| Products.GetWithout | src/pages/Products.tsx:156-177 | dropping one name leaves what every other name reads |
| Products.GetAfterSet | src/pages/Products.tsx:156-177 | after `set`, the name reads the new value and every other name reads what it read before |
| Products.ActiveFiltersCount | src/pages/Products.tsx:212-217 | the badge counts at most the four filters |
| Products.ProductsView.ApplyFilters | src/pages/Products.tsx:151-180 | the query string becomes the kept search, each non-blank input and the sort or `newest`; the inputs stay as typed |
| Products.ProductsView.ClearFilters | src/pages/Products.tsx:182-198 | the inputs are emptied with sort `newest`; the query string keeps only a non-blank search and the default sort |
| Products.ProductsView.SyncInputs | src/pages/Products.tsx:35-81 | when a watched applied value differs from the last one recorded, the inputs become copies of the applied filters and the record is updated; otherwise nothing changes |
| Products.GetAfterSetIf | src/pages/Products.tsx:155-174 | a guarded `set` changes only its own name, and only when the guard holds |
| Products.GetApplyParams | src/pages/Products.tsx:151-180 | each name of the query string `applyFilters` builds reads back the input (or search, or sort) given for it, or nothing when it was blank |
| Products.AppliedAfterApply | src/pages/Products.tsx:19-25 | the page reads back the non-blank search and inputs, absent for blank ones, and the sort or `newest` (also src/pages/Products.tsx:151-180) |
| Products.AppliedAfterClear | src/pages/Products.tsx:19-25 | after clearing the page reads no filter, the non-blank search and `newest`, and the badge shows 0 (also src/pages/Products.tsx:182-198, src/pages/Products.tsx:212-217) |
| Products.ApplyThenNoChanges | src/pages/Products.tsx:151-206 | applying tidy inputs leaves nothing pending, and copying the result back gives the inputs as typed |
| Products.BlankInputStaysPending | src/pages/Products.tsx:160-162 | a category input of one space is dropped, still shows as a pending change, and is read back exactly as an empty input would be (also src/pages/Products.tsx:201-206, src/pages/Products.tsx:47-56) |
| Products.CopiedInputsUnchanged | src/pages/Products.tsx:28-33 | inputs copied from the applied filters show no pending change (also src/pages/Products.tsx:201-206) |
| Products.BadgeIgnoresSortAndSearch | src/pages/Products.tsx:212-217 | the badge does not depend on the sort or the search, and is 0 without filters |
| Products.ClearedSource | src/pages/Products.tsx:88-89 | after clearing, the page shows search results when there is a search and the full listing otherwise (also src/pages/Products.tsx:134-145, src/pages/Products.tsx:182-198) |
| Orders.StatusColor | src/pages/Orders.tsx:50-62 | green exactly for delivered, blue exactly for processing or shipped, red exactly for cancelled, muted for every other status |
| Orders.ShortId | src/pages/Orders.tsx:86 | the last eight characters of the id, or the whole id when it is shorter (also src/pages/Orders.tsx:192) |
| Orders.LabelDiffersOnlyInCase | src/pages/Orders.tsx:92-93 | the status label has the status's length, the same characters after the first, and the same lower-case form (also src/pages/Orders.tsx:205-206) |
| Orders.LabelIdempotent | src/pages/Orders.tsx:92-93 | labelling a label changes nothing |
| Orders.Preview | src/pages/Orders.tsx:215 | the first three items, or all of them when there are fewer |
| Orders.PreviewAccountsForEveryItem | src/pages/Orders.tsx:215-227 | every item is either previewed or counted in the note; the note appears exactly when items are left out and reads "+N more items" |
| Orders.PreviewAmounts | src/pages/Orders.tsx:215-221 | one amount per previewed item: its price times its quantity (also src/pages/Orders.tsx:112) |
| Orders.FailedOrderShowsEmptyHistory | src/pages/Orders.tsx:38-48 | on the detail route, an order that failed to load (with no history loaded) shows the empty-history prompt (also src/pages/Orders.tsx:64-75, src/pages/Orders.tsx:176-178) |
| Orders.DetailOnlyWhenLoaded | src/pages/Orders.tsx:64-75 | the detail screen shows exactly when loading is over, an order id is routed and an order was loaded, and it shows that order |
| Orders.StaleDetailAfterFailedLoad | src/pages/Orders.tsx:38-75 | after a failed load under another order's route, the previously loaded order is still shown |
| Orders.OrdersView.OnRoute | src/pages/Orders.tsx:18-24 | a routed order id loads that order, and the route without one loads the history; after a successful order load the detail screen shows it |
| Orders.OrdersView.LoadOrders | src/pages/Orders.tsx:26-36 | the history becomes the answer, a failure keeps the old history, and loading ends |
| Orders.OrdersView.LoadOrder | src/pages/Orders.tsx:38-48 | the selected order becomes the answer, a failure keeps the old selection, and loading ends |

## Left out

- Network calls, the `api` client and its interceptors, the endpoint wrappers and the react-query hooks around them are I/O. Each call is a parameter that gives the outcome, success with a response or a thrown error. The query cache is a log of `setQueryData`, invalidate and refetch events, plus the snapshot they leave.
- The Razorpay SDK and its checkout window (`src/utils/razorpay.ts`) are foreign code. The payment becomes one outcome parameter, and the configured key becomes a string parameter.
- The 18 % tax, the `toFixed` display and the Razorpay amount (`total * 1.18 + fee`) are floating point. Only the integer subtotal and the delivery fee are modelled.
- `parseFloat` of the price filters is floating point. The filters stay strings.
- The JSON encoding of the guest cart and of the stored user is left out. Storage holds the decoded values, and an absent key is `None`.
- Rendering, animation state, timers and `navigate` are left out. A navigation is a `Navigate` effect in the trace, and animation state is not kept.
- `triggerCartUpdate` stores `Date.now()`, a clock value. It is the `CartUpdated` effect.
- `src/App.tsx` and the route table are router configuration and async start-up ordering. They are not part of this model.
- Interleaving of concurrent handlers is not modelled. Each handler runs to completion with its answers given up front, so stale responses and a double sync are not modelled.
- Cart page: the loading skeleton and the empty-cart screen are rendering only. They are not modelled.
- Checkout: `onSubmitAddress` is not modelled. It adds an address over the network and selects it; only the selection it makes is relevant, and the model takes the selection as given.
- `Cart.tsx` `loadGuestCart` pushes `productData.product` even when the response has no product. The model treats such a response as a failed lookup.
- The `catch` branch of the validation query is reached only when building one verdict throws. Its verdict is proved equal to the main branch's (`Validation.FallbackAgrees`).
- In `ProductCard`, the `cartMutationVersion` it reads is undefined, so the early return at `src/components/product/ProductCard.tsx:53` never fires. The model has no such branch.
- `item.product` given as a bare id string, and `typeof quantity` checks on malformed responses, are not modelled: the model's cart lines always hold a product record with an integer quantity.
- Case mapping (`toLowerCase`, `toUpperCase`) and `trim` whitespace are limited to ASCII. Non-ASCII letters and Unicode spaces are left unchanged.
- Signup: the code field's `maxLength={6}` is modelled as keeping the first six typed characters.
- Orders: prices are the whole-rupee numbers the page prints. The loaders' `console.error` logging is left out.
- Logging in general: the `console.error` calls are outside the model. That includes the one after a failed guest-cart sync in the login and sign-up handlers (src/pages/Login.tsx:88, src/pages/Signup.tsx:100). They change no state and show nothing.
- Products without a `stockQuantity` field: the model always carries one, and 0 stands for an absent field. This is right wherever the code reads it through `||` (src/hooks/useCartValidation.ts:33). It is not right for the cart page's status (src/pages/Cart.tsx:276, 280), which uses `=== 0` and `??`. There an absent field counts as in stock and shows the verdict's figure, and the model does not capture that case.
- Auth.AuthStore.SetAuth: `setAuth` sets `isAuthenticated` whatever token it is given, but an empty token is falsy when read back on the next start. So the contract keeps the invariant "signed in exactly when a truthy token is held" only for a non-empty token, and says so (`Valid() <==> t != ""`).
- Products: the URL sync in `src/pages/Products.tsx:47-81` runs inside `requestAnimationFrame`. It is modelled as the separate `SyncInputs` step, taken after the URL changes.
