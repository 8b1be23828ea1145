# Perfume storefront: client-side state core in Dafny

This project models the in-memory state and the small list and record rules of a
React perfume storefront. The model covers:

- the cart store: lines merged on the product id, removal by product id, the
  `total` and `totalQuantity` folds;
- the toast queue: append, removal by id, timer callbacks;
- the session held in `localStorage` and in `user`;
- the page rules that feed these stores:
  - checkout shipping and payment;
  - the admin product modals and the admin order list;
  - the discovery-set builder;
  - the product page's add-to-cart.

HTTP responses, timestamps and `localStorage` are inputs to the model:

- `fetch` outcomes are datatype parameters;
- `Date.now()` values are `nat` parameters;
- `localStorage` is a `Storage` object holding a `map<string, string>`.

`wrappers.dfy`, `seqs.dfy`, `text.dfy`, `storage.dfy` and `catalog.dfy` are shared helper modules used by several pages. Each of the other modules follows one source file:

| file | module |
|---|---|
| `wrappers.dfy` | Option and Result |
| `seqs.dfy` | `Array.prototype.filter` and `Array.prototype.find` |
| `text.dfy` | decimal printing and `join` |
| `storage.dfy` | `localStorage` |
| `catalog.dfy` | product and variant records |
| `cart.dfy` | `src/context/CartContext.js` |
| `toasts.dfy` | `src/context/ToastContext.js` |
| `session.dfy` | `src/context/AuthContext.js` |
| `admin_auth.dfy` | `handleAuthError`, written the same in both admin pages except for the toast text |
| `checkout.dfy` | `src/pages/CheckoutPage.js` |
| `admin_products.dfy` | `src/pages/AdminProductsPage.js` |
| `admin_manage.dfy` | `src/pages/AdminManagePage.js` |
| `discovery_set.dfy` | `src/pages/DiscoverySetPage.js` |
| `product_details.dfy` | `src/pages/ProductDetailsPage.js` |

React state slots become fields of classes:

- `CartStore`, `ToastQueue`, `AuthProvider`;
- `CheckoutPage`, `AdminProductsPage`, `AdminManagePage`, `DiscoverySetPage`, `ProductDetailsPage`;
- `PriceEditor`, whose edited variants are an `array` updated in place.

Each method's contract states the new value of every field it may change. This includes the toasts it appends and the removals it schedules for them (`Toasts.AddedIds`). The pure rules are functions, and lemmas prove what they promise.

## Behaviour worth knowing

- **Cart merge key.** The cart merges and removes lines by the product id `id`, not by `cartItemId`.
  - Two sizes of one product, or two different discovery sets, end up in ONE line with the first item's name, size and price.
  - This is proved in `Cart.SameIdCollapses`, `ProductDetails.TwoSizesShareOneLine` and `DiscoverySet.DifferentSetsShareOneLine`.
  - The cart page also keys and removes by `item.id`.
- **No `clearCart`.** The cart store offers no `clearCart`, although `src/pages/SuccessPage.js` calls one. The cart is not persisted and is not checked against stock.
- **Shipping.** Checkout charges a flat 5 for `'standard'` and 10 for `'express'`, and there is no coupon input.
- **Admin auth errors.** On a 401 or 403 the admin pages remove only `authToken` and `isAdmin`. They leave `userId` and the in-memory `user` in place and do not call `logout`. `AdminAuth.AuthErrorEndsRestoredSession` proves the next mount restores no session anyway.
- **Stale product after a route change.** The product page re-fetches whenever the route id changes, but it only ever sets `product` on a match. When the new id is not found, the previously shown product stays on screen (`ProductDetails.ProductDetailsPage.FetchProductDetails`).
- **Unauthenticated admin product requests.** The product PATCH and DELETE handlers read `authToken` without checking it, so with no stored token they send `Bearer null` (the `token` field of `AdminProducts.Request` is then `None`).
- **Same-millisecond toasts.** Toast ids are `Date.now()` values, so two toasts shown in the same millisecond share an id. One removal deletes both (`Toasts.SameMillisecondExpireTogether`).

## Model

| member | source | states |
|---|---|---|
| `Seqs.Filter` | src/context/CartContext.js:29 | `filter` keeps exactly the elements that pass and never grows the array |
| `Seqs.FilterConcat` | src/context/ToastContext.js:14 | `filter` distributes over concatenation, so the survivors keep their order |
| `Seqs.FilterAllKept` | src/pages/AdminProductsPage.js:132 | A `filter` every element passes returns the array unchanged |
| `Seqs.Find` | src/pages/ProductDetailsPage.js:29 | `find` gives `undefined` exactly when no element passes; otherwise it gives the first element that passes |
| `Cart.NewLine` | src/context/CartContext.js:22 | A new line copies the incoming item's fields and forces quantity to 1, whatever quantity the item carried |
| `Cart.Increment` | src/context/CartContext.js:17-19 | Same length; every line with the id gets quantity + 1, every other line is unchanged |
| `Cart.AddLine` | src/context/CartContext.js:12-24 | Merge on a known product id: same length, only that id's line bumped by 1, keeping its name, size, price and cartItemId. Unknown id: earlier lines unchanged and one new line with quantity 1 at the end |
| `Cart.RemoveLines` | src/context/CartContext.js:28-30 | The result holds exactly the lines whose id differs from the removed one, and is no longer than the input |
| `Cart.RemoveAbsent` | src/context/CartContext.js:29 | Removing an id no line carries is a no-op |
| `Cart.RemoveConcat` | src/context/CartContext.js:29 | Removal distributes over concatenation, so surviving lines keep their order |
| `Cart.RemoveAfterAddNew` | src/context/CartContext.js:12-30 | Adding a product not in the cart and then removing its id gives back the original cart |
| `Cart.SameIdCollapses` | src/context/CartContext.js:14-19 | Two adds with equal product ids give one new line: the first item's fields with quantity 2, whatever the second's cartItemId, size, price or name |
| `Cart.AddPreservesValid` | src/context/CartContext.js:14-22 | Distinct line ids and quantities of at least 1 hold after every add |
| `Cart.RemovePreservesValid` | src/context/CartContext.js:28-30 | Distinct line ids and quantities of at least 1 hold after every remove |
| `Cart.Total` | src/context/CartContext.js:33 | Zero for an empty cart; never negative when no price or quantity is negative |
| `Cart.TotalQuantity` | src/context/CartContext.js:36 | Zero for an empty cart; at least the number of lines when every quantity is at least 1 |
| `Cart.TotalsConcat` | src/context/CartContext.js:33-36 | `total` and `totalQuantity` of a concatenation are the sums over the parts |
| `Cart.IncrementTotals` | src/context/CartContext.js:17-36 | With distinct ids, bumping a line adds exactly its unit price to `total` and 1 to `totalQuantity` |
| `Cart.AddTotals` | src/context/CartContext.js:12-36 | Every add raises `totalQuantity` by exactly 1. `total` rises by the existing line's price when the id is present, and by the item's price otherwise |
| `Cart.RemoveTotals` | src/context/CartContext.js:28-36 | Removing a product drops its whole line: `totalQuantity` falls by its quantity and `total` by price times quantity |
| `Cart.CartStore.constructor` | src/context/CartContext.js:9 | The cart starts empty and valid |
| `Cart.CartStore.AddToCart` | src/context/CartContext.js:12-25 | New `cartItems` is `AddLine` of the old ones; validity is kept; `totalQuantity` rises by 1 |
| `Cart.CartStore.RemoveFromCart` | src/context/CartContext.js:28-30 | New `cartItems` is `RemoveLines` of the old ones; validity is kept |
| `Toasts.KindOrDefault` | src/context/ToastContext.js:17 | An omitted type becomes `'success'`; a given type is kept |
| `Toasts.StyleOf` | src/context/ToastContext.js:60 | The error style is chosen if and only if the type is exactly `'error'` |
| `Toasts.Without` | src/context/ToastContext.js:13-15 | The result holds exactly the toasts whose id differs, so every toast with that id goes |
| `Toasts.WithoutConcat` | src/context/ToastContext.js:14 | Removal distributes over concatenation, so remaining toasts keep their order |
| `Toasts.WithoutAbsent` | src/context/ToastContext.js:14 | Removing an unknown id leaves the list as it was |
| `Toasts.ShowThenExpire` | src/context/ToastContext.js:17-23 | A toast shown under a fresh id and then expired by its own timer leaves the earlier list unchanged |
| `Toasts.SameMillisecondExpireTogether` | src/context/ToastContext.js:18-22 | Two toasts shown in the same millisecond share an id, and one removal deletes both |
| `Toasts.ToastQueue.constructor` | src/context/ToastContext.js:11 | The queue starts empty with nothing pending |
| `Toasts.ToastQueue.ShowToast` | src/context/ToastContext.js:17-23 | Exactly one toast appended at the end with the given message and defaulted type; removal of its own id only is scheduled; every shown toast still has a pending removal |
| `Toasts.ToastQueue.RemoveToast` | src/context/ToastContext.js:13-15 | The list becomes `Without(old, id)` |
| `Toasts.ToastQueue.Close` | src/context/ToastContext.js:54-57 | The close button schedules removal of the toast's own id and changes nothing else |
| `Toasts.ToastQueue.Fire` | src/context/ToastContext.js:22 | A scheduled callback removes every toast with its id and leaves the queue; every remaining toast still has a pending removal |
| `BrowserStorage.Lookup` | src/context/AuthContext.js:12-14 | `getItem` on a snapshot: `null` (None) exactly for an absent key, otherwise the stored value |
| `BrowserStorage.Storage.constructor` | src/context/AuthContext.js:12-14 | The storage holds the given items |
| `BrowserStorage.Storage.GetItem` | src/context/AuthContext.js:12-14 | `null` exactly when the key is absent, otherwise its value; storage unchanged |
| `BrowserStorage.Storage.SetItem` | src/context/AuthContext.js:23-25 | Only that key changes, to the new value |
| `BrowserStorage.Storage.RemoveItem` | src/context/AuthContext.js:35-37 | Only that key is removed |
| `Session.AfterLogin` | src/context/AuthContext.js:23-25 | `authToken` holds the token, `userId` the `_id`, and `isAdmin` `'true'` or `'false'`. Every other key keeps its value |
| `Session.AfterLogout` | src/context/AuthContext.js:35-37 | The three session keys are absent; every other key keeps its value |
| `Session.Restored` | src/context/AuthContext.js:12-18 | A user is restored if and only if token and user id are both present and non-empty; the record carries them; `isAdmin` is true if and only if the stored flag is exactly `'true'` |
| `Session.LoginRestoreRoundTrip` | src/context/AuthContext.js:22-31 | Login with a non-empty token and `_id`, then restore, yields the same `{token, userId, isAdmin}` whatever storage held before |
| `Session.EmptyLoginNotRestored` | src/context/AuthContext.js:12-24 | A login with an empty token or `_id` is not restored on the next mount |
| `Session.LogoutRestoreNone` | src/context/AuthContext.js:34-38 | After logout, restore yields no user |
| `Session.LogoutUndoesLogin` | src/context/AuthContext.js:22-38 | Logout after login leaves storage as logout alone would: no trace of the login |
| `Session.AuthProvider.constructor` | src/context/AuthContext.js:8-9 | `user` starts null and `loading` true |
| `Session.AuthProvider.RestoreSession` | src/context/AuthContext.js:11-20 | `user` is set to the restored user only when there is one, otherwise left null; `loading` becomes false either way, so children render |
| `Session.AuthProvider.RendersChildren` | src/context/AuthContext.js:43 | The provider renders its children exactly when loading is over |
| `Session.AuthProvider.Login` | src/context/AuthContext.js:22-32 | Storage gets `authToken`, `userId` = `_id` and `isAdmin` as `'true'`/`'false'`; `user` is `{token, userId, isAdmin}` |
| `Session.AuthProvider.Logout` | src/context/AuthContext.js:34-39 | All three keys are removed and `user` is null |
| `AdminAuth.HandleAuthError` | src/pages/AdminProductsPage.js:177-186 | The same code as src/pages/AdminManagePage.js:15-24 except for the toast text, which is a parameter. Returns true if and only if the status is 401 or 403. Then `authToken` and `isAdmin` are removed and an error toast with that text is appended, its removal scheduled. Otherwise storage, toasts and timers are untouched |
| `AdminAuth.AfterAuthError` | src/pages/AdminProductsPage.js:180-181 | `authToken` and `isAdmin` are absent afterwards; every other key, `userId` included, keeps its value |
| `AdminAuth.AuthErrorKeepsUserId` | src/pages/AdminProductsPage.js:180-181 | After an auth error the token and admin flag are gone but `userId` keeps its value |
| `AdminAuth.AuthErrorEndsRestoredSession` | src/pages/AdminProductsPage.js:180-181 | Storage left by an auth error restores no user on the next mount |
| `AdminAuth.IsAuthError` | src/pages/AdminProductsPage.js:178 | A status is an auth error exactly when it is 401 or 403 (as at src/pages/AdminManagePage.js:16); such a status is a client error |
| `Checkout.ShippingCost` | src/pages/CheckoutPage.js:30 | 10 if and only if the method is `'express'`, otherwise 5 |
| `Checkout.FinalTotal` | src/pages/CheckoutPage.js:31 | The final total is the cart total plus the shipping cost, hence between total + 5 and total + 10, and total + 10 exactly for express |
| `Checkout.SummaryAmounts` | src/pages/CheckoutPage.js:148-153 | One summary amount per cart line, in order, each price times quantity |
| `Checkout.SummaryAddsUpToTotal` | src/pages/CheckoutPage.js:151-158 | The summary's line amounts sum to the displayed items total |
| `Checkout.PageView` | src/pages/CheckoutPage.js:73-75 | The empty-cart message is shown instead of the form if and only if the cart is empty |
| `Checkout.PaymentOutcome` | src/pages/CheckoutPage.js:52-64 | Redirect if and only if the response is ok with a non-empty `url`. A throw keeps its message, and a rejected body's non-empty message is shown. A rejection with no or an empty message gives 'Ошибка на сервере'. An ok response with no or an empty `url` gives 'Не удалось получить ссылку на оплату'. So the toast is never empty |
| `Checkout.CheckoutPage.constructor` | src/pages/CheckoutPage.js:9-21 | The six form fields start empty, the method is `'standard'` (so shipping is 5), and the page is not loading |
| `Checkout.CheckoutPage.PayDisabled` | src/pages/CheckoutPage.js:174 | The pay button is disabled exactly while `loading` is on |
| `Checkout.CheckoutPage.HandleChange` | src/pages/CheckoutPage.js:24-27 | Only the named field changes; every other field keeps its value |
| `Checkout.CheckoutPage.SelectShippingMethod` | src/pages/CheckoutPage.js:125 | The chosen method is stored; the form is unchanged |
| `Checkout.CheckoutPage.HandlePayment` | src/pages/CheckoutPage.js:34-71 | Sends cart, form and method. On a redirect the page stays loading, so pay stays disabled. On any failure an error toast with the outcome's message is appended and `loading` is false again |
| `AdminProducts.SimilarIds` | src/pages/AdminProductsPage.js:124 | Same length; a populated entry gives its `_id`, a plain id stays as it is |
| `AdminProducts.LoadedSelection` | src/pages/AdminProductsPage.js:122-127 | The selection is reloaded from a product that has `similarProducts`; otherwise the previous selection stays |
| `AdminProducts.RemoveId` | src/pages/AdminProductsPage.js:132 | Exactly the ids different from the removed one survive |
| `AdminProducts.RemoveIdAbsent` | src/pages/AdminProductsPage.js:132 | Filtering out an absent id changes nothing |
| `AdminProducts.RemoveIdConcat` | src/pages/AdminProductsPage.js:132 | The filter distributes over concatenation, so order is kept |
| `AdminProducts.ToggleSelection` | src/pages/AdminProductsPage.js:131-133 | The id ends up selected if and only if it was not; all other ids keep their membership; an absent id is appended at the end; a present id is filtered out, every copy of it, with the other ids kept in order (`RemoveId`) |
| `AdminProducts.ToggleTwiceRestores` | src/pages/AdminProductsPage.js:131-133 | Toggling an unselected id twice returns the original list |
| `AdminProducts.CrossSellCandidates` | src/pages/AdminProductsPage.js:142-143 | Exactly the other products are offered, never the product being edited |
| `AdminProducts.WithPrice` | src/pages/AdminProductsPage.js:47 | Only variant `index` gets the new price, keeping its size and image; all other variants are unchanged |
| `AdminProducts.PriceEditor.constructor` | src/pages/AdminProductsPage.js:45 | The edited variants are a fresh copy of the product's variants |
| `AdminProducts.PriceEditor.HandlePriceChange` | src/pages/AdminProductsPage.js:47 | The array is updated in place to `WithPrice` of its old contents |
| `AdminProducts.VisibilityRequest` | src/pages/AdminProductsPage.js:222-229 | A PATCH for that product, with the given token, whose `isHidden` is the negation of the current status |
| `AdminProducts.AdminProductsPage.constructor` | src/pages/AdminProductsPage.js:167-172 | No modal holds a product |
| `AdminProducts.AdminProductsPage.Open` | src/pages/AdminProductsPage.js:343-349 | A row button puts the product in its modal only |
| `AdminProducts.AdminProductsPage.Cancel` | src/pages/AdminProductsPage.js:323-328 | Cancel clears its modal only |
| `AdminProducts.SentToast` | src/pages/AdminProductsPage.js:222-285 | Handlers that ignore the answer show an error toast exactly when `fetch` threw, with the text `'Error'`. Otherwise they show their own success text |
| `AdminProducts.AdminProductsPage.ToggleVisibility` | src/pages/AdminProductsPage.js:222-233 | Sends `VisibilityRequest` with the stored `authToken` (or none) and appends its toast: `'Visibility updated'`, or `'Error'` after a throw. Its removal is scheduled |
| `AdminProducts.AdminProductsPage.ConfirmDelete` | src/pages/AdminProductsPage.js:234-245 | With no target, there is no request and nothing changes. Otherwise a DELETE of the target is sent with the stored `authToken` (or none), the modal is cleared, and `'Deleted'` (or `'Error'` after a throw) is appended |
| `AdminProducts.AdminProductsPage.ConfirmRestock` | src/pages/AdminProductsPage.js:246-259 | The PATCH carries `totalStockMl` = current stock + amount entered, and the stored `authToken` (or none). The modal is cleared, and `'Stock replenished'` (or `'Error'`) is appended |
| `AdminProducts.AdminProductsPage.ConfirmPriceEdit` | src/pages/AdminProductsPage.js:260-272 | The PATCH carries the edited variants and the stored `authToken` (or none). The modal is cleared, and `'Prices updated'` (or `'Error'`) is appended |
| `AdminProducts.AdminProductsPage.ConfirmDescriptionEdit` | src/pages/AdminProductsPage.js:273-285 | The PATCH carries the new description and the stored `authToken` (or none). The modal is cleared, and `'Description updated'` (or `'Error'`) is appended |
| `AdminProducts.AdminProductsPage.ConfirmImageEdit` | src/pages/AdminProductsPage.js:286-302 | No chosen file: the modal closes with no request, no toast and no storage change. Otherwise the files and current variants are sent with the stored `authToken` (or none), and the modal is cleared. Then a throw appends `'Error loading photo'`; a 401/403 appends the session-expired toast and clears two keys; an ok answer appends `'Photo updated!'`; any other answer shows nothing |
| `AdminProducts.AdminProductsPage.ConfirmSimilarEdit` | src/pages/AdminProductsPage.js:304-316 | The PATCH carries the selected ids and the stored `authToken` (or none), and the modal is cleared. Then a throw appends `'Error'`; a 401/403 appends the session-expired toast and clears two keys; an ok answer appends `'Recommendations updated!'`; any other answer shows nothing |
| `AdminManage.StatusOptionsDistinct` | src/pages/AdminManagePage.js:7-96 | The selector offers five statuses, all distinct, so each `<option>`'s `key={s}` is unique |
| `AdminManage.WithStatus` | src/pages/AdminManagePage.js:70 | Same length; the order with the id gets the new status, keeping its id and total; every other order is unchanged |
| `AdminManage.LastStatusWins` | src/pages/AdminManagePage.js:70 | Two status changes to one order equal the second alone |
| `AdminManage.WithStatusAbsent` | src/pages/AdminManagePage.js:70 | A change for an unknown id leaves the list as it was |
| `AdminManage.OrderLabel` | src/pages/AdminManagePage.js:88 | The label is the last 6 characters of `_id`, or all of a shorter id |
| `AdminManage.AdminManagePage.constructor` | src/pages/AdminManagePage.js:10-11 | No orders, loading |
| `AdminManage.AdminManagePage.FetchAllOrders` | src/pages/AdminManagePage.js:26-49 | The outcome is one of four, each named by its exact condition. Without a truthy token: redirect, nothing else changes. On a 401/403: redirect, two keys cleared, the session-expired toast appended. On a throw or another non-ok answer: the load-error toast is appended. On an ok answer: the orders are replaced. `loading` ends false in every case |
| `AdminManage.AdminManagePage.HandleStatusChange` | src/pages/AdminManagePage.js:55-75 | The request carries whatever token is stored. The orders change, by `WithStatus`, with a success toast, exactly when the answer is ok and not an auth error. A 401/403 appends the session-expired toast and clears two keys. A throw appends the error toast. Any other answer changes nothing |
| `DiscoverySet.FindBaseSet` | src/pages/DiscoverySetPage.js:26 | Finds nothing if and only if no product is named exactly `'Discovery Set'`; otherwise finds the first one so named |
| `DiscoverySet.AvailableScents` | src/pages/DiscoverySetPage.js:29 | Exactly the products not named `'Discovery Set'` and not hidden |
| `DiscoverySet.HasEmptySlot` | src/pages/DiscoverySetPage.js:59 | True exactly when some slot holds the empty string |
| `DiscoverySet.ErrorMessage` | src/pages/DiscoverySetPage.js:53-75 | Each failed check has its own error-toast text: the missing base product, an empty slot, a base product without variants; each text is non-empty and names only its own check |
| `DiscoverySet.SetName` | src/pages/DiscoverySetPage.js:65-66 | Starts with `"Discovery Set ("` and ends with `")"`. In between, slot `i` stands at its offset with exactly `", "` between neighbours, so the slots appear in order. The length counts every slot and separator. No slots gives `"Discovery Set ()"` |
| `DiscoverySet.SetCartItemId` | src/pages/DiscoverySetPage.js:79 | The base id, a dash, then the timestamp written in canonical decimal (`NatToString`): the digits read back as the timestamp (`DigitsValue`) and have no leading zero |
| `Text.NatToString` | src/pages/DiscoverySetPage.js:79 | A template literal's rendering of a whole number below 10^21, which covers every `Date.now()` timestamp and every size in millilitres: all decimal digits, one digit exactly below 10, no leading zero unless the number is 0, and reading the digits back with `DigitsValue` gives the number. So different numbers render differently |
| `Text.Join` | src/pages/DiscoverySetPage.js:65 | `join` of no parts is empty. Otherwise its length is the parts' lengths plus one separator between each pair, and it starts with the first part |
| `Text.JoinPartAt` | src/pages/DiscoverySetPage.js:65 | Part `i` of a join stands at its offset: the lengths of the earlier parts plus one separator after each |
| `Text.JoinSepAt` | src/pages/DiscoverySetPage.js:65 | Exactly one separator stands between part `i` and part `i + 1` of a join |
| `DiscoverySet.BuildSetItem` | src/pages/DiscoverySetPage.js:52-86 | Checks run in order: missing base product, then an empty slot, then no variants. Success happens if and only if all pass. The item takes the base `id`, the composed name, the first variant's size, price and image, quantity 1, and `cartItemId` = id-timestamp |
| `DiscoverySet.RepeatedScentAccepted` | src/pages/DiscoverySetPage.js:59 | The same scent in all five slots is accepted |
| `DiscoverySet.DifferentSetsShareOneLine` | src/pages/DiscoverySetPage.js:77-88 | Sets added at different times get different `cartItemId`s, yet both adds give one cart line with the first set's name and quantity 2 |
| `DiscoverySet.DiscoverySetPage.constructor` | src/pages/DiscoverySetPage.js:10-17 | Five empty slots, no base product, loading |
| `DiscoverySet.DiscoverySetPage.FetchData` | src/pages/DiscoverySetPage.js:20-42 | The base product is set only when found; the scents are replaced; a failure appends the error toast; `loading` ends false |
| `DiscoverySet.DiscoverySetPage.HandleSelectChange` | src/pages/DiscoverySetPage.js:46-50 | Only slot `index` changes, and there are still five slots |
| `DiscoverySet.DiscoverySetPage.HandleAddToCart` | src/pages/DiscoverySetPage.js:52-90 | A failed check appends its error toast and leaves the cart unchanged. Otherwise the built item is added with `AddLine` and a success toast follows |
| `DiscoverySet.AddBuiltSet` | src/pages/DiscoverySetPage.js:53-89 | Given a refusal, only its error toast is appended. Given a built item, the cart becomes `AddLine` of it and the success toast is appended |
| `ProductDetails.FindProduct` | src/pages/ProductDetailsPage.js:29 | Finds nothing if and only if no product has the route id; otherwise finds the first that does |
| `ProductDetails.FirstVariant` | src/pages/ProductDetailsPage.js:53 | The first variant, or none for a product without variants |
| `ProductDetails.CartItemId` | src/pages/ProductDetailsPage.js:68 | The product id, a dash, the variant's size in canonical decimal (`NatToString`: its digits read back as the size and have no leading zero), then `ml` |
| `ProductDetails.ItemFor` | src/pages/ProductDetailsPage.js:68-76 | The item takes `id` = `_id` and the product name. It takes the selected variant's size, price and image, no quantity, and `cartItemId` = `_id-<size>ml` |
| `ProductDetails.ActiveButtonIsSelected` | src/pages/ProductDetailsPage.js:116 | With distinct sizes, a variant button is active if and only if it is the selected variant |
| `ProductDetails.IsActive` | src/pages/ProductDetailsPage.js:116 | A variant button is active exactly when its size is the selected variant's size, so the selected variant's own button is always active |
| `ProductDetails.CartItemIdsDiffer` | src/pages/ProductDetailsPage.js:68 | Different sizes give different `cartItemId`s |
| `ProductDetails.TwoSizesShareOneLine` | src/pages/ProductDetailsPage.js:66-77 | Adding two sizes of one product yields one cart line with the first size, price and `cartItemId`, quantity 2 |
| `ProductDetails.ProductDetailsPage.constructor` | src/pages/ProductDetailsPage.js:12-13 | No product, no variant, loading |
| `ProductDetails.ProductDetailsPage.View` | src/pages/ProductDetailsPage.js:83-94 | The loading view shows if and only if loading is on; the not-found view shows if and only if loading is over and product or variant is missing |
| `ProductDetails.ProductDetailsPage.FetchProductDetails` | src/pages/ProductDetailsPage.js:16-43 | The product is set to the first match only when one exists; otherwise it keeps its previous value: null on first load, the earlier product after a route change; `loading` ends false |
| `ProductDetails.ProductDetailsPage.SelectDefaultVariant` | src/pages/ProductDetailsPage.js:50-55 | Once a product is loaded, its first variant becomes the selection |
| `ProductDetails.ProductDetailsPage.HandleVariantClick` | src/pages/ProductDetailsPage.js:60-62 | The clicked variant becomes the selection |
| `ProductDetails.ProductDetailsPage.HandleAddToCart` | src/pages/ProductDetailsPage.js:64-79 | Nothing happens without a product and a selected variant; otherwise the cart becomes `AddLine` of `ItemFor(product, variant)` |

## Left out

- Network, navigation and dialogs are not modelled. Every `fetch` is replaced by its outcome as a parameter, and requests are returned as values. `navigate`, `window.location` and `alert` are left out; a redirect is a returned flag or value.
- The `async` handlers are modelled as one atomic step from the click to the settled response: `Checkout.CheckoutPage.HandlePayment`, `ProductDetails.ProductDetailsPage.FetchProductDetails`, `DiscoverySet.DiscoverySetPage.FetchData`, `AdminManage.AdminManagePage.FetchAllOrders`, `AdminManage.AdminManagePage.HandleStatusChange` and every `AdminProducts.AdminProductsPage` `ToggleVisibility`/`Confirm*` handler. The state while a request is pending is not modelled, so "the pay button is disabled and the page shows its loading text during the `await`" is not a post-condition of any method. Interleavings at an `await` are not modelled either: a second click on a modal's button while its request is pending (sending the request twice), or a modal reopened for another product that the first handler's `finally` then closes.
- `Text.NatToString`: accepts every `nat`, but matches JavaScript only below 10^21 and exactly only below 2^53. JavaScript prints 10^21 and above in exponent form (`1e+21`) and loses precision above 2^53; neither is modelled, as no timestamp or size reaches them.
- `setTimeout` delays (3000 ms expiry, 300 ms close, 2700 ms fade) are not modelled. A scheduled removal is an entry of `ToastQueue.pending`, and `Fire` runs any one of them; the order in which timers fire is not modelled.
- Rendering (JSX, CSS, the fade animation's `isFading`) is left out. The toast container renders `toasts` in sequence order, which is the order the model keeps.
- Prices are exact reals. JavaScript floating-point rounding and `toFixed` formatting are not modelled. Sizes and stock are whole millilitres.
- `Number(...)` parsing of typed prices and restock amounts is not modelled: the model receives the number, never `NaN`.
- A `null` entry in `similarProducts` is not modelled.
- `AdminProductsPage`'s `fetchAllProducts` (src/pages/AdminProductsPage.js:188-215) and the re-fetch after each admin action are not modelled, so none of their effects are modelled:
  - with no `authToken` it redirects to `/auth`;
  - on a 401 or 403 it runs `handleAuthError`, which shows the session-expired toast and removes `authToken` and `isAdmin`; a re-fetch after an action can therefore show a second toast and end the session;
  - a body that is not an array empties `products` and shows 'Server data error.';
  - a throw shows 'Failed to load products' and empties `products`;
  - it sets `loading` for the duration.
- `Checkout.CheckoutPage.HandlePayment`: accepts any form contents. In the page, the six inputs are `required`, so the browser does not submit the form while one is empty (src/pages/CheckoutPage.js:88-114). Browser form validation is not modelled.
- `Checkout.CheckoutPage.HandlePayment`: a failure to parse the error body (`response.json()` throwing) is modelled as a thrown error whose message is given.
- `AdminManage.AdminManagePage.FetchAllOrders`: a body that does not parse as orders is modelled as a thrown error.
- `DiscoverySet.DiscoverySetPage.HandleAddToCart`: the two `Date.now()` calls (the item id and the toast id) are separate parameters.
- `clearCart`, cart persistence, stock-reservation checks, coupons and shipping quotes are not modelled: the source's stores have none of them.
- The login, registration, product-creation and contact forms, the protected route, the admin layout, the analytics dashboard and the pure view pages are not part of this model.
