# Storefront cart and catalog logic, modelled in Dafny

This project models the logic of a React storefront for board games. Almost all of its source is view markup. The parts with behaviour of their own are:

- the optimistic cart mutations on the query cache's `['cart']` entry (src/hooks/useQueries.js). The add, update and remove updaters are pure functions over the cached cart object. `onMutate` takes a snapshot and applies the patch. `onError` restores the snapshot when it is truthy. `onSuccess` marks the entry stale. The decrease wrapper sends a request only when `currentQuantity > 1`; the increase wrapper always asks for one more. The category response normaliser is also here.
- the local cart held by the cart context (src/context/CartContext.js). It is a list of lines. `addToCart` merges by product `id` or appends with `cantidad: 1`, and `removeFromCart` filters by `id`. Both keep two invariants: ids are unique, and every quantity is at least 1.
- the cart page's projection (src/pages/Cart.js): the empty-cart branch, the per-line subtotals, the item count and the total.
- the product detail page (src/pages/ProductDetail.js): its four branches, the record fallbacks, the quantity stepper clamped to `[1, stock]`, and the add-to-cart flow. When the server accepts an add, that flow calls `addToCart` `quantity` times.
- the product card's field fallbacks and stock flags (src/components/ProductCard.js).
- the category icon classifier (src/pages/Categories.js).

How source values are modelled:

- A field that may be `null` or `undefined` is an `Option`.
- `a || b` skips an absent value and the empty string. `a ?? b` skips only an absent value.
- Prices are integer cents.
- The `['cart']` entry and `cartItems` are fields of two classes (`QueryCache.CartCache`, `CartContext.CartProvider`), updated through the pure updaters.
- The page's `quantity` is a field of `ProductDetail.ProductDetailPage`.
- The network is not modelled. The server's answer to a mutation is a boolean parameter `serverOk`.

Behaviour kept as the code has it:

- **Rollback.** A failed mutation restores the whole snapshot taken at its own start. It does not undo only its own change. So a late rollback discards a concurrent patch applied after that snapshot (`QueryCache.LateRollbackDiscardsLaterPatch`).
- **Update has no lower bound.** The update path stores any requested quantity, 0 included (`QueryCache.UpdateCanStoreZero`). Only the decrease wrapper refuses to go below 1.
- **Temporary ids.** The add patch uses `Date.now()` as the temporary line id. Nothing keeps it apart from server ids.
- **Cart never loaded.** If nothing was cached, the add patch installs `{items: []}` without the new line. A failure then leaves that value in place, because there is no truthy snapshot to restore.
- **Missing price.** The cart page's total does not treat a missing price as 0. A line whose product has no `precio` shows NaN as its unit price and subtotal, and makes the total NaN (`CartPage.RenderCart`, see Findings).

## Model

| member | source | states |
|---|---|---|
| `QueryCache.AddQuantity` | src/hooks/useQueries.js:112-116 | same length; every line with the product id gains `quantity`, every other line is unchanged |
| `QueryCache.SetQuantity` | src/hooks/useQueries.js:160-162 | same length; lines with the item id get the new quantity, the others are unchanged |
| `QueryCache.WithoutLine` | src/hooks/useQueries.js:194 | no line with the id remains; every result line comes from the input; every line with another id is kept; absent id gives the input back |
| `QueryCache.WithoutLineAppend` | src/hooks/useQueries.js:194 | filtering distributes over concatenation, so kept lines stay in order |
| `QueryCache.AddPatch` | src/hooks/useQueries.js:104-127 | never-loaded cart becomes `{items: []}` without the item; an existing product line gains `quantity` with length and other lines unchanged; otherwise exactly one `{id: now, producto_id, cantidad: quantity}` is appended after the old lines, missing `items` counting as empty; other cart fields kept |
| `QueryCache.UpdatePatch` | src/hooks/useQueries.js:156-164 | absent cart returned unchanged; missing `items` throws; otherwise lines with the id get the quantity, others untouched, length and other fields kept, no bound checked |
| `QueryCache.RemovePatch` | src/hooks/useQueries.js:190-196 | absent cart unchanged; missing `items` throws; otherwise the items become the in-order filter `WithoutLine` of the old items (no line with the id remains, every other line is kept, nothing new appears), other fields kept |
| `QueryCache.RemoveAbsentIsIdentity` | src/hooks/useQueries.js:191-195 | removing an id no line has returns the cached cart itself |
| `QueryCache.AddPatchPreservesUniqueProducts` | src/hooks/useQueries.js:107-125 | the add updater keeps product ids unique, because it merges by `producto_id`; a never-loaded cart included |
| `QueryCache.AddPatchPreservesPositive` | src/hooks/useQueries.js:107-125 | adding a quantity of at least 1 keeps every cached quantity at least 1 |
| `QueryCache.UpdatePatchPreservesUniqueProducts` | src/hooks/useQueries.js:156-164 | the update updater leaves every `producto_id` alone, so product ids stay unique |
| `QueryCache.WithoutLinePreservesUniqueProducts` | src/hooks/useQueries.js:194 | the filter keeps product ids unique (by induction) |
| `QueryCache.RemovePatchPreservesUniqueProducts` | src/hooks/useQueries.js:190-196 | the remove updater keeps product ids unique |
| `QueryCache.AddQuantityOtherUnits` | src/hooks/useQueries.js:112-116 | adding to one product's lines leaves every other product's units unchanged |
| `QueryCache.AddQuantityOwnUnits` | src/hooks/useQueries.js:112-116 | with unique product ids, the product's units rise by exactly `quantity` |
| `QueryCache.ProductUnitsAppendOne` | src/hooks/useQueries.js:118-123 | appending a line adds its `cantidad` to its own product's units only |
| `QueryCache.AddPatchUnits` | src/hooks/useQueries.js:104-127 | on a loaded cart with unique product ids, the add updater adds exactly `quantity` units of the product and none of any other |
| `QueryCache.Rollback` | src/hooks/useQueries.js:131-135 | with a context whose snapshot is truthy the entry becomes exactly the snapshot; otherwise the current value stays |
| `QueryCache.IncreaseRequest` | src/hooks/useQueries.js:215-220 | always requests `currentQuantity + 1` for the same item |
| `QueryCache.DecreaseRequest` | src/hooks/useQueries.js:229-236 | issues a request iff `currentQuantity > 1`, and then for `currentQuantity - 1`, which is at least 1 |
| `QueryCache.DecreaseKeepsQuantitiesPositive` | src/hooks/useQueries.js:229-236 | whatever the current quantity, the decrease path keeps every cached quantity at least 1 |
| `QueryCache.UpdateCanStoreZero` | src/hooks/useQueries.js:157-163 | the update path stores a quantity of 0 when asked |
| `QueryCache.QueryEnabled` | src/hooks/useQueries.js:23 | `!!id`: enabled iff the route parameter is present and non-empty (also line 59) |
| `QueryCache.CategoryProducts` | src/hooks/useQueries.js:57 | an array maps to itself; otherwise `productos` if present, else `products` if present, else `[]`; the prefetch at line 72 uses the same function |
| `QueryCache.CategoryProductsIdempotent` | src/hooks/useQueries.js:57 | normalising a normalised list changes nothing |
| `QueryCache.CartCache.constructor` | src/hooks/useQueries.js:78-86 | the cart entry starts absent and not stale |
| `QueryCache.CartCache.ReceiveCart` | src/hooks/useQueries.js:78-86 | a completed cart fetch replaces the entry and clears the stale mark |
| `QueryCache.CartCache.SetQueryData` | src/hooks/useQueries.js:104 | a present value replaces the entry and clears the stale mark; an absent one (an updater yielding `undefined`) writes nothing (also lines 133, 156, 170, 190, 202) |
| `QueryCache.CartCache.OnMutateAdd` | src/hooks/useQueries.js:99-130 | the context holds the entry as it was; the entry becomes the add patch of it, written by `setQueryData`, so not stale |
| `QueryCache.CartCache.OnMutateUpdate` | src/hooks/useQueries.js:152-167 | snapshot then update patch; a patched cart is written and no longer stale, an absent one writes nothing; when the updater throws there is no context and the entry is untouched |
| `QueryCache.CartCache.OnMutateRemove` | src/hooks/useQueries.js:186-199 | snapshot then remove patch; a patched cart is written and no longer stale, an absent one writes nothing; when the updater throws there is no context and the entry is untouched |
| `QueryCache.CartCache.OnError` | src/hooks/useQueries.js:131-135 | the entry becomes the rollback of the context; a restored snapshot is written and so no longer stale, otherwise the stale mark is kept (same handler at 168-172 and 200-204) |
| `QueryCache.CartCache.OnSuccess` | src/hooks/useQueries.js:136-138 | marks the entry stale and leaves its value |
| `QueryCache.CartCache.Add` | src/hooks/useQueries.js:88-140 | success leaves the add patch and a stale entry; failure restores a loaded cart exactly and leaves `{items: []}` on a never-loaded one, in both cases not stale |
| `QueryCache.CartCache.Update` | src/hooks/useQueries.js:142-177 | a throwing update leaves the entry and its mark as they were; a failed one leaves the value as it was, not stale when a cart was loaded; success leaves the update patch and a stale entry |
| `QueryCache.CartCache.Remove` | src/hooks/useQueries.js:179-209 | a throwing remove leaves the entry and its mark as they were; a failed one leaves the value as it was, not stale when a cart was loaded; success leaves the remove patch and a stale entry |
| `QueryCache.CartCache.Increase` | src/hooks/useQueries.js:211-223 | runs the update for one more: a throwing updater changes nothing, a failure restores the value, success leaves the patch and a stale entry |
| `QueryCache.CartCache.Decrease` | src/hooks/useQueries.js:225-239 | at quantity 1 or below nothing happens at all; above, runs the update for one less with the same three outcomes as `Increase` |
| `QueryCache.LateRollbackDiscardsLaterPatch` | src/hooks/useQueries.js:102-135 | for any cart and two different products, the second absent from it: after both add patches the second product's line is last, and the first add's rollback returns to the cart before both, which has no line of the second product |
| `CartContext.Increment` | src/context/CartContext.js:17-21 | same length; lines with the id gain exactly 1, the others are unchanged |
| `CartContext.AddToCartUpdate` | src/context/CartContext.js:13-24 | an existing id: that line gains 1, other lines and the length unchanged; otherwise `{...p, cantidad: 1}` appended at the end |
| `CartContext.RemoveFromCartUpdate` | src/context/CartContext.js:29-31 | no line with the id remains; every result line comes from the input; lines with other ids are kept; absent id gives the input back |
| `CartContext.RemoveAppend` | src/context/CartContext.js:30 | the filter distributes over concatenation, so the remaining lines keep their order |
| `CartContext.RemoveUniqueLine` | src/context/CartContext.js:30 | with unique ids, removing line k's id yields exactly the list without line k |
| `CartContext.AddPreservesUniqueIds` | src/context/CartContext.js:14-24 | `addToCart` keeps "no two lines share an id" |
| `CartContext.AddPreservesPositive` | src/context/CartContext.js:17-23 | `addToCart` keeps every quantity at least 1 |
| `CartContext.RemovePreservesUniqueIds` | src/context/CartContext.js:30 | `removeFromCart` keeps ids unique |
| `CartContext.RemovePreservesPositive` | src/context/CartContext.js:30 | `removeFromCart` keeps every quantity at least 1 |
| `CartContext.IncrementQuantityOf` | src/context/CartContext.js:17-21 | the units held for the id rise by the number of lines carrying it; other ids are unchanged |
| `CartContext.AddToCartQuantities` | src/context/CartContext.js:12-26 | with unique ids, `addToCart(p)` adds exactly one unit of `p.id` and none of any other id |
| `CartContext.AddTimes` | src/pages/ProductDetail.js:79-81 | definition: `n` successive `addToCart(p)`; never shortens the cart, and after at least one call a line carries `p.id` |
| `CartContext.AddTimesQuantities` | src/context/CartContext.js:12-26 | n calls keep ids unique and add exactly n units of `p.id`, nothing else |
| `CartContext.AddTimesFromEmpty` | src/context/CartContext.js:10-26 | from the initial empty list, n ≥ 1 calls give the single line `{...p, cantidad: n}` |
| `CartContext.CartProvider.constructor` | src/context/CartContext.js:10 | the cart starts empty and valid |
| `CartContext.CartProvider.AddToCart` | src/context/CartContext.js:12-26 | the state becomes the add updater of the old state; the invariant is kept |
| `CartContext.CartProvider.RemoveFromCart` | src/context/CartContext.js:28-32 | the state becomes the filter of the old state; the invariant is kept |
| `CartPage.RawUnitPrice` | src/pages/Cart.js:127 | definition: `Number(item.precio)`; NaN iff `precio` is missing, otherwise that price |
| `CartPage.RawSubtotal` | src/pages/Cart.js:133 | definition: raw `precio * cantidad`; NaN iff `precio` is missing, otherwise that product |
| `CartPage.TotalAsWritten` | src/pages/Cart.js:25 | definition: left fold of the raw subtotals, NaN absorbing; NaN iff some line lacks `precio` |
| `CartPage.UnitPrice` | src/pages/Cart.js:127 | corrected unit price: `precio` if present, else `price`, else 0 |
| `CartPage.Subtotal` | src/pages/Cart.js:133 | corrected subtotal: agrees with the raw one where `precio` is present, else `cantidad * price`, else 0 |
| `CartPage.Total` | src/pages/Cart.js:25 | corrected total: left fold of the corrected subtotals; not negative when no quantity or unit price is |
| `CartPage.ItemCount` | src/pages/Cart.js:169 | definition: left fold of `cantidad` from 0 |
| `CartPage.ItemCountAtLeastLines` | src/pages/Cart.js:169 | when every quantity is at least 1, the item count is at least the number of lines |
| `CartPage.MissingPrecioMakesTotalNaN` | src/pages/Cart.js:25 | as written, one line without `precio` makes the total NaN |
| `CartPage.PriceOnlyProductBreaksTotal` | src/pages/Cart.js:25 | a product with only `price` shows a price on its page but makes the cart total NaN |
| `CartPage.TotalAsWrittenAgrees` | src/pages/Cart.js:25 | when every line has `precio`, the as-written total equals the modelled total |
| `CartPage.TotalAppend` | src/pages/Cart.js:25 | the corrected total is additive over concatenation |
| `CartPage.ItemCountAppend` | src/pages/Cart.js:169 | the item count is additive over concatenation |
| `CartPage.SplitTotals` | src/pages/Cart.js:25 | a list split around one line has as corrected total the parts plus that line's subtotal, and as count the parts plus its quantity |
| `CartPage.RemoveLowersTotals` | src/pages/Cart.js:25 | removing a line with a unique id lowers the corrected total by its subtotal and the count by its quantity |
| `CartPage.IncrementItemCount` | src/pages/Cart.js:169 | incrementing the lines of an id raises the item count by the number of those lines |
| `CartPage.AddToCartRaisesItemCount` | src/pages/Cart.js:169 | after `addToCart` on a cart with unique ids the item count rises by exactly 1 |
| `CartPage.AddTimesRaisesItemCount` | src/pages/Cart.js:169 | n calls of `addToCart` raise the item count by n |
| `CartPage.TotalAsWrittenAppend` | src/pages/Cart.js:25 | the as-written total is additive over concatenation, NaN absorbing |
| `CartPage.TotalIsSumOfRowSubtotals` | src/pages/Cart.js:25-133 | the as-written total equals the sum of the raw per-line subtotals shown on the rows, NaN included |
| `CartPage.RowOf` | src/pages/Cart.js:87-136 | one row: the raw `nombre`; `imagen_url` when truthy, else the row placeholder (no `image` fallback, unlike the product pages); the raw unit price and subtotal; the quantity; `item.id` as delete key |
| `CartPage.RenderCart` | src/pages/Cart.js:25-175 | the page as written: the empty-cart branch iff there are no lines; otherwise one row per line, exactly `RowOf` of that line (quantity, raw unit price, raw subtotal, delete key), the item count, and the raw total, equal to the rows' subtotals |
| `CartPage.RenderCartTotals` | src/pages/Cart.js:25-175 | the summary shows the corrected total when every line has `precio`, and NaN as soon as one line lacks it |
| `ProductCard.FirstTruthy` | src/components/ProductCard.js:14-16 | JavaScript `or` chain: first truthy string, else the fallback; never empty when the fallback is not |
| `ProductCard.Coalesce` | src/components/ProductCard.js:15 | `a ?? b`: `a` unless absent; absent only when both are |
| `ProductCard.DisplayName` | src/components/ProductCard.js:14 | never empty; a missing or empty `nombre` falls through to a non-empty `name`, then to "Sin nombre" |
| `ProductCard.DisplayPrice` | src/components/ProductCard.js:15 | an explicit `precio`, 0 included, wins; then `price`; then 0 |
| `ProductCard.DisplayImage` | src/components/ProductCard.js:16 | `imagen_url`, then `image`, then the placeholder; never empty |
| `ProductCard.DisplayId` | src/components/ProductCard.js:17 | `id`, else `pk`; absent only when both are |
| `ProductCard.DisplayStock` | src/components/ProductCard.js:18 | the stock, 0 when absent |
| `ProductCard.LinkTarget` | src/components/ProductCard.js:139 | the detail route iff the id is present and not 0, otherwise `'#'` |
| `ProductCard.StockCaption` | src/components/ProductCard.js:128 | "Sin stock" iff stock ≤ 0, otherwise the count |
| `ProductCard.IsLowStock` | src/components/ProductCard.js:20 | definition: 0 < stock ≤ 5 |
| `ProductCard.IsOutOfStock` | src/components/ProductCard.js:21 | definition: stock = 0 exactly (so negative stock is not out of stock) |
| `ProductCard.RenderCard` | src/components/ProductCard.js:13-156 | low-stock iff 0 < stock ≤ 5; out-of-stock iff stock = 0; never both; button disabled iff out of stock; name, price, image and stock come from the fallbacks; the link is the route of `id ?? pk` when truthy; the caption is the stock count or "Sin stock" |
| `ProductCard.ZeroIdLinksNowhere` | src/components/ProductCard.js:139 | a card whose id is 0 links to `'#'` |
| `ProductCard.NegativeStockCardStaysEnabled` | src/components/ProductCard.js:128-140 | a negative stock shows "Sin stock" while the button stays enabled |
| `ProductDetail.DescribeProduct` | src/pages/ProductDetail.js:66-70 | the same fallbacks as the card; sold-out overlay iff stock = 0; "Sin stock" chip iff stock ≤ 0; limited chip iff 0 < stock ≤ 5; the stock chip shows the count when positive |
| `ProductDetail.PageBranch` | src/pages/ProductDetail.js:25-64 | spinner iff loading; error iff not loading and failed; not-found iff neither and no product; otherwise the product's details |
| `ProductDetail.ProductDetailPage.constructor` | src/pages/ProductDetail.js:22 | the quantity starts at 1 and satisfies the stepper invariant |
| `ProductDetail.ProductDetailPage.DecrementDisabled` | src/pages/ProductDetail.js:220 | definition: quantity = 1 or out of stock |
| `ProductDetail.ProductDetailPage.IncrementDisabled` | src/pages/ProductDetail.js:231 | definition: quantity ≥ stock or out of stock |
| `ProductDetail.ProductDetailPage.AddDisabled` | src/pages/ProductDetail.js:246 | definition: out of stock or a mutation pending |
| `ProductDetail.ProductDetailPage.ClickDecrement` | src/pages/ProductDetail.js:219-220 | disabled (quantity 1 or out of stock) it does nothing; otherwise it sets `max(1, quantity - 1)`; keeps `1 ≤ quantity ≤ stock` when stock ≥ 1 |
| `ProductDetail.ProductDetailPage.ClickIncrement` | src/pages/ProductDetail.js:230-231 | disabled (quantity ≥ stock or out of stock) it does nothing; otherwise it sets `min(stock, quantity + 1)`, which is quantity + 1; keeps the range |
| `ProductDetail.ProductDetailPage.OnAddSuccess` | src/pages/ProductDetail.js:77-85 | the local cart becomes `quantity` successive `addToCart(product)`; the quantity is reset to 1 |
| `ProductDetail.ProductDetailPage.ClickAddToCart` | src/pages/ProductDetail.js:72-88 | disabled when out of stock or pending (line 246), changing nothing; otherwise the cache add runs with the current quantity, and on success the local cart gains `quantity` adds and the quantity resets; on failure the cache entry is restored (a never-loaded one keeps `{items: []}`) and is not stale, and the local cart and the quantity are untouched |
| `ProductDetail.SuccessfulAddGrowsLine` | src/pages/ProductDetail.js:79-81 | a successful add of q units leaves exactly q more units of the product in the local cart; from empty, one line of q |
| `Categories.LowerChar` | src/pages/Categories.js:164 | A-Z and the Latin-1 upper-case letters (À to Þ except ×) are lowered by 32; other characters unchanged |
| `Categories.ToLower` | src/pages/Categories.js:164 | same length, each character lowered |
| `Categories.Contains` | src/pages/Categories.js:166-173 | definition: `includes`, the keyword occurs at some position of the name |
| `Categories.Mentions` | src/pages/Categories.js:164-173 | definition: the lower-cased name includes the keyword |
| `Categories.CategoryIcon` | src/pages/Categories.js:163-176 | one of the nine icons; each icon iff its keyword is in the lower-cased name and no earlier keyword is: ♟️ "estrategia", 🎲 "rol", 🤝 "cooperativ", 🎉 "party"/"fiesta", 👶 "infantil"/"niños", 🗺️ "aventura", 🧩 "puzzle", 🃏 "cartas"; 🎮 iff no keyword matches |
| `Categories.ToLowerIdempotent` | src/pages/Categories.js:164 | lowering twice is lowering once |
| `Categories.CaseInsensitive` | src/pages/Categories.js:164 | names equal up to case get the same icon |
| `Categories.ContainsSurvivesLowering` | src/pages/Categories.js:164-166 | a lower-case keyword in the name is still found after lowering |
| `Categories.FirstLetterAbsent` | src/pages/Categories.js:166-173 | a keyword whose first letter is absent is not contained |
| `Categories.StrategyBeatsRole` | src/pages/Categories.js:166-167 | "Estrategia y Rol" gets ♟️: the first keyword wins |
| `Categories.ControlIsRolePlay` | src/pages/Categories.js:167 | "Control" gets 🎲 by substring match |
| `Categories.UpperCaseKids` | src/pages/Categories.js:164-170 | "NIÑOS" is lowered to "niños" and gets 👶 |

## Findings

| source | as written | input that shows it | evidently intended | confidence | as-written member | corrected member |
|---|---|---|---|---|---|---|
| src/pages/Cart.js:25 | the total multiplies the raw `item.precio` of the stored product record (so does the subtotal at line 133) | a product delivered with `price` and no `precio`, added from its detail page, which displays its price through `precio ?? price ?? 0` | price the line with the same fallback the product pages display | medium, not executed | `CartPage.PriceOnlyProductBreaksTotal` (on `CartPage.TotalAsWritten`, which `CartPage.RenderCart` shows, see `CartPage.RenderCartTotals`) | `CartPage.Total` (with `CartPage.TotalAsWrittenAgrees`, `CartPage.RemoveLowersTotals`) |

## Left out

- Query library behaviour: `cancelQueries`, the refetch that `invalidateQueries` triggers, freshness windows, request de-duplication, retries, prefetch, discarding stale responses, and the status a disabled query reports. These belong to the query library, which is not part of this model. Invalidation is the `stale` flag, and a completed cart fetch is `CartCache.ReceiveCart`. That `setQueryData` stores a present value as fresh data (clearing the invalidated mark) and writes nothing for `undefined` is the query library's behaviour; the model follows it (`CartCache.SetQueryData`) and does not prove it.
- The library also decides that an `onMutate` which throws is followed by `onError` with no context and no request. The model follows that behaviour and does not prove it.
- Network I/O: every `apiClient` call. A fetched body is a parameter and a mutation's outcome is `serverOk`. The API module is not part of this model.
- `Date.now()`: it is the parameter `now`.
- `parseInt(id)`: it is the page's `productId`.
- The `mutationFn` default `quantity = 1`: the quantity is always explicit.
- Floating point: prices are integer cents, and the `toFixed(2)` formatting is not modelled.
- The success message and its `setTimeout` clearing: presentation and a timer.
- Styling, markup, routing, and the string form of the `/producto/<id>` link, which is the `Link` datatype.
- App.js, index.js, Home.js and CategoryProducts.js: wiring and view only.
- NavBar.js: its badge is the same fold as `CartPage.ItemCount`.
- TEST_DATA_EXAMPLES.py: database seeding.
- CartPage.RawSubtotal: treats a `null` `precio` like an `undefined` one (NaN), while JavaScript gives 0 for `null`.
- CartPage.RawUnitPrice: likewise treats a `null` `precio` as NaN, while `Number(null)` is 0.
- QueryCache.CategoryProducts: a `productos` or `products` value that is present but not an array is not modelled.
- Categories.LowerChar: only lowers A-Z and the Latin-1 upper-case letters, not the rest of Unicode's case mappings.
- Categories.CategoryIcon: takes a string. A category without `nombre` makes `toLowerCase()` throw at src/pages/Categories.js:164 (called from line 114), and that error is not modelled.
