# Cart and order store

A Dafny model of the shopping-cart store of a small shop app. The
store is `CartProvider` in `context/CartContext.js`. It holds four pieces of state:

- the cart lines;
- the order history, newest first;
- the latest order;
- the saved shipping address.

Its operations are these:

- `addToCart` inserts a line or increments it, keyed by `productId-size-color`.
- `removeFromCart` filters lines out.
- `updateQuantity` sets a quantity outright and removes the line at zero or below.
- `clearCart` empties the cart.
- `getTotalItems` and `getTotalPrice` are the two folds.
- `placeOrder` snapshots the cart into an order with status `Processing`, puts it at the head of the history and in the latest-order slot, saves the address when one is given and empties the cart.
- A deferred callback later marks the order `Shipped`.

Layout, following the source's split between state slots and the pure updater functions handed to them:

- `cart_types.dfy` (`CartTypes`): the values. Products, cart lines, addresses, statuses and orders. Prices are integer cents. An order's taxed total is in mills, tenths of a cent.
- `cart_lines.dfy` (`CartLines`): the cart updaters as functions, the folds, and the lemmas about them.
- `order_ids.dfy` (`OrderIds`): the order id, `"ORD"` followed by the last six characters of the decimal clock reading.
- `orders.dfy` (`Orders`): the two updaters that the deferred callback applies, one to the history and one to the latest-order slot.
- `cart_store.dfy` (`CartStore`): the class `Store`. Its fields are the four state slots, and its methods replace them the way the state setters do. A ghost multiset `pendingShipments` records the callbacks `placeOrder` has scheduled and that have not yet run. The callback body is the method `ShipOrder`. A caller may run it only for an id in that multiset.

The store's invariant `Valid()` holds across all operations:

- no two cart lines share an itemId;
- every line's itemId is the key `productId-size-color` of its own product, size and color;
- every quantity is at least 1;
- a scheduled callback always finds a latest order to rewrite.

## Model

| member | source | states |
|---|---|---|
| CartLines.ItemKeyInjective | context/CartContext.js:20 | When product ids and sizes contain no '-', two variants get the same itemId exactly when product, size and color all agree |
| CartLines.OneLinePerVariant | context/CartContext.js:20 | A well-formed cart holds no two lines of the same (product id, size, color) variant |
| CartLines.FindIndex | context/CartContext.js:23-25 | Returns -1 exactly when no line has the key. Otherwise it returns the first line carrying the key |
| CartLines.FindIndexUnique | context/CartContext.js:23-25 | In a cart with unique keys, findIndex finds the one line that carries the key |
| CartLines.AddLine | context/CartContext.js:19-46 | After addToCart the key is present. The cart grows by one line exactly when the key was absent |
| CartLines.AddExistingLine | context/CartContext.js:27-31 | For a key already present, that line's quantity goes up by exactly 1 and every other line, the length and the order stay the same. The item count rises by 1 and the subtotal by the unit price |
| CartLines.AddNewLine | context/CartContext.js:32-43 | For a new key, one line `productId-size-color` with quantity 1 is appended after the untouched earlier lines. The item count rises by 1 and the subtotal by the unit price |
| CartLines.AddLineTotalItems | context/CartContext.js:19-46 | Either way, getTotalItems rises by exactly 1 |
| CartLines.AddLineQuantityOf | context/CartContext.js:19-46 | addToCart adds one unit of its own variant and none of any other |
| CartLines.AddOtherVariant | context/CartContext.js:19-46 | When product ids and sizes contain no '-', adding one variant leaves the units of every other variant unchanged |
| CartLines.AddLinePreservesWellFormed | context/CartContext.js:19-46 | addToCart keeps itemIds unique, quantities at least 1 and every itemId equal to its line's own key |
| CartLines.AddRepeatedlyQuantity | context/CartContext.js:19-46 | Adding a variant n times keeps the cart well formed and adds exactly n units of that variant |
| CartLines.AddSameVariantNTimes | context/CartContext.js:19-46 | Adding a new variant n ≥ 1 times leaves exactly one line with its key, and that line has quantity n |
| CartLines.RemoveLines | context/CartContext.js:49 | A line survives removeFromCart exactly when it was in the cart and its itemId differs from the removed one |
| CartLines.RemoveLinesNoKey | context/CartContext.js:49 | After removeFromCart no line carries the removed itemId |
| CartLines.RemoveAbsent | context/CartContext.js:49 | Removing an itemId that is not in the cart changes nothing |
| CartLines.RemoveIdempotent | context/CartContext.js:48-50 | Removing twice is the same as removing once |
| CartLines.RemovePresent | context/CartContext.js:49 | In a cart with unique keys, removal cuts out exactly the matching line and keeps the others in their original order |
| CartLines.RemovePreservesWellFormed | context/CartContext.js:48-50 | removeFromCart keeps itemIds unique, quantities at least 1 and every itemId equal to its line's own key |
| CartLines.RemoveTotalItems | context/CartContext.js:48-50 | The item count drops by exactly the units held under the removed itemId |
| CartLines.SetQuantity | context/CartContext.js:58-65 | The map gives the matching lines the new quantity and leaves every other line, the length and the order unchanged |
| CartLines.UpdatePresent | context/CartContext.js:52-66 | For q > 0 and a present key, only that line changes, and its quantity becomes q: an absolute set, not a delta. The item count moves by the difference |
| CartLines.UpdateAbsent | context/CartContext.js:52-66 | updateQuantity on an unknown itemId changes nothing, whatever the quantity |
| CartLines.UpdatePreservesWellFormed | context/CartContext.js:52-66 | updateQuantity keeps itemIds unique, quantities at least 1 and every itemId equal to its line's own key, including when q ≤ 0 removes the line |
| CartLines.TotalItemsAtLeastLines | context/CartContext.js:80-82 | On a well-formed cart getTotalItems is at least the number of lines |
| CartLines.TotalPriceCoversLines | context/CartContext.js:73-78 | getTotalPrice is never negative and is at least the price × quantity of every line |
| OrderIds.DecimalString | context/CartContext.js:92 | The decimal rendering of the clock is non-empty and made of digits |
| OrderIds.SliceLast | context/CartContext.js:92 | `slice(-k)` returns the last k characters, or the whole string when it is shorter |
| OrderIds.OrderIdShape | context/CartContext.js:92 | An order id is "ORD" followed by one to six digits |
| OrderIds.OrderIdRepeats | context/CartContext.js:92 | Clock readings of at least six digits that are 1,000,000 ms apart give the same order id |
| Orders.ShipInHistory | context/CartContext.js:114-116 | The callback's map marks Shipped exactly the history entries whose id matches and leaves every other order and the length unchanged |
| Orders.ShipKeepsOrders | context/CartContext.js:114-116 | Shipping neither adds nor loses any order id |
| Orders.ShipIdempotent | context/CartContext.js:114-116 | Running the history update twice has the effect of running it once |
| Orders.ShipCommutes | context/CartContext.js:114-116 | Two pending callbacks give the same history in either order |
| Orders.CollidingIdsShipTogether | context/CartContext.js:114-116 | The history update marks every entry carrying its id, and ids repeat every 1,000,000 ms. So the callback of an order placed 1,000,000 ms after another also marks the earlier order's entry, which is already Shipped by then |
| Orders.ShipLatestBlind | context/CartContext.js:113 | As written, the latest-order slot becomes Shipped whatever order it holds, and nothing but the status changes |
| Orders.ShipLatest | context/CartContext.js:113 | Corrected: the latest-order slot becomes Shipped only when it holds the order the callback was scheduled for |
| Orders.PlacedIsNewest | context/CartContext.js:107-108 | After prepending an order and storing it as latest, the latest slot shows the newest history entry |
| Orders.ShipLatestKeepsNewest | context/CartContext.js:112-116 | With the id-matched update, the latest slot keeps showing the newest history entry |
| Orders.BlindShipBreaksNewest | context/CartContext.js:113 | With the as-written update there is a history and latest slot that agree before the callback and disagree after it |
| CartStore.Store.constructor | context/CartContext.js:14-17 | The store starts with an empty cart, an empty history, no latest order and no saved address |
| CartStore.Store.AddToCart | context/CartContext.js:19-46 | The cart becomes AddLine of the old cart and stays well formed. The item count and the variant's quantity each rise by 1 |
| CartStore.Store.RemoveFromCart | context/CartContext.js:48-50 | The cart becomes the filtered cart and stays well formed. No line with the itemId is left, and the item count drops by that itemId's units |
| CartStore.Store.UpdateQuantity | context/CartContext.js:52-66 | At q ≤ 0 this is removal. Otherwise the quantity is set to q, or nothing changes for an unknown itemId, and the cart stays well formed |
| CartStore.Store.ClearCart | context/CartContext.js:69-71 | The cart is empty and nothing else changes |
| CartStore.Store.GetTotalItems | context/CartContext.js:80-82 | The count is at least the number of lines, and 0 exactly when the cart is empty |
| CartStore.Store.GetTotalPrice | context/CartContext.js:73-78 | The subtotal in cents is never negative, is 0 on an empty cart and covers every line's price × quantity |
| CartStore.Store.PlaceOrder | context/CartContext.js:84-120 | An empty cart gives no order and no state change. Otherwise the result is the order (id from the clock, prior cart, total = 1.1 × subtotal, Processing). It heads the history and is the latest order. The cart is emptied, the address is saved only when given, and the order's callback is scheduled |
| CartStore.Store.ShipOrder | context/CartContext.js:112-117 | As written: matching history entries become Shipped, and the latest slot becomes Shipped whatever it holds. The callback is consumed |
| CartStore.Store.ShipOrderById | context/CartContext.js:112-117 | Corrected: the latest slot is matched by id as well, so a store whose latest slot showed the newest order still does |

`CartStore.AddTwiceScenario` shows the store's contracts at work: the
same variant added twice is one line with quantity 2. `CartStore.SecondOrderScenario`
and `CartStore.SecondOrderShippedById` play the finding below through the
store itself, once with each version of the callback.

## Left out

- The `useCart` hook and its error when used outside the provider (context/CartContext.js:5-11) are framework plumbing. The same goes for the context value object and the provider's rendering (context/CartContext.js:122-136).
- `Date.now()`, `toISOString()` and `toLocaleDateString()` (context/CartContext.js:92, 97, 99-102) are clock and locale formatting. The clock reading `now` is a parameter of `PlaceOrder`, and the id is computed from it. The order's date and estimated-delivery strings are parameters too.
- The `setTimeout` scheduling and its 5000 ms delay (context/CartContext.js:112, 117) are event-loop timing. Only the callback body is modelled, as `ShipOrder`, which a caller runs for a scheduled id. The model does not order a callback 5000 ms after its order. `ShipOrder` may run at any point after placement. It also cannot tell apart two scheduled callbacks that carry the same id string.
- Prices are text parsed with `parseFloat(price.replace('$', ''))`, and the total is multiplied by the float 1.1 (context/CartContext.js:75, 96). Unit prices are natural numbers of cents instead. The taxed total is 11 × subtotal in mills, which is exact where the source rounds in floating point. Prices that do not parse (NaN) are not modelled.
- React's batching of state updates, stale closures (`placeOrder` reads `cartItems` from its render, lines 85 and 95) and the double invocation of updaters in development mode are not modelled. The methods run one after another on the current state.
- The in-place `quantity += 1` on a shallow copy (context/CartContext.js:29-30) also mutates the line object that the previous state array shares. Cart lines here are immutable values, so that aliasing is not captured.
- The screens disagree with the store: numeric prices reach `.replace`, and they read `cartTotal` and `cartItemCount`, which the store never provides. That is view code and is not modelled.
- Product ids, sizes and colors are strings. The template-literal rendering of numeric ids is not modelled.
- The spread of a `null` latest order in the callback cannot occur here. `Valid()` guarantees that a scheduled callback finds a latest order.
- The status `Delivered` appears only on the screens. The store never sets it.
- CartLines.RemoveLines: its own contract states which lines remain, but not their order. The order is stated by `CartLines.RemovePresent` for carts with unique keys, which is every cart the store holds.
- CartStore.Store.GetTotalPrice: states bounds on the subtotal. The exact value is `CartLines.TotalPrice`, the fold over unit price × quantity, and `CartLines.AddExistingLine` and `CartLines.AddNewLine` state how it changes.

## Findings

| source | as written | input that shows it | evidently intended | confidence | as-written member | corrected member |
|---|---|---|---|---|---|---|
| context/CartContext.js:113 | The deferred callback sets status `Shipped` on whatever order the latest-order slot holds when it fires, without comparing ids | Place order O1 and, within 5 s, order O2. O1's callback marks O2 Shipped in the latest slot, while the history still shows O2 as Processing | Mark the latest order Shipped only when its id is the callback's order id, as the history update on lines 114-116 does | medium, not executed | CartStore.Store.ShipOrder, Orders.BlindShipBreaksNewest | CartStore.Store.ShipOrderById, Orders.ShipLatestKeepsNewest |
