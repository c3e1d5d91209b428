# Storefront cart model

A Dafny model of the shopping-cart core of a Next.js storefront (EliusIron/Ecommerce-Fullstack).

**The two cart containers.** The project models both:
- the zustand store (`cartStore.ts`): three fields and six actions, plus the projection it persists;
- the React-context cart (`CartContext.tsx`): its own `addItem` rule, the two folds, and the flag that holds back storage writes until the first load.

**The pieces around the carts.** It also models:
- the per-card quantity picker and its "−  n  +" control;
- the adapter from the public catalog API's record to `Product`, and the loading/error state of the one fetch;
- the derived views: cart totals, the plural label, the footer, promotion and pay-button rules of the drawer and the modal, the in-cart badge of a product card, the catalog grid's view selection, and the star row.

**How it is modelled.**
- The store, the context provider, the picker and the fetch state are classes whose methods change their fields. Each method's `ensures` ties the new state to a pure function of the old one.
- The lemmas state what those functions promise. The central facts are:
  - where a product's quantity lands after each action;
  - that no other line moves;
  - that the cart invariant is kept: one line per product id, every quantity at least 1;
  - how the unit and price totals move.
- The views are functions over `seq<CartItem>`.

**Numbers.** Quantities are `int`. Prices and ratings are `real`, so totals are exact sums.

**Modules.** One module per source concern:
- `Types`: the data shapes;
- `NumberFormat`: JavaScript's `String(n)` on integers, and its inverse;
- `CartLines`: `findIndex`/`find`/`filter`/`map` by id, and the invariant;
- `CartTotals`: the two `reduce` folds;
- `CartStore`, `CartContext`, `ProductQuantity`, `QuantityControl`, `UseProducts`;
- `CartLineView`: one cart line as both panels draw it;
- `CartDrawer`, `CartModal`, `ProductCard`, `ProductList`, `StarRating`.

## Model

| member | source | states |
|---|---|---|
| Types.Max | src/app/store/cartStore.ts:58 | `Math.max` of two integers: at least both, and equal to one of them |
| NumberFormat.NatToStringDigits | src/app/hooks/useProducts.ts:21 | the decimal rendering of a natural number is a non-empty digit string whose value is the number |
| NumberFormat.IntToStringRoundTrip | src/app/hooks/useProducts.ts:21 | parsing `String(n)` gives back `n` for every integer |
| NumberFormat.IntToStringInjective | src/app/hooks/useProducts.ts:21 | two integers render to the same string iff they are equal |
| CartLines.IndexOf | src/app/store/cartStore.ts:49-51 | `findIndex` by id: the first position holding the id, with no earlier one, or -1 exactly when no line holds it |
| CartLines.InCartQuantity | src/app/components/Products/ProductCard.tsx:33-35 | `find(...)?.quantity ?? 0`: the quantity of the first line with the id, or 0 when there is none |
| CartLines.WithoutId | src/app/store/cartStore.ts:91 | `filter` by id: no remaining line holds the id, and the list does not grow |
| CartLines.WithQuantity | src/app/store/cartStore.ts:102-104 | `map` by id: same length, same products in order, the id's lines at the new quantity, all others unchanged |
| CartLines.IndexOfAppend | src/app/store/cartStore.ts:71 | the position of an id in a concatenation: in the first part if there, else shifted past it, else -1 |
| CartLines.InCartAppend | src/app/store/cartStore.ts:71 | the in-cart quantity in a concatenation comes from the first part when the id is there, else from the second |
| CartLines.WithoutIdAbsent | src/app/store/cartStore.ts:89-92 | filtering an absent id is a no-op |
| CartLines.WithoutIdMembers | src/app/store/cartStore.ts:91 | the filtered list holds exactly the lines whose id differs |
| CartLines.WithoutIdGone | src/app/store/cartStore.ts:91 | after filtering, `findIndex` of the id is -1 |
| CartLines.WithoutIdIdempotent | src/app/store/cartStore.ts:89-92 | filtering twice is filtering once |
| CartLines.WithoutIdRemovesOneLine | src/app/store/cartStore.ts:91 | under unique ids, filtering a present id removes exactly its line and keeps the rest in order |
| CartLines.WithoutIdAt | src/app/store/cartStore.ts:91 | the same for any position that holds the id |
| CartLines.WithoutIdAppend | src/app/store/cartStore.ts:91 | `filter` distributes over concatenation |
| CartLines.WithoutIdInCart | src/app/store/cartStore.ts:91 | after filtering, the id's in-cart quantity is 0 and every other id's is unchanged |
| CartLines.WithoutIdPreservesInvariant | src/app/store/cartStore.ts:89-92 | filtering keeps unique ids and quantities of at least 1 |
| CartLines.WithQuantityKeepsIds | src/app/store/cartStore.ts:102-104 | overwriting quantities leaves every id at the position it had |
| CartLines.WithQuantityOthersUnchanged | src/app/store/cartStore.ts:102-104 | overwriting one id's quantity leaves every other line, in order, as it was |
| CartLines.AssignAtIndexIsWithQuantity | src/app/store/cartStore.ts:56-63 | under unique ids, assigning the line at `findIndex` equals the `map` over the id |
| CartLines.WithQuantityAbsent | src/app/store/cartStore.ts:101-105 | `map` on an absent id never inserts: the list is unchanged |
| CartLines.WithQuantityInCart | src/app/store/cartStore.ts:101-105 | after the overwrite the id holds exactly `n` if present (0 otherwise), and other ids keep their quantity |
| CartLines.WithQuantityPreservesInvariant | src/app/store/cartStore.ts:101-105 | overwriting with a quantity of at least 1 keeps the invariant |
| CartLines.InCartPositiveIffPresent | src/app/components/Products/ProductCard.tsx:33-35 | under the invariant, the in-cart quantity is positive iff the product has a line |
| CartTotals.TotalsAppend | src/app/components/cart/CartDrawer.tsx:14-18 | both `reduce` folds are additive over concatenation |
| CartTotals.TotalsSingleton | src/app/components/cart/CartDrawer.tsx:14-18 | one line contributes its quantity and `price * quantity` |
| CartTotals.TotalItemsAtLeastLines | src/app/components/cart/CartDrawer.tsx:14-15 | under the invariant, the unit total is at least the number of lines, and 0 exactly for an empty cart |
| CartTotals.TotalsAround | src/app/components/cart/CartDrawer.tsx:14-18 | splitting out line `k` separates its quantity and its amount from both totals |
| CartTotals.TotalItemsSplit | src/app/components/cart/CartDrawer.tsx:14-15 | under unique ids, the unit total is one product's in-cart quantity plus the total of all other lines |
| CartStore.FindIndex | src/app/store/cartStore.ts:49-51 | the `findIndex` loop returns the first position of the id with none before it, or -1 when absent |
| CartStore.Store.constructor | src/app/store/cartStore.ts:42-44 | the initial state is no lines, drawer closed, no notification |
| CartStore.Store.Persisted | src/app/store/cartStore.ts:122-125 | `partialize` keeps exactly `items` and `isDrawerOpen` |
| CartStore.Store.AddItem | src/app/store/cartStore.ts:47-87 | the copy/assign/splice body yields `AddedItems`, always writes the notification, and leaves the drawer flag alone |
| CartStore.Store.RemoveItem | src/app/store/cartStore.ts:89-92 | the lines become the `filter` of the id; the other fields are unchanged |
| CartStore.Store.UpdateQuantity | src/app/store/cartStore.ts:94-106 | the lines become `UpdatedItems`; the other fields are unchanged |
| CartStore.Store.ClearCart | src/app/store/cartStore.ts:108 | the lines become empty; the drawer flag and notification are unchanged |
| CartStore.Store.ToggleDrawer | src/app/store/cartStore.ts:109-110 | the drawer flag flips; nothing else changes |
| CartStore.Store.ClearNotification | src/app/store/cartStore.ts:114 | the notification becomes null; nothing else changes |
| CartStore.AddedItemsByCase | src/app/store/cartStore.ts:55-68 | under unique ids, a present line that reaches 0 is the `filter` of its id, and one that survives is the `map` to the new total |
| CartStore.StoreAddItemInCart | src/app/store/cartStore.ts:48-74 | the product's in-cart quantity becomes `max(0, old + q)`, so a line that reaches 0 is gone |
| CartStore.StoreAddItemOthersInCart | src/app/store/cartStore.ts:48-74 | no other product's in-cart quantity moves |
| CartStore.StoreAddItemOthersUnchanged | src/app/store/cartStore.ts:48-74 | the lines of every other product stay as they were and in the same order |
| CartStore.StoreAddItemPosition | src/app/store/cartStore.ts:55-74 | a surviving line keeps its position and product; a line at 0 is removed (length −1); a new line `{p, q}` goes last (length +1); an absent product with `q ≤ 0` leaves the list unchanged |
| CartStore.StoreAddItemPreservesInvariant | src/app/store/cartStore.ts:55-74 | `addItem` keeps unique ids and quantities of at least 1 |
| CartStore.StoreAddItemTotalItems | src/app/store/cartStore.ts:48-74 | the unit total moves by exactly the change in the product's in-cart quantity |
| CartStore.StoreAddItemNotification | src/app/store/cartStore.ts:76-85 | the notification has the fixed message and names the product; its quantity is the resulting total for a present line and `q` otherwise |
| CartStore.StoreAddAllInCart | src/app/store/cartStore.ts:47-87 | any run of `addItem` calls for one product keeps the invariant and leaves the quantity at the sum floored at 0 after each step |
| CartStore.FlooredSumOfNonNegatives | src/app/store/cartStore.ts:58 | with no negative request, the floor never bites and the quantity grows by the plain sum |
| CartStore.StoreUpdateQuantityInCart | src/app/store/cartStore.ts:94-106 | the id ends at exactly `n` when present and `n > 0`, and is absent otherwise; it is never inserted; other products and the order of the other lines are unchanged |
| CartStore.StoreRemoveItem | src/app/store/cartStore.ts:89-92 | drops exactly the id's line and keeps the rest in order; a no-op when the id is absent; idempotent |
| CartStore.StepPreservesInvariant | src/app/store/cartStore.ts:47-114 | every action keeps the cart invariant on integer quantities |
| CartStore.FlagActions | src/app/store/cartStore.ts:108-114 | two toggles are the identity; clearing the notification is idempotent; `clearCart` touches only the lines |
| CartStore.PartializeIgnoresNotification | src/app/store/cartStore.ts:122-125 | the persisted projection never depends on the notification |
| CartContext.UseCart | src/app/context/CartContext.tsx:171-176 | outside a provider the hook fails with the fixed message; inside one it returns the provider's value |
| CartContext.CartProvider.constructor | src/app/context/CartContext.tsx:28-34 | the first render has an empty cart, no notification and the load flag down, whatever storage holds |
| CartContext.CartProvider.LoadEffect | src/app/context/CartContext.tsx:37-53 | on the client, stored lines that parse are adopted; the load flag is raised in every case |
| CartContext.CartProvider.SaveEffect | src/app/context/CartContext.tsx:56-66 | the lines are written only when the load flag is up and on the client |
| CartContext.CartProvider.Mount | src/app/context/CartContext.tsx:37-66 | stored lines are adopted and written back unchanged, never overwritten by the empty first render; missing or unreadable storage is replaced by the current lines |
| CartContext.CartProvider.ClearNotification | src/app/context/CartContext.tsx:70-76 | cancels a pending auto-clear and drops the notification |
| CartContext.CartProvider.AddItem | src/app/context/CartContext.tsx:78-120 | the lines become `ContextAddedItems`, the notification carries the requested quantity, and an auto-clear is pending |
| CartContext.CartProvider.RemoveItem | src/app/context/CartContext.tsx:123-125 | the lines become the `filter` of the id; nothing else changes |
| CartContext.CartProvider.UpdateQuantity | src/app/context/CartContext.tsx:127-136 | the same updater as the store's `updateQuantity`; nothing else changes |
| CartContext.CartProvider.ClearCart | src/app/context/CartContext.tsx:138-141 | empties the lines and also clears the notification |
| CartContext.CartProvider.GetItemCount | src/app/context/CartContext.tsx:143-147 | the sum of quantities; 0 on an empty cart |
| CartContext.CartProvider.GetSubtotal | src/app/context/CartContext.tsx:149-151 | the sum of `price * quantity`; 0 on an empty cart |
| CartContext.ContextAddItemInCart | src/app/context/CartContext.tsx:88-105 | a present product ends at `max(1, old + q)`; an absent one enters with `max(0, q)`; other products are untouched |
| CartContext.ContextAddItemNeverRemoves | src/app/context/CartContext.tsx:91-99 | for a present product the list keeps its length, the line keeps its position, and the other lines are unchanged |
| CartContext.ContextAddItemPreservesInvariant | src/app/context/CartContext.tsx:88-105 | the context's `addItem` keeps the cart invariant |
| CartContext.AddRulesCompared | src/app/context/CartContext.tsx:91-99 | the store and context rules agree iff the product is new or its merged total stays at 1 or more; below that, the store drops the line and the context keeps it at 1 |
| CartContext.NotificationQuantitiesDiffer | src/app/context/CartContext.tsx:108-113 | with 2 units in the cart, adding 3 notifies 5 from the store and 3 from the context |
| ProductQuantity.Decremented | src/app/hooks/useProductQuantity.ts:17-19 | never below 1; one less above 1; a no-op exactly at 1 |
| ProductQuantity.QuantityPicker.constructor | src/app/hooks/useProductQuantity.ts:6-9 | the quantity starts at `initialQuantity`, which defaults to 1 |
| ProductQuantity.QuantityPicker.Increment | src/app/hooks/useProductQuantity.ts:12-14 | adds exactly 1 |
| ProductQuantity.QuantityPicker.Decrement | src/app/hooks/useProductQuantity.ts:17-19 | the quantity becomes `max(1, q - 1)` |
| ProductQuantity.QuantityPicker.Reset | src/app/hooks/useProductQuantity.ts:22-24 | restores the initial quantity |
| ProductQuantity.QuantityPicker.SetQuantity | src/app/hooks/useProductQuantity.ts:31 | the exposed setter applies no floor |
| ProductQuantity.IncrementThenDecrement | src/app/hooks/useProductQuantity.ts:12-19 | from any quantity of at least 1, "+" then "−" returns to it |
| ProductQuantity.RunStaysAtLeastMin | src/app/hooks/useProductQuantity.ts:12-19 | any run of presses from a start of at least 1 stays at 1 or more, and at most the start plus the number of presses |
| QuantityControl.Render | src/app/components/ui/QuantityControl.tsx:13-41 | shows the `quantity` prop; "−" is disabled iff `quantity <= minQuantity` (default 1); "+" is never disabled |
| QuantityControl.Click | src/app/components/ui/QuantityControl.tsx:21-38 | "+" fires only `onIncrement`; "−" fires only `onDecrement`, and nothing while disabled |
| QuantityControl.MinusDisabledIffDecrementIsNoOp | src/app/components/ui/QuantityControl.tsx:23 | wired to the picker, "−" is disabled exactly when pressing it would change nothing |
| UseProducts.AdaptAll | src/app/hooks/useProducts.ts:20-27 | one product per API record, same length and order |
| UseProducts.ToProductFields | src/app/hooks/useProducts.ts:21-27 | each field comes from its record, and the numeric id can be read back from the string id |
| UseProducts.AdaptKeepsIdsDistinct | src/app/hooks/useProducts.ts:20-27 | records with distinct numeric ids give products with distinct string ids |
| UseProducts.FetchErrorCases | src/app/hooks/useProducts.ts:15-33 | error is null iff the fetch succeeded; an HTTP failure's message is the prefix plus a status that parses back; a thrown non-Error gives the fixed message; an Error gives its own message |
| UseProducts.Http500Message | src/app/hooks/useProducts.ts:15-17 | a 500 response reads "HTTP error! status: 500" |
| UseProducts.ProductsState.constructor | src/app/hooks/useProducts.ts:5-8 | starts with no products, loading, and no error |
| UseProducts.ProductsState.FetchProducts | src/app/hooks/useProducts.ts:10-36 | ends not loading, with the error of the outcome; products are replaced only on success |
| UseProducts.MountWith500 | src/app/hooks/useProducts.ts:5-39 | a mount whose fetch gets a 500 ends with no products, not loading, and the status message |
| StarRating.IconCount | src/app/components/ui/StartRating.tsx:26 | `Array.from({ length: n })` yields `n` elements, or none for a negative `n` |
| StarRating.Render | src/app/components/ui/StartRating.tsx:46-51 | the review count is shown iff it is given, including 0 |
| StarRating.RatingInRange | src/app/components/ui/StartRating.tsx:18-43 | for `0 <= rating <= maxStars`, the filled stars are `floor(rating)` and the row has exactly `maxStars` icons |
| StarRating.RatingOutOfRange | src/app/components/ui/StartRating.tsx:18-43 | a rating of at least `maxStars + 1` shows more than `maxStars` filled stars and no empty one; a negative rating shows no filled star and more than `maxStars` empty ones |
| StarRating.DefaultRow | src/app/components/ui/StartRating.tsx:15-20 | the default row has 5 stars, and a count of 0 is still shown |
| ProductList.CardsFor | src/app/components/Products/ProductList.tsx:40-53 | one card per product, in order, with `isPriority` iff the index is below 10 |
| ProductList.SelectView | src/app/components/Products/ProductList.tsx:19-53 | while loading: 10 skeletons; otherwise "no products" iff empty, the error iff non-empty with a truthy error, cards otherwise; the second empty test is unreachable |
| ProductList.EmptyWinsOverError | src/app/components/Products/ProductList.tsx:28-30 | with no products, the grid says "no products" whatever the error |
| ProductList.FailedFetchHidesError | src/app/components/Products/ProductList.tsx:28-34 | composed with the fetch hook, a failed first fetch never shows its error message |
| ProductList.SelectViewErrorFirst | src/app/components/Products/ProductList.tsx:28-38 | the chain with the error test first: the error iff truthy, then "no products" iff empty, then cards |
| ProductList.ErrorFirstShowsFetchFailure | src/app/components/Products/ProductList.tsx:28-38 | the corrected chain shows every failed fetch's non-empty message, and agrees with the original whenever there is no error or there are products |
| ProductList.FetchFailuresAreTruthy | src/app/components/Products/ProductList.tsx:32 | HTTP failures and thrown non-Errors always leave a truthy error |
| CartLineView.ItemsLabel | src/app/components/cart/CartDrawer.tsx:177-178 | the label is "producto" iff the total is 1, "productos" otherwise |
| CartLineView.RenderLine | src/app/components/cart/CartDrawer.tsx:112-167 | unit price; amount `price * quantity`; a control showing the quantity with "−" disabled iff quantity ≤ 1; "+" → `updateQuantity(id, q+1)`; "−" → `updateQuantity(id, q-1)`; trash → `removeItem(id)` |
| CartLineView.RenderLines | src/app/components/cart/CartDrawer.tsx:112 | one rendered line per item, in order |
| CartLineView.LineClick | src/app/components/cart/CartDrawer.tsx:148-156 | "+" issues the increment call; "−" issues nothing iff disabled; a click only issues the line's own calls |
| CartLineView.LineAmountOneMore | src/app/components/cart/CartDrawer.tsx:160 | one unit more or less moves the line amount by the unit price |
| CartLineView.TotalsAfterSetQuantity | src/app/components/cart/CartDrawer.tsx:14-18 | setting line `k` to `n` moves both totals by exactly that line's change |
| CartLineView.TotalsByOne | src/app/components/cart/CartDrawer.tsx:14-18 | one unit more or less on a line moves the unit total by 1 and the price total by the unit price |
| CartLineView.UpdateLine | src/app/components/cart/CartDrawer.tsx:150-155 | under the invariant, `updateQuantity` to a positive `n` for line `k`'s id changes that line alone and keeps the invariant |
| CartLineView.IncrementAddsOneUnit | src/app/components/cart/CartDrawer.tsx:150-152 | "+" always issues an update that raises that line alone by one and keeps the invariant |
| CartLineView.IncrementTotals | src/app/components/cart/CartDrawer.tsx:150-152 | after "+", the unit total is one more and the price total one unit price more |
| CartLineView.DecrementNeverDropsLine | src/app/components/cart/CartDrawer.tsx:153-155 | "−" issues nothing iff the quantity is 1; above 1 it lowers that line alone by one and both totals accordingly, so it never removes a line |
| CartLineView.RemoveDropsLine | src/app/components/cart/CartDrawer.tsx:136-142 | the trash button removes exactly line `k`, keeps the invariant, and takes its contribution off both totals |
| CartLineView.SingularIffOneUnit | src/app/components/cart/CartDrawer.tsx:177-178 | under the invariant, the label is singular iff the cart is one line of one unit |
| CartDrawer.Render | src/app/components/cart/CartDrawer.tsx:54-209 | header count is the unit total; empty message iff no lines; one line per item; a footer (count, label, total) iff there are lines; every close control toggles the drawer |
| CartDrawer.FooterFollowsCount | src/app/components/cart/CartDrawer.tsx:173-178 | under the invariant, the footer shows iff the header count is positive; the count is at least the number of lines; the word is singular only for one line of one unit |
| CartDrawer.CloseThenReopen | src/app/components/cart/CartDrawer.tsx:72-89 | closing flips only the open flag, and closing again restores the state |
| CartModal.Render | src/app/components/cart/CartModal.tsx:36-211 | empty message iff no lines; the same lines as the drawer; promotion line iff there are lines; footer always shows count, label and subtotal; pay disabled iff no lines |
| CartModal.EmptyModal | src/app/components/cart/CartModal.tsx:162-205 | an empty modal shows "0 productos", a subtotal of 0, a disabled pay button and no promotion line |
| CartModal.PayEnabledIffUnits | src/app/components/cart/CartModal.tsx:164-201 | under the invariant, pay is enabled, and the promotion shown, iff the unit count is positive |
| CartModal.AgreesWithDrawer | src/app/components/cart/CartModal.tsx:17-21 | the modal and the drawer show the same lines, and their footers agree on count, label and total |
| CartModal.RemovingLastLineDisablesPay | src/app/components/cart/CartModal.tsx:119 | removing the only line of a one-line cart disables the pay button |
| ProductCard.Badge | src/app/components/Products/ProductCard.tsx:49-56 | the badge is shown iff the in-cart quantity is positive, and then shows it |
| ProductCard.Render | src/app/components/Products/ProductCard.tsx:18-113 | the badge of the store's lines; the stars from rating and review count; the picker control with "−" disabled at 1 or below; the priority flag |
| ProductCard.OnAddToCart | src/app/components/Products/ProductCard.tsx:40-42 | the add button calls `addItem(product, quantity)` with the picker's value |
| ProductCard.BadgeIffInCart | src/app/components/Products/ProductCard.tsx:33-56 | under the invariant, the badge shows iff the product has a line |
| ProductCard.AddFromCard | src/app/components/Products/ProductCard.tsx:23-42 | after any presses of the picker from its initial 1, adding gives at least 1 unit, keeps the invariant, raises the badge to old + picker, and moves no other product |
| ProductCard.FirstClick | src/app/components/Products/ProductCard.tsx:23-49 | a fresh card on a product not in the cart shows a badge of 1 after one click |

## Left out

- **External services and files.**
  - `src/app/services/erpService.ts` is not part of this model: it is network I/O and URL building.
  - The navbars, the skeleton, the layouts and the configuration are markup only.
- **Timers.** The context's 50 ms deferral of `addItem` is collapsed: `CartProvider.AddItem` takes the timeout as having fired. The 3000 ms auto-clear is only a pending flag (`timerPending`); its firing is not modelled.
- **The toast.** `CartToastNotification.tsx` keeps its own visibility state and two timer references. Its 3000 ms auto-close, its 300 ms fade and its close button are not modelled. Their only effect on the cart core is a call to the store's `clearNotification`, which `CartStore.Store.ClearNotification` models.
- **Storage.** `localStorage`, `JSON.stringify`/`JSON.parse` and zustand's `persist` rehydration and merge are not modelled. Storage is a value: nothing, encoded lines, or text that fails to parse. `partialize` is modelled as a projection.
- **Hooks and selectors.** React hook, context and re-render plumbing is not modelled. That includes the modal's selector, which builds a new object on every call.
- **Money formatting.** `toFixed(2)` and JavaScript floating-point rounding are not modelled. Prices and totals are exact `real` values.
- **Cart lines.** A line is a product plus a quantity, not a spread record. A lookup only ever sees the product's own fields.
- **The network call.** The HTTP request is not modelled. `useProducts` receives its outcome as a parameter.
- **Hidden markup.** The drawer's and the modal's overlay and panel classes, the static "PROMO YEYA" tags and the crossed-out "$120.00" are not modelled.
- NumberFormat.IntToStringRoundTrip: models `String(n)` only for integers written in plain decimal. JavaScript switches to exponential notation from 1e21 up, which is not modelled.
- CartStore.Store.AddItem: the array copy, index assignment and `splice` are modelled on a `seq` value. Whether the new array aliases the old one is not captured.
- ProductQuantity.QuantityPicker.SetQuantity: quantities are integers. A non-integer value passed to the exposed setter is not modelled.
- CartContext.CartProvider.SaveEffect: a `localStorage.setItem` failure, which the source catches and logs, would leave storage unchanged; the model always writes once the flag is up on the client. A stored value that parses as JSON but is not an array of lines is adopted by the source as is; `Stored` cannot express it, so the model treats only encoded lines as loadable.
- CartStore.StepPreservesInvariant: holds for integer quantities only. A fractional `updateQuantity` argument is outside the model.

## Findings

| source | as written | input that shows it | evidently intended | confidence | as-written member | corrected member |
|---|---|---|---|---|---|---|
| src/app/components/Products/ProductList.tsx:28-38 | the "no products" test comes before the error test, and the fourth test repeats the second, so it can never be reached | any failed first fetch, e.g. an HTTP 500: the products stay empty, the error is "HTTP error! status: 500", and the grid shows "No se encontraron productos." | the error test placed before the empty test, so a failed fetch shows "Error al cargar productos: …" | medium, not executed | ProductList.FailedFetchHidesError | ProductList.SelectViewErrorFirst |
