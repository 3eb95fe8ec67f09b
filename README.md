# Cart engine and cart persistence of a small storefront

This project models the cart of a client-side shop in Dafny and proves what its
rules promise:

- **Cart engine** (`src/slices/cartSlice.js`). Four reducers act on an ordered
  list of line items: `addToCart`, `updateQuantity`, `removeFromCart` and
  `clearCart`. Ids match once converted to strings. Quantities are capped at 99
  on merge and on update. Every subtotal is derived from price and quantity.
- **Persistence bridge** (`src/store.js`). A subscriber remembers the last
  cart object it saw. After each dispatch it does nothing if the cart object is
  the same. Otherwise it removes the stored record of an empty cart, or saves a
  non-empty cart whole. At start-up the cart is preloaded from storage.
- **Storage adapter** (`src/utils/localStorage.js`). It provides `loadState`,
  `saveState` and `removeState` under the key prefix `myshop_v1:`. Every
  storage failure is swallowed.

Files:

- `wrappers.dfy` (module `Wrappers`): `Option`, `Min`, `Max`.
- `cart_slice.dfy` (module `CartSlice`):
  - the helpers `safeNumber`, `normalizeId` and `toCurrency`/`recalc`;
  - the line-item data model and the cart invariant `WellFormed`;
  - one specification function per reducer (`AddedItems`, `UpdatedItems`,
    `Without`, `Reduce`);
  - `Replaces`, which says whether a reducer publishes a new cart object;
  - the `find` and `filter` scans as loop methods;
  - the reducers as methods of `CartDraft`, an Immer draft. It has the fields
    `items` and `modified`. `modified` becomes true when an assignment stores a
    value different from the one it replaces, or when `items` is reassigned or
    pushed to.
- `cart_properties.dfy` (module `CartProperties`): lemmas about the reducers.
- `local_storage.dfy` (module `Storage`): the adapter, as a class over a map
  from full keys to entries.
- `store.dfy` (module `Store`): the store with its preload, `Dispatch` and the
  `Notify` subscriber. A published cart slice is a `CartState` object, so the
  source's `previous === currentCart` is Dafny reference equality.

Representation choices:

- Prices and subtotals are whole cents. `toCurrency(price * qty)` is then exact
  multiplication (`Recalc`).
- A JavaScript number given to `safeNumber` is `Num`: `Undefined`, `NonFinite`
  or `Finite(v)`. Quantities are `real`, so `Math.floor` is `.Floor`.
- A raw id is `NumId(n)` or `StrId(s)`. `NormalizeId` is `String(id)`.
- Storage failures are a `fault` parameter of each adapter method. A failed
  parse is an `Unparseable` entry.

One intended invariant is not what the code does, and the model follows the code:

- The intended invariant of a line item is `1 <= quantity <= 99`. The source's
  own comment (`src/slices/cartSlice.js:28-29`) caps only an item that already
  exists, and so does the code. Merged and updated quantities are capped; a new
  line takes the requested amount as it is (`src/slices/cartSlice.js:67`). So
  `WellFormed` requires only `1 <= quantity`. `FirstAddIsNotCapped` shows a new
  line of 150 units. `SecondAddIsCapped` proves the bound once a second add of
  the same id merges. `ReduceKeepsCapped` proves the bound as a conditional
  invariant: every reducer keeps `Capped` (all quantities at most 99) when no add
  asks for more than 99 units. The views never ask for more: the product page offers 1
  to 5 on the add path (`src/pages/ProductDetailPage/ProductDetailPage.jsx:102`)
  and the cart page offers 1 to 10 on the update path
  (`src/pages/CartPage/CartPage.jsx:93`).

## Model

| member | source | states |
|---|---|---|
| `CartProperties.NumericIdsCollideOnlyWhenEqual` | src/slices/cartSlice.js:8 | two numeric ids normalize to the same string exactly when they are the same integer |
| `CartProperties.NumericAndStringIdsMatch` | src/slices/cartSlice.js:8 | a numeric and a string id match exactly when the string is the number's decimal form; 7 matches "7", -42 becomes "-42" |
| `CartSlice.SafeNumber` | src/slices/cartSlice.js:3-6 | definition of `safeNumber`: the finite number, else the fallback; its properties are the rows `QuantityToAdd`, `UpdateNonPositiveRemoves` and `AddAppendsNewLine` |
| `CartSlice.NormalizeId` | src/slices/cartSlice.js:8 | definition of `normalizeId`; its properties are the rows `NumericIdsCollideOnlyWhenEqual`, `NumericAndStringIdsMatch` and `IntToStringIsNumeral` |
| `CartSlice.IntToString` | src/slices/cartSlice.js:8 | definition of `String(n)` on integers; its properties are the rows `IntToStringIsNumeral` and `NumericIdsCollideOnlyWhenEqual` |
| `CartSlice.Digits` | src/slices/cartSlice.js:8 | the decimal form used by `String(n)` is non-empty, made of digits, and has one digit exactly for n < 10; that it is n's numeral is the row `DigitsIsDecimalNumeral` |
| `CartProperties.DigitsIsDecimalNumeral` | src/slices/cartSlice.js:8 | the digits of n denote n in base ten, and have no leading zero |
| `CartProperties.IntToStringIsNumeral` | src/slices/cartSlice.js:8 | `String(n)` is a minus sign exactly for negative n, followed by the numeral of the magnitude, which denotes it |
| `CartSlice.Recalc` | src/slices/cartSlice.js:10-12 | definition of `recalc`/`toCurrency` on whole cents; its properties are the subtotal clauses of `AddMergesIntoExistingLine`, `AddAppendsNewLine`, `UpdatePositiveSetsQuantity` and the `WellFormed` preservation rows |
| `CartSlice.ResolveProduct` | src/slices/cartSlice.js:32-34 | definition of `payload ?? {}` and `payload.product ?? payload`; its properties are the rows `AddIgnoresPayloadWithoutId`, `AddMergesIntoExistingLine` and `AddAppendsNewLine` |
| `CartSlice.NewItem` | src/slices/cartSlice.js:62-69 | definition of the pushed line; its properties are the row `AddAppendsNewLine` and the `WellFormed` preservation rows |
| `CartSlice.QuantityToSet` | src/slices/cartSlice.js:84 | definition of `Math.floor(safeNumber(quantity, 0))`; its properties are the rows `UpdateNonPositiveRemoves` and `UpdatePositiveSetsQuantity` |
| `CartSlice.WellFormed` | src/slices/cartSlice.js:47-69 | definition of the cart invariant: ids unique after normalization, every quantity at least 1, every subtotal `price * quantity`; its properties are the rows `AddKeepsWellFormed`, `UpdateKeepsWellFormed`, `ReduceKeepsWellFormed` and `Store.Store.Dispatch` |
| `CartSlice.QuantityToAdd` | src/slices/cartSlice.js:35-38 | the amount added is at least 1; for a finite quantity it is `max(1, floor(q))`; for an absent or non-finite quantity it is 1 |
| `CartSlice.FirstIndexOf` | src/slices/cartSlice.js:47 | `find` by normalized id: a found index matches and no earlier item does; nothing found means no item matches |
| `CartSlice.Find` | src/slices/cartSlice.js:92 | the scan loop returns exactly the first index whose normalized id matches, or none |
| `CartSlice.Without` | src/slices/cartSlice.js:88 | definition of the `filter` by normalized id; its properties are the rows `RemoveDeletesExactly`, `RemoveKeepsOrder`, `RemoveAbsentIsNoop` and `UpdateNonPositiveRemoves` |
| `CartSlice.AddedItems` | src/slices/cartSlice.js:31-71 | definition of `addToCart` on the items; its properties are the rows `AddIgnoresPayloadWithoutId`, `AddMergesIntoExistingLine`, `AddAppendsNewLine`, `AddKeepsWellFormed` and `SecondAddIsCapped` |
| `CartSlice.UpdatedItems` | src/slices/cartSlice.js:79-97 | definition of `updateQuantity` on the items; its properties are the rows `UpdateWithoutIdIsNoop`, `UpdateNonPositiveRemoves`, `UpdatePositiveSetsQuantity`, `UpdateUnknownIdIsNoop` and `UpdateKeepsWellFormed` |
| `CartSlice.RemoveKey` | src/slices/cartSlice.js:104 | definition of `normalizeId(action.payload)`, "undefined" for an absent payload; used by the `Remove` rows |
| `CartSlice.Reduce` | src/slices/cartSlice.js:17-20 | definition of the slice reducer over the four actions; its properties are the rows `ReduceKeepsWellFormed`, `ClearIsIdempotent` and `CartDraft.Apply` |
| `CartSlice.Replaces` | src/slices/cartSlice.js:31-114 | definition of when a reducer publishes a new cart object; tied to the draft by `CartDraft.Apply` and to storage by `Store.Dispatch` |
| `CartSlice.Filter` | src/slices/cartSlice.js:88 | the scan loop keeps, in order, exactly the items whose normalized id differs (`Without`) |
| `CartSlice.CartDraft.AssignQuantity` | src/slices/cartSlice.js:51-54 | assigning a line's quantity changes only that field of that line; the draft becomes modified only if the value differs |
| `CartSlice.CartDraft.AssignSubtotal` | src/slices/cartSlice.js:56-59 | assigning a line's subtotal changes only that field of that line; the draft becomes modified only if the value differs |
| `CartSlice.CartDraft.AddToCart` | src/slices/cartSlice.js:31-71 | the draft's items become `AddedItems` of the old items; it is modified exactly when the items changed |
| `CartSlice.CartDraft.UpdateQuantity` | src/slices/cartSlice.js:79-97 | the draft's items become `UpdatedItems`; it is modified when the removal branch reassigns `items` or when a field changed |
| `CartSlice.CartDraft.RemoveFromCart` | src/slices/cartSlice.js:103-106 | the draft's items become those whose normalized id differs from the payload's, and the draft is always modified |
| `CartSlice.CartDraft.ClearCart` | src/slices/cartSlice.js:112-114 | the draft's items become empty, and the draft is always modified |
| `CartSlice.CartDraft.Apply` | src/slices/cartSlice.js:17-20 | the slice reducer: items become `Reduce(old items, action)`, modified exactly when `Replaces` says so |
| `CartProperties.AddIgnoresPayloadWithoutId` | src/slices/cartSlice.js:40-41 | with no resolved product or a product without id, the cart is unchanged and no new cart object is published |
| `CartProperties.AddMergesIntoExistingLine` | src/slices/cartSlice.js:47-59 | adding a present id appends nothing; that line's quantity becomes `min(99, old + added)` (so at most 99); its price is kept and its subtotal is `price * quantity`; other lines are unchanged |
| `CartProperties.AddAppendsNewLine` | src/slices/cartSlice.js:60-69 | adding a new id appends one line at the end and leaves the old lines as they were; the new line has the raw id, the title or "Untitled product", the finite price or 0, the image or else the thumbnail or else "/placeholder-200.png", the amount added uncapped, and `price * quantity` |
| `CartProperties.AddKeepsWellFormed` | src/slices/cartSlice.js:47-69 | on a cart with unique ids, positive quantities and derived subtotals, `addToCart` keeps all three |
| `CartProperties.SecondAddIsCapped` | src/slices/cartSlice.js:49-54 | after two adds of the same normalized id there is exactly one line for it, and its quantity is at most 99 |
| `CartProperties.FirstAddIsNotCapped` | src/slices/cartSlice.js:60-69 | adding 150 units of a new product creates a line whose quantity is 150 |
| `CartProperties.UpdateWithoutIdIsNoop` | src/slices/cartSlice.js:80-81 | `updateQuantity` without an id changes nothing and publishes nothing |
| `CartProperties.UpdateNonPositiveRemoves` | src/slices/cartSlice.js:84-90 | a quantity that is not finite or floors to 0 or less removes every line with that id and keeps every other line |
| `CartProperties.UpdatePositiveSetsQuantity` | src/slices/cartSlice.js:92-96 | a positive quantity sets the matching line's quantity to `min(99, floor(q))` and its subtotal from its stored price; other lines are unchanged |
| `CartProperties.UpdateUnknownIdIsNoop` | src/slices/cartSlice.js:92-93 | a positive quantity for an id not in the cart changes nothing and publishes nothing |
| `CartProperties.UpdateKeepsWellFormed` | src/slices/cartSlice.js:79-97 | `updateQuantity` keeps ids unique, quantities positive and subtotals derived |
| `CartProperties.RemoveDeletesExactly` | src/slices/cartSlice.js:103-106 | after `removeFromCart`, an item is in the cart exactly when it was before and its normalized id differs from the target; the cart does not grow |
| `CartProperties.RemoveKeepsOrder` | src/slices/cartSlice.js:105 | on a cart with unique ids, removing the id at index i leaves the items before i followed by those after it |
| `CartProperties.RemoveAbsentIsNoop` | src/slices/cartSlice.js:105 | removing an id that no line has leaves the items equal |
| `CartProperties.ClearIsIdempotent` | src/slices/cartSlice.js:112-114 | clearing gives the empty cart, and clearing twice equals clearing once |
| `CartSlice.Capped` | src/slices/cartSlice.js:28-29 | definition of the upper half of `1 <= quantity <= 99`; its property is the row `ReduceKeepsCapped` |
| `CartProperties.ReduceKeepsCapped` | src/slices/cartSlice.js:31-114 | on a cart whose quantities are all at most 99, every reducer keeps them at most 99, provided an add asks for at most 99 units; merge and update cap, the filters only drop lines |
| `CartProperties.ReduceKeepsWellFormed` | src/slices/cartSlice.js:31-114 | every reducer maps a well-formed cart to a well-formed cart |
| `CartProperties.NumericAddThenStringUpdate` | src/slices/cartSlice.js:83-96 | adding product 7 by number, then setting id "7" to quantity 3, leaves one line of quantity 3 |
| `CartProperties.ShirtAddedTwice` | src/slices/cartSlice.js:47-59 | a 19.99 shirt added twice is one line of quantity 2 with subtotal 39.98 |
| `CartProperties.ShirtCappedThenRemoved` | src/slices/cartSlice.js:92-106 | setting that line to 101 caps it at 99 with subtotal 1979.01, and removing it empties the cart |
| `Storage.StorageKey` | src/utils/localStorage.js:6 | definition of `${DEFAULT_PREFIX}:${key}`; its properties are the rows `StorageKeyInjective` and `OtherKeysUntouched` |
| `Storage.StorageKeyInjective` | src/utils/localStorage.js:2 | two keys address the same storage slot exactly when they are equal |
| `Storage.KeyOrDefault` | src/utils/localStorage.js:4 | definition of the parameter default `key = "cart"` of all three operations; used by the `LoadState`, `SaveState` and `RemoveState` rows |
| `Storage.Lookup` | src/utils/localStorage.js:6-8 | definition of what `loadState` returns from a working store; its properties are the rows `LoadAfterSave`, `LoadAfterRemove`, `OtherKeysUntouched` and `LocalStorage.LoadState` |
| `Storage.Saved` | src/utils/localStorage.js:17-18 | definition of the store after a successful `saveState`; its properties are the rows `LoadAfterSave` and `OtherKeysUntouched` |
| `Storage.Removed` | src/utils/localStorage.js:27 | definition of the store after a successful `removeState`; its properties are the rows `LoadAfterRemove` and `OtherKeysUntouched` |
| `Storage.LoadAfterSave` | src/utils/localStorage.js:15-18 | loading a key after saving a value under it gives that value back |
| `Storage.LoadAfterRemove` | src/utils/localStorage.js:25-27 | loading a key after removing it gives undefined |
| `Storage.OtherKeysUntouched` | src/utils/localStorage.js:18 | saving or removing one key leaves the presence and the loaded value of every other key unchanged |
| `Storage.LocalStorage.LoadState` | src/utils/localStorage.js:4-13 | undefined when the read fails, the key is absent or the entry does not parse; otherwise the stored cart; the key defaults to "cart" |
| `Storage.LocalStorage.SaveState` | src/utils/localStorage.js:15-23 | a successful save stores the value under the prefixed key and changes no other entry; a failed save changes nothing |
| `Storage.LocalStorage.RemoveState` | src/utils/localStorage.js:25-31 | a successful remove deletes only the prefixed key; a failed remove changes nothing |
| `Store.Mirrors` | src/store.js:33-43 | definition of "the record exists exactly when the cart has items, and then equals it"; established and kept by the rows `Store.Store.Notify` and `Store.Store.Dispatch` |
| `Store.Store.constructor` | src/store.js:9-21 | the initial cart is the record `loadState("cart")` gives, else the empty cart; the subscriber starts having seen it; storage is not written |
| `Store.Store.Notify` | src/store.js:25-44 | an unchanged cart reference touches no storage; a changed empty cart removes the record; a changed non-empty cart saves it whole; only the cart key changes; with working storage the record then exists exactly when the cart has items, and equals it |
| `Store.Store.Dispatch` | src/store.js:25-44 | the cart becomes `Reduce` of the old one, as a new object exactly when `Replaces` holds; well-formedness is kept; with working storage the mirror of emptiness is kept or established; a failed write leaves storage as it was |
| `Store.NotifyTwice` | src/store.js:26-30 | after a notification the subscriber holds the latest cart, and the storage after a second notification equals the storage after the first |
| `Store.ClearThenAdd` | src/store.js:33-43 | with working storage, the storage right after `clearCart` has no cart record; after then adding a product the cart has one line, the record exists and loads back as the cart |

## Left out

- React views, routing and hook state are not modelled. This includes the product filter, the checkout form checks and the badge count.
- The catalog fetches and the per-product detail cache are not modelled. They are asynchronous network and storage I/O inside view effects.
- `CartSlice.Recalc`: `toCurrency` rounds a float to two decimals. On whole cents that rounding is exact, so the model multiplies cents. Float rounding, and the float grand totals of the views, are not modelled.
- JavaScript's general coercion by `Number(v)` and `typeof` is not modelled. Inputs are the `Num`, `RawId`, `Product` and payload datatypes.
- A numeric id is an integer. `String` of a non-integer number, or of one of magnitude 10^21 or more, prints a fraction or an exponent; that case is not modelled.
- A `null` id passes the `typeof … === "undefined"` guard and normalizes to "null"; `RawId` has no null.
- A bare product that itself carries a `quantity` field is not modelled: a bare product has no quantity.
- `CartSlice.CartDraft.AddToCart`: the `existing.price ?? unitPrice` fallback is not modelled. Every line item has a price, so the stored price is always used. `existing.quantity || 0` equals the quantity for an integer, so it adds nothing.
- `Store.Store.Notify`: the `!currentCart` and `!Array.isArray(currentCart.items)` tests are not modelled. A cart object always has an items list here.
- `CartSlice.WellFormed`: the upper bound `quantity <= 99` is not part of the invariant, because a first add of more than 99 units creates a line with that amount uncapped (`src/slices/cartSlice.js:67`; `FirstAddIsNotCapped`). The bound is the separate `Capped`, kept under the condition of `ReduceKeepsCapped`.
- A cart rehydrated from storage is not validated. `WellFormed` is assumed of the initial cart rather than proved for loaded data.
- The Redux and Immer machinery is modelled only as far as the cart needs it: `CartDraft`, `Replaces` and `Store.Dispatch`. The products slice and its reducer are not part of this model. Their actions appear as `Unrelated`, which leaves the cart object unchanged.
- The real JSON serializer and the browser's storage are replaced by an exact round trip over a map. `console.warn` is left out.
