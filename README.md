# feeef.js storefront core, modelled in Dafny

This project models the synchronous, I/O-free logic of the feeef.js client
library: the shopping cart (`CartService`), the listener base class it
extends (`NotifiableService`), the geographic shipping-price lookups, the
phone-number and colour utilities, and the two data projections that strip
private fields (public integration data and the order-tracking view).

Files:

- `wrappers.dfy`: `Option`, `Outcome` and `Nullish`. `Nullish` keeps
  JavaScript's `undefined` and `null` apart.
- `js_builtins.dfy`: the JavaScript built-ins the core relies on.
  - `String.prototype.trim` and `replace(/\D/g, '')`.
  - `split('/')`.
  - `Number.parseInt`, with and without an explicit radix.
  - Number-to-string rendering.
- `service.dfy`: `NotifiableService` as a class. Listeners are opaque ids
  kept in insertion order, as a JavaScript `Set` keeps them. Every call of
  `notify` is recorded in a ghost trace `calls` and a counter `rounds`.
- `products.dfy` and `orders.dfy`: the product, variant, integration and
  order shapes, and the pure projections over them.
- `shipping_methods.dfy`: shipping methods, the legacy per-state rate table
  and stores.
- `shipping_prices.dfy`: lookups in the country → state → rates map.
- `utils.dfy`: colour conversion on `bv32`, phone normalisation and phone
  validation.
- `cart_pricing.dfy`: the pure side of the cart.
  - Line totals, from the walk down the `/`-separated variant path.
  - Sums of line totals.
  - Object-spread merges of partial updates.
  - Rate-table lookups.
- `cart.dfy`: `CartService` as a class.

## How the cart is modelled

- **Item objects.** `CartItem` objects are mutable and shared by
  reference. `add` grows a stored object in place, and after
  `addCurrentItemToCart` the draft item and the stored entry are the same
  object. The model represents this with an arena:
  - the cart's field `objects: seq<Line>` holds the current value of
    every item object;
  - an item object is an `ItemRef`, an index into `objects`, so two
    references are the same object exactly when they are equal;
  - `NewItem` stands for a caller creating a fresh object literal.
- **The `items` map.** The JavaScript `Map` becomes a `map<string, ItemRef>`
  plus `keys`, the keys in insertion order without repeats. Setting an
  existing key keeps its position; deleting removes it. `getAll` returns
  the stored objects in that order.
- **The cached subtotal.** The class invariant `Valid()` says that
  `cachedSubtotal` is either `None` or the sum of the line totals of the
  stored objects. Every method keeps it.
- **Notification.** `CartService` holds its `NotifiableService` as the
  field `notifier`.
  - `NotifiedOnce()` says a method called `notify` exactly once.
  - `unchanged(notifier)` says it did not call it.
  - `notifyIfChanged` calls `notify` unconditionally, so it is modelled
    as `notify`.

### Quirks of the code the model keeps

- **No offers, addons or free shipping.** The cart has no offer, addon or
  free-shipping logic, and it never reads a shipping-price entity.
  - Cart lines are keyed by `product.id` alone.
  - `getItemTotal` ignores addons.
- **`store` is priced like `home`.** `getShippingPrice` charges the `store`
  type from column 1, the `home` column (`src/feeef/services/cart.ts:369`).
- **Two ways of parsing the state.**
  - `getAvailableShippingTypes` parses the state with `parseInt` and no
    radix, so `"0x2"` is read as hexadecimal 2.
  - `getShippingPrice` passes radix 10, so `"0x2"` is 0.
  - The two therefore disagree on such states (`RadixMismatchExample`).
    They agree on every other string (`ParseIntRadixAgree`,
    `PriceMatchesOffer`).
- **`getAll` returns the live objects, not copies.**
- **`setShippingMethod` rejects a method with `rates: null`.** It throws;
  the model returns `Fail`.
- **`updateItem` keeps the old key.** This holds even when the patch
  replaces `product`, so the key can stop matching the stored item's
  product id.

## Model

| member | source | states |
|---|---|---|
| Cart.CartService.constructor | src/feeef/services/cart.ts:43-56 | An empty cart: no entries, no cached subtotal, no current item, no shipping method, the default pickup address, and no listeners. |
| Cart.CartService.NewItem | src/feeef/services/cart.ts:13-17 | Creating an item object adds a fresh reference. It changes no existing object and leaves the subtotal unchanged. |
| Cart.CartService.SetCurrentItem | src/feeef/services/cart.ts:62-70 | The draft becomes the given object and the cache is reset, with one notification. If the product id is a key, that entry now refers to the draft and the subtotal changes by the difference of the two line totals. Otherwise the entries are untouched. |
| Cart.CartService.StoreUnder | src/feeef/services/cart.ts:65-67 | Re-pointing an existing key to another object keeps the key order. The subtotal changes by the new object's line total minus the old one's. |
| Cart.CartService.UpdateItem | src/feeef/services/cart.ts:77-85 | An absent id changes nothing and does not notify. A present id is re-pointed, under the same key, to a new object that is the spread merge of the old object and the patch. The cache is reset, there is one notification, and the subtotal changes by the difference of the line totals. |
| Cart.CartService.UpdateCurrentItem | src/feeef/services/cart.ts:91-102 | Without a draft, nothing changes. Otherwise the draft becomes a new merged object. That object replaces the entry for its product id when that id is a key. The cache is reset, with one notification. |
| Cart.CartService.UpdateShippingAddress | src/feeef/services/cart.ts:108-112 | The address becomes the field-wise merge of the old address and the patch. The cache is reset, with one notification. |
| Cart.CartService.UpdateShippingMethod | src/feeef/services/cart.ts:118-124 | Without a method, nothing changes. Otherwise the method becomes the merge, the cache is reset, and there is one notification. |
| Cart.CartService.AddCurrentItemToCart | src/feeef/services/cart.ts:145-149 | Without a draft, or with a draft already in the cart, nothing changes. Otherwise the draft object itself is appended under its product id, and the subtotal including the draft is unchanged. |
| Cart.CartService.RemoveCurrentItemFromCart | src/feeef/services/cart.ts:154-158 | Afterwards the draft is not in the cart. If it was in the cart, the entry under its product id is deleted: the other keys keep their order, the subtotal drops by the stored line's total, the cache is reset, and there is one notification. When the stored object is the draft itself, the subtotal counting the draft is unchanged. Otherwise nothing changes. |
| Cart.CartService.ToggleCurrentItemInCart | src/feeef/services/cart.ts:163-165 | With a draft, its membership in the cart flips. If it was in the cart, the entry is deleted exactly as by `RemoveCurrentItemFromCart` (key order, items, subtotal, cache, one notification). If not, the draft object is appended under its product id exactly as by `AddCurrentItemToCart`. Without a draft, keys, items, cache and listeners are unchanged. |
| Cart.CartService.Add | src/feeef/services/cart.ts:171-182 | For a known product id, the stored object grows in place by the item's quantity and no entry is created. For an unknown id, the item is appended under it and the subtotal grows by its line total. Both paths reset the cache and notify once. |
| Cart.CartService.GrowStored | src/feeef/services/cart.ts:174-175 | Only the stored object's quantity grows. When that object is stored under one key only, the subtotal grows by the line total of the added quantity. |
| Cart.CartService.Append | src/feeef/services/cart.ts:176-177 | A new key goes at the end of the insertion order, and the subtotal grows by the item's line total. |
| Cart.CartService.Has | src/feeef/services/cart.ts:189-191 | `has(id)` holds exactly for the keys in the iteration order. |
| Cart.CartService.IsCurrentItemInCart | src/feeef/services/cart.ts:138-140 | Holds exactly when there is a draft and its product id is a key. Then, or without a draft, the subtotal with the draft equals the subtotal without it. Otherwise the draft's line total is added once. |
| Cart.CartService.Remove | src/feeef/services/cart.ts:197-202 | An absent id changes nothing and does not notify. A present id is deleted, the other keys keep their order, the subtotal drops by its line total, the cache is reset, and there is one notification. |
| Cart.CartService.Clear | src/feeef/services/cart.ts:207-213 | Afterwards there are no entries and the subtotal is 0. The draft is untouched. An already empty cart keeps its cache and does not notify. |
| Cart.CartService.GetSubtotal | src/feeef/services/cart.ts:220-232 | Returns the sum of the stored line totals. The draft's total is added only when it is requested, a draft exists and the draft's product id is not a key. Afterwards the cache holds that sum. |
| Cart.CartService.SumItems | src/feeef/services/cart.ts:221-225 | The reduce over the stored objects equals the subtotal of the cart. |
| Cart.CartService.GetItemTotal | src/feeef/services/cart.ts:239-259 | The loop over the variant path computes the line total, whose meaning is given by `LineTotalMeaning`. |
| Cart.CartService.SetShippingMethod | src/feeef/services/cart.ts:265-298 | A store with default rates wins and becomes a method of price 0 carrying those rates. Otherwise a method with rates is stored as given. Otherwise the call fails with "Invalid shipping method", leaving the method unchanged and without notifying. It fails exactly in those cases. |
| Cart.CartService.GetAvailableShippingTypes | src/feeef/services/cart.ts:310-325 | A type is listed exactly when the method has rates, the state parses to a row that exists, and that row's column for the type is non-null (0 counts). Types are listed in column order: pickup, home, store. |
| Cart.CartService.SetShippingAddress | src/feeef/services/cart.ts:339-348 | The address is replaced, with one notification, exactly when city, state or type differs. Otherwise nothing changes. |
| Cart.CartService.GetShippingPrice | src/feeef/services/cart.ts:362-370 | 0 without a method. The store type costs what home costs. |
| Cart.CartService.GetTotal | src/feeef/services/cart.ts:377-379 | The subtotal, with or without the draft, plus the shipping price. |
| Cart.CartService.GetAll | src/feeef/services/cart.ts:385-387 | The stored objects, one per key, in insertion order. |
| Cart.CartService.IsEmpty | src/feeef/services/cart.ts:393-395 | `items.size === 0`. Its meaning is proved by `EmptyCartHasNoLines`. |
| Cart.EmptyCartHasNoLines | src/feeef/services/cart.ts:393-395 | The cart is empty exactly when there are no keys, and then its subtotal is 0. |
| Cart.DraftAliasingExample | src/feeef/services/cart.ts:145-182 | Adding the draft and then adding another item with the same product grows the draft object itself: the draft ends with quantity 3, and the subtotal is that line's total. |
| Cart.GrowInPlace | src/feeef/services/cart.ts:175 | Growing an object stored under one key adds the worth of the extra quantity to the sum over the keys. |
| Cart.ValuesAtAppend | src/feeef/services/cart.ts:177 | Setting a new key adds its value's worth to the sum of the map's values. |
| Cart.ValuesAtRemoveAt | src/feeef/services/cart.ts:198 | Deleting a key subtracts its value's worth from the sum of the map's values. |
| Cart.ValuesAtReplace | src/feeef/services/cart.ts:66 | Setting an existing key replaces its value's worth in the sum. |
| Cart.UniqueIsDistinct | src/feeef/services/cart.ts:44 | The recursive no-repeats predicate on the key order is the pairwise one. |
| CartPricing.FindOption | src/feeef/services/cart.ts:250 | `find` returns None exactly when no option has the name. Otherwise it returns the first option with that name. |
| CartPricing.WalkIsLastSet | src/feeef/services/cart.ts:248-255 | The walk's price (and discount) is the last non-null value among the matched options, or the starting value if there is none. An explicit 0 counts as set. |
| CartPricing.WalkStopsAtMiss | src/feeef/services/cart.ts:249-251 | Once a segment misses, further segments change nothing. |
| CartPricing.LineTotalMeaning | src/feeef/services/cart.ts:239-259 | A line's total is (price − discount) × quantity. Price and discount start from the product's price and discount (default 0) and are overridden by the matched options. |
| CartPricing.LineTotalAddsQuantities | src/feeef/services/cart.ts:175 | The line total is additive in the quantity. |
| CartPricing.VariantPricingExample | src/feeef/services/cart.ts:239-259 | "red/large" takes the nested option's price and discount. "blue/large" stops at the first miss and keeps the product's. |
| CartPricing.SumAppend | src/feeef/services/cart.ts:222-224 | The reduce over a concatenation is the sum of the two reduces. |
| CartPricing.SumRemoveAt | src/feeef/services/cart.ts:222-224 | Dropping one element subtracts its worth. |
| CartPricing.SumReplaceAt | src/feeef/services/cart.ts:222-224 | Replacing one element swaps its worth. |
| CartPricing.SumByChangeAt | src/feeef/services/cart.ts:222-224 | Changing the worth of one element alone changes the sum by that difference. |
| CartPricing.MergeLine | src/feeef/services/cart.ts:81 | Each field comes from the patch when the patch has it, and from the old item otherwise. |
| CartPricing.MergeLineIdempotent | src/feeef/services/cart.ts:81 | Applying the same patch twice is applying it once. An empty patch changes nothing. |
| CartPricing.MergeAddress | src/feeef/services/cart.ts:109 | Each address field comes from the patch when present. Its properties are proved by `MergeAddressIdempotent` and `ContactEditKeepsShipping`. |
| CartPricing.MergeAddressIdempotent | src/feeef/services/cart.ts:109 | Applying the same address patch twice is applying it once. An empty patch changes nothing. |
| CartPricing.ContactEditKeepsShipping | src/feeef/services/cart.ts:109 | A patch that sets neither the state nor the type leaves the shipping price and the offered types unchanged. |
| CartPricing.MergeMethod | src/feeef/services/cart.ts:121 | Each shipping-method field comes from the patch when present. Its properties are proved by `MergeMethodIdempotent` and `MethodEditKeepsShipping`. |
| CartPricing.MergeMethodIdempotent | src/feeef/services/cart.ts:121 | Applying the same method patch twice is applying it once. An empty patch changes nothing. |
| CartPricing.MethodEditKeepsShipping | src/feeef/services/cart.ts:121 | A patch that sets neither the flat price nor the rate table leaves the shipping price and the offered types unchanged. |
| CartPricing.MethodFromStore | src/feeef/services/cart.ts:272-290 | The method synthesised from a store: the store's id as id, source and store, its name, price 0, the store's default rates, published and public. `SetShippingMethod` states that this is what a store with rates becomes. |
| CartPricing.StateRow | src/feeef/services/cart.ts:313-316 | A row exists exactly when the parsed state n satisfies 1 ≤ n ≤ the number of rows, and it is row n − 1. |
| CartPricing.RowTypes | src/feeef/services/cart.ts:318-324 | The pushed types are exactly those whose column is non-null, in column order. |
| CartPricing.OffersOfStateRow | src/feeef/services/cart.ts:313-322 | The types built from a selected row are exactly the offered types. |
| CartPricing.NoRowNoOffers | src/feeef/services/cart.ts:311-316 | Without rates, or without a row for the state, nothing is offered. |
| CartPricing.ShippingPriceOf | src/feeef/services/cart.ts:362-370 | The value of `getShippingPrice`. Its meaning is proved by `ShippingPriceBaseCases`, `StoreChargedAsHome` and `PriceMatchesOffer`. |
| CartPricing.ShippingPriceBaseCases | src/feeef/services/cart.ts:363-364 | 0 without a method. The method's flat price when the state is null or empty. |
| CartPricing.StoreChargedAsHome | src/feeef/services/cart.ts:369 | The store type is priced exactly as home. |
| CartPricing.PriceMatchesOffer | src/feeef/services/cart.ts:362-370 | For a state that is not hex-prefixed, an offered pickup or home type costs its table entry, and a type that is not offered costs 0. |
| CartPricing.RadixMismatchExample | src/feeef/services/cart.ts:313-369 | For state "0x2", pickup is offered from row 2, yet the price is read with radix 10 (state 0), so it is 0. |
| CartPricing.ZeroRateIsOffered | src/feeef/services/cart.ts:320-322 | A 0 entry is offered and a null entry is not. |
| Service.NotifiableService.constructor | src/feeef/services/service.ts:45-47 | No listeners, and nothing notified yet. |
| Service.NotifiableService.AddListener | src/feeef/services/service.ts:12-15 | Returns its argument. A listener already registered stays registered once. A new one is added at the end. |
| Service.NotifiableService.RemoveListener | src/feeef/services/service.ts:21-23 | Removes exactly that listener and keeps the others in order. An unregistered listener changes nothing. |
| Service.NotifiableService.Notify | src/feeef/services/service.ts:29-32 | Every registered listener is called once, in registration order. The set is unchanged. |
| Service.NotifiableService.ClearListeners | src/feeef/services/service.ts:37-39 | No listener remains. |
| Service.Without | src/feeef/services/service.ts:22 | Removing a listener keeps exactly the other members. |
| Service.WithoutKeepsDistinct | src/feeef/services/service.ts:22 | Removing a listener keeps the set free of repeats and shrinks it by one when the listener was present. |
| Service.DistinctOccursOnce | src/feeef/services/service.ts:5 | In a set of listeners, each member occurs exactly once. |
| Service.NotificationInvokesEachOnce | src/feeef/services/service.ts:31 | One notification round calls each registered listener exactly once and no other. |
| ShippingPrices.GetShippingPrice | src/core/entities/shipping_price.ts:112-125 | Null when the country or state is not an own key of the table. Otherwise the stored field, including 0 and null. |
| ShippingPrices.IsShippingAvailable | src/core/entities/shipping_price.ts:135-147 | True exactly when some type has a non-null price at that country and state (own keys only). |
| ShippingPrices.GetAvailableShippingTypes | src/core/entities/shipping_price.ts:157-181 | A type is listed exactly when its price is non-null, with that price, in the order home, desk, pickup (own keys only). The list is non-empty exactly when shipping is available. |
| ShippingPrices.CountryCodesAreCaseSensitive | src/core/entities/shipping_price.ts:118-121 | Own keys are matched exactly, without case folding: data stored under "DZ" is not found under "dz". |
| Utils.ConvertDartColorToCssNumber | src/utils.ts:7-13 | The result is a signed 32-bit number. |
| Utils.CssNumberLayout | src/utils.ts:7-13 | The result's low byte is the input's alpha byte, and its upper 24 bits are the input's RGB bits. This is a left rotation by 8 of the 32-bit pattern. |
| Utils.AlphaLastIsRotation | src/utils.ts:8-12 | The byte shuffle on a 32-bit pattern is a left rotation by 8. |
| Utils.SignedBits | src/utils.ts:12 | Reading the signed result back as 32 bits gives the computed pattern. |
| Utils.TryFixPhoneNumber | src/utils.ts:59-68 | The normalised number is non-empty, all ASCII digits and starts with '0'. |
| Utils.FixPhoneShape | src/utils.ts:59-68 | The result is the input's digits, with '0' prepended exactly when they do not already start with '0'. An input without digits gives "0". |
| Utils.FixPhoneIdempotent | src/utils.ts:59-68 | Normalising twice is normalising once. |
| Utils.Message | src/utils.ts:84-109 | The message text of each validation error, as written in the source. The over-length and generic missing-digit messages embed the decimal numbers. |
| Utils.GetLengthError | src/utils.ts:81-91 | Too long exactly when the length exceeds the requirement, reporting the excess. Dedicated messages for one and two missing digits. The generic count otherwise. |
| Utils.ValidatePhoneNumber | src/utils.ts:79-130 | Valid exactly when the input is '0', then 5, 6 or 7, then eight digits, or '02' then seven digits (the sign-up pattern). Each early error fires exactly in its case, in order: "0", empty, non-digit, prefix. Otherwise the length error for 10 or 9 digits. |
| Utils.PhoneValidationMessage | src/utils.ts:93-130 | No message exactly when the input matches the sign-up pattern of src/feeef/validators/auth.ts:4. The empty input gets the "empty" message. |
| Utils.ValidateFixedPhone | src/utils.ts:97-105 | A normalised number never gets the "empty" or the "digits only" error. |
| JsBuiltins.KeepDigitsOfTrim | src/utils.ts:60-62 | Trimming before stripping non-digits changes nothing. |
| JsBuiltins.JoinSplit | src/feeef/services/cart.ts:245 | Joining the split pieces gives back the variant path. |
| JsBuiltins.SplitJoin | src/feeef/services/cart.ts:245 | Splitting the join of separator-free pieces gives back the pieces. |
| JsBuiltins.ParseIntRadixAgree | src/feeef/services/cart.ts:313-366 | `parseInt` without a radix and with radix 10 agree on every string that is not `0x`-prefixed after whitespace and sign. |
| Products.GeneratePublicIntegrationsDataMetaPixel | src/core/entities/product.ts:97-107 | Null and undefined pass through unchanged. Otherwise exactly `ids`, `objective` and `draftObjective`, with the same values. |
| Products.GeneratePublicIntegrationsDataTiktokPixel | src/core/entities/product.ts:109-119 | Null and undefined pass through unchanged. Otherwise exactly `ids`, `objective` and `draftObjective`, with the same values. |
| Products.GeneratePublicIntegrationsDataGoogleAnalytics | src/core/entities/product.ts:121-126 | Null and undefined pass through unchanged. Otherwise an empty record. |
| Products.GeneratePublicIntegrationsDataGoogleTag | src/core/entities/product.ts:128-133 | Null and undefined pass through unchanged. Otherwise an empty record. |
| Products.GeneratePublicIntegrationsDataGoogleSheets | src/core/entities/product.ts:135-140 | Null and undefined pass through unchanged. Otherwise an empty record. |
| Products.GeneratePublicIntegrationsData | src/core/entities/product.ts:86-95 | Null and undefined pass through unchanged. Otherwise exactly four fields, each the projection of the matching input field. Sheets data is never carried over. |
| Products.PublicDataRevealsOnlyPublicFields | src/core/entities/product.ts:86-95 | Two settings have the same public data exactly when they agree on the public pixel fields and on which sub-records are null, undefined or present. |
| Orders.ConvertOrderEntityToOrderTrackEntity | src/core/entities/order.ts:121-138 | id, customer name, items, total, creation time, store and status are copied. The history keeps the length and order of the metadata history, and each entry keeps exactly status, delivery status, payment status and creation time. An absent history gives []. |
| Orders.TrackRevealsOnlyTrackedFields | src/core/entities/order.ts:121-138 | Two orders have the same track entity exactly when they agree on the copied fields and on the four kept fields of each history entry. Phone, address, shipping and payment fields are never revealed. |

## Left out

- **Floating point.** Prices, discounts and quantities are integers. JavaScript numbers are doubles, and the model does not capture rounding or `NaN` arising from arithmetic.
- **Listener bodies.** Listeners are opaque ids. What a listener does when called is foreign code, and so is re-entrant use of the cart from inside a listener.
- **The address's `country`.** It is the constant `'dz'` and is not read by the cart, so it is not modelled.
- **Explicitly undefined patch keys.** A patch key is either present with a value or absent. An explicitly `undefined` key in a spread, which overwrites a field with `undefined`, is not modelled. The exception is `variant`, where `undefined` is how a line has no variant, so `ItemPatch.variant` can set it to `None`.
- **Unused entity fields.** Fields of products, stores, orders and shipping methods that the core never reads are left out of the datatypes. Logos, descriptions and timestamps of the synthesised method are examples.
- **Structural typing in `setShippingMethod`.** The argument is duck-typed. The model makes the store-or-method choice explicit as `ShippingSource`, so an object carrying both `defaultShippingRates` and `rates` is represented as a store.
- **`parseInt(null)`.** For a null state, `getAvailableShippingTypes` parses the string "null", which yields `NaN`. The model maps a null state directly to "no row", with the same result.
- **Plain getters.** `getCurrentItem`, `getShippingMethod` and `getShippingAddress` return a field and are read directly as fields.
- **`notifyIfChanged`.** It always calls `notify` and is modelled as `notify`.
- ShippingPrices.GetShippingPrice: lookups of keys inherited from `Object.prototype` ("constructor", "__proto__", …) are not modelled; the map holds only own keys. In the source such a country and state resolve to truthy inherited values.
- ShippingPrices.IsShippingAvailable: inherited keys are not modelled, as for `GetShippingPrice`. In the source, country "constructor" with state "name" reaches the string "Object", whose `home`, `desk` and `pickup` are `undefined`, and `undefined !== null` makes the result true; the model says false.
- ShippingPrices.GetAvailableShippingTypes: inherited keys are not modelled, as for `GetShippingPrice`. For the same inputs the source lists all three types with undefined prices; the model returns `[]`.
- **Undefined state-rate fields.** `isShippingAvailable` and `getAvailableShippingTypes` test a field with `!== null`, while `getShippingPrice` reads it with `?? null`. An `undefined` field would therefore count as available with a null price. The declared types rule such a field out, so the model's rate fields are a number or null.
- **Non-integer rate entries.** A rate entry is an integer or null. `NaN` or fractional entries are not modelled.
- **String length.** JavaScript lengths count UTF-16 code units. The model counts characters, which is the same for the ASCII digits phone validation measures.
- **Outside mutation of item objects.** Callers can mutate an item object outside the cart's methods, which silently invalidates the cached subtotal. Only the cart's own methods change `objects`; `NewItem` is the one way a caller adds an object.
- Cart.CartService.Add: the subtotal change on the grow path is stated only when the grown object is stored under one key (`StoredOnce`). One object stored under two keys would be counted twice, and the model does not state that case's sum.
- Cart.CartService.GrowStored: same restriction as `Add`, for the same reason.
- Cart.CartService.GetAvailableShippingTypes: rows holding `NaN` or other falsy non-null values are not modelled, so truthiness of an entry is "non-null".
