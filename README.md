# Storefront application state, modelled in Dafny

This project models, in Dafny, the in-memory application state of a small
browser storefront ("web-larek"). The state is a product catalog, a basket,
the checkout order draft, the previewed product and the validation-error map.
The repository holds two divergent versions of this state, and both are
modelled:

- `AppState` in `src/components/AppData.ts` is the version the application
  wires up. Module `AppStateModel` (`app_state.dfy`) models it.
  - The basket is a list of product ids in `order.items`.
  - `toggleOrderedItem` includes an id through `_.uniq` or excludes it through
    `_.without`.
  - `getTotal` sums catalog prices and `getSelectedItems` filters the catalog.
  - The two step validators rebuild `formErrors`, announce it, and report
    whether it is empty.
  - The field setters write the draft, revalidate and signal `order:ready`.
- `AppData` in `src/components/AppApi.ts` is an alternative version. Module
  `AppDataModel` (`app_data.dfy`) models it.
  - Its basket is a list of card objects. Cards are compared by identity
    (`indexOf`, `includes`), so `CardItem` is a Dafny class.
  - Its order form holds four strings.
  - Its validators `validateAdress` and `validateContact` both announce
    `form:errors:change`.

Shared pieces: `Wrappers` (`Option`), `Seqs` (duplicate-freedom,
subsequences and their lemmas) and `Forms` (the form field names and
`FormErrors`, a map from field to message).

Modelling choices:
- Each class is a Dafny `class` whose methods change its fields and state the
  whole new state in their `ensures`. Queries (`getTotal`, `itemCount`,
  `getSelectedItems`, `productOrder`, `getOrderProducts`, `getTotalPrice`)
  are functions that read the object.
- The `lodash` calls are specified by their effect. `Uniq` is `_.uniq`: it
  keeps first occurrences. `Without` is `_.without`: it drops every
  occurrence.
- The effect of `uniq` is modelled exactly, including the case where the list
  already held duplicates. Because `uniq` always returns a duplicate-free
  list, the basket stays duplicate-free in every reachable state. That fact
  is the classes' `Valid()` invariant.
- `number` is `int`. `price: number | null` is `Option<int>`. A null price
  adds 0 to a sum, as `a + null === a` does in JavaScript (`PriceOf`).
- In `AppState`, `catalog` and `preview` have no initial value, so they are
  `undefined` until first set. That is `None` here. Where the JavaScript
  would throw, the query returns `None`:
  - `getTotal` throws when an id has no catalog entry (`find(...)` is
    `undefined`), and also when there is no catalog and the basket is not
    empty.
  - `getSelectedItems` throws when there is no catalog.
- The event emitter (`this.events.emit`, `Model.emitChanges`) is not part of
  this model. Each class keeps a ghost trace `events` of
  `Emitted(name, data)`, and every emission appends one entry. An
  `emitChanges` call without a payload records `NoData`.
- `AppState`'s setters take a field name typed `keyof IOrderForm`. The
  application passes every form field through them, including `email` and
  `phone`, so the field is the datatype `Field = Payment | Address | Email |
  Phone`. In `AppState` a write to `Payment` is skipped (`field !==
  'payment'`). In `AppData` every field can be written.

Where the code differs from the intended design, the model follows the code:
- `AppState.setContactField` signals `order:ready`, the same event as the
  delivery step.
- `AppData`'s two validators announce the same event, `form:errors:change`.
- `AppData.setPaymentMethod` revalidates but never signals `order:ready`.
- `AppData`'s basket deduplicates by object identity. Two distinct card
  objects with the same id can both be in it.
- `src/types/index.ts` does not declare the `IProduct` and `IAppState` types
  that `AppData.ts` imports. Their shape is taken from the fields that
  `AppData.ts` reads and writes.

## Model

| member | source | states |
|---|---|---|
| `AppStateModel.AppState.constructor` | src/components/AppData.ts:10-21 | Empty draft (empty strings, null payment, no items, total 0), no errors, catalog and preview unset; the basket invariant holds. |
| `AppStateModel.AppState.SetCatalog` | src/components/AppData.ts:23-35 | The new catalog has the input's length and order; entry i copies exactly id, description, image, title, category and price of input i; one `items:changed` event carrying the new catalog; nothing else changes. |
| `AppStateModel.Project` | src/components/AppData.ts:25-32 | A stored catalog entry copies exactly the record's id, description, image, title, category and price; no other property of the record is kept. |
| `AppStateModel.Projected` | src/components/AppData.ts:24-33 | The mapped catalog is as long as the input, and entry i copies the id, description, image, title, category and price of input record i. |
| `AppStateModel.ProjectedEmbedded` | src/components/AppData.ts:24-33 | Projection is lossless on catalog entries: a catalog put back through `setCatalog` comes out unchanged. |
| `AppStateModel.AppState.SetPreview` | src/components/AppData.ts:37-40 | Records the product's id as previewed and emits `preview:changed` with the whole product; nothing else changes. |
| `AppStateModel.AppState.ToggleOrderedItem` | src/components/AppData.ts:42-50 | Including sets the basket to `uniq(items + [id])`, which on a duplicate-free basket is the basket itself when the id is present and the basket with the id appended otherwise. Excluding sets it to `without(items, id)`. The basket stays duplicate-free. Email, phone, address, payment, total, catalog, preview, errors and events are unchanged. |
| `AppStateModel.Uniq` | src/components/AppData.ts:45 | The result is duplicate-free, has exactly the input's elements, and is no longer than the input. |
| `AppStateModel.UniqOfNoDup` | src/components/AppData.ts:45 | `uniq` leaves a duplicate-free list unchanged. |
| `AppStateModel.Include` | src/components/AppData.ts:42-45 | On a duplicate-free basket, including a present id changes nothing and including a new id appends it at the end. |
| `AppStateModel.IncludeTwice` | src/components/AppData.ts:42-45 | Including an id a second time changes nothing, and after one inclusion the id occurs exactly once, whatever the basket held before. |
| `AppStateModel.Without` | src/components/AppData.ts:48 | The result has exactly the elements other than x, x with multiplicity 0 and every other element with its old multiplicity, in their original order (a subsequence). Removing an absent id is a no-op. Duplicate-freedom is preserved. |
| `AppStateModel.AppState.ClearBasket` | src/components/AppData.ts:52-56 | Toggling off every id of the list as it was before the call leaves the basket empty; the rest of the draft, catalog, preview, errors and events are unchanged. |
| `AppStateModel.Lookup` | src/components/AppData.ts:60 | `find` by id returns an entry exactly when the catalog has an entry with that id; the entry returned is in the catalog and has that id. |
| `AppStateModel.LookupFirst` | src/components/AppData.ts:60 | `find` returns the first entry with the id. |
| `AppStateModel.TotalOfDefined` | src/components/AppData.ts:58-63 | The reduce produces a number exactly when every basket id has a catalog entry (otherwise `find(...).price` throws). |
| `Prices.NullAsZero` | src/components/AppData.ts:60 | A null price adds 0 to the running sum, as JavaScript's `a + null` equals `a`; any other price adds itself. Both state classes use this rule (the reduce at src/components/AppApi.ts:81 too). |
| `AppStateModel.TotalOf` | src/components/AppData.ts:59-62 | The reduce over basket ids, left to right from 0; an empty basket totals 0. |
| `AppStateModel.TotalOfNonNeg` | src/components/AppData.ts:59-62 | When no catalog price is negative, a defined total is never negative. |
| `AppStateModel.TotalOfCons` | src/components/AppData.ts:59-62 | The total of a basket is the first id's price plus the total of the rest. |
| `AppStateModel.TotalAfterInclude` | src/components/AppData.ts:58-63 | Including a catalog id into a duplicate-free basket raises the total by the product's price if the id was new, and leaves it unchanged if it was present. |
| `AppStateModel.TotalAfterExclude` | src/components/AppData.ts:58-63 | Excluding an id reduces the total by the product's price once for every occurrence removed, and the total stays defined. |
| `AppStateModel.TotalExample` | src/components/AppData.ts:58-63 | Prices 100 and 250 for basket ids a and b give a total of 350. |
| `AppStateModel.AppState.GetTotal` | src/components/AppData.ts:58-63 | The total is defined exactly when the basket is empty, or a catalog exists and knows every basket id. An empty basket totals 0. With a catalog the total is the reduce over basket ids. |
| `AppStateModel.AppState.SetTotal` | src/components/AppData.ts:65-67 | Sets `order.total` and changes nothing else. |
| `AppStateModel.AppState.ItemCount` | src/components/AppData.ts:69-71 | The item count is the basket's length, 0 exactly when the basket is empty. |
| `AppStateModel.AppState.ItemCountIsDistinct` | src/components/AppData.ts:69-71 | The item count is the number of distinct products in the basket. |
| `AppStateModel.Selected` | src/components/AppData.ts:74 | The selection is a subsequence of the catalog (catalog order) and holds exactly the catalog entries whose id is in the basket, each as many times as the catalog holds it. |
| `AppStateModel.SelectedCount` | src/components/AppData.ts:74 | With unique catalog ids, the selection has one entry per basket id the catalog knows. |
| `AppStateModel.AppState.GetSelectedItems` | src/components/AppData.ts:73-75 | Defined exactly when a catalog exists; then a subsequence of it holding exactly the entries whose id is in the basket. |
| `AppStateModel.AppState.SelectedItemsMatchCount` | src/components/AppData.ts:69-75 | When catalog ids are unique and every basket id is known, the selection is as long as the item count. |
| `AppStateModel.OrderErrors` | src/components/AppData.ts:91-103 | The delivery errors have a `payment` key exactly when payment is null and an `address` key exactly when the address is empty, with the source's messages, and no other key; they are empty exactly when the delivery step is complete. |
| `AppStateModel.AppState.ValidateOrder` | src/components/AppData.ts:91-103 | Returns true iff payment is set and the address is non-empty; `formErrors` becomes the delivery errors; `formErrors:change` is always emitted with them; the draft is unchanged. |
| `AppStateModel.SetText` | src/components/AppData.ts:78-80 | Writing a field never changes payment, items or total; a write to payment changes nothing; the named text field gets the value and every other text field keeps its value. |
| `AppStateModel.AppState.WriteText` | src/components/AppData.ts:78-80 | The guarded field write changes the draft by exactly `SetText` and nothing else. |
| `AppStateModel.AppState.SetOrderField` | src/components/AppData.ts:77-85 | The draft changes only in the named field, never in payment. Errors are recomputed. `formErrors:change` is emitted, then `order:ready` with the draft iff the delivery step is complete. |
| `AppStateModel.AppState.SetPaymentField` | src/components/AppData.ts:87-89 | Sets the payment and nothing else; no validation, no event. |
| `AppStateModel.ContactErrors` | src/components/AppData.ts:115-127 | The contact errors have an `email` key exactly when the email is empty and a `phone` key exactly when the phone is empty, and no other key; they are empty exactly when the contact step is complete. |
| `AppStateModel.AppState.ValidateContacts` | src/components/AppData.ts:115-127 | Returns true iff email and phone are both non-empty; `formErrors` becomes the contact errors; `formErrors:contactsChange` is always emitted. |
| `AppStateModel.AppState.SetContactField` | src/components/AppData.ts:105-113 | The draft changes only in the named field, never in payment. `formErrors:contactsChange` is emitted, then `order:ready` iff the contact step is complete. |
| `AppDataModel.CardItem.constructor` | src/types/index.ts:11-20 | A card holds the eight fields of a product card (id, title, category, description, image, nullable price, in-basket flag, button label) exactly as given. |
| `AppDataModel.AppData.constructor` | src/components/AppApi.ts:21-31 | Empty basket, four empty form fields, no errors, catalog and preview unset. |
| `AppDataModel.IndexOf` | src/components/AppApi.ts:35 | Returns -1 exactly when the card is absent, and otherwise the position of its first occurrence. |
| `AppDataModel.AppData.AddBasket` | src/components/AppApi.ts:34-39 | A card already present changes nothing and emits nothing. A new card is appended at the end, then `counter:changed` and `basket:changed` are emitted with the basket. Afterwards `productOrder(item)` holds, the basket stays duplicate-free, and the total grows by the new card's price. |
| `AppDataModel.AppData.ProductOrder` | src/components/AppApi.ts:42-44 | True iff the card occurs in the basket (`indexOf` finds it). |
| `AppDataModel.AppData.ClearBasket` | src/components/AppApi.ts:47-50 | Empties the basket and emits `counter:changed` and `basket:changed` with the empty basket. |
| `AppDataModel.AppData.ClearOrder` | src/components/AppApi.ts:53-60 | Payment, address, email and phone all become the empty string; nothing else changes. |
| `AppDataModel.AppData.UpdateBasket` | src/components/AppApi.ts:63-66 | Emits `counter:changed` then `basket:changed`, both with the basket; no field changes. |
| `AppDataModel.RemoveById` | src/components/AppApi.ts:70 | No remaining card has the id; every card with another id is kept, in order (a subsequence); with no such card the basket is unchanged; duplicate-freedom is preserved. |
| `AppDataModel.RemoveByIdCount` | src/components/AppApi.ts:70 | The filter drops every copy of each card with the id and keeps every copy of every other card: the result's multiset is the input's with those cards removed. |
| `AppDataModel.AppData.RemoveFromBasket` | src/components/AppApi.ts:69-72 | The basket becomes the filtered list, the total price drops by the prices of the removed cards, and `basket:changed` is emitted without a payload. |
| `AppDataModel.PriceSumRemove` | src/components/AppApi.ts:69-82 | The basket's price is the price after filtering out an id plus the price of the cards filtered out. |
| `AppDataModel.AppData.GetOrderProducts` | src/components/AppApi.ts:75-77 | Returns the basket, entry for entry; every returned card is one `productOrder` reports as ordered. |
| `AppDataModel.PriceSum` | src/components/AppApi.ts:81 | The reduce over the basket, left to right from 0; an empty basket costs 0, and a basket without negative prices never costs less than 0. |
| `AppDataModel.PriceSumAppend` | src/components/AppApi.ts:81 | The price of two lists put together is the sum of their prices. |
| `AppDataModel.AppData.GetTotalPrice` | src/components/AppApi.ts:80-82 | An empty basket costs 0. |
| `AppDataModel.AppData.SetCatalog` | src/components/AppApi.ts:85-88 | The catalog becomes the given list and `items:changed` is emitted with it. |
| `AppDataModel.AppData.SetPreview` | src/components/AppApi.ts:91-94 | Records the card's id as previewed and emits `preview:changed` with the card. |
| `AppDataModel.ContactErrors` | src/components/AppApi.ts:97-112 | The contact errors hold exactly the keys `email` and `phone` of the empty fields, with this file's messages; empty iff both are given. |
| `AppDataModel.AppData.ValidateContact` | src/components/AppApi.ts:97-112 | Returns true iff email and phone are both non-empty; `formErrors` becomes the contact errors; `form:errors:change` is emitted. |
| `AppDataModel.WithField` | src/components/AppApi.ts:115 | Writing a field sets that field to the value and keeps every other field. |
| `AppDataModel.AppData.WriteField` | src/components/AppApi.ts:115 | The field write changes the form by exactly `WithField` and nothing else. |
| `AppDataModel.AppData.SetContactField` | src/components/AppApi.ts:114-119 | Writes the named field, revalidates contacts, and emits `contacts:ready` with the form iff the contact step passes. |
| `AppDataModel.AddressErrors` | src/components/AppApi.ts:122-133 | The delivery errors hold exactly the keys `payment` and `address` of the empty fields; empty iff both are given. |
| `AppDataModel.AppData.ValidateAdress` | src/components/AppApi.ts:122-133 | Returns true iff payment and address are both non-empty; `formErrors` becomes the delivery errors; `form:errors:change` is emitted. |
| `AppDataModel.AppData.SetOrderField` | src/components/AppApi.ts:135-140 | Writes the named field, revalidates the delivery step, and emits `order:ready` with the form iff it passes. |
| `AppDataModel.AppData.SetPaymentMethod` | src/components/AppApi.ts:142-145 | Sets the payment, recomputes the delivery errors and emits `form:errors:change`, but never `order:ready`. |

## Left out

- The event emitter is not modelled: subscription, pattern matching on event
  names and dispatch to handlers. Emissions are recorded in a ghost trace.
- Event payloads are recorded as value snapshots. In the source,
  `order:ready` passes the live `order` object and `counter:changed` /
  `basket:changed` pass the live basket array. A handler that keeps them sees
  later changes, and `addBasket`'s in-place `push` changes an array that
  earlier events carried. That aliasing is not modelled.
- `AppDataModel.AppData.GetOrderProducts`: returns the basket as a value. The
  source returns the basket array itself, so a caller that mutates the
  result also mutates the basket. This is not modelled.
- Card objects (`ICardItem`) are treated as immutable, because `AppData`
  never writes their fields. A change made to a card by other code is not
  modelled.
- Numbers are unbounded integers. Floating point, `NaN` (a missing price)
  and non-integer prices are not modelled.
- A field name outside the four form fields is not modelled. At run time
  `this.order[field] = value` would add or overwrite any property.
- Orchestration in `src/index.ts` is not part of this model: DOM cards,
  modals, the error-summary join, and promise sequencing of the API calls.
- The HTTP client `src/components/ApiLarek.ts` and its CDN prefixing of image
  paths are not part of this model. Neither are the presentational components
  (`CardsContainer.ts`, `Modal.ts`, `OrderData.ts`).
- The type declarations in `src/types` are used only to shape the datatypes.
- The `lodash` library is not modelled. Only the effect of `_.uniq` and
  `_.without`, as used here, is specified.
