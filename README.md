# Cart ledger of the online store's client

The store's browser client keeps the shopping cart as an ordered list of
line items `{id, name, price, quantity}` under the single key
`simpleStoreCart` of `localStorage`. Three helpers read the cart, change it
and write it back: adding a product (bump the quantity of its line, or
append a new line with quantity 1), removing an id (filter its lines out),
and changing a quantity by any integer delta (drop the line when the
quantity falls to zero or below). Every save refreshes the cart badge with
the sum of the quantities, and the cart page shows the order total, the
sum of price times quantity over the lines.

The project has three modules:

- `Wrappers` (`wrappers.dfy`): the `Option` datatype.
- `CartLedger` (`cart_ledger.dfy`): the pure model. It has line items and
  carts as values, the transitions `Add`, `Remove` and `Change`, the sums
  `Count` and `Total`, and lemmas stating what each transition promises. It
  also proves that the ledger invariant holds across any sequence of
  actions (`Run`). The invariant is unique ids and every quantity at
  least 1.
- `CartStorage` (`cart_storage.dfy`): the imperative layer. The class
  `Browser` holds the key-value store and the badge number. Its methods
  mirror `getCart`, `saveCart`, `updateCartCount`, `addToCart`,
  `removeFromCart`, `changeQuantity` and the total accumulation of
  `renderCart`. The postconditions of `AddToCart`, `RemoveFromCart` and
  `ChangeQuantity` tie the new store to the pure transition applied to the
  old stored cart, keep the badge in agreement with the stored cart
  (`Valid`) and preserve the ledger invariant. `SaveCart` writes whatever
  cart it is given and refreshes the badge from it; `GetCart`,
  `UpdateCartCount` and `RenderCart` only read the store.

Modelling choices:

- Prices are integers in minor currency units.
- JSON serialisation is the identity, so the store maps keys to carts.
- `Array.prototype.find` is the recursive function `FindIndex`, which
  returns the first matching line.
- When a stored cart holds duplicate ids, the model does what the code
  does. Add and change touch only the first matching line. Filtering drops
  every matching line.

## Model

| member | source | states |
|---|---|---|
| `CartLedger.FindIndex` | online-store444/public/main.js:24 | the index found holds the id and no earlier line does; no index is returned exactly when no line has the id |
| `CartLedger.FindIndexIsFirst` | online-store444/public/main.js:43 | any first matching line is the one the lookup reports |
| `CartLedger.Remove` | online-store444/public/main.js:36 | the filtered cart has no line with the id, is no longer than the input, and its lines are exactly the input's lines with other ids |
| `CartLedger.RemoveAbsent` | online-store444/public/main.js:36 | filtering out an id no line carries returns the cart unchanged |
| `CartLedger.RemoveAppend` | online-store444/public/main.js:36 | the filter distributes over concatenation, so the kept lines keep their original order |
| `CartLedger.RemoveUnique` | online-store444/public/main.js:34-37 | with unique ids, removing line i's id leaves exactly the lines before and after it, in order |
| `CartLedger.RemoveAfterUpdate` | online-store444/public/main.js:45-47 | filtering after the in-place quantity change gives the same cart as filtering the cart as loaded |
| `CartLedger.AddExisting` | online-store444/public/main.js:22-26 | adding a product already present bumps its first line's quantity by exactly 1; id, name, price, length and every other line are unchanged |
| `CartLedger.AddNew` | online-store444/public/main.js:27-28 | adding a product with a new id appends `{id, name, price, quantity: 1}` at the end and keeps every existing line |
| `CartLedger.RemoveSpec` | online-store444/public/main.js:34-37 | after removal no line has the id, the kept lines are exactly the others, and a cart without the id is returned as it was |
| `CartLedger.ChangeAbsent` | online-store444/public/main.js:42-44 | a change yields nothing to save exactly when no line has the id |
| `CartLedger.ChangeDrops` | online-store444/public/main.js:45-48 | when quantity + delta <= 0 the id is filtered out; with unique ids exactly that line goes and the others keep their order |
| `CartLedger.ChangeKeeps` | online-store444/public/main.js:45-51 | when quantity + delta > 0 the line's quantity becomes quantity + delta, its id, name and price stay, and every other line is unchanged |
| `CartLedger.AddPreserves` | online-store444/public/main.js:24-28 | adding keeps ids unique and quantities at least 1 |
| `CartLedger.RemovePreserves` | online-store444/public/main.js:36 | removing keeps ids unique and quantities at least 1 |
| `CartLedger.ChangePreserves` | online-store444/public/main.js:45-48 | changing keeps ids unique and quantities at least 1 |
| `CartLedger.ApplyPreserves` | online-store444/public/main.js:22-53 | any single add, remove or change action keeps the ledger invariant |
| `CartLedger.RunPreserves` | online-store444/public/main.js:22-53 | any sequence of add, remove and change actions from a well-formed cart keeps ids unique and quantities at least 1 |
| `CartLedger.CountAtLeastLines` | online-store444/public/main.js:17 | the badge count is 0 for the empty cart and, when all quantities are positive, at least the number of lines |
| `CartLedger.CountZeroIff` | online-store444/public/main.js:17 | on a well-formed cart the count is 0 exactly when the cart is empty |
| `CartLedger.AddSums` | online-store444/public/main.js:22-28 | every add raises the count by exactly 1 and the total by the touched line's snapshot price (the product's price only for a new line) |
| `CartLedger.RemoveSums` | online-store444/public/main.js:34-37 | with unique ids, removing a line lowers the count by its quantity and the total by its line total |
| `CartLedger.ChangeCount` | online-store444/public/main.js:45-50 | a change that keeps the line moves the count by exactly delta |
| `CartLedger.ScenarioAddTwice` | online-store444/public/main.js:22-30 | adding product 1 twice to an empty cart gives one line of quantity 2, whose count is 2 |
| `CartLedger.ScenarioDecrementLast` | online-store444/public/main.js:45-48 | decrementing a line of quantity 1 yields the empty cart |
| `CartStorage.LoadStore` | online-store444/public/main.js:5-11 | saving then loading returns the same ordered cart, other keys are untouched, and a store with nothing under the key loads as the empty cart |
| `CartStorage.Browser.constructor` | online-store444/public/main.js:217-218 | on page load the store is as found and the badge agrees with the stored cart |
| `CartStorage.Browser.GetCart` | online-store444/public/main.js:5-8 | returns the cart stored under `simpleStoreCart`, or the empty cart when nothing is stored |
| `CartStorage.Browser.SaveCart` | online-store444/public/main.js:10-13 | writes exactly the given cart under the key, changes no other key, and the badge then shows its count |
| `CartStorage.Browser.UpdateCartCount` | online-store444/public/main.js:15-20 | the badge becomes the sum of the stored quantities; the store is not touched |
| `CartStorage.Browser.AddToCart` | online-store444/public/main.js:22-30 | the stored cart becomes `Add` of the old one; the badge agrees with it; the ledger invariant is kept |
| `CartStorage.Browser.RemoveFromCart` | online-store444/public/main.js:34-37 | the stored cart becomes `Remove` of the old one; the badge agrees with it; the ledger invariant is kept |
| `CartStorage.Browser.ChangeQuantity` | online-store444/public/main.js:41-51 | with no match neither the store nor the badge changes (nothing is saved); otherwise the stored cart becomes `Change` of the old one and the badge agrees with it; the ledger invariant is kept |
| `CartStorage.Browser.RenderCart` | online-store444/public/main.js:112-124 | no summary exactly when the stored cart is empty; otherwise the summary is the sum of price times quantity over the lines, accumulated in cart order |

## Left out

- The DOM work is not modelled. That covers building the product grid and the cart rows, the `innerHTML`/`textContent` writes, and the checks for missing elements. The badge element is taken to be present. The early return of `renderCart` when its containers are missing is not modelled.
- The `renderCart()` calls after `removeFromCart` and `changeQuantity` only repaint the DOM. They change no state, so they are left out. `Browser.RenderCart` models the summary that such a call would compute.
- The `alert` calls and the checkout button are user-interface side effects only.
- `loadProducts` (a `fetch` of the catalog) and the admin form submission are left out. Both are asynchronous network I/O, and the form's `parseFloat`/`parseInt` parsing relies on JavaScript library semantics.
- `server.js` (HTTP routing, SQLite schema, seeding) is not part of this model.
- Floating-point prices and `toFixed(2)` formatting are left out. Prices are integers in minor units. Quantities are unbounded integers, so precision loss above 2^53 is not modelled.
- JSON parse failure is left out. On a corrupt blob `getCart` throws, and the model has no such state. The model's store also cannot hold an empty string under the key, which `getCart` would read as the empty cart. `saveCart` never writes one.
- JavaScript's `===` on ids is modelled as integer equality. Mixed number and string ids are not modelled.
- The in-place mutation `existing.quantity += 1` / `item.quantity += delta` on the freshly parsed array is modelled as a sequence update. Nothing else refers to that array, so no aliasing is lost.
- Races on the stored blob between browser tabs (last write wins) are not modelled. The client is single-threaded.
