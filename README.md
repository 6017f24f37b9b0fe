# Cart state of the Hiraya ordering page, in Dafny

The page keeps a shopping cart in the browser: an ordered list of records
`{name, price, quantity}`, a flag that says whether the current order has been
confirmed, and a copy of the list in `localStorage` under the key `"cart"`.
Buttons add an item (bumping its quantity if its name is already in the cart),
remove a record, or raise and lower a record's quantity (lowering a quantity of
1 removes the record). After every change the page recomputes the total
(price times quantity, summed) and writes the cart back to storage.
Confirming an order runs four checks in a fixed order: the cart is not empty,
a Delivery order has an address, a Dine-in order has a valid pack count, and a
Dine-in time falls in the serving window `[10, 21)`. If all pass, the page
renders a receipt, sets the flag, empties the cart and storage, and renders
again. Resetting clears the flag and empties the cart.

The project has five modules:

- `Items` (`items.dfy`): the record type, the total `Sum`, the cart invariant
  `WellFormed` (names unique, quantities at least 1), and the four edits as
  functions on values: `AddItem`, `RemoveAt`, `IncreaseAt` and `DecreaseAt`.
  Lemmas about them state which records change, how the total changes, and that
  the invariant holds afterwards. It also covers any sequence of additions.
- `Text` (`text.dfy`): JavaScript's `trim`, using the exact set of
  ECMAScript white-space and line-terminator code points, and
  `split(":")[0]`.
- `Order` (`order.dfy`): the validation chain `FirstFailure`, declarative
  characterisations of acceptance and of each refusal, and the receipt value.
- `Cart` (`cart.dfy`): the class `CartState` with the fields `cart`,
  `orderConfirmed`, `stored` (the storage key, `None` when absent) and
  `shownTotal` (the total shown on the page, which the receipt copies). Its
  methods change these fields in place, as the page's functions do. Each one is
  specified by the `Items` and `Order` functions.
- `Scenarios` (`scenarios.dfy`): client sessions that use only the class
  contracts. Examples: two adds of one name, the empty-cart refusal, a Dine-in
  order at 11:00 and one at 22:00, a second order while the flag is still set,
  a reload from storage, and a repeated reset.

`isNaN` and `parseInt` are passed to the order checks as functions. The type
`string -> bool` stands for `isNaN`. The type `string -> Option<int>` stands for
`parseInt`, and `None` plays the part of NaN. A NaN operand makes every
comparison false, so an unparseable hour passes the hour check when the time
text is not blank. For the same reason, a pack count for which `isNaN` returns false but
`parseInt` gives NaN (a text such as `.5`) passes the pack check. Prices are whole numbers
(centavos), so totals are exact.

Behaviours of the code that are easy to miss:

- A confirmed order or a reset removes the storage key and then re-renders.
  Re-rendering stores the empty cart again, so afterwards storage holds `[]`,
  not nothing (script.js:124-126, 137-139).
- The empty-cart check comes before the order-type checks. So an empty cart
  with a blank Delivery address is refused as an empty cart, not as a missing
  address (script.js:72-75).
- An order type that is neither `"Delivery"` nor `"Dine-in"` skips both
  type-specific checks (script.js:83, 88). Its receipt shows packs and time,
  like a Dine-in receipt (script.js:109-114).
- Confirming is allowed while the flag is already set; the flag is not one of
  the checks. Right after an order the cart is empty, so the empty-cart check
  refuses it. If items were added after the last order, the usual checks run
  on the new cart, and an order that passes them is accepted with the flag
  still set. The page hides the
  Confirm button after an order (script.js:121) until resetCart shows it again
  (script.js:132), so only a direct call of confirmOrder reaches this case.

## Model

| member | source | states |
|---|---|---|
| `Items.IndexOfName` | script.js:40 | the position `find` stops at: the first record with that name, with no earlier match, and `None` exactly when no record has the name |
| `Items.SumConcat` | script.js:17-20 | the total of two carts joined end to end is the sum of their totals |
| `Items.SumUpdate` | script.js:17-20 | replacing one record changes the total by the new subtotal minus the old one |
| `Items.SumRemove` | script.js:17-20 | removing a record takes exactly its price times quantity off the total |
| `Items.SumNonNegative` | script.js:17-20 | with non-negative prices and positive quantities the total is not negative |
| `Items.AddExistingEffect` | script.js:40-41 | adding a name already present bumps only the quantity of the record `find` returns; the length, that record's name and price, and all other records stay the same; the total rises by that record's price |
| `Items.AddNewEffect` | script.js:40-41 | adding a new name appends `{name, price, 1}` after the unchanged records; the total rises by `price` |
| `Items.AddItemWellFormed` | script.js:40-41 | adding keeps the names unique and every quantity at least 1 |
| `Items.RemoveAtEffect` | script.js:46 | splice removes one record, keeps the earlier ones in place and shifts the later ones left in order, lowers the total by the removed subtotal, and keeps the invariant |
| `Items.IncreaseAtEffect` | script.js:51 | only the quantity of record `index` rises by 1; the length and all other records are unchanged; the total rises by its price; the invariant is kept |
| `Items.DecreaseAtEffect` | script.js:55-62 | above 1 only record `index` drops by 1; otherwise that record is removed and the length drops by 1; when its quantity was at least 1 the total falls by its price; the invariant is kept, so no record reaches 0 |
| `Items.AddItemQuantityOf` | script.js:40-41 | one add raises the quantity held of that name by 1 and of every other name by 0 |
| `Items.AddAllQuantityOf` | script.js:39-43 | after any sequence of adds, the quantity held of each name is its old quantity plus the number of adds of it |
| `Items.AddAllWellFormed` | script.js:39-43 | any sequence of adds keeps the cart invariant |
| `Items.AddAllFromEmpty` | script.js:39-43 | from an empty cart, any sequence of adds leaves one record per name, and its quantity is the number of adds of that name |
| `Text.TrimStartSpec` | script.js:78-80 | removing leading space keeps a suffix that does not start with white space and drops only white space |
| `Text.TrimEndSpec` | script.js:78-80 | removing trailing space keeps a prefix that does not end with white space and drops only white space |
| `Text.TrimShape` | script.js:78-80 | `trim()` yields a contiguous part of the input with no white space at either end; everything cut away is white space |
| `Text.TrimEmptyIffBlank` | script.js:78-80 | the trimmed text is `""` exactly when the input is all white space |
| `Text.BeforeColon` | script.js:93 | `split(":")[0]` is a prefix of the input with no colon, followed by a colon unless it is the whole input |
| `Order.AcceptedIff` | script.js:72-98 | an order passes all checks exactly when the cart is non-empty, a Delivery address is not blank, and a Dine-in order has an acceptable pack count and time; other order types need only a non-empty cart |
| `Order.RefusalOrder` | script.js:72-98 | each refusal reason holds exactly when its check fails and every earlier check passes: empty cart, then address, then pack count, then hour |
| `Order.UnparsedHourPasses` | script.js:93-94 | a non-blank time whose hour does not parse (NaN) passes the hour check |
| `Order.ReceiptLines` | script.js:102-104 | one receipt line per record, in cart order, each giving name, quantity and price times quantity |
| `Order.LinesTotalIsSum` | script.js:102-106 | the receipt lines add up to the cart total |
| `Cart.CartState.Load` | script.js:1-2 | page load: the cart is what storage held (empty if the key is absent), the flag is false, and the first render stores the cart and shows its total |
| `Cart.CartState.ComputeTotal` | script.js:17-20 | the accumulation loop returns exactly `Sum(cart)` |
| `Cart.CartState.UpdateCart` | script.js:5-36 | the cart and the flag are unchanged; the shown total is `Sum(cart)` and storage holds the cart |
| `Cart.CartState.Find` | script.js:40 | the linear search returns the `find` position, and `None` exactly when no record has the name |
| `Cart.CartState.AddToCart` | script.js:39-43 | the new cart is `AddItem` of the old one; the invariant is kept; the total rises by the matched record's price or by the new price; the flag is unchanged; storage and shown total follow the cart |
| `Cart.CartState.RemoveFromCart` | script.js:45-48 | the new cart is the old one without record `index`, in order; the invariant is kept; the total falls by the removed subtotal; the flag is unchanged; storage follows |
| `Cart.CartState.IncreaseQuantity` | script.js:50-53 | the new cart is the old one with record `index` bumped; the invariant is kept; the total rises by its price; the flag is unchanged; storage follows |
| `Cart.CartState.DecreaseQuantity` | script.js:55-62 | the new cart is `DecreaseAt` of the old one (decrement, or remove at quantity 1); the invariant is kept; when its quantity was at least 1 the total falls by its price; the flag is unchanged; storage follows |
| `Cart.CartState.CheckOrder` | script.js:72-98 | the early-return checks, run in order on the trimmed fields, report exactly `FirstFailure` |
| `Cart.CartState.ConfirmOrder` | script.js:71-127 | a refused order returns the first failing check and changes nothing, storage included; an accepted one returns the receipt of the pre-clear cart with that cart's total, then leaves the flag set, the cart empty and storage holding `[]` |
| `Cart.CartState.ResetCart` | script.js:130-140 | from any state: the flag is cleared, the cart is empty and storage holds `[]`. The result does not depend on the state before, so a second reset changes nothing |

## Left out

- Rendering: list building, button and receipt visibility, `toggleReceipt`,
  the radio-button listener, the collapse toggle and the draggable cart
  (script.js:6-15, 22-33, 65-68, 116-122, 131-134, 143-216). They only touch
  the page.
- The receipt's HTML text (script.js:101-114). It is modelled as a value
  holding the lines, the shown total, the order type and the type's details.
- `alert` messages. Each refusal is a distinct `OrderError` value instead.
- JSON serialisation and `localStorage`. Storage is the abstract field
  `stored`. Loading malformed JSON, which throws in the page (script.js:1), is
  not modelled.
- Floating-point prices from `parseFloat` (script.js:162). Prices are integers.
- `splice` and index behaviour for negative or out-of-range indices. The
  index operations require `0 <= index < |cart|`, which holds for the buttons
  the page renders.
- The exact behaviour of `isNaN` and `parseInt` on arbitrary strings
  (script.js:89, 93). They are function parameters.
- Identity of records: `find` returns the record object and the page mutates it
  in place (script.js:40-41). Nothing else refers to a record, so the model
  uses record values and updates the cart sequence at that position.
- Reading the order form (script.js:77-78). The model takes the form as
  already read, as four strings. In the page, `querySelector` gives null when
  no order type is checked, and `.value` on it throws; a missing
  delivery-address field throws too, since that line lacks the `?.` of the
  pack and time fields (script.js:79-80). Both throws happen after the
  empty-cart check and stop confirmOrder with no alert and no change of
  state, like a refusal. They are not modelled, so "no order type selected"
  does not correspond to an unknown order type, which the model accepts.
