# Shopping-cart store

A model of the cart store of a client-side shopping-cart widget (`script.js`).
The page keeps one ordered list of line items (`cartItems`), each with an id,
a name, a unit price, an image reference and a quantity. Product cards add to
it, the cart panel's plus, minus and trash buttons change or remove entries,
and placing an order empties it. Subtotal, shipping, total and item count are
recomputed from the list whenever they are shown. Two flags drive the panel:
whether the cart overlay is open and whether the checkout form is shown in
place of the cart content.

The model has three modules:

- `CartItems` (`cart_items.dfy`): the `LineItem` record, the searches the store
  runs over the list (`findIndex` and `find` as `FindIndex`, `MatchIndex`,
  `IdIndex`), the id filter (`WithoutId`), the folds (`Subtotal`,
  `TotalItems`), `Shipping` and `Total`, and the facts about the filter and
  the folds.
- `CartOps` (`cart_ops.dfy`): each mutation of the list as a function from the
  list before to the list after (`Added`, `Increased`, `Decreased`, with
  `WithoutId` for removal), and lemmas saying what each does to the entries,
  the totals and the cart invariant, and which of them undo each other.
- `CartStore` (`cart_store.dfy`): the class `Cart`, whose fields are the list,
  the storage slot it is saved to, and the two panel flags. Its methods change
  the fields in place as the page's functions do. Each method's postcondition
  gives the new list as the matching `CartOps` function of the old list, and
  says what becomes of the saved slot and the flags.

Prices are whole cents (`nat`), so the sums are exact. Free shipping starts
strictly above 10000 cents (100.00), and the flat fee is 1000 cents (10.00).

The cart invariant (`WellFormed`) has two parts. Every quantity is at least 1,
and no two entries agree on name, price and id. The page never checks it:
a list restored from storage may break it. So the methods promise to keep it
when it held before, and do not require it. Positive quantities alone are
also kept, even in a restored list that has duplicate entries.

Behaviour of the code a reader might not expect:

- addToCart merges a product into an existing entry only when name, price
  **and id** are all equal. The id is taken from the clock on every click. So
  a second add of the same product normally appends a separate entry
  (`AddedFreshId`). A merge happens only when both clicks read the same
  millisecond.
- decreaseQuantity and removeItemById drop **every** entry with the id, not
  just one. Two products added within the same millisecond share an id, and
  then both go.
- Quantities change by exactly one (the plus and minus buttons). No general
  delta operation exists.
- A malformed saved value makes `JSON.parse` throw during page load; it does
  not fall back to an empty cart. The model takes the parsed value as the
  constructor's parameter: `None` when nothing was saved.

## Model

| member | source | states |
|---|---|---|
| `CartItems.FindIndex` | script.js:200-202 | findIndex gives -1 exactly when no entry satisfies the predicate; otherwise it gives the first index that does |
| `CartItems.MatchIndex` | script.js:200-202 | the addToCart search finds the first entry with equal name, price and id, or -1 when there is none |
| `CartItems.IdIndex` | script.js:336 | the find by id in the quantity buttons gives the first entry with that id, or -1 exactly when no entry has it |
| `CartItems.SumByBounds` | script.js:378 | `SumBy`, the `reduce` from 0 that both totals use, is non-negative over non-negative terms and at least the number of entries over terms of at least 1 |
| `CartItems.Subtotal` | script.js:377-379 | calculateSubtotal, the sum of price times quantity: 0 for the empty cart and never negative when no quantity is negative |
| `CartItems.TotalItems` | script.js:393-395 | getTotalItems, the sum of the quantities: 0 for the empty cart and at least the number of entries when every quantity is positive |
| `CartItems.WithoutId` | script.js:371 | the filter leaves no entry with the id and never makes the list longer |
| `CartItems.WithoutIdMembers` | script.js:371 | the entries kept are exactly the entries of the list whose id differs |
| `CartItems.WithoutIdAppend` | script.js:371 | the filter distributes over concatenation, so the kept entries stay in their original relative order |
| `CartItems.WithoutIdSingle` | script.js:371 | a single entry is kept exactly when its id differs |
| `CartItems.WithoutIdAbsent` | script.js:371 | removing an id that no entry has leaves the list unchanged |
| `CartItems.WithoutIdLowersCount` | script.js:370-374 | with positive quantities, removal never raises getTotalItems, and lowers it whenever an entry had the id |
| `CartItems.WithoutIdKeepsPositive` | script.js:371 | removal keeps every quantity at least 1 when it was, whether or not entries repeat |
| `CartItems.WithoutIdKeepsWellFormed` | script.js:371 | removal keeps quantities positive and entries distinct |
| `CartItems.Shipping` | script.js:382-385 | shipping is 0 exactly when the subtotal is strictly above 100.00, and 10.00 exactly when it is at most 100.00 (so a subtotal of 100.00 pays 10.00) |
| `CartItems.Total` | script.js:388-390 | the total equals the subtotal above the free-shipping threshold, and the subtotal plus 10.00 at or below it |
| `CartOps.NewItem` | script.js:191-197 | the record addToCart builds carries the given id, name, price and image, with quantity 1 |
| `CartOps.Added` | script.js:199-210 | the list after addToCart grows by at most one entry, and each old entry either stays as it was or matches the new product on name, price and id and gains exactly one unit |
| `CartOps.AddedEntries` | script.js:199-210 | addToCart appends the new record exactly when no entry matches on name, price and id; otherwise it bumps the first matching entry by one and leaves every other entry as it was |
| `CartOps.AddedFreshId` | script.js:189-209 | a product whose id is not in the cart is always appended as a new entry with quantity 1, whatever its name and price |
| `CartOps.AddedTotals` | script.js:191-210 | addToCart raises getTotalItems by exactly 1 and calculateSubtotal by exactly the product's price, in both branches |
| `CartOps.AddedKeepsWellFormed` | script.js:196-209 | addToCart keeps every quantity at least 1 and never creates two entries with equal name, price and id |
| `CartOps.AddedKeepsPositive` | script.js:196-209 | addToCart keeps every quantity at least 1 when it was, whether or not entries repeat |
| `CartOps.AddedThenRemoved` | script.js:209 | removing the id of a product just appended gives back the cart from before the add |
| `CartOps.Increased` | script.js:336-339 | the list after increaseQuantity has the same length; every entry keeps its id, name, price and image, and its quantity stays or grows by one |
| `CartOps.IncreasedEntries` | script.js:334-343 | increaseQuantity adds 1 to the first entry with the id and leaves every other entry as it was; an unknown id leaves the cart unchanged |
| `CartOps.IncreasedTotals` | script.js:336-339 | increaseQuantity raises the item count by 1 and the subtotal by that entry's unit price |
| `CartOps.QuantityChangeKeepsWellFormed` | script.js:339 | setting one entry's quantity to a positive value keeps the cart invariant |
| `CartOps.IncreasedKeepsPositive` | script.js:336-339 | increaseQuantity keeps every quantity at least 1 when it was |
| `CartOps.IncreasedKeepsWellFormed` | script.js:336-339 | increaseQuantity keeps the cart invariant |
| `CartOps.Decreased` | script.js:348-355 | the list after decreaseQuantity is never longer, and the id is gone from it exactly when it was absent or its first entry had quantity 1 or less |
| `CartOps.DecreasedEntries` | script.js:346-361 | an unknown id changes nothing; a first entry with quantity 1 or less leads to removing every entry with the id; otherwise only that entry loses 1 and the item count drops by 1 |
| `CartOps.DecreasedKeepsPositive` | script.js:351-355 | decreaseQuantity keeps every quantity at least 1 when it was, because an entry that would reach 0 is removed |
| `CartOps.DecreasedKeepsWellFormed` | script.js:348-355 | decreaseQuantity keeps the cart invariant, whether it decrements or removes |
| `CartOps.DecreaseUndoesIncrease` | script.js:334-361 | with positive quantities, a decrease right after an increase of the same id restores the cart |
| `CartOps.IncreaseUndoesDecrease` | script.js:334-361 | after a decrease that kept the entry, an increase of the same id restores the cart |
| `CartOps.EmptyCartTotals` | script.js:377-395 | an empty cart has item count 0, subtotal 0, shipping 10.00 and total 10.00 |
| `CartStore.Restored` | script.js:4 | the list the page starts from is exactly the saved list, or the empty list when nothing is saved |
| `CartStore.Cart.constructor` | script.js:4-6 | page load restores the saved list, or the empty list when nothing is saved; the panel starts closed with the checkout form hidden |
| `CartStore.Cart.Save` | script.js:424-426 | saveCart writes the current list to the storage slot, so a reload restores it |
| `CartStore.Cart.AddToCart` | script.js:185-213 | the new list is `Added` of the old one; the count grows by 1 and the subtotal by the price; the list grows by at most one entry; positive quantities and the invariant are kept; the list is saved |
| `CartStore.Cart.IncreaseQuantity` | script.js:334-343 | the new list is `Increased` of the old one; an unknown id changes nothing and saves nothing; a known id adds 1 to the count and saves; positive quantities and the invariant are kept |
| `CartStore.Cart.DecreaseQuantity` | script.js:346-361 | the new list is `Decreased` of the old one; an unknown id changes nothing and saves nothing; a known id saves, through removeItemById when the entry runs out; positive quantities and the invariant are kept |
| `CartStore.Cart.RemoveItemById` | script.js:370-374 | the new list is the old one without any entry with the id; it is saved, and positive quantities and the invariant are kept |
| `CartStore.Cart.PlaceOrder` | script.js:454-458 | the order clear empties and saves the list, leaving count 0, subtotal 0 and total 10.00 |
| `CartStore.Cart.ToggleCart` | script.js:168-182 | cartOpen flips; closing hides the checkout form, opening leaves it as it was |
| `CartStore.Cart.ShowCheckout` | script.js:429-437 | on an empty cart the checkout flag is unchanged; otherwise the checkout form is shown |
| `CartStore.Cart.HideCheckout` | script.js:440-443 | the checkout form is hidden and the cart content shown |

## Left out

- Rendering (`createCartOverlay`, `renderCartItems`, `updateCart`, `updateCartCount`) and the HTML strings: presentation only. The re-render that follows each mutation is not modelled.
- Event wiring on `DOMContentLoaded`, and the listeners re-attached after each render: UI plumbing. `removeItem` only reads the button's `data-id` and calls removeItemById, so the model has only `RemoveItemById`.
- `showNotification` and the two-second delay before the order clear: timer-driven cosmetics. The clear is modelled as one instantaneous step, and the disabled submit button is not modelled.
- The success message that replaces the checkout form after an order: DOM content, not state of the store.
- Storage I/O and JSON encoding: the slot holds the list itself (`Option<seq<LineItem>>`), not its text. So a parse failure on page load is not modelled.
- Negative and non-numeric prices: `parseFloat` of the card's price text can give a negative number or NaN, and addToCart stores it unchecked. They are outside the model, whose price is a `nat` given by the caller.
- Floating-point prices: `parseFloat` of the card's price text and `toFixed(2)` formatting are replaced by whole cents. Rounding in the float sums is not modelled.
- `Date.now()` id generation: the id is a parameter of `AddToCart`.
- Reading the name, price and image from the product card's DOM: these are parameters of `AddToCart`.
- Checkout form fields: only HTML `required` attributes apply to them, with no script logic.
- No invariant ties the checkout flag to the open flag. showCheckout does not check that the panel is open; only the page layout keeps its button out of reach while the panel is closed. After an order the form can also stay shown on an empty cart.
