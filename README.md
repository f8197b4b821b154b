# Product list with cart — a Dafny model of the cart

This project models the cart logic of a small browser storefront (`scripts/main.js`).
The page shows a catalog of products. Each product card has an "add to cart" control and
a quantity stepper. Beside the catalog is a cart panel that lists one line per product,
with a quantity, a subtotal and a grand total. An order confirmation shows the same lines
and offers "start new order".

The model has six modules:

- `Catalog` (`catalog.dfy`): the product record. Prices are whole cents.
- `CartStore` (`cart_store.dfy`): the cart is a sequence with one entry per unit added.
  This module defines the pure meaning of its queries and removals: `Count` (the
  `filter(...).length` quantity), `FirstIndex` (`findIndex`), `RemoveFirst` (remove one
  unit) and `WithoutName` (the `filter` that removes every unit). It also holds the lemmas
  about counts, order and idempotence.
- `Grouping` (`grouping.dfy`): the `reduce` that groups the cart by product name.
  `Step` is the reducer and `GroupBy` is the left fold. This module also defines the
  subtotals and the grand total, and `SumSubtotals` is the loop that accumulates the total.
  The lemmas prove that the fold yields one group per distinct name, in first-seen order.
  They also prove that each group counts that name's entries, that the quantities sum to the
  cart length (the badge), and that the grand total is the sum of the entry prices when
  entries that share a name share a price (the name is the catalog key). Without that
  condition the claim fails: two entries named A at 500 and 300 cents group into one line
  that carries the first entry, so the total is 1000 while the prices sum to 800.
- `ProductButton` (`product_button.dfy`): the card state and the button rule of
  `updateProductButton`.
- `ShopPage` (`shop.dfy`): class `Shop` holds the module-level state (`cart`, `productsData`),
  the rendered cards, the cart panel and the confirmation modal. Its methods are the
  page's operations, and they change the state in place. `Valid()` says that the cards and
  the panel agree with the cart, and every operation preserves it.
- `ShopExample` (`shop.dfy`): a client method that performs the two-product order: two units at
  500 cents and one at 350 cents, then removing one line, then confirming and starting
  over. After the reset, the waffle card is in add mode and its hidden stepper still reads 2.

Behaviour of the code that the model keeps:

- When the cart becomes empty, `updateCartUI` clears the lines and shows the empty view.
  It leaves the total text as it was. `PanelShows` therefore fixes the total only for a
  non-empty cart.
- When a product's quantity drops to 0, `updateProductButton` hides the stepper but does
  not reset the number it shows. `UpdatedCard` keeps that number.
- `removeFromCart` with no matching entry refreshes nothing.
- Each group carries the first cart entry with its name, because the reducer spreads the
  first item it sees.

## Model

| member | source | states |
|---|---|---|
| CartStore.Count | scripts/main.js:145 | The quantity of a product is at most the cart length, and it is 0 exactly when `findIndex` finds no entry with that name |
| CartStore.FirstIndex | scripts/main.js:111 | `findIndex` returns -1 only when no entry has the name; otherwise it returns an index whose entry has the name and before which no entry has it |
| CartStore.AddCounts | scripts/main.js:103-105 | Pushing one product raises that product's count by exactly one and leaves every other count unchanged |
| CartStore.RemoveFirst | scripts/main.js:110-113 | The reference meaning of one removal: the result is never longer than the cart; `RemoveFirstIsSplice`, `RemoveFirstLength` and `RemoveFirstCounts` state that it drops exactly the first entry with the name and nothing else |
| CartStore.RemoveFirstIsSplice | scripts/main.js:110-113 | Splicing at `findIndex` removes the first matching entry; every other entry stays, in the same relative order; with no match the cart is unchanged |
| CartStore.RemoveFirstLength | scripts/main.js:110-116 | Removing one unit of an absent name is a no-op; otherwise the cart gets exactly one entry shorter |
| CartStore.RemoveFirstCounts | scripts/main.js:110-113 | Removing one unit lowers that name's count by one when it was present; no other name's count changes |
| CartStore.WithoutName | scripts/main.js:121 | The `filter` keeps no entry with the name and is never longer than the cart; `WithoutNameCounts`, `WithoutNameKeepsOthers`, `WithoutNameConcat` and `WithoutNameIdempotent` state that it keeps every other entry, in order |
| CartStore.WithoutNameCounts | scripts/main.js:120-121 | After removing all units of a name, its count is 0 and every other name's count is unchanged |
| CartStore.WithoutNameKeepsOthers | scripts/main.js:121 | The filter keeps every entry with another name, as many times as it occurred, and no entry with the removed name |
| CartStore.WithoutNameConcat | scripts/main.js:121 | The filter distributes over concatenation, so it preserves the relative order of the kept entries |
| CartStore.WithoutNameIdempotent | scripts/main.js:120-121 | Removing all units of a name twice gives the same cart as doing it once |
| Grouping.Step | scripts/main.js:187-194 | The reducer adds a group exactly when no group has the entry's name, and otherwise keeps the number of groups; `StepPreserves` states that it keeps the grouping invariant, and `StepSums` that it adds one unit and one unit price |
| Grouping.GroupBy | scripts/main.js:186-195 | The `reduce` gives at most one group per entry and at least one for a non-empty cart; `GroupByCorrect` states that its groups are exactly the distinct names, in first-seen order, with their counts |
| Grouping.GroupIndex | scripts/main.js:187 | The accumulator lookup `acc[item.name]` finds a group with that name, or reports that no group has it |
| Grouping.StepPreserves | scripts/main.js:186-195 | One reducer step turns the grouping of the entries folded so far into the grouping of those entries plus the new one |
| Grouping.GroupByCorrect | scripts/main.js:186-195 | The fold yields the grouping of the cart: each group is the first entry with its name and counts that name's entries, the groups are in first-seen order, and every entry belongs to a group |
| Grouping.GroupQuantity | scripts/main.js:244-253 | Every displayed group's quantity equals the number of cart entries with its name, and so is at least 1 |
| Grouping.GroupFirstSeen | scripts/main.js:186-192 | Every group carries the first cart entry with its name, and so that entry's price and images |
| Grouping.GroupOrder | scripts/main.js:186-198 | Groups are listed in the order in which their names first occur in the cart, and no two groups share a name |
| Grouping.GroupMembership | scripts/main.js:186-195 | A name has a group if and only if the cart holds at least one entry with that name |
| Grouping.TotalQuantityIsLength | scripts/main.js:169-195 | The quantities of the groups sum to `cart.length`, which is the item-count badge |
| Grouping.GrandTotalIsSumOfPrices | scripts/main.js:183-200 | When entries sharing a name share a price, the sum over groups of price times quantity equals the sum of the prices of all entries |
| Grouping.Subtotal | scripts/main.js:199 | `price * quantity` is at least the unit price for a non-empty group, and 0 exactly when the price or the quantity is 0; `SumSubtotals` and `GrandTotalIsSumOfPrices` state what the subtotals add up to |
| Grouping.SumSubtotals | scripts/main.js:198-200 | The `forEach` that accumulates `price * quantity` over the groups returns the grand total of the groups |
| ProductButton.UpdatedCard | scripts/main.js:145-157 | A card for a product with a positive count shows the stepper with that count and the highlight; with count 0 it shows the add control, no stepper and no highlight, and its stepper text is left as it was |
| ProductButton.CardAgreesWithGroups | scripts/main.js:145-195 | A card in step with the cart is in add mode exactly when its product has no cart line; otherwise it shows that line's quantity |
| ShopPage.Shop.constructor | scripts/main.js:17-18 | The page starts with an empty cart, no products, no cards and a hidden modal, and its views agree with the cart |
| ShopPage.Shop.Render | scripts/main.js:43-96 | Rendering stores the catalog and gives every product one card in add mode |
| ShopPage.Shop.UpdateCartUI | scripts/main.js:164-228 | The panel shows the badge `cart.length`, the empty view exactly when the cart is empty, the grouped lines, and for a non-empty cart the grand total; an empty cart leaves the total text unchanged |
| ShopPage.Shop.UpdateProductButton | scripts/main.js:130-158 | Only the card of the given product changes, by the button rule; a product without a card changes nothing |
| ShopPage.Shop.AddToCart | scripts/main.js:103-107 | The product is appended at the end, every earlier entry is unchanged, and the panel and all cards remain in step with the cart; only that product's card changes, by the button rule, and every other card is exactly as it was |
| ShopPage.Shop.RemoveFromCart | scripts/main.js:110-117 | The cart loses exactly its first entry with that name; only that product's card changes, by the button rule, and every other card is exactly as it was; emptying the cart keeps the old total text; with no such entry the cart, the panel and the cards are untouched |
| ShopPage.Shop.RemoveAllFromCart | scripts/main.js:120-124 | The cart becomes the filter that drops every entry with that name, and the panel and the cards remain in step with it; only that product's card changes, by the button rule, and every other card is exactly as it was; emptying the cart keeps the old total text |
| ShopPage.Shop.ShowConfirmation | scripts/main.js:234-306 | An empty cart is refused, leaving the modal and the cart unchanged; otherwise the modal opens with the grouped lines and the grand total, and these equal the cart panel's |
| ShopPage.Shop.CloseConfirmation | scripts/main.js:309-311 | The confirmation modal is hidden |
| ShopPage.Shop.ResetCart | scripts/main.js:314-322 | The cart is empty, the total text is kept, the set of cards is unchanged, and each card is its old self after the button rule for count 0: back in add mode with no stepper and no highlight, its stepper text left as it was |
| ShopPage.Shop.StartNewOrder | scripts/main.js:301-305 | "Start New Order" hides the modal and empties the cart; the total text is kept and each card is its old self after the button rule for count 0, so it returns to add mode with its stepper text left as it was |
| ShopExample.ExampleViews | scripts/main.js:186-200 | Two 500-cent units and one 350-cent unit group into lines of 2 and 1 with total 1350; removing the 350-cent product leaves one line of 2 with total 1000 |

## Left out

- Fetching the catalog (`fetchData`) and the start-up `then` handler are left out. They are network I/O and asynchronous. The catalog is instead a parameter of `Render`, which is required to run once, with an empty cart, as at page load.
- DOM construction and the HTML templates (image, category, name, the price text) are left out. Cards, the cart panel and the modal are modelled only through the state they show.
- The card lookup by the text of the product-name heading is modelled as a map from product name to card. If two catalog products shared a name, the page would have two cards and update only the first. The map holds one card per name.
- Prices are integer cents. Floating-point arithmetic and the `toFixed(2)` formatting are not modelled.
- The `alert` for an empty cart is left out. It is the `false` result of `ShowConfirmation`.
- Event-listener wiring is left out: the add, increment, decrement and remove controls, and the "Start New Order" button. So is the backdrop click handler, whose target check is not modelled; `CloseConfirmation` is the close itself.
- The reducer's accumulator is a plain JavaScript object, with two effects the model does not capture. `Object.values` lists integer-like keys first. A product name that is also an inherited property of plain objects, such as `constructor`, would be looked up wrongly. The model assumes ordinary names and keeps first-seen order.
- The page's initial markup is not part of this model. The constructor assumes that the page starts with the empty view, badge 0 and total 0.
