# Point-of-sale inventory and billing, modelled in Dafny

The system is a small point-of-sale application. A React billing screen
(`NewBill`) fetches a snapshot of the inventory, lets the cashier search
it, builds an ordered cart of lines `{pid, name, price, quantity,
subtotal}` checked against the snapshot's stock, shows the price
breakdown (subtotal, 18% GST, 2% additional tax, total) and posts the
cart to a Flask service. The service keeps three tables (inventory items,
the sold-products log and the billing history). It adds and updates
items, validates cart quantities and decrements stock. At checkout it
logs each line as sold, bills the cart and appends the bill to the
history. It also reports the ten best-selling products in a time window.

The project has six modules:

- `Records` (`records.dfy`) holds the entities both sides share: the
  inventory record, the cart line, the sold-log entry and the two tax
  rates. It also holds the one first-match search over a list of pids
  (`PidIndex`) and the list of pids of records or lines (`Pids`), from
  which the inventory lookup and the cart lookup are both derived, and the running sum of line subtotals. Money is exact
  `real`.
- `Text` (`text.dfy`) covers lower-casing and JavaScript `includes`.
- `NewBill` (`new_bill.dfy`) is the billing screen. Every cart handler is
  a pure function from the old cart (and snapshot) to a `Step`: the new
  cart and the status message it sets. Pricing, the search filter and the
  checkout guard with its commit or rollback are pure functions too. The
  class `Session` holds the component's state (`allItems`, `cart`,
  `paymentMethod`, `message`, `searchTerm`), and its methods assign those
  results. Every handler keeps the cart invariant (unique pids, quantity
  at least 1, subtotal equal to quantity times price). The cart handlers
  also keep the stock bound (every line within its snapshot stock) when
  the record added is an in-stock snapshot record. A snapshot refresh
  (`GetInventory`) can lower the stock below what the cart holds, so it
  does not keep the bound.
- `Sales` (`sales.dfy`) covers the sales analysis: the window filter,
  the per-product tally kept in insertion order, the stable sort by
  non-increasing total, and the top ten.
- `Backend` (`backend.dfy`) is the service. The class `Store` holds the
  three tables as sequences, and its methods change them in place with
  loops. Each method is proved against a specification function
  (`Decrease`, `DecreaseAll`, `SoldEntries`, `Bill`, `Sales.Analysis`).
- `Agreement` (`agreement.dfy`) relates the two sides. The service bills
  the posted cart at the totals the screen showed. A cart kept within
  the served stock is decremented in full by the checkout loop.

Identifiers (pids, invoice ids), clock readings and the invoice date are
parameters. A timestamp is either an instant (an `int`) or text that does
not parse. A checkout response is `Ok`, `NotOk` or `NetworkError(reason)`.
An inventory fetch either delivers items or fails.

## Model

| member | source | states |
|---|---|---|
| Records.PidIndex | backend/main.py:187 | the index found holds the pid and no earlier position does; no index exactly when the pid does not occur |
| Records.FindItem | backend/main.py:187 | the index found holds the pid and no earlier record does; no index exactly when no record has the pid |
| Records.SumSubtotalsAppend | backend/main.py:215 | the sum of subtotals distributes over concatenation |
| Records.SumSubtotalsUpdate | inventory-frontend/src/components/NewBill.jsx:125 | replacing one line changes the sum by exactly that line's change in subtotal |
| Records.SumSubtotals | inventory-frontend/src/components/NewBill.jsx:125 | with non-negative subtotals the sum is non-negative |
| Text.Lower | inventory-frontend/src/components/NewBill.jsx:32 | same length, each character folded on its own |
| Text.LowerIdempotent | inventory-frontend/src/components/NewBill.jsx:32 | lower-casing twice equals lower-casing once |
| Text.Includes | inventory-frontend/src/components/NewBill.jsx:32 | true exactly when the term occurs at some position of the text |
| Text.IncludesEmptyAndSelf | inventory-frontend/src/components/NewBill.jsx:32 | every text includes the empty term and itself |
| NewBill.FilterItems | inventory-frontend/src/components/NewBill.jsx:31-33 | an item is shown iff it is in the snapshot and its lower-cased name includes the lower-cased term; never more items than the snapshot; an empty term shows the whole snapshot in order |
| NewBill.FilterItemsAppend | inventory-frontend/src/components/NewBill.jsx:31-33 | filtering a concatenation is the concatenation of the filtered parts, so snapshot order and repeated records are kept |
| NewBill.FilterItemsSingle | inventory-frontend/src/components/NewBill.jsx:31-33 | a one-record snapshot shows that record exactly when it matches, else nothing |
| NewBill.FilterIgnoresCase | inventory-frontend/src/components/NewBill.jsx:31-33 | search terms equal up to case show the same items |
| NewBill.FindLine | inventory-frontend/src/components/NewBill.jsx:36 | the first cart line for the pid, or none exactly when no line has it |
| NewBill.Remove | inventory-frontend/src/components/NewBill.jsx:66 | never longer than the cart, and no kept line has the pid |
| NewBill.SetLines | inventory-frontend/src/components/NewBill.jsx:80-84 | same length, pids and prices; each line for the pid gets the new quantity and subtotal quantity·price and keeps every other field; other lines unchanged |
| NewBill.IncrementLines | inventory-frontend/src/components/NewBill.jsx:43-49 | same length, pids and prices; each line for the pid gains one unit with subtotal quantity·price and keeps every other field; other lines unchanged |
| NewBill.RemoveMembers | inventory-frontend/src/components/NewBill.jsx:66 | a line is kept iff it was in the cart and has another pid |
| NewBill.RemoveAbsent | inventory-frontend/src/components/NewBill.jsx:66 | filtering out a pid no line has returns the cart unchanged |
| NewBill.RemoveUnique | inventory-frontend/src/components/NewBill.jsx:66 | with unique pids, filtering deletes exactly the one line and keeps the others in order |
| NewBill.AddToCartStep | inventory-frontend/src/components/NewBill.jsx:35-63 | a new pid appends exactly one line (quantity 1, subtotal = price) at the end with earlier lines unchanged; an existing line at the stock limit leaves the cart unchanged and reports the stock; otherwise only that pid's line gains one unit and subtotal (q+1)·price, with length and order kept |
| NewBill.RemoveFromCartStep | inventory-frontend/src/components/NewBill.jsx:65-68 | no line with the pid remains, every other line remains; an absent pid changes nothing; with unique pids exactly the one line is deleted; the message becomes "removed" |
| NewBill.UpdateCartQuantityStep | inventory-frontend/src/components/NewBill.jsx:70-85 | above the snapshot stock: cart unchanged, stock reported; otherwise at most 0: same as removing the pid; otherwise only that pid's line gets the new quantity and subtotal, the message untouched |
| NewBill.AddToCartKeepsWellFormed | inventory-frontend/src/components/NewBill.jsx:35-63 | adding keeps pids unique and every line consistent (quantity ≥ 1, subtotal = quantity·price) |
| NewBill.AppendKeepsWellFormed | inventory-frontend/src/components/NewBill.jsx:51-60 | appending a consistent line for a new pid keeps the cart well formed |
| NewBill.IncrementKeepsWellFormed | inventory-frontend/src/components/NewBill.jsx:43-49 | incrementing a pid's lines keeps the cart well formed |
| NewBill.DeleteKeepsWellFormed | inventory-frontend/src/components/NewBill.jsx:66 | deleting one line keeps the cart well formed |
| NewBill.RemoveFromCartKeepsWellFormed | inventory-frontend/src/components/NewBill.jsx:65-68 | removing keeps the cart well formed |
| NewBill.UpdateCartQuantityKeepsWellFormed | inventory-frontend/src/components/NewBill.jsx:70-85 | setting a quantity keeps the cart well formed |
| NewBill.AddButtonEnabled | inventory-frontend/src/components/NewBill.jsx:217 | the button is enabled exactly for in-stock records and for records with negative stock |
| NewBill.InStock | inventory-frontend/src/components/NewBill.jsx:212-230 | available means stock at least 1; stock 0 or below is out of stock |
| NewBill.AddButtonAdmitsNegativeStock | inventory-frontend/src/components/NewBill.jsx:215-217 | as written, the Add button is enabled for a record with stock -1 and one click yields a line whose quantity exceeds that stock |
| NewBill.AddToCartKeepsStockBound | inventory-frontend/src/components/NewBill.jsx:35-63 | adding a snapshot record with stock above 0 keeps every line within its snapshot stock |
| NewBill.UpdateCartQuantityKeepsStockBound | inventory-frontend/src/components/NewBill.jsx:70-85 | setting a quantity keeps every line within its snapshot stock |
| NewBill.RemoveFromCartKeepsStockBound | inventory-frontend/src/components/NewBill.jsx:65-68 | removing keeps every line within its snapshot stock |
| NewBill.CalculateTotal | inventory-frontend/src/components/NewBill.jsx:124-130 | subtotal is the sum of the line subtotals, gst = 18% and additional tax = 2% of it, total = their sum = 1.2·subtotal; an empty cart gives all zeros |
| NewBill.TotalsNonNegative | inventory-frontend/src/components/NewBill.jsx:124-130 | a well-formed cart with non-negative prices has non-negative amounts and total ≥ subtotal |
| NewBill.IncrementIsUpdate | inventory-frontend/src/components/NewBill.jsx:43-49 | with unique pids, incrementing by pid updates exactly the one line |
| NewBill.IncrementRaisesSum | inventory-frontend/src/components/NewBill.jsx:43-49 | incrementing a consistent line raises the cart sum by its price |
| NewBill.BumpRaisesSum | inventory-frontend/src/components/NewBill.jsx:46 | one more unit on a consistent line raises the cart sum by that line's price |
| NewBill.AddToCartRaisesSubtotal | inventory-frontend/src/components/NewBill.jsx:35-63 | every successful add raises the displayed subtotal by exactly one unit price |
| NewBill.OneMoreUnit | inventory-frontend/src/components/NewBill.jsx:46 | one more unit on a consistent line costs exactly its price |
| NewBill.RiceExample | inventory-frontend/src/components/NewBill.jsx:124-130 | two units at 50 give subtotal 100, gst 18, additional tax 2, total 120 |
| NewBill.FourAddsWithStockThree | inventory-frontend/src/components/NewBill.jsx:38-49 | with stock 3, three adds give one line of 3 units and the fourth is refused with the stock reported |
| NewBill.PlusMatchesAdd | inventory-frontend/src/components/NewBill.jsx:295 | the + button changes the cart exactly as adding the snapshot record would |
| NewBill.MinusOnOneRemoves | inventory-frontend/src/components/NewBill.jsx:281 | the - button on one unit removes the line when the snapshot stock is not negative, and is refused otherwise |
| NewBill.CheckoutStep | inventory-frontend/src/components/NewBill.jsx:87-122 | an empty cart posts nothing and is kept; a non-empty cart is posted as it is; it is cleared (and a refresh requested) only on an ok response, and kept on any failure with the message "Checkout failed" for a refused response or the network error's reason |
| NewBill.Session.constructor | inventory-frontend/src/components/NewBill.jsx:4-9 | empty snapshot and cart, cash, no message, empty search term |
| NewBill.Session.FilteredItems | inventory-frontend/src/components/NewBill.jsx:31-33 | the filter of the current snapshot by the current term: matching records only, in snapshot order, repeats kept |
| NewBill.Session.CurrentTotals | inventory-frontend/src/components/NewBill.jsx:132 | the breakdown of the current cart: subtotal the sum of the line subtotals, gst 18% and additional tax 2% of it, total their sum = 1.2·subtotal |
| NewBill.Session.SetSearchTerm | inventory-frontend/src/components/NewBill.jsx:180 | the term is replaced, nothing else changes |
| NewBill.Session.SetPaymentMethod | inventory-frontend/src/components/NewBill.jsx:359 | the payment method is replaced, nothing else changes |
| NewBill.Session.GetInventory | inventory-frontend/src/components/NewBill.jsx:16-28 | a delivered snapshot replaces the old one with a success message; a failure keeps the old snapshot and reports the reason |
| NewBill.Session.AddToCart | inventory-frontend/src/components/NewBill.jsx:35-63 | the cart and message become the add step's; the cart stays well formed and, for an in-stock snapshot record, within stock |
| NewBill.Session.RemoveFromCart | inventory-frontend/src/components/NewBill.jsx:65-68 | the cart becomes the remove step's, the message "removed"; well formed and within stock are kept |
| NewBill.Session.UpdateCartQuantity | inventory-frontend/src/components/NewBill.jsx:70-85 | the cart becomes the update step's, the message changes only when the step sets one; well formed and within stock are kept |
| NewBill.Session.HandleCheckout | inventory-frontend/src/components/NewBill.jsx:87-122 | empty cart: nothing posted, cart kept; otherwise the cart is posted, cleared with a refresh only on ok, kept on failure with "Checkout failed" or the network error's reason as the message |
| Sales.InWindow | backend/main.py:279-285 | only a parseable timestamp counts; with no bounds every parseable one counts; a counted timestamp with both bounds means start ≤ end |
| Sales.WindowTotal | backend/main.py:278-289 | with non-negative sold quantities a product's window total is non-negative |
| Sales.Bump | backend/main.py:289 | the product's total rises by the quantity (starting from 0), a new name is keyed, other totals stay |
| Sales.TallyOf | backend/main.py:278-289 | the tally's names are distinct and are exactly its keys |
| Sales.TallyOfCorrect | backend/main.py:278-289 | the tally holds exactly the products with a counted sale, each with its window total |
| Sales.ZeroWithoutSales | backend/main.py:278-289 | a product without a counted sale totals 0 |
| Sales.Pairs | backend/main.py:292 | the (name, total) pairs in the tally's insertion order |
| Sales.Insert | backend/main.py:292 | inserting into a non-increasing list keeps it non-increasing and adds exactly that pair |
| Sales.SortDesc | backend/main.py:292 | the result is non-increasing by total and a permutation of the pairs |
| Sales.PermutationKeepsKeysDistinct | backend/main.py:292 | a reordering of pairs with distinct names has distinct names |
| Sales.PairOfTally | backend/main.py:292 | every pair listed from the tally is a key with its total |
| Sales.ChartOf | backend/main.py:292-295 | labels and data have length min(n, 10) and are index-aligned with the sorted pairs |
| Sales.Analysis | backend/main.py:260-296 | labels and data have equal length at most 10 and data is non-increasing |
| Sales.ChartEntriesCorrect | backend/main.py:278-295 | every listed product has a counted sale in the inclusive window and is shown with its window total |
| Sales.ChartLabelsDistinct | backend/main.py:289-295 | no product is listed twice |
| Sales.UnlistedBelowChart | backend/main.py:292 | a pair of a non-increasing list that is cut off the chart follows ten pairs of at least its total |
| Sales.ChartIsTop | backend/main.py:292 | a product sold in the window but not listed means ten are listed, each with at least its total |
| Sales.AnalysisCorrect | backend/main.py:260-296 | the three properties above together |
| Backend.NameTaken | backend/main.py:71-72 | an exact match of a stored name is taken; nothing is taken in an empty inventory |
| Backend.Patched | backend/main.py:90-95 | pid and name kept; each field given is written with its value; each field not given keeps its value; nothing given changes nothing |
| Backend.Decrease | backend/main.py:101-110 | unknown pid: 404, nothing changes; insufficient stock: 400, nothing changes; otherwise 200 and only the first match loses exactly qty, ending at ≥ 0 |
| Backend.SoldEntries | backend/main.py:208-213 | one entry per cart line, in cart order, with its pid, name, quantity and clock reading |
| Backend.Bill | backend/main.py:215-231 | the stored bill's subtotal is the sum of the posted subtotals, discount 0, gst 18% and additional tax 2% of it, total = subtotal + gst + additional tax − discount = 1.2·subtotal |
| Backend.NameTakenIgnoresCase | backend/main.py:71-72 | names equal up to case are taken together |
| Backend.TotalStockUpdate | backend/main.py:107 | changing one record's quantity changes the total stock by the difference |
| Backend.DecreaseTotalStock | backend/main.py:101-110 | a successful decrement removes exactly qty units from the stock, a refused one none |
| Backend.DecreaseAllKeepsStockNonNegative | backend/main.py:208-213 | whatever the decrements of a checkout do, no stock goes below zero |
| Backend.DecreaseAll | backend/main.py:208-213 | the checkout loop keeps the number of records and changes quantities only, never pids, names, descriptions or prices |
| Backend.SameNamesKeepDistinct | backend/main.py:92-96 | rewriting records without touching names keeps names distinct |
| Backend.Store.constructor | backend/main.py:20-24 | empty inventory, sold log and history |
| Backend.Store.Locate | backend/main.py:88-89 | the loop finds the first record with the pid, or none |
| Backend.Store.AddNewItem | backend/main.py:69-83 | 400 iff a stored name equals the new one ignoring case, inventory unchanged; otherwise 201 and exactly one record with the given fields appended, quantity 0 when none is given; names stay distinct ignoring case |
| Backend.Store.UpdateItem | backend/main.py:86-98 | unknown pid: 404, inventory unchanged; otherwise 200 and only the first match takes the given fields |
| Backend.Store.DecreaseCount | backend/main.py:101-110 | status and inventory are those of the decrement specification |
| Backend.Store.LogSoldProduct | backend/main.py:113-121 | exactly one entry appended, stamped with the clock reading |
| Backend.Store.AddToCart | backend/main.py:180-195 | unknown pid: 404; requested quantity (1 when absent) above stock: 400; otherwise 200 with the pid, name, quantity and subtotal price·quantity; the inventory is only read |
| Backend.Store.SellLines | backend/main.py:208-213 | the loop leaves the inventory as every line's decrement applied in cart order (refusals ignored) and appends one sold entry per line, in order |
| Backend.Store.Checkout | backend/main.py:198-240 | empty cart: 400 and no table changes; otherwise every line decremented in cart order with refusals ignored, one sold entry per line in order, and exactly one bill appended |
| Backend.Store.SalesAnalysis | backend/main.py:260-296 | the loop computes the tally, and the chart is the analysis: at most 10 distinct products, non-increasing, each with its window total, none left off that sold more |
| Agreement.BillMatchesRegister | backend/main.py:215-219 | the stored bill's subtotal, gst, additional tax and total equal what the screen showed for the same cart |
| Agreement.FindItemSamePids | backend/main.py:102-103 | lists with the same pid at every position find the same index |
| Agreement.DecreaseAllUntouched | backend/main.py:208-213 | decrements for other products leave a record unchanged |
| Agreement.CheckoutTakesCartUnits | backend/main.py:208-213 | a cart with unique, stocked pids within stock has every decrement applied: total stock falls by exactly the cart's units |

## Left out

- The JSON files behind the three tables (loading, saving and creating them) are not modelled. Each table is a sequence held by `Store`.
- Invoice image rendering and the file download (`generate_invoice_image`, `send_file`) are left out. So are the routes that only re-read the history or regenerate an image, because they are foreign library calls and I/O. `Store.Checkout` returns the bill instead of an image.
- HTTP routing, JSON request parsing and CORS are left out. Each route is a method taking already-parsed arguments.
- The `int(...)` and `float(...)` conversions of request fields are not modelled. Arguments arrive as `int` and `real`, so a field that fails to convert is not modelled.
- `uuid` pids and invoice ids, `datetime.now()`, the invoice date text and `fromisoformat` are not modelled. They become parameters (`pid`, `invoiceId`, `date`, `now`, `clock`). A stored timestamp is an instant or unparseable text. A window bound that fails to parse, which raises in the service, is not modelled.
- `Sales.WindowTotal`: a sold entry missing its `product` or `quantity` key, where the service falls back to `'Unknown'` and 0, is not modelled. Sold entries always carry both.
- `Text.Lower` folds only the ASCII letters A–Z. The Unicode case mapping of `toLowerCase` and `lower` is not modelled.
- Floating-point arithmetic and the two-decimal display are not modelled. Money is exact `real`, so the tax identities hold exactly.
- The network side of `getInventory` and `handleCheckout` is not modelled. Both are given their outcome as an argument (`Fetch`, `CheckoutResponse`). `HandleCheckout` returns whether an inventory refresh is due; the refresh itself is `GetInventory`. The `loading` flag, the blob and object-URL download and the rendering are not modelled.
- `Session.HandleCheckout` is one atomic step. While the request is pending the screen disables only Refresh and Checkout (NewBill.jsx:160, :374); Add, Remove, - and + stay live. Cart edits made during a pending checkout are not modelled. On success such lines would be cleared by `setCart([])` (:115) without having been posted (:101).
- `Session.HandleCheckout`: the message that the follow-up `getInventory` sets after a successful checkout is not part of its contract. That call is a separate `GetInventory` step.
- `NewBill.UpdateCartQuantityStep` requires the pid to be in the snapshot. The handler reads `item.quantity` of the lookup result, which throws when the pid is missing.
- `NewBill.UpdateCartQuantityStep` follows the code's order: the stock check comes first, and only a quantity within stock and at most 0 removes the line. A removal-first order differs only when the snapshot stock is negative, as `NewBill.MinusOnOneRemoves` states.
- `Sales.SortDesc` is a stable insertion sort, as Python's `sorted` is, but its contract states only order and permutation. How ties keep their tally order is not stated as a lemma.
- `Backend.Bill` sums the subtotals the client posts without re-pricing them against the inventory, as the service does. `Agreement.BillMatchesRegister` shows these are the subtotals the screen showed.

## Findings

| source | as written | input that shows it | evidently intended | confidence | as-written member | corrected member |
|---|---|---|---|---|---|---|
| inventory-frontend/src/components/NewBill.jsx:217 | the Add button is disabled only when `item.quantity === 0`, while the card's label, colour and cursor (:212, :222, :226, :230) treat only stock above 0 as available, and `addToCart` checks the stock only for a product already in the cart | a record with stock -1 (reachable through `update_item`, which stores any integer quantity): one click adds a line of quantity 1, above the stock | the button is enabled only for stock above 0 (`InStock`), so every line stays within its snapshot stock | not executed | NewBill.AddButtonAdmitsNegativeStock | NewBill.AddToCartKeepsStockBound |
