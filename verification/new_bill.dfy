/** The billing screen's cart engine: an ordered cart of lines checked against
    the last inventory snapshot, the price breakdown, the search filter and the
    checkout guard with its commit/rollback of the cart.

    Each handler is a pure function from the old cart (and snapshot) to a
    `Step`: the new cart and the status message it sets, if it sets one. The
    class `Session` holds the component's state and assigns those results. */
module NewBill {
  import opened Records
  import opened Text

  datatype PaymentMethod = Cash | Card | Upi

  /** The status line shown above the screen. */
  datatype Message =
    | NoMessage
    | InventoryLoaded
    | InventoryError(reason: string)
    | CannotAddMore(available: int)
    | Added(name: string)
    | ItemRemoved
    | OnlyAvailable(available: int)
    | CartIsEmpty
    | CheckoutSucceeded
    | CheckoutError(reason: string)

  /** What one cart handler produces: the new cart and the message it sets (None: message untouched). */
  datatype Step = Step(cart: seq<LineItem>, note: Option<Message>)

  datatype Totals = Totals(subtotal: real, gst: real, additionalTax: real, total: real)

  /** How the POST /checkout attempt ended: an ok response carrying the
      invoice, a non-2xx response, or an error thrown by the transport. */
  datatype CheckoutResponse = Ok | NotOk | NetworkError(reason: string)

  /** The body posted to /checkout. */
  datatype CheckoutRequest = CheckoutRequest(paymentMethod: PaymentMethod, cartItems: seq<LineItem>)

  /** How a GET /inventory attempt ended. */
  datatype Fetch = Loaded(items: seq<Item>) | FetchFailed(reason: string)

  // ---------------------------------------------------------------------------
  // Search filter

  /** Case-insensitive substring match of the search term in the item's name. */
  predicate MatchesSearch(item: Item, searchTerm: string)
  {
    Includes(Lower(item.name), Lower(searchTerm))
  }

  /** The items shown for a search term, in snapshot order. */
  function FilterItems(items: seq<Item>, searchTerm: string): (r: seq<Item>)
    ensures |r| <= |items|
    ensures forall x :: x in r <==> x in items && MatchesSearch(x, searchTerm)
    ensures searchTerm == [] ==> r == items
  {
    if items == [] then []
    else
      IncludesEmptyAndSelf(Lower(items[0].name));
      (if MatchesSearch(items[0], searchTerm) then [items[0]] else []) + FilterItems(items[1..], searchTerm)
  }

  /** The filter keeps the snapshot's order and repeats: filtering a
      concatenation concatenates the filtered parts. */
  lemma {:induction false} FilterItemsAppend(a: seq<Item>, b: seq<Item>, searchTerm: string)
    ensures FilterItems(a + b, searchTerm) == FilterItems(a, searchTerm) + FilterItems(b, searchTerm)
    decreases |a|
  {
    if a == [] {
      assert a + b == b;
    } else {
      assert (a + b)[0] == a[0];
      assert (a + b)[1..] == a[1..] + b;
      FilterItemsAppend(a[1..], b, searchTerm);
    }
  }

  /** A single item is shown exactly when it matches. */
  lemma FilterItemsSingle(x: Item, searchTerm: string)
    ensures FilterItems([x], searchTerm) == if MatchesSearch(x, searchTerm) then [x] else []
  {
    assert [x][1..] == [];
  }

  /** The filter does not care about the case of the search term. */
  lemma FilterIgnoresCase(items: seq<Item>, s: string, t: string)
    requires Lower(s) == Lower(t)
    ensures FilterItems(items, s) == FilterItems(items, t)
  {
  }

  // ---------------------------------------------------------------------------
  // Cart invariants

  /** Index of the first cart line for `pid` (`cart.find`). */
  function FindLine(cart: seq<LineItem>, pid: string): (r: Option<nat>)
    ensures r.Some? ==> r.value < |cart| && cart[r.value].pid == pid
    ensures r.Some? ==> forall j :: 0 <= j < r.value ==> cart[j].pid != pid
    ensures r.None? <==> forall j :: 0 <= j < |cart| ==> cart[j].pid != pid
  {
    PidIndex(Pids(cart, (l: LineItem) => l.pid), pid)
  }

  predicate InCart(cart: seq<LineItem>, pid: string)
  {
    FindLine(cart, pid).Some?
  }

  predicate UniquePids(cart: seq<LineItem>)
  {
    forall i, j :: 0 <= i < j < |cart| ==> cart[i].pid != cart[j].pid
  }

  /** A stored line has a positive quantity and its subtotal is quantity times price. */
  predicate LineConsistent(l: LineItem)
  {
    l.quantity >= 1 && l.subtotal == l.quantity as real * l.price
  }

  /** The invariant every cart handler keeps. */
  ghost predicate WellFormed(cart: seq<LineItem>)
  {
    UniquePids(cart) && forall i :: 0 <= i < |cart| ==> LineConsistent(cart[i])
  }

  /** Every line whose product is in the snapshot stays within that product's stock. */
  ghost predicate StockBounded(cart: seq<LineItem>, allItems: seq<Item>)
  {
    forall i :: 0 <= i < |cart| ==>
      match FindItem(allItems, cart[i].pid)
      case None => true
      case Some(k) => cart[i].quantity <= allItems[k].quantity
  }

  /** `item` is the record the snapshot holds for its pid. */
  ghost predicate FromSnapshot(item: Item, allItems: seq<Item>)
  {
    FindItem(allItems, item.pid).Some? && allItems[FindItem(allItems, item.pid).value] == item
  }

  // ---------------------------------------------------------------------------
  // Cart handlers

  /** `{ ...c, quantity: q, subtotal: q * c.price }` */
  function WithQuantity(l: LineItem, q: int): LineItem
  {
    l.(quantity := q, subtotal := q as real * l.price)
  }

  /** Every line for `pid` gets quantity `q`; the other lines are kept. */
  function SetLines(cart: seq<LineItem>, pid: string, q: int): (r: seq<LineItem>)
    ensures |r| == |cart|
    ensures forall i :: 0 <= i < |cart| ==> r[i].pid == cart[i].pid && r[i].price == cart[i].price
    ensures forall i :: 0 <= i < |cart| && cart[i].pid == pid ==>
      r[i].quantity == q && r[i].subtotal == r[i].quantity as real * r[i].price
      && r[i].(quantity := cart[i].quantity, subtotal := cart[i].subtotal) == cart[i]
    ensures forall i :: 0 <= i < |cart| && cart[i].pid != pid ==> r[i] == cart[i]
  {
    seq(|cart|, i requires 0 <= i < |cart| => if cart[i].pid == pid then WithQuantity(cart[i], q) else cart[i])
  }

  /** Every line for `pid` gets one more unit; the other lines are kept. */
  function IncrementLines(cart: seq<LineItem>, pid: string): (r: seq<LineItem>)
    ensures |r| == |cart|
    ensures forall i :: 0 <= i < |cart| ==> r[i].pid == cart[i].pid && r[i].price == cart[i].price
    ensures forall i :: 0 <= i < |cart| && cart[i].pid == pid ==>
      r[i].quantity == cart[i].quantity + 1 && r[i].subtotal == r[i].quantity as real * r[i].price
      && r[i].(quantity := cart[i].quantity, subtotal := cart[i].subtotal) == cart[i]
    ensures forall i :: 0 <= i < |cart| && cart[i].pid != pid ==> r[i] == cart[i]
  {
    seq(|cart|, i requires 0 <= i < |cart| =>
      if cart[i].pid == pid then WithQuantity(cart[i], cart[i].quantity + 1) else cart[i])
  }

  /** The lines whose pid differs from `pid`, in their order (`cart.filter`). */
  function Remove(cart: seq<LineItem>, pid: string): (r: seq<LineItem>)
    ensures |r| <= |cart|
    ensures forall i :: 0 <= i < |r| ==> r[i].pid != pid
  {
    if cart == [] then []
    else (if cart[0].pid == pid then [] else [cart[0]]) + Remove(cart[1..], pid)
  }

  /** The filter keeps exactly the lines with another pid. */
  lemma {:induction false} RemoveMembers(cart: seq<LineItem>, pid: string)
    ensures forall l :: l in Remove(cart, pid) <==> l in cart && l.pid != pid
    decreases |cart|
  {
    if cart != [] {
      RemoveMembers(cart[1..], pid);
      assert cart == [cart[0]] + cart[1..];
    }
  }

  /** Removing a pid that no line has changes nothing. */
  lemma {:induction false} RemoveAbsent(cart: seq<LineItem>, pid: string)
    requires forall j :: 0 <= j < |cart| ==> cart[j].pid != pid
    ensures Remove(cart, pid) == cart
    decreases |cart|
  {
    if cart != [] {
      var tail := cart[1..];
      assert forall j :: 0 <= j < |tail| ==> tail[j] == cart[j + 1];
      RemoveAbsent(tail, pid);
      assert cart == [cart[0]] + tail;
    }
  }

  /** In a cart with unique pids, removing a pid deletes exactly its line and keeps the rest in order. */
  lemma {:induction false} RemoveUnique(cart: seq<LineItem>, pid: string, k: nat)
    requires UniquePids(cart)
    requires k < |cart| && cart[k].pid == pid
    ensures Remove(cart, pid) == cart[..k] + cart[k + 1..]
    decreases |cart|
  {
    var tail := cart[1..];
    assert Remove(cart, pid) == (if cart[0].pid == pid then [] else [cart[0]]) + Remove(tail, pid);
    if k == 0 {
      forall j | 0 <= j < |tail| ensures tail[j].pid != pid {
        assert tail[j] == cart[j + 1];
      }
      RemoveAbsent(tail, pid);
      assert cart[..0] + cart[1..] == tail;
    } else {
      assert cart[0].pid != pid;
      UniqueTail(cart);
      RemoveUnique(tail, pid, k - 1);
      assert cart[..k] == [cart[0]] + tail[..k - 1];
      assert cart[k + 1..] == tail[k..];
    }
  }

  lemma UniqueTail(cart: seq<LineItem>)
    requires UniquePids(cart) && cart != []
    ensures UniquePids(cart[1..])
  {
    var tail := cart[1..];
    forall i, j | 0 <= i < j < |tail| ensures tail[i].pid != tail[j].pid {
      assert tail[i] == cart[i + 1] && tail[j] == cart[j + 1];
    }
  }

  /** `addToCart(item)`: a new product enters at the end with quantity 1; an
      existing line gains one unit unless that would exceed the snapshot stock. */
  function AddToCartStep(cart: seq<LineItem>, item: Item): (r: Step)
    // a new product: exactly one line appended at the end, earlier lines untouched
    ensures !InCart(cart, item.pid) ==>
      && |r.cart| == |cart| + 1
      && r.cart[..|cart|] == cart
      && r.cart[|cart|] == LineItem(item.pid, item.name, item.price, 1, item.price)
      && r.note == Some(Added(item.name))
    // an existing line at the stock limit: cart unchanged, the limit reported
    ensures InCart(cart, item.pid) && cart[FindLine(cart, item.pid).value].quantity + 1 > item.quantity ==>
      r == Step(cart, Some(CannotAddMore(item.quantity)))
    // otherwise only the lines for that pid change, by exactly one unit; length and order kept
    ensures InCart(cart, item.pid) && cart[FindLine(cart, item.pid).value].quantity + 1 <= item.quantity ==>
      && |r.cart| == |cart|
      && r.note == Some(Added(item.name))
      && forall i :: 0 <= i < |cart| ==>
           if cart[i].pid == item.pid
           then r.cart[i].quantity == cart[i].quantity + 1
                && r.cart[i].subtotal == (cart[i].quantity + 1) as real * cart[i].price
                && r.cart[i].(quantity := cart[i].quantity, subtotal := cart[i].subtotal) == cart[i]
           else r.cart[i] == cart[i]
  {
    match FindLine(cart, item.pid)
    case Some(k) =>
      if cart[k].quantity + 1 > item.quantity then Step(cart, Some(CannotAddMore(item.quantity)))
      else Step(IncrementLines(cart, item.pid), Some(Added(item.name)))
    case None =>
      Step(cart + [LineItem(item.pid, item.name, item.price, 1, item.price)], Some(Added(item.name)))
  }

  /** `removeFromCart(pid)`: every line for `pid` goes; absent pids change nothing. */
  function RemoveFromCartStep(cart: seq<LineItem>, pid: string): (r: Step)
    ensures r.note == Some(ItemRemoved)
    ensures !InCart(r.cart, pid)
    ensures forall l :: l in r.cart <==> l in cart && l.pid != pid
    ensures !InCart(cart, pid) ==> r.cart == cart
    ensures UniquePids(cart) && InCart(cart, pid) ==>
      var k := FindLine(cart, pid).value; r.cart == cart[..k] + cart[k + 1..]
  {
    var r := Remove(cart, pid);
    RemoveMembers(cart, pid);
    assert forall j :: 0 <= j < |r| ==> r[j] in r;
    if !InCart(cart, pid) then
      RemoveAbsent(cart, pid);
      Step(r, Some(ItemRemoved))
    else if UniquePids(cart) then
      RemoveUnique(cart, pid, FindLine(cart, pid).value);
      Step(r, Some(ItemRemoved))
    else
      Step(r, Some(ItemRemoved))
  }

  /** `updateCartQuantity(pid, newQuantity)`. The product is looked up in the
      snapshot (a pid missing there makes the handler throw). The stock check
      comes first; only a quantity within stock and at most 0 removes the line. */
  function UpdateCartQuantityStep(allItems: seq<Item>, cart: seq<LineItem>, pid: string, newQuantity: int): (r: Step)
    requires FindItem(allItems, pid).Some?
    ensures var stock := allItems[FindItem(allItems, pid).value].quantity;
      && (newQuantity > stock ==> r == Step(cart, Some(OnlyAvailable(stock))))
      && (newQuantity <= stock && newQuantity <= 0 ==> r == RemoveFromCartStep(cart, pid))
      && (0 < newQuantity <= stock ==>
            && r.note == None
            && |r.cart| == |cart|
            && forall i :: 0 <= i < |cart| ==>
                 if cart[i].pid == pid
                 then r.cart[i].quantity == newQuantity
                      && r.cart[i].subtotal == newQuantity as real * cart[i].price
                      && r.cart[i].(quantity := cart[i].quantity, subtotal := cart[i].subtotal) == cart[i]
                 else r.cart[i] == cart[i])
  {
    var item := allItems[FindItem(allItems, pid).value];
    if newQuantity > item.quantity then Step(cart, Some(OnlyAvailable(item.quantity)))
    else if newQuantity <= 0 then RemoveFromCartStep(cart, pid)
    else Step(SetLines(cart, pid, newQuantity), None)
  }

  // ---------------------------------------------------------------------------
  // The cart invariant is kept by every handler

  lemma AddToCartKeepsWellFormed(cart: seq<LineItem>, item: Item)
    requires WellFormed(cart)
    ensures WellFormed(AddToCartStep(cart, item).cart)
  {
    match FindLine(cart, item.pid)
    case None =>
      AppendKeepsWellFormed(cart, LineItem(item.pid, item.name, item.price, 1, item.price));
    case Some(k) =>
      IncrementKeepsWellFormed(cart, item.pid);
  }

  /** Appending a consistent line for a new pid keeps the cart well formed. */
  lemma AppendKeepsWellFormed(cart: seq<LineItem>, line: LineItem)
    requires WellFormed(cart) && LineConsistent(line)
    requires forall j :: 0 <= j < |cart| ==> cart[j].pid != line.pid
    ensures WellFormed(cart + [line])
  {
    var r := cart + [line];
    forall i, j | 0 <= i < j < |r| ensures r[i].pid != r[j].pid {
      assert r[i] == cart[i];
    }
  }

  /** Incrementing the lines of a pid keeps the cart well formed. */
  lemma IncrementKeepsWellFormed(cart: seq<LineItem>, pid: string)
    requires WellFormed(cart)
    ensures WellFormed(IncrementLines(cart, pid))
  {
    var r := IncrementLines(cart, pid);
    assert forall i :: 0 <= i < |r| ==> r[i].pid == cart[i].pid;
    forall i | 0 <= i < |r| ensures LineConsistent(r[i]) {
      assert LineConsistent(cart[i]);
    }
  }

  /** Position in the original cart of position `i` once line `k` is gone. */
  function Skip(i: nat, k: nat): nat
  {
    if i < k then i else i + 1
  }

  /** Deleting one line keeps the cart well formed. */
  lemma DeleteKeepsWellFormed(cart: seq<LineItem>, k: nat)
    requires WellFormed(cart) && k < |cart|
    ensures WellFormed(cart[..k] + cart[k + 1..])
  {
    var before, after := cart[..k], cart[k + 1..];
    var r := before + after;
    assert forall i :: 0 <= i < |r| ==> r[i] == cart[Skip(i, k)] by {
      forall i | 0 <= i < |r| ensures r[i] == cart[Skip(i, k)] {
        if i < k { assert r[i] == before[i]; } else { assert r[i] == after[i - k]; }
      }
    }
    forall i, j | 0 <= i < j < |r| ensures r[i].pid != r[j].pid {
      assert Skip(i, k) < Skip(j, k);
    }
    forall i | 0 <= i < |r| ensures LineConsistent(r[i]) {
      assert LineConsistent(cart[Skip(i, k)]);
    }
  }

  lemma RemoveFromCartKeepsWellFormed(cart: seq<LineItem>, pid: string)
    requires WellFormed(cart)
    ensures WellFormed(RemoveFromCartStep(cart, pid).cart)
  {
    match FindLine(cart, pid)
    case None =>
    case Some(k) =>
      DeleteKeepsWellFormed(cart, k);
  }

  lemma UpdateCartQuantityKeepsWellFormed(allItems: seq<Item>, cart: seq<LineItem>, pid: string, newQuantity: int)
    requires FindItem(allItems, pid).Some?
    requires WellFormed(cart)
    ensures WellFormed(UpdateCartQuantityStep(allItems, cart, pid, newQuantity).cart)
  {
    var stock := allItems[FindItem(allItems, pid).value].quantity;
    if newQuantity <= stock && newQuantity <= 0 {
      RemoveFromCartKeepsWellFormed(cart, pid);
    }
  }

  // ---------------------------------------------------------------------------
  // The stock bound

  /** As written, the Add button is disabled only when the stock is exactly 0:
      it is enabled for every in-stock record and for every record with negative stock. */
  predicate AddButtonEnabled(item: Item): (r: bool)
    ensures r <==> InStock(item) || item.quantity < 0
  {
    item.quantity != 0
  }

  /** What the card's label, colour and cursor treat as available: stock
      above 0, so a record with no stock or negative stock is out of stock. */
  predicate InStock(item: Item): (r: bool)
    ensures r ==> item.quantity >= 1
    ensures item.quantity <= 0 ==> !r
  {
    item.quantity > 0
  }

  /** With the guard as written, a snapshot record with stock -1 can be added
      and yields a line whose quantity exceeds the stock. */
  lemma AddButtonAdmitsNegativeStock()
    ensures var item := Item("p1", "Rice", "", 50.0, -1);
      && AddButtonEnabled(item)
      && !InStock(item)
      && StockBounded([], [item])
      && !StockBounded(AddToCartStep([], item).cart, [item])
  {
    var item := Item("p1", "Rice", "", 50.0, -1);
    var r := AddToCartStep([], item).cart;
    assert FindItem([item], item.pid) == Some(0);
    assert r[0].quantity == 1;
  }

  /** Adding an in-stock product taken from the snapshot keeps every line within its stock. */
  lemma AddToCartKeepsStockBound(allItems: seq<Item>, cart: seq<LineItem>, item: Item)
    requires FromSnapshot(item, allItems) && InStock(item)
    requires UniquePids(cart)
    requires StockBounded(cart, allItems)
    ensures StockBounded(AddToCartStep(cart, item).cart, allItems)
  {
    var r := AddToCartStep(cart, item).cart;
    if !InCart(cart, item.pid) {
      assert forall i :: 0 <= i < |cart| ==> r[i] == cart[i];
    }
  }

  /** Setting a quantity keeps every line within its stock. */
  lemma UpdateCartQuantityKeepsStockBound(allItems: seq<Item>, cart: seq<LineItem>, pid: string, newQuantity: int)
    requires FindItem(allItems, pid).Some?
    requires StockBounded(cart, allItems)
    ensures StockBounded(UpdateCartQuantityStep(allItems, cart, pid, newQuantity).cart, allItems)
  {
    var stock := allItems[FindItem(allItems, pid).value].quantity;
    var r := UpdateCartQuantityStep(allItems, cart, pid, newQuantity).cart;
    if newQuantity <= stock && newQuantity <= 0 {
      forall i | 0 <= i < |r|
        ensures match FindItem(allItems, r[i].pid)
                case None => true
                case Some(k) => r[i].quantity <= allItems[k].quantity
      {
        assert r[i] in r;
        var j :| 0 <= j < |cart| && cart[j] == r[i];
      }
    }
  }

  /** Removing lines keeps every remaining line within its stock. */
  lemma RemoveFromCartKeepsStockBound(allItems: seq<Item>, cart: seq<LineItem>, pid: string)
    requires StockBounded(cart, allItems)
    ensures StockBounded(RemoveFromCartStep(cart, pid).cart, allItems)
  {
    var r := RemoveFromCartStep(cart, pid).cart;
    forall i | 0 <= i < |r|
      ensures match FindItem(allItems, r[i].pid)
              case None => true
              case Some(k) => r[i].quantity <= allItems[k].quantity
    {
      assert r[i] in r;
      var j :| 0 <= j < |cart| && cart[j] == r[i];
    }
  }

  // ---------------------------------------------------------------------------
  // Pricing

  /** `calculateTotal()`: subtotal of the lines, 18% GST, 2% additional tax, and their sum. */
  function CalculateTotal(cart: seq<LineItem>): (t: Totals)
    ensures t.subtotal == SumSubtotals(cart)
    ensures t.gst == GstRate * t.subtotal
    ensures t.additionalTax == AdditionalTaxRate * t.subtotal
    ensures t.total == t.subtotal + t.gst + t.additionalTax
    ensures t.total == 1.2 * t.subtotal
    ensures cart == [] ==> t == Totals(0.0, 0.0, 0.0, 0.0)
  {
    var subtotal := SumSubtotals(cart);
    var gst := subtotal * 0.18;
    var additionalTax := subtotal * 0.02;
    Totals(subtotal, gst, additionalTax, subtotal + gst + additionalTax)
  }

  /** On a well-formed cart with non-negative prices every amount is non-negative. */
  lemma TotalsNonNegative(cart: seq<LineItem>)
    requires WellFormed(cart)
    requires forall i :: 0 <= i < |cart| ==> cart[i].price >= 0.0
    ensures var t := CalculateTotal(cart);
      t.subtotal >= 0.0 && t.gst >= 0.0 && t.additionalTax >= 0.0 && t.total >= t.subtotal
  {
    forall i | 0 <= i < |cart| ensures cart[i].subtotal >= 0.0 {
      assert LineConsistent(cart[i]);
    }
  }

  /** With unique pids, incrementing by pid touches the one line at `k`. */
  lemma IncrementIsUpdate(cart: seq<LineItem>, k: nat)
    requires UniquePids(cart) && k < |cart|
    ensures IncrementLines(cart, cart[k].pid) == cart[k := WithQuantity(cart[k], cart[k].quantity + 1)]
  {
    forall i | 0 <= i < |cart| && i != k ensures cart[i].pid != cart[k].pid {
      if i < k { assert cart[i].pid != cart[k].pid; } else { assert cart[k].pid != cart[i].pid; }
    }
  }

  /** Incrementing the line at `k` in a well-formed cart raises the sum by that line's price. */
  lemma IncrementRaisesSum(cart: seq<LineItem>, k: nat)
    requires WellFormed(cart) && k < |cart|
    ensures SumSubtotals(IncrementLines(cart, cart[k].pid)) == SumSubtotals(cart) + cart[k].price
  {
    IncrementIsUpdate(cart, k);
    BumpRaisesSum(cart, k);
  }

  /** One more unit on a consistent line raises the sum by that line's price. */
  lemma BumpRaisesSum(cart: seq<LineItem>, k: nat)
    requires k < |cart| && LineConsistent(cart[k])
    ensures SumSubtotals(cart[k := WithQuantity(cart[k], cart[k].quantity + 1)]) == SumSubtotals(cart) + cart[k].price
  {
    var bumped := WithQuantity(cart[k], cart[k].quantity + 1);
    SumSubtotalsUpdate(cart, k, bumped);
    OneMoreUnit(cart[k]);
  }

  /** A successful add raises the subtotal by exactly one unit price. */
  lemma AddToCartRaisesSubtotal(cart: seq<LineItem>, item: Item)
    requires WellFormed(cart)
    requires AddToCartStep(cart, item).cart != cart
    ensures !InCart(cart, item.pid) ==>
      CalculateTotal(AddToCartStep(cart, item).cart).subtotal == CalculateTotal(cart).subtotal + item.price
    ensures InCart(cart, item.pid) ==>
      CalculateTotal(AddToCartStep(cart, item).cart).subtotal
        == CalculateTotal(cart).subtotal + cart[FindLine(cart, item.pid).value].price
  {
    var line := LineItem(item.pid, item.name, item.price, 1, item.price);
    match FindLine(cart, item.pid)
    case None =>
      SumSubtotalsAppend(cart, [line]);
      assert SumSubtotals([line]) == item.price by { assert [line][..0] == []; }
    case Some(k) =>
      IncrementRaisesSum(cart, k);
  }

  /** One more unit costs one more unit price. */
  lemma OneMoreUnit(l: LineItem)
    requires LineConsistent(l)
    ensures WithQuantity(l, l.quantity + 1).subtotal == l.subtotal + l.price
  {
    var q := l.quantity as real;
    assert (q + 1.0) * l.price == q * l.price + l.price;
  }

  /** The example of one line of 2 units at 50. */
  lemma RiceExample()
    ensures CalculateTotal([LineItem("1", "Rice", 50.0, 2, 100.0)]) == Totals(100.0, 18.0, 2.0, 120.0)
  {
    var cart := [LineItem("1", "Rice", 50.0, 2, 100.0)];
    assert cart[..0] == [];
  }

  /** Adding a product with stock 3 four times: three units, then the limit is reported. */
  lemma FourAddsWithStockThree(item: Item)
    requires item.quantity == 3
    ensures var c1 := AddToCartStep([], item).cart;
      var c2 := AddToCartStep(c1, item).cart;
      var c3 := AddToCartStep(c2, item).cart;
      && c3 == [LineItem(item.pid, item.name, item.price, 3, 3.0 * item.price)]
      && AddToCartStep(c3, item) == Step(c3, Some(CannotAddMore(3)))
  {
    var c1 := AddToCartStep([], item).cart;
    assert c1 == [LineItem(item.pid, item.name, item.price, 1, item.price)];
    var c2 := AddToCartStep(c1, item).cart;
    assert FindLine(c1, item.pid) == Some(0);
    assert c2 == [LineItem(item.pid, item.name, item.price, 2, 2.0 * item.price)];
    var c3 := AddToCartStep(c2, item).cart;
    assert FindLine(c2, item.pid) == Some(0);
    assert c3 == [LineItem(item.pid, item.name, item.price, 3, 3.0 * item.price)];
    assert FindLine(c3, item.pid) == Some(0);
  }

  // ---------------------------------------------------------------------------
  // The cart row's + and - buttons

  /** The + button (`updateCartQuantity(pid, quantity + 1)`) changes the cart
      exactly as adding the snapshot's record for that product would. */
  lemma PlusMatchesAdd(allItems: seq<Item>, cart: seq<LineItem>, k: nat)
    requires WellFormed(cart) && k < |cart|
    requires FindItem(allItems, cart[k].pid).Some?
    ensures var item := allItems[FindItem(allItems, cart[k].pid).value];
      UpdateCartQuantityStep(allItems, cart, cart[k].pid, cart[k].quantity + 1).cart
        == AddToCartStep(cart, item).cart
  {
    var pid := cart[k].pid;
    var item := allItems[FindItem(allItems, pid).value];
    assert FindLine(cart, pid) == Some(k) by {
      forall j | 0 <= j < k ensures cart[j].pid != pid {
        assert UniquePids(cart);
      }
    }
    assert LineConsistent(cart[k]);
    if cart[k].quantity + 1 <= item.quantity {
      var updated, inc := SetLines(cart, pid, cart[k].quantity + 1), IncrementLines(cart, pid);
      assert forall i :: 0 <= i < |cart| ==> updated[i] == inc[i];
    }
  }

  /** The - button on a single unit removes the line, provided the snapshot
      stock is not negative (otherwise quantity 0 already fails the stock check). */
  lemma MinusOnOneRemoves(allItems: seq<Item>, cart: seq<LineItem>, k: nat)
    requires k < |cart| && cart[k].quantity == 1
    requires FindItem(allItems, cart[k].pid).Some?
    ensures var stock := allItems[FindItem(allItems, cart[k].pid).value].quantity;
      && (stock >= 0 ==> UpdateCartQuantityStep(allItems, cart, cart[k].pid, 0) == RemoveFromCartStep(cart, cart[k].pid))
      && (stock < 0 ==> UpdateCartQuantityStep(allItems, cart, cart[k].pid, 0) == Step(cart, Some(OnlyAvailable(stock))))
  {
  }

  // ---------------------------------------------------------------------------
  // Checkout

  /** What one checkout attempt does to the screen: the request it posts (if
      any), the cart afterwards, the message, and whether it asks for a fresh
      inventory snapshot. */
  datatype CheckoutOutcome = CheckoutOutcome(sent: Option<CheckoutRequest>, cart: seq<LineItem>, message: Message, refresh: bool)

  /** `handleCheckout()`: an empty cart is refused without contacting the
      service; otherwise the cart is posted, and it is cleared (and the
      snapshot refreshed) only on an ok response. On any failure it is kept. */
  function CheckoutStep(cart: seq<LineItem>, paymentMethod: PaymentMethod, response: CheckoutResponse): (r: CheckoutOutcome)
    ensures cart == [] ==> r.sent == None && r.cart == cart && r.message == CartIsEmpty && !r.refresh
    ensures cart != [] ==> r.sent == Some(CheckoutRequest(paymentMethod, cart))
    ensures cart != [] && response.Ok? ==> r.cart == [] && r.refresh && r.message == CheckoutSucceeded
    ensures cart != [] && !response.Ok? ==> r.cart == cart && !r.refresh && r.message.CheckoutError?
    ensures cart != [] && response.NotOk? ==> r.message == CheckoutError("Checkout failed")
    ensures cart != [] && response.NetworkError? ==> r.message == CheckoutError(response.reason)
    ensures r.cart == [] || r.cart == cart
  {
    if cart == [] then CheckoutOutcome(None, cart, CartIsEmpty, false)
    else
      var request := Some(CheckoutRequest(paymentMethod, cart));
      match response
      case Ok => CheckoutOutcome(request, [], CheckoutSucceeded, true)
      case NotOk => CheckoutOutcome(request, cart, CheckoutError("Checkout failed"), false)
      case NetworkError(reason) => CheckoutOutcome(request, cart, CheckoutError(reason), false)
  }

  // ---------------------------------------------------------------------------
  // The component's state

  class Session {
    var allItems: seq<Item>
    var cart: seq<LineItem>
    var paymentMethod: PaymentMethod
    var message: Message
    var searchTerm: string

    ghost predicate Valid()
      reads this
    {
      WellFormed(cart)
    }

    constructor ()
      ensures Valid()
      ensures allItems == [] && cart == [] && paymentMethod == Cash && message == NoMessage && searchTerm == []
    {
      allItems := [];
      cart := [];
      paymentMethod := Cash;
      message := NoMessage;
      searchTerm := [];
    }

    /** The items shown for the current search term. */
    function FilteredItems(): (r: seq<Item>)
      reads this
      ensures r == FilterItems(allItems, searchTerm)
      ensures forall x :: x in r <==> x in allItems && MatchesSearch(x, searchTerm)
    {
      FilterItems(allItems, searchTerm)
    }

    /** The breakdown of the current cart. */
    function CurrentTotals(): (t: Totals)
      reads this
      ensures t.subtotal == SumSubtotals(cart) && t.total == 1.2 * t.subtotal
      ensures t.gst == GstRate * t.subtotal && t.additionalTax == AdditionalTaxRate * t.subtotal
      ensures t.total == t.subtotal + t.gst + t.additionalTax
    {
      CalculateTotal(cart)
    }

    method SetSearchTerm(term: string)
      modifies this`searchTerm
      ensures searchTerm == term
    {
      searchTerm := term;
    }

    method SetPaymentMethod(m: PaymentMethod)
      modifies this`paymentMethod
      ensures paymentMethod == m
    {
      paymentMethod := m;
    }

    /** `getInventory()`: a loaded snapshot replaces the old one; on failure the old snapshot is kept. */
    method GetInventory(fetch: Fetch)
      modifies this`allItems, this`message
      ensures fetch.Loaded? ==> allItems == fetch.items && message == InventoryLoaded
      ensures fetch.FetchFailed? ==> allItems == old(allItems) && message == InventoryError(fetch.reason)
    {
      match fetch
      case Loaded(items) =>
        allItems := items;
        message := InventoryLoaded;
      case FetchFailed(reason) =>
        message := InventoryError(reason);
    }

    method AddToCart(item: Item)
      requires Valid()
      modifies this`cart, this`message
      ensures Valid()
      ensures cart == AddToCartStep(old(cart), item).cart
      ensures message == AddToCartStep(old(cart), item).note.value
      ensures old(StockBounded(cart, allItems)) && FromSnapshot(item, allItems) && InStock(item) ==>
        StockBounded(cart, allItems)
    {
      AddToCartKeepsWellFormed(cart, item);
      if StockBounded(cart, allItems) && FromSnapshot(item, allItems) && InStock(item) {
        AddToCartKeepsStockBound(allItems, cart, item);
      }
      var r := AddToCartStep(cart, item);
      cart := r.cart;
      message := r.note.value;
    }

    method RemoveFromCart(pid: string)
      requires Valid()
      modifies this`cart, this`message
      ensures Valid()
      ensures cart == RemoveFromCartStep(old(cart), pid).cart && message == ItemRemoved
      ensures old(StockBounded(cart, allItems)) ==> StockBounded(cart, allItems)
    {
      RemoveFromCartKeepsWellFormed(cart, pid);
      if StockBounded(cart, allItems) {
        RemoveFromCartKeepsStockBound(allItems, cart, pid);
      }
      cart := RemoveFromCartStep(cart, pid).cart;
      message := ItemRemoved;
    }

    method UpdateCartQuantity(pid: string, newQuantity: int)
      requires Valid()
      requires FindItem(allItems, pid).Some?
      modifies this`cart, this`message
      ensures Valid()
      ensures cart == UpdateCartQuantityStep(allItems, old(cart), pid, newQuantity).cart
      ensures message == match UpdateCartQuantityStep(allItems, old(cart), pid, newQuantity).note
                         case Some(m) => m
                         case None => old(message)
      ensures old(StockBounded(cart, allItems)) ==> StockBounded(cart, allItems)
    {
      UpdateCartQuantityKeepsWellFormed(allItems, cart, pid, newQuantity);
      if StockBounded(cart, allItems) {
        UpdateCartQuantityKeepsStockBound(allItems, cart, pid, newQuantity);
      }
      var r := UpdateCartQuantityStep(allItems, cart, pid, newQuantity);
      cart := r.cart;
      if r.note.Some? {
        message := r.note.value;
      }
    }

    /** `handleCheckout()` against the given response. Returns the request
        posted (None: nothing was posted) and whether a snapshot refresh is due. */
    method HandleCheckout(response: CheckoutResponse) returns (sent: Option<CheckoutRequest>, refresh: bool)
      requires Valid()
      modifies this`cart, this`message
      ensures Valid()
      ensures old(cart) == [] ==> sent == None && !refresh && cart == old(cart) && message == CartIsEmpty
      ensures old(cart) != [] ==> sent == Some(CheckoutRequest(paymentMethod, old(cart)))
      ensures old(cart) != [] && response.Ok? ==> cart == [] && refresh && message == CheckoutSucceeded
      ensures old(cart) != [] && !response.Ok? ==> cart == old(cart) && !refresh && message.CheckoutError?
      ensures old(cart) != [] && response.NotOk? ==> message == CheckoutError("Checkout failed")
      ensures old(cart) != [] && response.NetworkError? ==> message == CheckoutError(response.reason)
    {
      var r := CheckoutStep(cart, paymentMethod, response);
      sent := r.sent;
      refresh := r.refresh;
      cart := r.cart;
      message := r.message;
    }
  }
}
