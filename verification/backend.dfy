/** The inventory and billing service, on in-memory lists in place of its
    three JSON files: the inventory items, the sold-products log and the
    billing history. Identifiers (pids, invoice ids), clock readings and the
    invoice date are parameters. */
module Backend {
  import opened Records
  import opened Text
  import Sales

  /** A bill as stored in the billing history. */
  datatype Invoice = Invoice(
    invoiceId: string, date: string, paymentMethod: string, items: seq<LineItem>,
    subtotal: real, gst: real, additionalTax: real, discount: real, total: real)

  /** The `cart_item` returned by the add-to-cart route (it carries no unit price). */
  datatype CartQuote = CartQuote(pid: string, name: string, quantity: int, subtotal: real)

  /** A status code and the inventory list after an operation. */
  datatype Change = Change(status: int, items: seq<Item>)

  // ---------------------------------------------------------------------------
  // Specifications of the table updates

  /** Some stored item has `name`, ignoring case. An exact match is taken;
      nothing is taken in an empty inventory. */
  predicate NameTaken(items: seq<Item>, name: string): (r: bool)
    ensures (exists i :: 0 <= i < |items| && items[i].name == name) ==> r
    ensures items == [] ==> !r
  {
    exists i | 0 <= i < |items| :: Lower(items[i].name) == Lower(name)
  }

  /** No two items share a name, ignoring case: what `add_new_item` maintains. */
  ghost predicate NamesDistinct(items: seq<Item>)
  {
    forall i, j :: 0 <= i < j < |items| ==> Lower(items[i].name) != Lower(items[j].name)
  }

  /** The record after `update_item`: each field given replaces the stored one. */
  function Patched(item: Item, desc: Option<string>, price: Option<real>, quantity: Option<int>): (r: Item)
    ensures r.pid == item.pid && r.name == item.name
    ensures desc.None? ==> r.description == item.description
    ensures price.None? ==> r.price == item.price
    ensures quantity.None? ==> r.quantity == item.quantity
    ensures desc.Some? ==> r.description == desc.value
    ensures price.Some? ==> r.price == price.value
    ensures quantity.Some? ==> r.quantity == quantity.value
    ensures desc.None? && price.None? && quantity.None? ==> r == item
  {
    Item(item.pid, item.name,
         if desc.Some? then desc.value else item.description,
         if price.Some? then price.value else item.price,
         if quantity.Some? then quantity.value else item.quantity)
  }

  /** `decrease_count(pid, qty)` on the list. */
  function Decrease(items: seq<Item>, pid: string, qty: int): (r: Change)
    ensures FindItem(items, pid).None? ==> r == Change(404, items)
    ensures FindItem(items, pid).Some? && items[FindItem(items, pid).value].quantity < qty ==> r == Change(400, items)
    ensures FindItem(items, pid).Some? && items[FindItem(items, pid).value].quantity >= qty ==>
      var k := FindItem(items, pid).value;
      && r.status == 200
      && |r.items| == |items|
      && r.items[k].quantity == items[k].quantity - qty >= 0
      && r.items[k].(quantity := items[k].quantity) == items[k]
      && forall j :: 0 <= j < |items| && j != k ==> r.items[j] == items[j]
    ensures r.status != 200 ==> r.items == items
  {
    match FindItem(items, pid)
    case None => Change(404, items)
    case Some(k) =>
      if items[k].quantity < qty then Change(400, items)
      else Change(200, items[k := items[k].(quantity := items[k].quantity - qty)])
  }

  /** The checkout loop's effect on the inventory: every line's decrement in
      cart order, each applied or refused on its own. */
  function DecreaseAll(items: seq<Item>, lines: seq<LineItem>): (r: seq<Item>)
    ensures |r| == |items|
    ensures forall i {:trigger r[i]} :: 0 <= i < |items| ==> r[i].(quantity := items[i].quantity) == items[i]
  {
    if lines == [] then items
    else
      var last := lines[|lines| - 1];
      Decrease(DecreaseAll(items, lines[..|lines| - 1]), last.pid, last.quantity).items
  }

  /** One sold-log entry per cart line, in cart order, stamped with the clock reading taken for it. */
  function SoldEntries(lines: seq<LineItem>, clock: seq<int>): (r: seq<SoldRecord>)
    requires |clock| == |lines|
    ensures |r| == |lines|
    ensures forall i :: 0 <= i < |r| ==>
      r[i].pid == lines[i].pid && r[i].product == lines[i].name && r[i].quantity == lines[i].quantity
      && r[i].timestamp == At(clock[i])
  {
    seq(|lines|, i requires 0 <= i < |lines| => SoldRecord(lines[i].pid, lines[i].name, lines[i].quantity, At(clock[i])))
  }

  /** One more line of the checkout loop is one more decrement. */
  lemma DecreaseAllStep(items: seq<Item>, lines: seq<LineItem>, i: nat)
    requires i < |lines|
    ensures DecreaseAll(items, lines[..i + 1]) == Decrease(DecreaseAll(items, lines[..i]), lines[i].pid, lines[i].quantity).items
  {
    assert lines[..i + 1][..i] == lines[..i];
  }

  /** One more line of the checkout loop is one more sold entry. */
  lemma SoldEntriesStep(lines: seq<LineItem>, clock: seq<int>, i: nat)
    requires |clock| == |lines| && i < |lines|
    ensures SoldEntries(lines[..i + 1], clock[..i + 1])
      == SoldEntries(lines[..i], clock[..i]) + [SoldRecord(lines[i].pid, lines[i].name, lines[i].quantity, At(clock[i]))]
  {
  }

  /** The bill for a cart: the posted subtotals summed, 18% GST, 2% additional tax, no discount. */
  function Bill(invoiceId: string, date: string, paymentMethod: string, lines: seq<LineItem>): (inv: Invoice)
    ensures inv.invoiceId == invoiceId && inv.date == date && inv.paymentMethod == paymentMethod && inv.items == lines
    ensures inv.subtotal == SumSubtotals(lines)
    ensures inv.discount == 0.0
    ensures inv.gst == GstRate * inv.subtotal
    ensures inv.additionalTax == AdditionalTaxRate * inv.subtotal
    ensures inv.total == inv.subtotal + inv.gst + inv.additionalTax - inv.discount
    ensures inv.total == 1.2 * inv.subtotal
  {
    var subtotal := SumSubtotals(lines);
    var gst := subtotal * 0.18;
    var additionalTax := subtotal * 0.02;
    var discount := 0.0;
    Invoice(invoiceId, date, paymentMethod, lines, subtotal, gst, additionalTax, discount,
            subtotal + gst + additionalTax - discount)
  }

  // ---------------------------------------------------------------------------
  // Properties of the specifications

  /** Names are compared ignoring case. */
  lemma NameTakenIgnoresCase(items: seq<Item>, a: string, b: string)
    requires Lower(a) == Lower(b)
    ensures NameTaken(items, a) <==> NameTaken(items, b)
  {
  }

  ghost predicate NonNegativeStock(items: seq<Item>)
  {
    forall i :: 0 <= i < |items| ==> items[i].quantity >= 0
  }

  /** Units in stock over all items. */
  function TotalStock(items: seq<Item>): int
  {
    if items == [] then 0 else TotalStock(items[..|items| - 1]) + items[|items| - 1].quantity
  }

  lemma {:induction false} TotalStockUpdate(items: seq<Item>, k: nat, x: Item)
    requires k < |items|
    ensures TotalStock(items[k := x]) == TotalStock(items) - items[k].quantity + x.quantity
    decreases |items|
  {
    var n := |items| - 1;
    var updated := items[k := x];
    assert updated[..n] == if k < n then items[..n][k := x] else items[..n];
    if k < n {
      TotalStockUpdate(items[..n], k, x);
    }
  }

  /** A successful decrement removes exactly `qty` units from the stock; a refused one none. */
  lemma DecreaseTotalStock(items: seq<Item>, pid: string, qty: int)
    ensures var r := Decrease(items, pid, qty);
      TotalStock(r.items) == if r.status == 200 then TotalStock(items) - qty else TotalStock(items)
  {
    match FindItem(items, pid)
    case None =>
    case Some(k) =>
      if items[k].quantity >= qty {
        TotalStockUpdate(items, k, items[k].(quantity := items[k].quantity - qty));
      }
  }

  /** However the decrements of a checkout fare, no stock goes below zero. */
  lemma {:induction false} DecreaseAllKeepsStockNonNegative(items: seq<Item>, lines: seq<LineItem>)
    requires NonNegativeStock(items)
    ensures NonNegativeStock(DecreaseAll(items, lines))
    decreases |lines|
  {
    if lines != [] {
      DecreaseAllKeepsStockNonNegative(items, lines[..|lines| - 1]);
    }
  }

  /** Records that differ only in quantity keep distinct names distinct. */
  lemma SameNamesKeepDistinct(items: seq<Item>, r: seq<Item>)
    requires NamesDistinct(items)
    requires |r| == |items| && forall i :: 0 <= i < |items| ==> r[i].name == items[i].name
    ensures NamesDistinct(r)
  {
  }

  // ---------------------------------------------------------------------------
  // The service's state

  class Store {
    var items: seq<Item>
    var sold: seq<SoldRecord>
    var history: seq<Invoice>

    ghost predicate Valid()
      reads this
    {
      NamesDistinct(items)
    }

    /** The files as first created: no items, an empty log and an empty history. */
    constructor ()
      ensures Valid()
      ensures items == [] && sold == [] && history == []
    {
      items := [];
      sold := [];
      history := [];
    }

    /** The search for the first item with `pid`. */
    method Locate(pid: string) returns (k: Option<nat>)
      ensures k == FindItem(items, pid)
    {
      var i := 0;
      while i < |items|
        invariant 0 <= i <= |items|
        invariant forall j :: 0 <= j < i ==> items[j].pid != pid
      {
        if items[i].pid == pid {
          return Some(i);
        }
        i := i + 1;
      }
      return None;
    }

    /** `add_new_item`: refused with 400 when the name exists ignoring case;
        otherwise the new record is appended and 201 returned. A missing
        initial quantity stands for 0. */
    method AddNewItem(pid: string, name: string, desc: string, price: real, initialQuantity: Option<int>)
      returns (status: int, created: Option<Item>)
      modifies this`items
      ensures old(Valid()) ==> Valid()
      ensures status == 400 <==> NameTaken(old(items), name)
      ensures status == 400 ==> created == None && items == old(items)
      ensures status != 400 ==>
        && status == 201
        && created == Some(Item(pid, name, desc, price, if initialQuantity.Some? then initialQuantity.value else 0))
        && items == old(items) + [created.value]
      ensures NameTaken(items, name)
    {
      var i := 0;
      while i < |items|
        invariant 0 <= i <= |items|
        invariant forall j :: 0 <= j < i ==> Lower(items[j].name) != Lower(name)
      {
        if Lower(items[i].name) == Lower(name) {
          return 400, None;
        }
        i := i + 1;
      }
      var quantity := if initialQuantity.Some? then initialQuantity.value else 0;
      var item := Item(pid, name, desc, price, quantity);
      items := items + [item];
      assert items[|items| - 1] == item;
      return 201, Some(item);
    }

    /** `update_item`: the first record with `pid` takes the fields given; 404 when there is none. */
    method UpdateItem(pid: string, desc: Option<string>, price: Option<real>, quantity: Option<int>)
      returns (status: int, updated: Option<Item>)
      modifies this`items
      ensures old(Valid()) ==> Valid()
      ensures FindItem(old(items), pid).None? ==> status == 404 && updated == None && items == old(items)
      ensures FindItem(old(items), pid).Some? ==>
        var k := FindItem(old(items), pid).value;
        && status == 200
        && items == old(items)[k := Patched(old(items)[k], desc, price, quantity)]
        && updated == Some(items[k])
    {
      var found := Locate(pid);
      match found
      case None =>
        return 404, None;
      case Some(k) =>
        var item := Patched(items[k], desc, price, quantity);
        if NamesDistinct(items) {
          SameNamesKeepDistinct(items, items[k := item]);
        }
        items := items[k := item];
        return 200, Some(item);
    }

    /** `decrease_count`: the first record with `pid` loses `qty` units when it has that many. */
    method DecreaseCount(pid: string, qty: int) returns (status: int)
      modifies this`items
      ensures old(Valid()) ==> Valid()
      ensures Change(status, items) == Decrease(old(items), pid, qty)
    {
      var found := Locate(pid);
      match found
      case None =>
        return 404;
      case Some(k) =>
        if items[k].quantity < qty {
          return 400;
        }
        var item := items[k].(quantity := items[k].quantity - qty);
        assert Decrease(items, pid, qty) == Change(200, items[k := item]);
        if NamesDistinct(items) {
          SameNamesKeepDistinct(items, items[k := item]);
        }
        items := items[k := item];
        return 200;
    }

    /** `log_sold_product`: one entry appended, stamped with the clock reading `now`. */
    method LogSoldProduct(pid: string, quantity: int, prod: string, now: int)
      modifies this`sold
      ensures sold == old(sold) + [SoldRecord(pid, prod, quantity, At(now))]
    {
      sold := sold + [SoldRecord(pid, prod, quantity, At(now))];
    }

    /** The add-to-cart route: validates a requested quantity (1 when absent)
        against the stock and prices it; the inventory is only read. */
    method AddToCart(pid: string, requested: Option<int>) returns (status: int, quote: Option<CartQuote>)
      ensures var q := if requested.Some? then requested.value else 1;
        && (FindItem(items, pid).None? ==> status == 404 && quote == None)
        && (FindItem(items, pid).Some? && items[FindItem(items, pid).value].quantity < q ==>
              status == 400 && quote == None)
        && (FindItem(items, pid).Some? && items[FindItem(items, pid).value].quantity >= q ==>
              status == 200 && quote.Some? && quote.value.pid == pid && quote.value.quantity == q &&
              quote.value.name == items[FindItem(items, pid).value].name)
      ensures quote.Some? ==> quote.value.subtotal == items[FindItem(items, pid).value].price * quote.value.quantity as real
    {
      var quantity := if requested.Some? then requested.value else 1;
      var found := Locate(pid);
      match found
      case None =>
        return 404, None;
      case Some(k) =>
        var item := items[k];
        if item.quantity < quantity {
          return 400, None;
        }
        return 200, Some(CartQuote(pid, item.name, quantity, item.price * quantity as real));
    }

    /** `checkout`: an empty cart is refused with 400 and nothing changes.
        Otherwise every line is decremented (a refused decrement is ignored)
        and logged as sold, and one bill is appended to the history. `clock`
        holds the time read for each line's log entry. */
    method Checkout(paymentMethod: string, cartItems: seq<LineItem>, invoiceId: string, date: string, clock: seq<int>)
      returns (status: int, invoice: Option<Invoice>)
      requires |clock| == |cartItems|
      modifies this`items, this`sold, this`history
      ensures old(Valid()) ==> Valid()
      ensures cartItems == [] ==>
        status == 400 && invoice == None && items == old(items) && sold == old(sold) && history == old(history)
      ensures cartItems != [] ==>
        && status == 200
        && invoice == Some(Bill(invoiceId, date, paymentMethod, cartItems))
        && items == DecreaseAll(old(items), cartItems)
        && sold == old(sold) + SoldEntries(cartItems, clock)
        && history == old(history) + [invoice.value]
    {
      if cartItems == [] {
        return 400, None;
      }
      SellLines(cartItems, clock);
      if NamesDistinct(old(items)) {
        SameNamesKeepDistinct(old(items), items);
      }
      var bill := Bill(invoiceId, date, paymentMethod, cartItems);
      history := history + [bill];
      return 200, Some(bill);
    }

    /** The loop of `checkout`: each line in cart order is decremented (a
        refused decrement is ignored) and logged as sold with its clock reading. */
    method SellLines(cartItems: seq<LineItem>, clock: seq<int>)
      requires |clock| == |cartItems|
      modifies this`items, this`sold
      ensures items == DecreaseAll(old(items), cartItems)
      ensures sold == old(sold) + SoldEntries(cartItems, clock)
    {
      var i := 0;
      while i < |cartItems|
        invariant 0 <= i <= |cartItems|
        invariant items == DecreaseAll(old(items), cartItems[..i])
        invariant sold == old(sold) + SoldEntries(cartItems[..i], clock[..i])
      {
        var line := cartItems[i];
        DecreaseAllStep(old(items), cartItems, i);
        SoldEntriesStep(cartItems, clock, i);
        ghost var logged := SoldEntries(cartItems[..i], clock[..i]);
        var _ := DecreaseCount(line.pid, line.quantity);
        LogSoldProduct(line.pid, line.quantity, line.name, clock[i]);
        assert sold == old(sold) + (logged + [SoldRecord(line.pid, line.name, line.quantity, At(clock[i]))]);
        i := i + 1;
      }
      assert cartItems[..i] == cartItems && clock[..i] == clock;
    }

    /** `sales_analysis`: the sold log is tallied per product over the window,
        then sorted and cut to the top ten. */
    method SalesAnalysis(start: Option<int>, end: Option<int>) returns (labels: seq<string>, data: seq<int>)
      ensures Sales.Chart(labels, data) == Sales.Analysis(sold, start, end)
      ensures |labels| == |data| <= Sales.TopCount
      ensures forall i, j :: 0 <= i < j < |data| ==> data[i] >= data[j]
      ensures forall i, j :: 0 <= i < j < |labels| ==> labels[i] != labels[j]
      ensures forall i :: 0 <= i < |labels| ==>
        Sales.SoldInWindow(sold, start, end, labels[i]) && data[i] == Sales.WindowTotal(sold, start, end, labels[i])
      ensures forall n :: Sales.SoldInWindow(sold, start, end, n) && n !in labels ==>
        |labels| == Sales.TopCount && forall i :: 0 <= i < |data| ==> data[i] >= Sales.WindowTotal(sold, start, end, n)
    {
      var tally := Sales.Tally([], map[]);
      var i := 0;
      while i < |sold|
        invariant 0 <= i <= |sold|
        invariant tally == Sales.TallyOf(sold[..i], start, end)
      {
        var sale := sold[i];
        assert sold[..i + 1][..i] == sold[..i];
        if Sales.InWindow(sale.timestamp, start, end) {
          tally := Sales.Bump(tally, sale.product, sale.quantity);
        }
        i := i + 1;
      }
      assert sold[..i] == sold;
      var chart := Sales.ChartOf(Sales.SortDesc(Sales.Pairs(tally)));
      labels, data := chart.labels, chart.data;
      Sales.AnalysisCorrect(sold, start, end);
    }
  }
}
