/** How the register and the service fit together: the cart the register
    keeps is posted unchanged as `cart_items`, so the service bills it at
    the totals the register displayed, and a cart kept within the stock the
    register was served is decremented in full by the checkout loop. */
module Agreement {
  import opened Records
  import NewBill
  import Backend

  /** The stored bill carries the subtotal, taxes and total the register showed for the same cart. */
  lemma BillMatchesRegister(cart: seq<LineItem>, invoiceId: string, date: string, paymentMethod: string)
    ensures var shown := NewBill.CalculateTotal(cart);
      var billed := Backend.Bill(invoiceId, date, paymentMethod, cart);
      && billed.subtotal == shown.subtotal
      && billed.gst == shown.gst
      && billed.additionalTax == shown.additionalTax
      && billed.total == shown.total
  {
  }

  /** Units over all cart lines. */
  function Units(lines: seq<LineItem>): int
  {
    if lines == [] then 0 else Units(lines[..|lines| - 1]) + lines[|lines| - 1].quantity
  }

  /** Lists with the same pid at every position find the same index. */
  lemma FindItemSamePids(a: seq<Item>, b: seq<Item>, pid: string)
    requires |a| == |b|
    requires forall i :: 0 <= i < |a| ==> a[i].pid == b[i].pid
    ensures FindItem(a, pid) == FindItem(b, pid)
  {
    assert Pids(a, (x: Item) => x.pid) == Pids(b, (x: Item) => x.pid);
  }

  /** Decrements for other products leave a record as it was. */
  lemma {:induction false} DecreaseAllUntouched(items: seq<Item>, lines: seq<LineItem>, k: nat)
    requires k < |items|
    requires forall j :: 0 <= j < |lines| ==> lines[j].pid != items[k].pid
    ensures |Backend.DecreaseAll(items, lines)| == |items|
    ensures Backend.DecreaseAll(items, lines)[k] == items[k]
    decreases |lines|
  {
    if lines != [] {
      var prefix := lines[..|lines| - 1];
      DecreaseAllUntouched(items, prefix, k);
    }
  }

  /** When every line names a stocked product once and stays within its
      stock, every decrement of the checkout loop is applied: the stock
      falls by exactly the cart's units. */
  lemma {:induction false} CheckoutTakesCartUnits(items: seq<Item>, cart: seq<LineItem>)
    requires NewBill.UniquePids(cart)
    requires NewBill.StockBounded(cart, items)
    requires forall i :: 0 <= i < |cart| ==> FindItem(items, cart[i].pid).Some?
    ensures Backend.TotalStock(Backend.DecreaseAll(items, cart)) == Backend.TotalStock(items) - Units(cart)
    decreases |cart|
  {
    if cart != [] {
      var prefix, last := cart[..|cart| - 1], cart[|cart| - 1];
      assert forall i :: 0 <= i < |prefix| ==> prefix[i] == cart[i];
      CheckoutTakesCartUnits(items, prefix);
      var before := Backend.DecreaseAll(items, prefix);
      var k := FindItem(items, last.pid).value;
      FindItemSamePids(before, items, last.pid);
      DecreaseAllUntouched(items, prefix, k);
      assert last.quantity <= items[k].quantity;
      Backend.DecreaseTotalStock(before, last.pid, last.quantity);
    }
  }
}
