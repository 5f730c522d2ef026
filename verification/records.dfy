/** Entities shared by the point-of-sale client and the inventory/billing
    service: inventory records, cart lines (the client keeps them and posts
    them unchanged as `cart_items`), sold-log entries, and the two fixed tax
    rates used by both sides. Money is exact `real`. */
module Records {

  datatype Option<T> = None | Some(value: T)

  /** One inventory record, as stored by the service and served by GET /inventory. */
  datatype Item = Item(pid: string, name: string, description: string, price: real, quantity: int)

  /** One cart line `{pid, name, price, quantity, subtotal}`. */
  datatype LineItem = LineItem(pid: string, name: string, price: real, quantity: int, subtotal: real)

  /** When a sale was logged. The service stores an ISO date string and the
      analysis skips entries it cannot parse; `Unparseable` stands for those. */
  datatype Timestamp = At(instant: int) | Unparseable(text: string)

  /** One entry of the sold-products log. */
  datatype SoldRecord = SoldRecord(pid: string, product: string, quantity: int, timestamp: Timestamp)

  /** Index of the first occurrence of `pid` in a list of pids: the search
      behind JavaScript `find`, the Python `for item in items: if item['pid']
      == pid` loops and `next(...)`. */
  function PidIndex(pids: seq<string>, pid: string): (r: Option<nat>)
    ensures r.Some? ==> r.value < |pids| && pids[r.value] == pid
    ensures r.Some? ==> forall j :: 0 <= j < r.value ==> pids[j] != pid
    ensures r.None? <==> forall j :: 0 <= j < |pids| ==> pids[j] != pid
  {
    if pids == [] then None
    else if pids[0] == pid then Some(0)
    else
      match PidIndex(pids[1..], pid)
      case None =>
        assert forall j :: 1 <= j < |pids| ==> pids[j] == pids[1..][j - 1];
        None
      case Some(k) => Some(k + 1)
  }

  /** The pids of a list of records or lines, in order (`key` reads the pid). */
  function Pids<T>(xs: seq<T>, key: T -> string): (pids: seq<string>)
    ensures |pids| == |xs| && forall i :: 0 <= i < |xs| ==> pids[i] == key(xs[i])
  {
    seq(|xs|, i requires 0 <= i < |xs| => key(xs[i]))
  }

  /** Index of the first inventory record with `pid`. */
  function FindItem(items: seq<Item>, pid: string): (r: Option<nat>)
    ensures r.Some? ==> r.value < |items| && items[r.value].pid == pid
    ensures r.Some? ==> forall j :: 0 <= j < r.value ==> items[j].pid != pid
    ensures r.None? <==> forall j :: 0 <= j < |items| ==> items[j].pid != pid
  {
    PidIndex(Pids(items, (x: Item) => x.pid), pid)
  }

  /** Goods and services tax, 18%. */
  const GstRate: real := 18.0 / 100.0
  /** Additional tax, 2%. */
  const AdditionalTaxRate: real := 2.0 / 100.0

  /** Sum of the line subtotals, accumulated from the left as `reduce` and
      `sum` do; with non-negative subtotals it is non-negative. */
  function SumSubtotals(lines: seq<LineItem>): (r: real)
    ensures (forall i :: 0 <= i < |lines| ==> lines[i].subtotal >= 0.0) ==> r >= 0.0
  {
    if lines == [] then 0.0 else SumSubtotals(lines[..|lines| - 1]) + lines[|lines| - 1].subtotal
  }

  /** Summing distributes over concatenation. */
  lemma {:induction false} SumSubtotalsAppend(a: seq<LineItem>, b: seq<LineItem>)
    ensures SumSubtotals(a + b) == SumSubtotals(a) + SumSubtotals(b)
    decreases |b|
  {
    if b == [] {
      assert a + b == a;
    } else {
      var last := b[|b| - 1];
      assert (a + b)[..|a + b| - 1] == a + b[..|b| - 1];
      SumSubtotalsAppend(a, b[..|b| - 1]);
    }
  }

  /** Replacing one line changes the sum by exactly the change of that line's subtotal. */
  lemma SumSubtotalsUpdate(lines: seq<LineItem>, k: nat, l: LineItem)
    requires k < |lines|
    ensures SumSubtotals(lines[k := l]) == SumSubtotals(lines) - lines[k].subtotal + l.subtotal
  {
    var pre, post := lines[..k], lines[k + 1..];
    assert lines == pre + [lines[k]] + post;
    assert lines[k := l] == pre + [l] + post;
    SumSubtotalsAppend(pre + [lines[k]], post);
    SumSubtotalsAppend(pre, [lines[k]]);
    SumSubtotalsAppend(pre + [l], post);
    SumSubtotalsAppend(pre, [l]);
    assert SumSubtotals([l]) == l.subtotal by { assert [l][..0] == []; }
    assert SumSubtotals([lines[k]]) == lines[k].subtotal by { assert [lines[k]][..0] == []; }
  }
}
