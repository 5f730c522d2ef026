/** The sales analysis over the sold-products log: the sales whose timestamp
    parses and falls in the inclusive window are summed per product name
    (the `item_sales` dictionary, which keeps names in first-insertion
    order), the pairs are sorted by total in non-increasing order by a
    stable sort, and the first ten become the chart's labels and data. */
module Sales {
  import opened Records

  // ---------------------------------------------------------------------------
  // Which sales count, and how many units of a product they add up to

  /** A parseable timestamp no earlier than `start` and no later than `end`;
      a missing bound does not restrict, and a window whose start is after its
      end holds nothing. */
  predicate InWindow(ts: Timestamp, start: Option<int>, end: Option<int>): (r: bool)
    ensures r ==> ts.At?
    ensures ts.At? && start.None? && end.None? ==> r
    ensures r && start.Some? && end.Some? ==> start.value <= end.value
  {
    ts.At? && (start.None? || start.value <= ts.instant) && (end.None? || ts.instant <= end.value)
  }

  /** Units of product `name` sold in the window. */
  function WindowTotal(sales: seq<SoldRecord>, start: Option<int>, end: Option<int>, name: string): (r: int)
    ensures (forall i :: 0 <= i < |sales| ==> sales[i].quantity >= 0) ==> r >= 0
  {
    if sales == [] then 0
    else
      var last := sales[|sales| - 1];
      WindowTotal(sales[..|sales| - 1], start, end, name)
        + (if InWindow(last.timestamp, start, end) && last.product == name then last.quantity else 0)
  }

  /** Some sale of product `name` counts for the window. */
  ghost predicate SoldInWindow(sales: seq<SoldRecord>, start: Option<int>, end: Option<int>, name: string)
  {
    exists i :: 0 <= i < |sales| && InWindow(sales[i].timestamp, start, end) && sales[i].product == name
  }

  // ---------------------------------------------------------------------------
  // The per-product tally

  /** A dictionary from product name to units, with its keys in insertion order. */
  datatype Tally = Tally(names: seq<string>, totals: map<string, int>)

  ghost predicate TallyValid(t: Tally)
  {
    && (forall i, j :: 0 <= i < j < |t.names| ==> t.names[i] != t.names[j])
    && (forall n :: n in t.totals <==> n in t.names)
  }

  /** `item_sales[name] = item_sales.get(name, 0) + qty`: a new name goes last. */
  function Bump(t: Tally, name: string, qty: int): (r: Tally)
    requires TallyValid(t)
    ensures TallyValid(r)
    ensures r.totals.Keys == t.totals.Keys + {name}
    ensures r.totals[name] == (if name in t.totals then t.totals[name] else 0) + qty
    ensures forall n :: n in t.totals && n != name ==> r.totals[n] == t.totals[n]
  {
    if name in t.totals then Tally(t.names, t.totals[name := t.totals[name] + qty])
    else Tally(t.names + [name], t.totals[name := qty])
  }

  /** The tally after the loop over `sales`. */
  function TallyOf(sales: seq<SoldRecord>, start: Option<int>, end: Option<int>): (t: Tally)
    ensures TallyValid(t)
  {
    if sales == [] then Tally([], map[])
    else
      var t := TallyOf(sales[..|sales| - 1], start, end);
      var sale := sales[|sales| - 1];
      if InWindow(sale.timestamp, start, end) then Bump(t, sale.product, sale.quantity) else t
  }

  /** The tally holds exactly the products sold in the window, each with its window total. */
  lemma {:induction false} TallyOfCorrect(sales: seq<SoldRecord>, start: Option<int>, end: Option<int>)
    ensures forall n :: n in TallyOf(sales, start, end).totals <==> SoldInWindow(sales, start, end, n)
    ensures forall n :: n in TallyOf(sales, start, end).totals ==>
      TallyOf(sales, start, end).totals[n] == WindowTotal(sales, start, end, n)
    decreases |sales|
  {
    if sales != [] {
      var prefix, sale := sales[..|sales| - 1], sales[|sales| - 1];
      TallyOfCorrect(prefix, start, end);
      var t := TallyOf(sales, start, end);
      forall n ensures n in t.totals <==> SoldInWindow(sales, start, end, n) {
        if SoldInWindow(sales, start, end, n) {
          var i :| 0 <= i < |sales| && InWindow(sales[i].timestamp, start, end) && sales[i].product == n;
          if i < |prefix| {
            assert prefix[i] == sales[i];
            assert SoldInWindow(prefix, start, end, n);
          }
        }
        if SoldInWindow(prefix, start, end, n) {
          var i :| 0 <= i < |prefix| && InWindow(prefix[i].timestamp, start, end) && prefix[i].product == n;
          assert sales[i] == prefix[i];
        }
        if InWindow(sale.timestamp, start, end) && sale.product == n {
          assert SoldInWindow(sales, start, end, n) by {
            assert sales[|sales| - 1] == sale;
          }
        }
      }
      forall n | n in t.totals ensures t.totals[n] == WindowTotal(sales, start, end, n) {
        var before := TallyOf(prefix, start, end);
        assert WindowTotal(sales, start, end, n) == WindowTotal(prefix, start, end, n)
          + (if InWindow(sale.timestamp, start, end) && sale.product == n then sale.quantity else 0);
        if !(n in before.totals) {
          assert !SoldInWindow(prefix, start, end, n);
          ZeroWithoutSales(prefix, start, end, n);
        }
      }
    }
  }

  /** A product with no counted sale has window total 0. */
  lemma {:induction false} ZeroWithoutSales(sales: seq<SoldRecord>, start: Option<int>, end: Option<int>, name: string)
    requires !SoldInWindow(sales, start, end, name)
    ensures WindowTotal(sales, start, end, name) == 0
    decreases |sales|
  {
    if sales != [] {
      var prefix := sales[..|sales| - 1];
      assert !SoldInWindow(prefix, start, end, name) by {
        forall i | 0 <= i < |prefix| ensures !(InWindow(prefix[i].timestamp, start, end) && prefix[i].product == name) {
          assert prefix[i] == sales[i];
        }
      }
      ZeroWithoutSales(prefix, start, end, name);
    }
  }

  // ---------------------------------------------------------------------------
  // Sorting the (name, total) pairs

  type Pair = (string, int)

  /** `item_sales.items()` */
  function Pairs(t: Tally): (ps: seq<Pair>)
    requires forall n :: n in t.names ==> n in t.totals
    ensures |ps| == |t.names|
    ensures forall i :: 0 <= i < |ps| ==> ps[i] == (t.names[i], t.totals[t.names[i]])
  {
    seq(|t.names|, i requires 0 <= i < |t.names| => (t.names[i], t.totals[t.names[i]]))
  }

  predicate SortedDesc(ps: seq<Pair>)
  {
    forall i, j :: 0 <= i < j < |ps| ==> ps[i].1 >= ps[j].1
  }

  ghost predicate KeysDistinct(ps: seq<Pair>)
  {
    forall i, j :: 0 <= i < j < |ps| ==> ps[i].0 != ps[j].0
  }

  /** Places `x` after every pair whose total is at least `x`'s, so equal totals keep their order. */
  function Insert(x: Pair, ps: seq<Pair>): (r: seq<Pair>)
    requires SortedDesc(ps)
    ensures SortedDesc(r)
    ensures multiset(r) == multiset(ps) + multiset{x}
  {
    if ps == [] then [x]
    else if ps[0].1 >= x.1 then
      var rest := Insert(x, ps[1..]);
      InsertBelowHead(x, ps, rest);
      [ps[0]] + rest
    else
      [x] + ps
  }

  /** The head of a sorted sequence bounds everything inserted after it. */
  lemma InsertBelowHead(x: Pair, ps: seq<Pair>, rest: seq<Pair>)
    requires ps != [] && SortedDesc(ps) && ps[0].1 >= x.1
    requires SortedDesc(rest) && multiset(rest) == multiset(ps[1..]) + multiset{x}
    ensures SortedDesc([ps[0]] + rest)
    ensures multiset([ps[0]] + rest) == multiset(ps) + multiset{x}
  {
    assert ps == [ps[0]] + ps[1..];
    forall k | 0 <= k < |rest| ensures ps[0].1 >= rest[k].1 {
      assert rest[k] in multiset(rest);
      if rest[k] != x {
        assert rest[k] in ps[1..];
      }
    }
    var r := [ps[0]] + rest;
    forall i, j | 0 <= i < j < |r| ensures r[i].1 >= r[j].1 {
      if i > 0 {
        assert r[i] == rest[i - 1] && r[j] == rest[j - 1];
      } else {
        assert r[j] == rest[j - 1];
      }
    }
  }

  /** `sorted(pairs, key=total, reverse=True)`: a stable sort by non-increasing total. */
  function SortDesc(ps: seq<Pair>): (r: seq<Pair>)
    ensures SortedDesc(r)
    ensures multiset(r) == multiset(ps)
  {
    if ps == [] then []
    else
      assert ps == ps[..|ps| - 1] + [ps[|ps| - 1]];
      Insert(ps[|ps| - 1], SortDesc(ps[..|ps| - 1]))
  }

  /** A sequence without repeated elements holds each value at most once. */
  lemma {:induction false} DistinctCount(ps: seq<Pair>, x: Pair)
    requires KeysDistinct(ps)
    ensures multiset(ps)[x] <= 1
    decreases |ps|
  {
    if ps != [] {
      var tail := ps[1..];
      assert ps == [ps[0]] + tail;
      assert KeysDistinct(tail) by {
        forall i, j | 0 <= i < j < |tail| ensures tail[i].0 != tail[j].0 {
          assert tail[i] == ps[i + 1] && tail[j] == ps[j + 1];
        }
      }
      DistinctCount(tail, x);
      if x == ps[0] {
        forall k | 0 <= k < |tail| ensures tail[k] != x {
          assert tail[k] == ps[k + 1];
        }
        assert x !in tail;
      }
    }
  }

  /** A value at two positions is counted at least twice. */
  lemma TwoPositions(ps: seq<Pair>, i: nat, j: nat)
    requires i < j < |ps| && ps[i] == ps[j]
    ensures multiset(ps)[ps[i]] >= 2
  {
    assert ps == ps[..j] + ps[j..];
    assert ps[i] in ps[..j];
    assert ps[j] in ps[j..];
  }

  /** Reordering keeps the names distinct. */
  lemma PermutationKeepsKeysDistinct(ps: seq<Pair>, qs: seq<Pair>)
    requires KeysDistinct(ps)
    requires multiset(qs) == multiset(ps)
    ensures KeysDistinct(qs)
  {
    forall i, j | 0 <= i < j < |qs| ensures qs[i].0 != qs[j].0 {
      assert qs[i] in multiset(ps) && qs[j] in multiset(ps);
      var a :| 0 <= a < |ps| && ps[a] == qs[i];
      var b :| 0 <= b < |ps| && ps[b] == qs[j];
      if a == b {
        TwoPositions(qs, i, j);
        DistinctCount(ps, qs[i]);
      }
    }
  }

  // ---------------------------------------------------------------------------
  // The chart

  /** The `labels` and `data` arrays returned to the analysis screen. */
  datatype Chart = Chart(labels: seq<string>, data: seq<int>)

  const TopCount: nat := 10

  /** `sorted(...)[:10]`, split into the two index-aligned lists. */
  function ChartOf(sorted: seq<Pair>): (c: Chart)
    ensures |c.labels| == |c.data| == if |sorted| < TopCount then |sorted| else TopCount
    ensures forall i :: 0 <= i < |c.labels| ==> (c.labels[i], c.data[i]) == sorted[i]
  {
    var top := sorted[..if |sorted| < TopCount then |sorted| else TopCount];
    Chart(seq(|top|, i requires 0 <= i < |top| => top[i].0), seq(|top|, i requires 0 <= i < |top| => top[i].1))
  }

  /** The whole analysis for one window. */
  function Analysis(sales: seq<SoldRecord>, start: Option<int>, end: Option<int>): (c: Chart)
    ensures |c.labels| == |c.data| <= TopCount
    ensures forall i, j :: 0 <= i < j < |c.data| ==> c.data[i] >= c.data[j]
  {
    var t := TallyOf(sales, start, end);
    ChartOf(SortDesc(Pairs(t)))
  }

  /** Every pair of the tally's list carries a key and its total. */
  lemma PairOfTally(t: Tally, x: Pair)
    requires forall n :: n in t.names ==> n in t.totals
    requires x in Pairs(t)
    ensures x.0 in t.totals && x.1 == t.totals[x.0]
  {
  }

  /** A pair of a sorted list left off the chart is preceded by ten pairs of at least its total. */
  lemma UnlistedBelowChart(sorted: seq<Pair>, x: Pair)
    requires SortedDesc(sorted) && x in sorted
    requires x.0 !in ChartOf(sorted).labels
    ensures |ChartOf(sorted).labels| == TopCount
    ensures forall i :: 0 <= i < |ChartOf(sorted).data| ==> ChartOf(sorted).data[i] >= x.1
  {
    var c := ChartOf(sorted);
    var m :| 0 <= m < |sorted| && sorted[m] == x;
    assert forall k :: 0 <= k < |c.labels| ==> c.labels[k] == sorted[k].0;
  }

  /** Each listed product was sold in the window and is shown with its window total. */
  lemma ChartEntriesCorrect(sales: seq<SoldRecord>, start: Option<int>, end: Option<int>)
    ensures var c := Analysis(sales, start, end);
      forall i :: 0 <= i < |c.labels| ==>
        SoldInWindow(sales, start, end, c.labels[i]) && c.data[i] == WindowTotal(sales, start, end, c.labels[i])
  {
    var t := TallyOf(sales, start, end);
    TallyOfCorrect(sales, start, end);
    var ps := Pairs(t);
    var sorted := SortDesc(ps);
    var c := ChartOf(sorted);
    forall i | 0 <= i < |c.labels|
      ensures SoldInWindow(sales, start, end, c.labels[i]) && c.data[i] == WindowTotal(sales, start, end, c.labels[i])
    {
      assert sorted[i] in multiset(ps);
      PairOfTally(t, sorted[i]);
    }
  }

  /** No product is listed twice. */
  lemma ChartLabelsDistinct(sales: seq<SoldRecord>, start: Option<int>, end: Option<int>)
    ensures var c := Analysis(sales, start, end);
      forall i, j :: 0 <= i < j < |c.labels| ==> c.labels[i] != c.labels[j]
  {
    var t := TallyOf(sales, start, end);
    var ps := Pairs(t);
    var sorted := SortDesc(ps);
    assert KeysDistinct(ps);
    PermutationKeepsKeysDistinct(ps, sorted);
  }

  /** A product sold in the window but not listed means ten products are listed, each with at least its total. */
  lemma ChartIsTop(sales: seq<SoldRecord>, start: Option<int>, end: Option<int>)
    ensures var c := Analysis(sales, start, end);
      forall n :: SoldInWindow(sales, start, end, n) && n !in c.labels ==>
        |c.labels| == TopCount && forall i :: 0 <= i < |c.data| ==> c.data[i] >= WindowTotal(sales, start, end, n)
  {
    var t := TallyOf(sales, start, end);
    TallyOfCorrect(sales, start, end);
    var ps := Pairs(t);
    var sorted := SortDesc(ps);
    forall n | SoldInWindow(sales, start, end, n) && n !in ChartOf(sorted).labels
      ensures |ChartOf(sorted).labels| == TopCount
      ensures forall i :: 0 <= i < |ChartOf(sorted).data| ==> ChartOf(sorted).data[i] >= WindowTotal(sales, start, end, n)
    {
      var a :| 0 <= a < |t.names| && t.names[a] == n;
      assert ps[a] in multiset(sorted);
      UnlistedBelowChart(sorted, ps[a]);
    }
  }

  /** The chart lists distinct products sold in the window, each with its
      window total, and no product left off it sold more than one listed. */
  lemma AnalysisCorrect(sales: seq<SoldRecord>, start: Option<int>, end: Option<int>)
    ensures var c := Analysis(sales, start, end);
      && (forall i :: 0 <= i < |c.labels| ==>
            SoldInWindow(sales, start, end, c.labels[i]) && c.data[i] == WindowTotal(sales, start, end, c.labels[i]))
      && (forall i, j :: 0 <= i < j < |c.labels| ==> c.labels[i] != c.labels[j])
      && (forall n :: SoldInWindow(sales, start, end, n) && n !in c.labels ==>
            |c.labels| == TopCount && forall i :: 0 <= i < |c.data| ==> c.data[i] >= WindowTotal(sales, start, end, n))
  {
    ChartEntriesCorrect(sales, start, end);
    ChartLabelsDistinct(sales, start, end);
    ChartIsTop(sales, start, end);
  }
}
