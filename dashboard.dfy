/** The dashboard's read-side aggregations: the four headline figures, the
    per-day sales series of the chart, and the stock table, which sorts the
    catalogue copy in place by ascending stock and shows its first eight rows. */
module Dashboard {
  import opened Types
  import opened Collections
  import opened Text

  // ---------------------------------------------------------------------
  // Sums over invoices

  predicate NonNegativeAmounts(invs: seq<Invoice>) {
    forall i :: 0 <= i < |invs| ==> invs[i].totalAmount >= 0
  }

  /** `invoices.reduce((acc, inv) => acc + inv.totalAmount, 0)`. With
      non-negative amounts the sum is non-negative and at least every single amount. */
  function SumAmounts(invs: seq<Invoice>): (r: int)
    ensures NonNegativeAmounts(invs) ==> r >= 0 && forall k :: 0 <= k < |invs| ==> invs[k].totalAmount <= r
  {
    if invs == [] then 0
    else
      assert NonNegativeAmounts(invs) ==> NonNegativeAmounts(invs[1..]) by {
        forall i | 0 <= i < |invs[1..]| ensures invs[1..][i] == invs[i + 1] {
        }
      }
      assert forall k :: 1 <= k < |invs| ==> invs[k] == invs[1..][k - 1];
      invs[0].totalAmount + SumAmounts(invs[1..])
  }

  /** The sum is additive over concatenated histories. */
  lemma {:induction false} SumAmountsAppend(a: seq<Invoice>, b: seq<Invoice>)
    ensures SumAmounts(a + b) == SumAmounts(a) + SumAmounts(b)
  {
    if a == [] {
      assert a + b == b;
    } else {
      assert (a + b)[1..] == a[1..] + b;
      SumAmountsAppend(a[1..], b);
    }
  }

  /** With non-negative amounts, dropping invoices never raises the sum. */
  lemma {:induction false} SubsequenceSumBound(r: seq<Invoice>, s: seq<Invoice>)
    requires IsSubsequence(r, s) && NonNegativeAmounts(s)
    ensures SumAmounts(r) <= SumAmounts(s)
    decreases |s|
  {
    if r != [] {
      assert NonNegativeAmounts(s[1..]) by {
        forall i | 0 <= i < |s[1..]| ensures s[1..][i].totalAmount >= 0 {
          assert s[1..][i] == s[i + 1];
        }
      }
      if r[0] == s[0] && IsSubsequence(r[1..], s[1..]) {
        SubsequenceSumBound(r[1..], s[1..]);
      } else {
        SubsequenceSumBound(r, s[1..]);
      }
    }
  }

  /** The sales of one day: the invoices whose ISO date starts with `day`.
      A day no invoice falls on sells nothing; a day all fall on sells everything. */
  function DaySales(invs: seq<Invoice>, day: string): (r: int)
    ensures (forall inv :: inv in invs ==> !StartsWith(inv.date, day)) ==> r == 0
    ensures (forall inv :: inv in invs ==> StartsWith(inv.date, day)) ==> r == SumAmounts(invs)
  {
    var onDay := (inv: Invoice) => StartsWith(inv.date, day);
    FilterLength(invs, onDay);
    SumAmounts(Filter(invs, onDay))
  }

  /** What one invoice contributes to a day's sales. */
  function Contribution(inv: Invoice, day: string): int {
    if StartsWith(inv.date, day) then inv.totalAmount else 0
  }

  lemma DaySalesCons(inv: Invoice, rest: seq<Invoice>, day: string)
    ensures DaySales([inv] + rest, day) == Contribution(inv, day) + DaySales(rest, day)
  {
    var s := [inv] + rest;
    assert s[0] == inv && s[1..] == rest;
    var f := Filter(rest, (i: Invoice) => StartsWith(i.date, day));
    if StartsWith(inv.date, day) {
      assert ([inv] + f)[1..] == f;
    }
  }

  lemma DaySalesBound(invs: seq<Invoice>, day: string)
    ensures NonNegativeAmounts(invs) ==> 0 <= DaySales(invs, day) <= SumAmounts(invs)
  {
    if NonNegativeAmounts(invs) {
      var f := Filter(invs, (inv: Invoice) => StartsWith(inv.date, day));
      SubsequenceSumBound(f, invs);
      assert NonNegativeAmounts(f) by {
        forall i | 0 <= i < |f| ensures f[i].totalAmount >= 0 {
          assert f[i] in invs;
        }
      }
    }
  }

  // ---------------------------------------------------------------------
  // The headline figures

  /** `products.filter(p => p.stock < 20).length`. */
  function LowStockCount(ps: seq<Product>): (r: nat)
    ensures r <= |ps|
    ensures r == 0 <==> forall p :: p in ps ==> p.stock >= 20
    ensures r == |ps| <==> forall p :: p in ps ==> p.stock < 20
  {
    FilterLength(ps, (p: Product) => p.stock < 20);
    |Filter(ps, (p: Product) => p.stock < 20)|
  }

  /** The count goes up by one for each product below 20 units, and only for those. */
  lemma LowStockCountCons(p: Product, rest: seq<Product>)
    ensures LowStockCount([p] + rest) == (if p.stock < 20 then 1 else 0) + LowStockCount(rest)
  {
    var s := [p] + rest;
    assert s[0] == p && s[1..] == rest;
  }

  datatype Stats = Stats(totalSales: int, lowStockCount: nat, totalInvoices: nat, todaySales: int)

  /** `stats`; `nowIso` is `new Date().toISOString()`, whose date part is today. */
  function StatsOf(products: seq<Product>, invoices: seq<Invoice>, nowIso: string): (s: Stats)
    ensures s.totalSales == SumAmounts(invoices)
    ensures s.lowStockCount == LowStockCount(products)
    ensures s.todaySales == DaySales(invoices, BeforeT(nowIso))
    ensures s.totalInvoices == |invoices|
    ensures s.lowStockCount <= |products|
    ensures NonNegativeAmounts(invoices) ==> 0 <= s.todaySales <= s.totalSales
  {
    var today := BeforeT(nowIso);
    DaySalesBound(invoices, today);
    Stats(SumAmounts(invoices), LowStockCount(products), |invoices|, DaySales(invoices, today))
  }

  /** Saving an invoice (which puts it at the head of the history) adds its
      amount to the revenue, one to the invoice count, and its amount to
      today's sales exactly when it is dated today. */
  lemma StatsAfterSale(products: seq<Product>, history: seq<Invoice>, inv: Invoice, nowIso: string)
    ensures var before, after := StatsOf(products, history, nowIso), StatsOf(products, [inv] + history, nowIso);
      && after.totalSales == before.totalSales + inv.totalAmount
      && after.totalInvoices == before.totalInvoices + 1
      && after.lowStockCount == before.lowStockCount
      && after.todaySales == before.todaySales + Contribution(inv, BeforeT(nowIso))
  {
    var day := BeforeT(nowIso);
    assert ([inv] + history)[1..] == history;
    DaySalesCons(inv, history, day);
  }

  // ---------------------------------------------------------------------
  // The sales chart

  datatype DayPoint = DayPoint(date: string, sales: int)

  /** `salesData`, for the given calendar days (the `last7Days` strings). */
  function SalesData(invs: seq<Invoice>, days: seq<string>): (r: seq<DayPoint>)
    ensures |r| == |days|
    ensures forall i :: 0 <= i < |r| ==> r[i].date == DropFirst(days[i], 5)
    ensures forall i :: 0 <= i < |r| ==> r[i].sales == DaySales(invs, days[i])
  {
    if days == [] then []
    else [DayPoint(DropFirst(days[0], 5), DaySales(invs, days[0]))] + SalesData(invs, days[1..])
  }

  function ChartTotal(points: seq<DayPoint>): int {
    if points == [] then 0 else points[0].sales + ChartTotal(points[1..])
  }

  /** What one invoice contributes to the whole chart. */
  function Hits(inv: Invoice, days: seq<string>): int {
    if days == [] then 0 else Contribution(inv, days[0]) + Hits(inv, days[1..])
  }

  lemma {:induction false} ChartCons(inv: Invoice, rest: seq<Invoice>, days: seq<string>)
    ensures ChartTotal(SalesData([inv] + rest, days)) == Hits(inv, days) + ChartTotal(SalesData(rest, days))
  {
    if days != [] {
      DaySalesCons(inv, rest, days[0]);
      ChartCons(inv, rest, days[1..]);
    }
  }

  /** Days of one common length, pairwise distinct: like `YYYY-MM-DD` strings. */
  predicate DistinctDays(days: seq<string>) {
    (forall i, j :: 0 <= i < j < |days| ==> days[i] != days[j]) &&
    forall i, j :: 0 <= i < |days| && 0 <= j < |days| ==> |days[i]| == |days[j]|
  }

  lemma {:induction false} HitsNone(inv: Invoice, days: seq<string>)
    requires forall i :: 0 <= i < |days| ==> !StartsWith(inv.date, days[i])
    ensures Hits(inv, days) == 0
  {
    if days != [] {
      HitsNone(inv, days[1..]);
    }
  }

  /** An invoice date starts with at most one of the days, so it is counted at most once. */
  lemma {:induction false} HitsBound(inv: Invoice, days: seq<string>)
    requires DistinctDays(days) && inv.totalAmount >= 0
    ensures 0 <= Hits(inv, days) <= inv.totalAmount
  {
    if days != [] {
      var rest := days[1..];
      assert DistinctDays(rest) by {
        forall i, j | 0 <= i < j < |rest| ensures rest[i] != rest[j] {
          assert rest[i] == days[i + 1] && rest[j] == days[j + 1];
        }
        forall i, j | 0 <= i < |rest| && 0 <= j < |rest| ensures |rest[i]| == |rest[j]| {
          assert rest[i] == days[i + 1] && rest[j] == days[j + 1];
        }
      }
      if StartsWith(inv.date, days[0]) {
        forall i | 0 <= i < |rest| ensures !StartsWith(inv.date, rest[i]) {
          assert rest[i] == days[i + 1];
          assert |days[0]| == |days[i + 1]|;
        }
        HitsNone(inv, rest);
      } else {
        HitsBound(inv, rest);
      }
    }
  }

  /** With non-negative amounts and distinct calendar days, the bars of the
      chart add up to at most the total revenue. */
  lemma {:induction false} ChartWithinRevenue(invs: seq<Invoice>, days: seq<string>)
    requires NonNegativeAmounts(invs) && DistinctDays(days)
    ensures ChartTotal(SalesData(invs, days)) <= SumAmounts(invs)
  {
    if invs == [] {
      assert ChartTotal(SalesData([], days)) == 0 by { ChartEmpty(days); }
    } else {
      assert invs == [invs[0]] + invs[1..];
      ChartCons(invs[0], invs[1..], days);
      HitsBound(invs[0], days);
      assert NonNegativeAmounts(invs[1..]) by {
        forall i | 0 <= i < |invs[1..]| ensures invs[1..][i].totalAmount >= 0 {
          assert invs[1..][i] == invs[i + 1];
        }
      }
      ChartWithinRevenue(invs[1..], days);
    }
  }

  lemma {:induction false} ChartEmpty(days: seq<string>)
    ensures ChartTotal(SalesData([], days)) == 0
  {
    if days != [] {
      ChartEmpty(days[1..]);
    }
  }

  // ---------------------------------------------------------------------
  // The stock table

  predicate SortedByStock(s: seq<Product>) {
    forall i, j :: 0 <= i < j < |s| ==> s[i].stock <= s[j].stock
  }

  /** The first `n` elements are sorted except possibly around position `j`. */
  predicate SortedAround(s: seq<Product>, n: int, j: int)
    requires 0 <= j <= n < |s|
  {
    && (forall p, q :: 0 <= p < q <= n && p != j && q != j ==> s[p].stock <= s[q].stock)
    && (forall q :: j < q <= n ==> s[j].stock < s[q].stock)
    && (0 < j < n ==> s[j - 1].stock <= s[j + 1].stock)
  }

  /** Exchanges `a[j - 1]` and `a[j]`. */
  method SwapDown(a: array<Product>, j: int)
    requires 0 < j < a.Length
    modifies a
    ensures a[..] == old(a[..])[j - 1 := old(a[j])][j := old(a[j - 1])]
    ensures multiset(a[..]) == multiset(old(a[..]))
  {
    a[j - 1], a[j] := a[j], a[j - 1];
  }

  /** One pass of insertion sort: moves `a[i]` down into the sorted prefix `a[..i]`. */
  method InsertNext(a: array<Product>, i: int)
    requires 0 <= i < a.Length && SortedByStock(a[..i])
    modifies a
    ensures SortedByStock(a[..i + 1])
    ensures multiset(a[..]) == multiset(old(a[..]))
  {
    var j := i;
    assert SortedAround(a[..], i, j) by {
      forall p, q | 0 <= p < q <= i && p != j && q != j ensures a[p].stock <= a[q].stock {
        assert a[p] == a[..i][p] && a[q] == a[..i][q];
      }
    }
    while j > 0 && a[j - 1].stock > a[j].stock
      invariant 0 <= j <= i
      invariant multiset(a[..]) == multiset(old(a[..]))
      invariant SortedAround(a[..], i, j)
    {
      ghost var s := a[..];
      SwapDown(a, j);
      j := j - 1;
      SortedAroundStep(s, a[..], i, j);
    }
    ghost var prefix := a[..i + 1];
    forall p, q | 0 <= p < q < |prefix| ensures prefix[p].stock <= prefix[q].stock {
      SortedAroundDone(a[..], i, j, p, q);
    }
  }

  lemma SortedAroundStep(s: seq<Product>, t: seq<Product>, n: int, j: int)
    requires 0 <= j < n < |s| && SortedAround(s, n, j + 1)
    requires s[j].stock > s[j + 1].stock
    requires t == s[j := s[j + 1]][j + 1 := s[j]]
    ensures SortedAround(t, n, j)
  {
  }

  lemma SortedAroundDone(s: seq<Product>, n: int, j: int, p: int, q: int)
    requires 0 <= j <= n < |s| && SortedAround(s, n, j)
    requires j == 0 || s[j - 1].stock <= s[j].stock
    requires 0 <= p < q <= n
    ensures s[p].stock <= s[q].stock
  {
    if q == j && p < j - 1 {
      assert s[p].stock <= s[j - 1].stock;
    }
  }

  /** `products.sort((a, b) => a.stock - b.stock)`, in place, by insertion. */
  method SortByStock(a: array<Product>)
    modifies a
    ensures SortedByStock(a[..])
    ensures multiset(a[..]) == multiset(old(a[..]))
  {
    var i := 0;
    while i < a.Length
      invariant 0 <= i <= a.Length
      invariant SortedByStock(a[..i])
      invariant multiset(a[..]) == multiset(old(a[..]))
    {
      InsertNext(a, i);
      i := i + 1;
    }
    assert a[..a.Length] == a[..];
  }

  /** The first `k` elements of a sorted sequence are minima: none of the
      remaining elements has less stock. */
  lemma PrefixMinima(sorted: seq<Product>, k: nat)
    requires SortedByStock(sorted) && k <= |sorted|
    ensures forall i, q :: 0 <= i < k && q in multiset(sorted) - multiset(sorted[..k]) ==> sorted[i].stock <= q.stock
  {
    assert sorted == sorted[..k] + sorted[k..];
    assert multiset(sorted) - multiset(sorted[..k]) == multiset(sorted[k..]);
    forall i, q | 0 <= i < k && q in multiset(sorted) - multiset(sorted[..k])
      ensures sorted[i].stock <= q.stock
    {
      assert q in sorted[k..];
      var m :| k <= m < |sorted| && sorted[m] == q;
    }
  }

  /** The rows of the stock table: the catalogue sorted by ascending stock,
      cut to its first eight entries. */
  method StockTable(products: seq<Product>) returns (shown: seq<Product>)
    ensures |shown| == if |products| < 8 then |products| else 8
    ensures SortedByStock(shown)
    ensures multiset(shown) <= multiset(products)
    ensures forall i, q :: 0 <= i < |shown| && q in multiset(products) - multiset(shown) ==> shown[i].stock <= q.stock
  {
    var a := new Product[|products|](i requires 0 <= i < |products| => products[i]);
    assert a[..] == products;
    SortByStock(a);
    var k := if a.Length < 8 then a.Length else 8;
    var sorted := a[..];
    shown := sorted[..k];
    PrefixMinima(sorted, k);
    assert sorted == shown + sorted[k..];
  }
}
