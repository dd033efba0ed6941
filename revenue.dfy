/** The filter-then-sum computations over deal lists that the server's revenue
    metric and the dashboard's revenue and count getters are built from. */
module Revenue {
  import opened Crm

  /** `deals.filter(p)`: keeps the deals satisfying `p`, in their order. */
  function Filter(deals: seq<Deal>, p: Deal -> bool): (r: seq<Deal>)
    ensures |r| <= |deals|
    ensures forall d :: d in r <==> d in deals && p(d)
  {
    if deals == [] then []
    else (if p(deals[0]) then [deals[0]] else []) + Filter(deals[1..], p)
  }

  /** `deals.reduce((total, deal) => total + Number(deal.properties?.amount || 0), 0)` */
  function SumAmounts(deals: seq<Deal>): real {
    if deals == [] then 0.0 else Amount(deals[0]) + SumAmounts(deals[1..])
  }

  /** The order-preserving sub-list of won deals. */
  function ClosedWon(deals: seq<Deal>): seq<Deal> {
    Filter(deals, IsClosedWon)
  }

  /** The sum of the amounts of the won deals, a missing amount counting 0. */
  function ClosedWonRevenue(deals: seq<Deal>): real {
    SumAmounts(ClosedWon(deals))
  }

  /** `deals.filter(deal => deal.properties.dealstage === 'closedwon').length` */
  function WonCount(deals: seq<Deal>): (r: nat)
    ensures r <= |deals|
    ensures r == |deals| <==> forall d :: d in deals ==> IsClosedWon(d)
  {
    WonCountFull(deals);
    |ClosedWon(deals)|
  }

  lemma {:induction false} WonCountFull(deals: seq<Deal>)
    ensures |ClosedWon(deals)| == |deals| <==> forall d :: d in deals ==> IsClosedWon(d)
  {
    if deals != [] {
      WonCountFull(deals[1..]);
      assert forall d :: d in deals ==> d == deals[0] || d in deals[1..];
      assert |Filter(deals[1..], IsClosedWon)| <= |deals[1..]|;
    }
  }

  /** Every amount is non-negative. */
  predicate NonNegativeAmounts(deals: seq<Deal>) {
    forall d :: d in deals ==> Amount(d) >= 0.0
  }

  lemma {:induction false} FilterAppend(a: seq<Deal>, b: seq<Deal>, p: Deal -> bool)
    ensures Filter(a + b, p) == Filter(a, p) + Filter(b, p)
  {
    if a == [] {
      assert a + b == b;
    } else {
      assert (a + b)[0] == a[0] && (a + b)[1..] == a[1..] + b;
      FilterAppend(a[1..], b, p);
    }
  }

  lemma {:induction false} SumAmountsAppend(a: seq<Deal>, b: seq<Deal>)
    ensures SumAmounts(a + b) == SumAmounts(a) + SumAmounts(b)
  {
    if a == [] {
      assert a + b == b;
    } else {
      assert (a + b)[0] == a[0] && (a + b)[1..] == a[1..] + b;
      SumAmountsAppend(a[1..], b);
    }
  }

  /** Filtering two orderings of the same deals gives two orderings of the same result. */
  lemma {:induction false} FilterPermutation(a: seq<Deal>, b: seq<Deal>, p: Deal -> bool)
    requires multiset(a) == multiset(b)
    ensures multiset(Filter(a, p)) == multiset(Filter(b, p))
    decreases |a|
  {
    if a != [] {
      var x := a[0];
      assert x in multiset(b);
      var k :| 0 <= k < |b| && b[k] == x;
      var rest := b[..k] + b[k + 1..];
      assert b == b[..k] + ([x] + b[k + 1..]);
      assert a == [x] + a[1..];
      assert multiset(b) == multiset(b[..k]) + multiset{x} + multiset(b[k + 1..]);
      assert multiset(a) == multiset{x} + multiset(a[1..]);
      assert multiset(rest) == multiset(b[..k]) + multiset(b[k + 1..]);
      assert multiset(a[1..]) == multiset(a) - multiset{x};
      assert multiset(rest) == multiset(b) - multiset{x};
      FilterPermutation(a[1..], rest, p);
      FilterAppend(b[..k], [x] + b[k + 1..], p);
      FilterAppend([x], b[k + 1..], p);
      FilterAppend(b[..k], b[k + 1..], p);
    } else {
      assert b == [];
    }
  }

  /** The sum of amounts does not depend on the order of the deals. */
  lemma {:induction false} SumAmountsPermutation(a: seq<Deal>, b: seq<Deal>)
    requires multiset(a) == multiset(b)
    ensures SumAmounts(a) == SumAmounts(b)
    decreases |a|
  {
    if a != [] {
      var x := a[0];
      assert x in multiset(b);
      var k :| 0 <= k < |b| && b[k] == x;
      var rest := b[..k] + b[k + 1..];
      assert b == b[..k] + ([x] + b[k + 1..]);
      assert a == [x] + a[1..];
      assert multiset(b) == multiset(b[..k]) + multiset{x} + multiset(b[k + 1..]);
      assert multiset(a) == multiset{x} + multiset(a[1..]);
      assert multiset(rest) == multiset(b[..k]) + multiset(b[k + 1..]);
      assert multiset(a[1..]) == multiset(a) - multiset{x};
      assert multiset(rest) == multiset(b) - multiset{x};
      SumAmountsPermutation(a[1..], rest);
      SumAmountsAppend(b[..k], [x] + b[k + 1..]);
      SumAmountsAppend([x], b[k + 1..]);
      SumAmountsAppend(b[..k], b[k + 1..]);
    } else {
      assert b == [];
    }
  }

  /** When `p` implies `q` on the deals and no amount is negative, the deals
      selected by `p` sum to no more than those selected by `q`. */
  lemma {:induction false} SumFilterMonotone(deals: seq<Deal>, p: Deal -> bool, q: Deal -> bool)
    requires NonNegativeAmounts(deals)
    requires forall d :: d in deals && p(d) ==> q(d)
    ensures SumAmounts(Filter(deals, p)) <= SumAmounts(Filter(deals, q))
  {
    if deals != [] {
      var d := deals[0];
      assert d in deals;
      SumFilterMonotone(deals[1..], p, q);
      SumAmountsAppend(if p(d) then [d] else [], Filter(deals[1..], p));
      SumAmountsAppend(if q(d) then [d] else [], Filter(deals[1..], q));
    }
  }

  /** The won deals are a sub-list of the deals and the revenue of a
      concatenation is the sum of the parts' revenues. */
  lemma ClosedWonRevenueAppend(a: seq<Deal>, b: seq<Deal>)
    ensures ClosedWonRevenue(a + b) == ClosedWonRevenue(a) + ClosedWonRevenue(b)
  {
    FilterAppend(a, b, IsClosedWon);
    SumAmountsAppend(ClosedWon(a), ClosedWon(b));
  }
  /** Each deal adds its amount when it is won, and nothing otherwise. */
  lemma ClosedWonRevenueCons(d: Deal, rest: seq<Deal>)
    ensures ClosedWonRevenue([d] + rest) == (if IsClosedWon(d) then Amount(d) else 0.0) + ClosedWonRevenue(rest)
  {
    assert ([d] + rest)[0] == d && ([d] + rest)[1..] == rest;
    SumAmountsAppend(if IsClosedWon(d) then [d] else [], ClosedWon(rest));
  }

  /** The won revenue does not depend on the order of the deals. */
  lemma ClosedWonRevenuePermutation(a: seq<Deal>, b: seq<Deal>)
    requires multiset(a) == multiset(b)
    ensures ClosedWonRevenue(a) == ClosedWonRevenue(b)
  {
    FilterPermutation(a, b, IsClosedWon);
    SumAmountsPermutation(ClosedWon(a), ClosedWon(b));
  }
  /** The won count and the won revenue select the same deals: with none of
      them won there is no revenue, and each won deal's amount is counted. */
  lemma {:induction false} CountAndRevenueShareFilter(deals: seq<Deal>)
    ensures WonCount(deals) == 0 ==> ClosedWonRevenue(deals) == 0.0
    ensures forall d :: d in deals && IsClosedWon(d) ==> d in ClosedWon(deals)
    ensures WonCount(deals) == 0 <==> forall d :: d in deals ==> !IsClosedWon(d)
  {
    if WonCount(deals) == 0 {
      assert ClosedWon(deals) == [];
    } else {
      var won := ClosedWon(deals);
      assert won[0] in won;
    }
  }
}
