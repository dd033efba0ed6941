/** The proxy server's two derived business metrics: the monthly recurring
    revenue and the contact-to-customer conversion rate. */
module ServerMetrics {
  import opened Crm
  import opened Text
  import opened Revenue

  /** A won deal whose lower-cased name contains `monthly`; a deal without a
      name is never monthly. */
  predicate IsMonthlyWon(d: Deal) {
    IsClosedWon(d) && d.properties.dealname.Some?
    && Contains(LowerCase(d.properties.dealname.value), "monthly")
  }

  /** `calculateMonthlyRevenue`: the amounts of the monthly won deals, summed. */
  function MonthlyRevenue(deals: seq<Deal>): real {
    SumAmounts(Filter(deals, IsMonthlyWon))
  }

  /** A deal in another stage, or one without a name or a monthly name, adds
      nothing; a monthly won deal adds its amount (0 when it has none). */
  lemma MonthlyRevenueCons(d: Deal, rest: seq<Deal>)
    ensures !IsClosedWon(d) ==> MonthlyRevenue([d] + rest) == MonthlyRevenue(rest)
    ensures d.properties.dealname.None? ==> MonthlyRevenue([d] + rest) == MonthlyRevenue(rest)
    ensures IsMonthlyWon(d) ==> MonthlyRevenue([d] + rest) == Amount(d) + MonthlyRevenue(rest)
    ensures IsMonthlyWon(d) && d.properties.amount.None? ==> MonthlyRevenue([d] + rest) == MonthlyRevenue(rest)
  {
    FilterAppend([d], rest, IsMonthlyWon);
    SumAmountsAppend(Filter([d], IsMonthlyWon), Filter(rest, IsMonthlyWon));
    assert ([d] + rest)[1..] == rest;
  }

  /** The revenue does not depend on the order of the deals. */
  lemma MonthlyRevenuePermutation(a: seq<Deal>, b: seq<Deal>)
    requires multiset(a) == multiset(b)
    ensures MonthlyRevenue(a) == MonthlyRevenue(b)
  {
    FilterPermutation(a, b, IsMonthlyWon);
    SumAmountsPermutation(Filter(a, IsMonthlyWon), Filter(b, IsMonthlyWon));
  }

  /** The revenue of a concatenation is the sum of the parts' revenues. */
  lemma MonthlyRevenueAppend(a: seq<Deal>, b: seq<Deal>)
    ensures MonthlyRevenue(a + b) == MonthlyRevenue(a) + MonthlyRevenue(b)
  {
    FilterAppend(a, b, IsMonthlyWon);
    SumAmountsAppend(Filter(a, IsMonthlyWon), Filter(b, IsMonthlyWon));
  }

  /** With no negative amounts, the monthly revenue is part of the won revenue. */
  lemma MonthlyRevenueAtMostWonRevenue(deals: seq<Deal>)
    requires NonNegativeAmounts(deals)
    ensures 0.0 <= MonthlyRevenue(deals) <= ClosedWonRevenue(deals)
  {
    SumFilterMonotone(deals, IsMonthlyWon, IsClosedWon);
    SumFilterMonotone(deals, d => false, IsMonthlyWon);
    assert Filter(deals, d => false) == [] by {
      FilterEmpty(deals);
    }
  }

  lemma {:induction false} FilterEmpty(deals: seq<Deal>)
    ensures Filter(deals, d => false) == []
  {
    if deals != [] {
      FilterEmpty(deals[1..]);
    }
  }

  /** `Math.round` on an exact number: the nearest integer, halves rounded up. */
  function RoundHalfUp(x: real): (r: int)
    ensures r as real - 0.5 <= x < r as real + 0.5
  {
    (x + 0.5).Floor
  }

  lemma RoundHalfUpMonotone(x: real, y: real)
    requires x <= y
    ensures RoundHalfUp(x) <= RoundHalfUp(y)
  {
  }

  /** The contact ids on the deals' associations, each once: the `Set` built by
      `flatMap` over `associations.contacts.results`. */
  function AssociatedIds(deals: seq<Deal>): (r: set<string>)
    ensures forall id :: id in r <==> exists d :: d in deals && id in AssociatedContactIds(d)
  {
    if deals == [] then {}
    else
      var first := AssociatedContactIds(deals[0]);
      var rest := AssociatedIds(deals[1..]);
      assert forall d :: d in deals[1..] ==> d in deals;
      assert forall d :: d in deals ==> d == deals[0] || d in deals[1..];
      (set id | id in first) + rest
  }

  /** The ids of the contacts that have one. */
  function ContactIds(contacts: seq<Contact>): (r: set<string>)
    ensures |r| <= |contacts|
    ensures forall id :: id in r <==> exists c :: c in contacts && c.id == Some(id)
  {
    if contacts == [] then {}
    else
      var rest := ContactIds(contacts[1..]);
      assert forall c :: c in contacts[1..] ==> c in contacts;
      assert forall c :: c in contacts ==> c == contacts[0] || c in contacts[1..];
      (if contacts[0].id.Some? then {contacts[0].id.value} else {}) + rest
  }

  /** `Math.round((k / n) * 100)`: the integer nearest to the percentage k of
      n, halves rounded up. */
  function Percentage(k: nat, n: nat): (r: int)
    requires n > 0
    ensures r as real - 0.5 <= 100.0 * k as real / n as real < r as real + 0.5
    ensures k <= n ==> 0 <= r <= 100
  {
    assert (k as real / n as real) * 100.0 == 100.0 * k as real / n as real;
    if k <= n then PercentageRange(k, n); RoundHalfUp((k as real / n as real) * 100.0)
    else RoundHalfUp((k as real / n as real) * 100.0)
  }

  /** At an exact half the model rounds up: 23 of 40 is exactly 57.5 and
      gives 58, and 29 of 200 is exactly 14.5 and gives 15. */
  lemma PercentageExactTies()
    ensures Percentage(23, 40) == 58
    ensures Percentage(29, 200) == 15
  {
    assert 100.0 * 23 as real / 40 as real == 57.5;
    assert 100.0 * 29 as real / 200 as real == 14.5;
  }

  lemma PercentageRange(k: nat, n: nat)
    requires 0 < n && k <= n
    ensures 0 <= RoundHalfUp((k as real / n as real) * 100.0) <= 100
  {
    var q := k as real / n as real;
    assert q <= 1.0 by {
      if q > 1.0 {
        MulStrictMonotone(1.0, q, n as real);
      }
    }
    RoundHalfUpMonotone(q * 100.0, 100.0);
    RoundHalfUpMonotone(0.0, q * 100.0);
  }

  lemma MulStrictMonotone(a: real, b: real, n: real)
    requires n > 0.0 && a < b
    ensures a * n < b * n
  {
    assert b * n - a * n == (b - a) * n;
  }

  /** `calculateConversionRate`: 0 without contacts, otherwise the number of
      distinct associated ids as a percentage of the contact count. */
  function ConversionRate(contacts: seq<Contact>, deals: seq<Deal>): int {
    if |contacts| > 0 then Percentage(|AssociatedIds(deals)|, |contacts|) else 0
  }

  /** When every associated id belongs to one of the contacts, the rate is a
      percentage. */
  lemma ConversionRateBounds(contacts: seq<Contact>, deals: seq<Deal>)
    requires AssociatedIds(deals) <= ContactIds(contacts)
    ensures 0 <= ConversionRate(contacts, deals) <= 100
  {
    if |contacts| > 0 {
      SubsetCardinality(AssociatedIds(deals), ContactIds(contacts));
    }
  }

  lemma SubsetCardinality(a: set<string>, b: set<string>)
    requires a <= b
    ensures |a| <= |b|
  {
    assert b == a + (b - a);
  }

  /** A deal whose contact ids are all associated already leaves the rate
      unchanged: an id on several deals counts once. */
  lemma ConversionRateDuplicateIds(contacts: seq<Contact>, deals: seq<Deal>, d: Deal)
    requires forall id :: id in AssociatedContactIds(d) ==> id in AssociatedIds(deals)
    ensures ConversionRate(contacts, deals + [d]) == ConversionRate(contacts, deals)
  {
    assert AssociatedIds(deals + [d]) == AssociatedIds(deals) by {
      forall id | id in AssociatedIds(deals + [d])
        ensures id in AssociatedIds(deals)
      {
        var e :| e in deals + [d] && id in AssociatedContactIds(e);
        if e != d {
          assert e in deals;
        }
      }
      forall id | id in AssociatedIds(deals)
        ensures id in AssociatedIds(deals + [d])
      {
        var e :| e in deals && id in AssociatedContactIds(e);
        assert e in deals + [d];
      }
    }
  }

  /** The rate depends only on the set of associated ids, not on the order of
      the deals. */
  lemma ConversionRatePermutation(contacts: seq<Contact>, a: seq<Deal>, b: seq<Deal>)
    requires multiset(a) == multiset(b)
    ensures ConversionRate(contacts, a) == ConversionRate(contacts, b)
  {
    assert forall d :: d in a <==> d in multiset(a);
    assert forall d :: d in b <==> d in multiset(b);
    assert AssociatedIds(a) == AssociatedIds(b);
  }

  /** Two of four contacts with deals give 50; one of three gives 33 and two of
      three give 67. */
  lemma ConversionRateExamples(contacts: seq<Contact>, deals: seq<Deal>)
    ensures |contacts| == 4 && |AssociatedIds(deals)| == 2 ==> ConversionRate(contacts, deals) == 50
    ensures |contacts| == 3 && |AssociatedIds(deals)| == 1 ==> ConversionRate(contacts, deals) == 33
    ensures |contacts| == 3 && |AssociatedIds(deals)| == 2 ==> ConversionRate(contacts, deals) == 67
  {
  }
}
