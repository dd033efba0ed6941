/** The all-deals view: every deal of the CRM with its stage class and label,
    the deal count, the won count and the won revenue. */
module AllDealsView {
  import opened Crm
  import opened Revenue
  import StageFormat
  import ServerMetrics

  /** `getDealStageClass` of this view, with its four classes; an undefined
      stage defaults to `''`, an early stage. */
  function StageClass(stage: Option<string>): (r: string)
    ensures r == "closed-won" <==> stage == Some("closedwon")
    ensures r == "closed-lost" <==> stage == Some("closedlost")
    ensures r == "in-progress" <==> stage == Some("contractsent") || stage == Some("decisionmakerboughtin")
    ensures r == "early-stage" <==>
      stage !in {Some("closedwon"), Some("closedlost"), Some("contractsent"), Some("decisionmakerboughtin")}
  {
    match stage.GetOr("")
    case "closedwon" => "closed-won"
    case "closedlost" => "closed-lost"
    case "contractsent" => "in-progress"
    case "decisionmakerboughtin" => "in-progress"
    case _ => "early-stage"
  }

  /** `formatDealStage` of this view: the default empty stage gives `''`. */
  function FormatStage(stage: Option<string>): (r: string)
    ensures stage.None? ==> r == ""
    ensures stage.Some? ==> r == StageFormat.FormatDealStage(stage.value)
  {
    StageFormat.FormatDefaultedStage(stage)
  }

  lemma WonRevenueSign(deals: seq<Deal>)
    ensures NonNegativeAmounts(deals) ==> ClosedWonRevenue(deals) >= 0.0
  {
    if NonNegativeAmounts(deals) {
      ServerMetrics.MonthlyRevenueAtMostWonRevenue(deals);
    }
  }

  class AllDeals {
    var deals: seq<Deal>
    var loading: bool
    var error: string

    constructor()
      ensures deals == [] && !loading && error == ""
    {
      deals := [];
      loading := false;
      error := "";
    }

    /** `loadDeals` up to the request. */
    method LoadDeals()
      modifies this
      ensures loading && error == "" && deals == old(deals)
    {
      loading := true;
      error := "";
    }

    /** The request's `next`: the fetched list replaces the deals. */
    method OnDealsLoaded(fetched: seq<Deal>)
      modifies this
      ensures deals == fetched && !loading && error == old(error)
    {
      deals := fetched;
      loading := false;
    }

    /** The request's `error`: the message of the service's error. */
    method OnDealsFailed(message: string)
      modifies this
      ensures error == message && !loading && deals == old(deals)
    {
      error := message;
      loading := false;
    }

    /** A whole `loadDeals` with the service's outcome. */
    method LoadDealsWith(outcome: Result<seq<Deal>, string>)
      modifies this
      ensures !loading
      ensures outcome.Success? ==> deals == outcome.value && error == ""
      ensures outcome.Failure? ==> deals == old(deals) && error == outcome.error
    {
      LoadDeals();
      match outcome {
        case Success(fetched) => OnDealsLoaded(fetched);
        case Failure(message) => OnDealsFailed(message);
      }
    }

    /** `getTotalDeals` */
    function TotalDeals(): nat
      reads this
    {
      |deals|
    }

    /** `getClosedWonDeals`: at most the deal count, and equal to it exactly
        when every deal is won. */
    function ClosedWonDeals(): (r: nat)
      reads this
      ensures r <= TotalDeals()
      ensures r == TotalDeals() <==> forall d :: d in deals ==> IsClosedWon(d)
    {
      WonCount(deals)
    }

    /** `getTotalRevenue`: the won amounts, a missing amount counting 0; with
        no negative amount it is not negative. */
    function TotalRevenue(): (r: real)
      reads this
      ensures NonNegativeAmounts(deals) ==> r >= 0.0
    {
      WonRevenueSign(deals);
      ClosedWonRevenue(deals)
    }
  }

  /** The revenue a deal brings to the total: its amount when won, else 0. */
  lemma TotalRevenueOfCons(view: AllDeals, d: Deal, rest: seq<Deal>)
    requires view.deals == [d] + rest
    ensures view.TotalRevenue() == (if IsClosedWon(d) then Amount(d) else 0.0) + ClosedWonRevenue(rest)
  {
    ClosedWonRevenueCons(d, rest);
  }

  /** The figures do not depend on the order of the fetched deals. */
  lemma FiguresIgnoreOrder(view: AllDeals, other: AllDeals)
    requires multiset(view.deals) == multiset(other.deals)
    ensures view.TotalDeals() == other.TotalDeals()
    ensures view.ClosedWonDeals() == other.ClosedWonDeals()
    ensures view.TotalRevenue() == other.TotalRevenue()
  {
    assert |view.deals| == |multiset(view.deals)| == |multiset(other.deals)| == |other.deals|;
    FilterPermutation(view.deals, other.deals, IsClosedWon);
    assert |ClosedWon(view.deals)| == |multiset(ClosedWon(view.deals))|;
    assert |ClosedWon(other.deals)| == |multiset(ClosedWon(other.deals))|;
    ClosedWonRevenuePermutation(view.deals, other.deals);
  }
}
