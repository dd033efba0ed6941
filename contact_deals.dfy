/** The contact-deals view: the deals of one contact, reloaded when the
    dashboard's refresh counter or the contact changes, with its revenue,
    count and conversion figures. */
module ContactDealsView {
  import opened Crm
  import opened Text
  import opened Revenue
  import ServerMetrics
  import ContactApi

  /** `getDealStageClass` of this view: won, lost, or anything else as in
      progress; an undefined stage defaults to `''`. */
  function StageClass(stage: Option<string>): (r: string)
    ensures r == "closed-won" <==> stage == Some("closedwon")
    ensures r == "closed-lost" <==> stage == Some("closedlost")
    ensures r == "in-progress" <==> stage != Some("closedwon") && stage != Some("closedlost")
  {
    match stage.GetOr("")
    case "closedwon" => "closed-won"
    case "closedlost" => "closed-lost"
    case _ => "in-progress"
  }

  /** `formatDate`: `'-'` without a date; `localeDate` stands for
      `new Date(s).toLocaleDateString()`. */
  function FormatDate(date: Option<string>, localeDate: string -> string): (r: string)
    ensures !Truthy(date) ==> r == "-"
    ensures Truthy(date) ==> r == localeDate(date.value)
  {
    if Truthy(date) then localeDate(date.value) else "-"
  }

  /** The view's monthly test: won, and the name contains `Monthly` with that
      exact capitalisation. */
  predicate IsClientMonthlyWon(d: Deal) {
    IsClosedWon(d) && d.properties.dealname.Some? && Contains(d.properties.dealname.value, "Monthly")
  }

  /** `getMonthlyRevenue` */
  function ClientMonthlyRevenue(deals: seq<Deal>): real {
    SumAmounts(Filter(deals, IsClientMonthlyWon))
  }

  /** With no negative amount, the monthly revenue is part of the won revenue. */
  lemma ClientMonthlyAtMostTotal(deals: seq<Deal>)
    requires NonNegativeAmounts(deals)
    ensures ClientMonthlyRevenue(deals) <= ClosedWonRevenue(deals)
  {
    SumFilterMonotone(deals, IsClientMonthlyWon, IsClosedWon);
  }

  /** A name containing `Monthly` contains `monthly` once lower-cased. */
  lemma MonthlyLowerCased(name: string)
    requires Contains(name, "Monthly")
    ensures Contains(LowerCase(name), "monthly")
  {
    ContainsAt(name, "Monthly");
    var i :| OccursAt(name, "Monthly", i);
    var lower := LowerCase(name);
    forall k | 0 <= k < 7
      ensures lower[i + k] == "monthly"[k]
    {
      assert name[i + k] == "Monthly"[k];
    }
    assert lower[i..i + 7] == "monthly";
    assert OccursAt(lower, "monthly", i);
    ContainsAt(lower, "monthly");
  }

  /** Every deal this view counts as monthly, the proxy counts too, but not
      the other way round (the proxy lower-cases the name first): with no
      negative amount, this view's figure is at most the proxy's. */
  lemma ClientMonthlyAtMostServer(deals: seq<Deal>)
    requires NonNegativeAmounts(deals)
    ensures ClientMonthlyRevenue(deals) <= ServerMetrics.MonthlyRevenue(deals)
  {
    forall d | d in deals && IsClientMonthlyWon(d)
      ensures ServerMetrics.IsMonthlyWon(d)
    {
      MonthlyLowerCased(d.properties.dealname.value);
    }
    SumFilterMonotone(deals, IsClientMonthlyWon, ServerMetrics.IsMonthlyWon);
  }

  /** `getConversionRate`: 0 without deals, otherwise the won share of the
      deals as a rounded percentage. */
  function WonConversionRate(deals: seq<Deal>): (r: int)
    ensures 0 <= r <= 100
    ensures deals == [] ==> r == 0
    ensures deals != [] ==>
      r as real - 0.5 <= 100.0 * WonCount(deals) as real / |deals| as real < r as real + 0.5
    ensures deals != [] ==> (r == 100 <== WonCount(deals) == |deals|)
  {
    if |deals| > 0 then
      var n := |deals| as real;
      assert 100.0 * n / n == 100.0;
      ServerMetrics.Percentage(WonCount(deals), |deals|)
    else 0
  }

  /** A change record of one input. */
  datatype SimpleChange = SimpleChange(firstChange: bool)

  /** Whether a change record calls for a reload. */
  predicate Reloads(change: Option<SimpleChange>) {
    change.Some? && !change.value.firstChange
  }

  class ContactDeals {
    var contact: Contact
    var refreshTrigger: nat
    var deals: seq<Deal>
    var loading: bool
    var error: string
    /** The values emitted on `loadingStateChange`, in order. */
    var loadingEvents: seq<bool>
    const contactService: ContactApi.ContactService

    constructor(contact: Contact, refreshTrigger: nat, contactService: ContactApi.ContactService)
      ensures this.contact == contact && this.refreshTrigger == refreshTrigger
      ensures deals == [] && !loading && error == "" && loadingEvents == []
      ensures this.contactService == contactService
    {
      this.contact := contact;
      this.refreshTrigger := refreshTrigger;
      deals := [];
      loading := false;
      error := "";
      loadingEvents := [];
      this.contactService := contactService;
    }

    /** `loadDeals` up to the request: nothing without a contact id; otherwise
        loading starts, the error is cleared and `true` is emitted. Yields the
        id whose deals are requested. */
    method LoadDeals() returns (requested: Option<string>)
      modifies this
      ensures contact == old(contact) && refreshTrigger == old(refreshTrigger) && deals == old(deals)
      ensures !Truthy(contact.id) ==>
        requested.None? && loading == old(loading) && error == old(error) && loadingEvents == old(loadingEvents)
      ensures Truthy(contact.id) ==>
        requested == contact.id && loading && error == "" && loadingEvents == old(loadingEvents) + [true]
    {
      if !Truthy(contact.id) {
        return None;
      }
      loading := true;
      error := "";
      loadingEvents := loadingEvents + [true];
      requested := contact.id;
    }

    /** The request's `next`: the deals are shown and `false` is emitted. */
    method OnDealsLoaded(fetched: seq<Deal>)
      modifies this
      ensures deals == fetched && !loading && loadingEvents == old(loadingEvents) + [false]
      ensures error == old(error) && contact == old(contact) && refreshTrigger == old(refreshTrigger)
    {
      deals := fetched;
      loading := false;
      loadingEvents := loadingEvents + [false];
    }

    /** The request's `error`: the message is shown and `false` is emitted. */
    method OnDealsFailed(message: string)
      modifies this
      ensures error == message && !loading && loadingEvents == old(loadingEvents) + [false]
      ensures deals == old(deals) && contact == old(contact) && refreshTrigger == old(refreshTrigger)
    {
      error := message;
      loading := false;
      loadingEvents := loadingEvents + [false];
    }

    /** A whole load with the service's outcome: loading ends false either
        way, after emitting `true` then `false`. */
    method LoadDealsWith(outcome: Result<seq<Deal>, string>)
      modifies this
      ensures contact == old(contact) && refreshTrigger == old(refreshTrigger)
      ensures !Truthy(contact.id) ==>
        deals == old(deals) && loading == old(loading) && error == old(error) && loadingEvents == old(loadingEvents)
      ensures Truthy(contact.id) ==> !loading && loadingEvents == old(loadingEvents) + [true, false]
      ensures Truthy(contact.id) && outcome.Success? ==> deals == outcome.value && error == ""
      ensures Truthy(contact.id) && outcome.Failure? ==> deals == old(deals) && error == outcome.error
    {
      var requested := LoadDeals();
      if requested.Some? {
        match outcome {
          case Success(fetched) => OnDealsLoaded(fetched);
          case Failure(message) => OnDealsFailed(message);
        }
      }
    }

    /** `ngOnChanges`: one reload per input whose change is not the first.
        Yields the number of reloads started. */
    method OnChanges(refreshChange: Option<SimpleChange>, contactChange: Option<SimpleChange>) returns (reloads: nat)
      modifies this
      ensures reloads == (if Reloads(refreshChange) then 1 else 0) + (if Reloads(contactChange) then 1 else 0)
      ensures contact == old(contact) && refreshTrigger == old(refreshTrigger) && deals == old(deals)
      ensures !Truthy(contact.id) || reloads == 0 ==>
        loading == old(loading) && error == old(error) && loadingEvents == old(loadingEvents)
      ensures Truthy(contact.id) && reloads > 0 ==>
        loading && error == "" && loadingEvents == old(loadingEvents) + seq(reloads, _ => true)
    {
      reloads := 0;
      if Reloads(refreshChange) {
        var _ := LoadDeals();
        reloads := reloads + 1;
      }
      if Reloads(contactChange) {
        var _ := LoadDeals();
        reloads := reloads + 1;
      }
      if Truthy(contact.id) && reloads == 2 {
        assert loadingEvents == old(loadingEvents) + [true, true];
      }
    }

    /** `navigateToCreateDeal`: hands the contact to the shared holder. */
    method NavigateToCreateDeal()
      modifies contactService
      ensures contactService.GetSelectedContact() == Some(contact)
    {
      contactService.SetSelectedContact(contact);
    }
  }
}
