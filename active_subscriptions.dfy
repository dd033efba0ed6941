/** The active-subscriptions view: pick a customer by id, then show the
    customer's won deals and their summed amount. */
module ActiveSubscriptionsView {
  import opened Crm
  import opened Text
  import opened Revenue
  import StageFormat
  import ServerMetrics

  /** The subscription summary of a customer: the won deals, in order, and the
      sum of all their amounts, whatever the deal names. */
  function Summary(customer: Contact, deals: seq<Deal>): (r: CustomerWithSubscriptions)
    ensures r.contact == customer
    ensures |r.activeSubscriptions| <= |deals|
    ensures forall d :: d in r.activeSubscriptions <==> d in deals && IsClosedWon(d)
    ensures r.totalMonthlyRevenue == ClosedWonRevenue(deals)
  {
    CustomerWithSubscriptions(customer, ClosedWon(deals), SumAmounts(ClosedWon(deals)))
  }

  /** `formatDealStage`: `'Unknown'` for an undefined or empty stage. */
  function FormatStage(stage: Option<string>): (r: string)
    ensures !Truthy(stage) ==> r == "Unknown"
    ensures Truthy(stage) ==> r == StageFormat.FormatDealStage(stage.value)
    ensures r == [] || (!IsWhitespace(r[0]) && !IsWhitespace(r[|r| - 1]))
  {
    if !Truthy(stage) then "Unknown" else StageFormat.FormatDealStage(stage.value)
  }

  class ActiveSubscriptions {
    var contacts: seq<Contact>
    var contactsLoading: bool
    var subscriptionsLoading: bool
    var error: string
    var selectedCustomerId: string
    var selectedCustomer: Option<Contact>
    var customerSubscription: Option<CustomerWithSubscriptions>

    constructor()
      ensures contacts == [] && !contactsLoading && !subscriptionsLoading && error == ""
      ensures selectedCustomerId == "" && selectedCustomer.None? && customerSubscription.None?
    {
      contacts := [];
      contactsLoading := false;
      subscriptionsLoading := false;
      error := "";
      selectedCustomerId := "";
      selectedCustomer := None;
      customerSubscription := None;
    }

    /** `loadContacts` once the awaited list is in: the list (or `[]` when the
        promise resolves to nothing), or the fixed error message with the old
        list kept. Loading is over either way. */
    method LoadContacts(fetched: Result<Option<seq<Contact>>, Thrown>)
      modifies this
      ensures !contactsLoading
      ensures fetched.Success? ==> contacts == fetched.value.GetOr([]) && error == ""
      ensures fetched.Failure? ==> contacts == old(contacts) && error == "Failed to load customers"
      ensures subscriptionsLoading == old(subscriptionsLoading)
      ensures selectedCustomerId == old(selectedCustomerId) && selectedCustomer == old(selectedCustomer)
      ensures customerSubscription == old(customerSubscription)
    {
      contactsLoading := true;
      error := "";
      match fetched {
        case Success(list) =>
          contacts := list.GetOr([]);
        case Failure(_) =>
          error := "Failed to load customers";
      }
      contactsLoading := false;
    }

    /** `onCustomerSelected`; `dealsFor` stands for the awaited
        `getDealsForContact`. */
    method OnCustomerSelected(dealsFor: string -> Result<Option<seq<Deal>>, Thrown>)
      modifies this
      ensures contacts == old(contacts) && contactsLoading == old(contactsLoading)
      ensures selectedCustomerId == old(selectedCustomerId)
      // An empty id clears the selection and touches nothing else.
      ensures selectedCustomerId == "" ==>
        selectedCustomer.None? && customerSubscription.None?
        && error == old(error) && subscriptionsLoading == old(subscriptionsLoading)
      ensures selectedCustomerId != "" ==> !subscriptionsLoading
      // An id that no contact has is an error.
      ensures selectedCustomerId != "" && FindContact(contacts, selectedCustomerId).None? ==>
        error == "Selected customer not found" && customerSubscription.None?
        && selectedCustomer == old(selectedCustomer)
      ensures selectedCustomerId != "" && FindContact(contacts, selectedCustomerId).Some? ==>
        var customer := FindContact(contacts, selectedCustomerId).value;
        var outcome := dealsFor(selectedCustomerId);
        selectedCustomer == Some(customer)
        && (outcome.Success? ==>
              customerSubscription == Some(Summary(customer, outcome.value.GetOr([]))) && error == "")
        && (outcome.Failure? ==> customerSubscription.None? && error == MessageOr(outcome.error, "Failed to load subscription data"))
    {
      var customerId := selectedCustomerId;
      if customerId == "" {
        selectedCustomer := None;
        customerSubscription := None;
        return;
      }
      subscriptionsLoading := true;
      error := "";
      var found := FindContact(contacts, customerId);
      if found.None? {
        error := "Selected customer not found";
        customerSubscription := None;
      } else {
        var customer := found.value;
        selectedCustomer := Some(customer);
        var outcome := dealsFor(customerId);
        match outcome {
          case Success(deals) =>
            customerSubscription := Some(Summary(customer, deals.GetOr([])));
          case Failure(t) =>
            error := MessageOr(t, "Failed to load subscription data");
            customerSubscription := None;
        }
      }
      subscriptionsLoading := false;
    }

    method ClearError()
      modifies this
      ensures error == ""
      ensures contacts == old(contacts) && contactsLoading == old(contactsLoading)
      ensures subscriptionsLoading == old(subscriptionsLoading)
      ensures selectedCustomerId == old(selectedCustomerId) && selectedCustomer == old(selectedCustomer)
      ensures customerSubscription == old(customerSubscription)
    {
      error := "";
    }
  }

  /** The summary of a concatenation is the concatenation of the summaries'
      sub-lists, and its revenue the sum of their revenues. */
  lemma SummaryOfAppend(customer: Contact, a: seq<Deal>, b: seq<Deal>)
    ensures Summary(customer, a + b).activeSubscriptions
         == Summary(customer, a).activeSubscriptions + Summary(customer, b).activeSubscriptions
    ensures Summary(customer, a + b).totalMonthlyRevenue
         == Summary(customer, a).totalMonthlyRevenue + Summary(customer, b).totalMonthlyRevenue
  {
    FilterAppend(a, b, IsClosedWon);
    ClosedWonRevenueAppend(a, b);
  }

  /** The summary's revenue counts every won deal, monthly-named or not, so
      with no negative amount it is at least the proxy's monthly revenue for
      the same deals. */
  lemma SummaryCoversMonthlyRevenue(customer: Contact, deals: seq<Deal>)
    requires NonNegativeAmounts(deals)
    ensures 0.0 <= ServerMetrics.MonthlyRevenue(deals) <= Summary(customer, deals).totalMonthlyRevenue
  {
    ServerMetrics.MonthlyRevenueAtMostWonRevenue(deals);
  }
}
