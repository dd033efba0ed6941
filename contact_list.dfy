/** The contact list: the fetched contacts, and per contact an expandable
    panel of its deals, kept in two maps keyed by contact id (the deals shown
    and whether they are still loading). */
module ContactListView {
  import opened Crm

  class ContactList {
    var contacts: seq<Contact>
    var loading: bool
    var error: string
    var loadingDeals: map<string, bool>
    var selectedContactDeals: map<string, seq<Deal>>
    /** The contacts emitted on `contactSelected`, in order. */
    var emitted: seq<Contact>

    constructor()
      ensures contacts == [] && !loading && error == ""
      ensures loadingDeals == map[] && selectedContactDeals == map[] && emitted == []
    {
      contacts := [];
      loading := false;
      error := "";
      loadingDeals := map[];
      selectedContactDeals := map[];
      emitted := [];
    }

    /** `loadContacts` up to the request: loading starts and the error is
        cleared. */
    method LoadContacts()
      modifies this
      ensures loading && error == ""
      ensures contacts == old(contacts) && loadingDeals == old(loadingDeals)
      ensures selectedContactDeals == old(selectedContactDeals) && emitted == old(emitted)
    {
      loading := true;
      error := "";
    }

    /** The request's `next`. */
    method OnContactsLoaded(fetched: seq<Contact>)
      modifies this
      ensures contacts == fetched && !loading && error == old(error)
      ensures loadingDeals == old(loadingDeals) && selectedContactDeals == old(selectedContactDeals)
      ensures emitted == old(emitted)
    {
      contacts := fetched;
      loading := false;
    }

    /** The request's `error`: the message of the service's error. */
    method OnContactsFailed(message: string)
      modifies this
      ensures error == message && !loading && contacts == old(contacts)
      ensures loadingDeals == old(loadingDeals) && selectedContactDeals == old(selectedContactDeals)
      ensures emitted == old(emitted)
    {
      error := message;
      loading := false;
    }

    /** A whole `loadContacts` with the service's outcome: loading is over
        either way, and the error is set only on failure. */
    method LoadContactsWith(outcome: Result<seq<Contact>, string>)
      modifies this
      ensures !loading
      ensures outcome.Success? ==> contacts == outcome.value && error == ""
      ensures outcome.Failure? ==> contacts == old(contacts) && error == outcome.error
      ensures loadingDeals == old(loadingDeals) && selectedContactDeals == old(selectedContactDeals)
      ensures emitted == old(emitted)
    {
      LoadContacts();
      match outcome {
        case Success(fetched) => OnContactsLoaded(fetched);
        case Failure(message) => OnContactsFailed(message);
      }
    }

    /** `selectContact`: emits the contact as it is. */
    method SelectContact(contact: Contact)
      modifies this
      ensures emitted == old(emitted) + [contact]
      ensures contacts == old(contacts) && loading == old(loading) && error == old(error)
      ensures loadingDeals == old(loadingDeals) && selectedContactDeals == old(selectedContactDeals)
    {
      emitted := emitted + [contact];
    }

    /** `toggleDeals` up to the request. Without an id nothing happens; a shown
        panel (even one with no deals, as an array is truthy) is collapsed by
        dropping its key alone; otherwise the id is marked loading and
        yielded as the id whose deals are requested. */
    method ToggleDeals(contact: Contact) returns (requested: Option<string>)
      modifies this
      ensures contacts == old(contacts) && loading == old(loading) && error == old(error)
      ensures emitted == old(emitted)
      ensures !Truthy(contact.id) ==>
        requested.None? && loadingDeals == old(loadingDeals) && selectedContactDeals == old(selectedContactDeals)
      ensures Truthy(contact.id) && contact.id.value in old(selectedContactDeals) ==>
        requested.None? && loadingDeals == old(loadingDeals)
        && selectedContactDeals == old(selectedContactDeals) - {contact.id.value}
      ensures Truthy(contact.id) && contact.id.value !in old(selectedContactDeals) ==>
        requested == contact.id && loadingDeals == old(loadingDeals)[contact.id.value := true]
        && selectedContactDeals == old(selectedContactDeals)
    {
      if !Truthy(contact.id) {
        return None;
      }
      var id := contact.id.value;
      var current := selectedContactDeals;
      if id in current {
        selectedContactDeals := current - {id};
        return None;
      }
      loadingDeals := loadingDeals[id := true];
      requested := Some(id);
    }

    /** The deal request's `next`: the deals are shown under the id, which is
        no longer loading. */
    method OnDealsLoaded(id: string, deals: seq<Deal>)
      modifies this
      ensures selectedContactDeals == old(selectedContactDeals)[id := deals]
      ensures loadingDeals == old(loadingDeals)[id := false]
      ensures contacts == old(contacts) && loading == old(loading) && error == old(error)
      ensures emitted == old(emitted)
    {
      selectedContactDeals := selectedContactDeals[id := deals];
      loadingDeals := loadingDeals[id := false];
    }

    /** The deal request's `error`: the id is no longer loading and no panel
        is added. */
    method OnDealsFailed(id: string)
      modifies this
      ensures selectedContactDeals == old(selectedContactDeals)
      ensures loadingDeals == old(loadingDeals)[id := false]
      ensures contacts == old(contacts) && loading == old(loading) && error == old(error)
      ensures emitted == old(emitted)
    {
      loadingDeals := loadingDeals[id := false];
    }

    /** A whole `toggleDeals` with the service's outcome for the contact. */
    method ToggleDealsWith(contact: Contact, outcome: Result<seq<Deal>, string>)
      modifies this
      ensures contacts == old(contacts) && loading == old(loading) && error == old(error)
      ensures emitted == old(emitted)
      ensures !Truthy(contact.id) ==>
        loadingDeals == old(loadingDeals) && selectedContactDeals == old(selectedContactDeals)
      ensures Truthy(contact.id) && contact.id.value in old(selectedContactDeals) ==>
        loadingDeals == old(loadingDeals) && selectedContactDeals == old(selectedContactDeals) - {contact.id.value}
      ensures Truthy(contact.id) && contact.id.value !in old(selectedContactDeals) ==>
        loadingDeals == old(loadingDeals)[contact.id.value := false]
      ensures Truthy(contact.id) && contact.id.value !in old(selectedContactDeals) && outcome.Success? ==>
        selectedContactDeals == old(selectedContactDeals)[contact.id.value := outcome.value]
      ensures Truthy(contact.id) && contact.id.value !in old(selectedContactDeals) && outcome.Failure? ==>
        selectedContactDeals == old(selectedContactDeals)
    {
      var requested := ToggleDeals(contact);
      if requested.Some? {
        var id := requested.value;
        match outcome {
          case Success(deals) => OnDealsLoaded(id, deals);
          case Failure(_) => OnDealsFailed(id);
        }
      }
    }
  }

  /** Expanding a collapsed panel, with the deals fetched, and then collapsing
      it restores the shown panels; the id stays recorded as not loading. */
  method ExpandThenCollapse(list: ContactList, contact: Contact, deals: seq<Deal>)
    requires Truthy(contact.id) && contact.id.value !in list.selectedContactDeals
    modifies list
    ensures list.selectedContactDeals == old(list.selectedContactDeals)
    ensures list.loadingDeals == old(list.loadingDeals)[contact.id.value := false]
    ensures list.contacts == old(list.contacts) && list.emitted == old(list.emitted)
  {
    list.ToggleDealsWith(contact, Success(deals));
    list.ToggleDealsWith(contact, Success(deals));
    assert list.selectedContactDeals == old(list.selectedContactDeals)[contact.id.value := deals] - {contact.id.value};
  }
}
