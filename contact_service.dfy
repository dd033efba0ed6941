/** The dashboard's contact service: the contact calls, and the holder of the
    contact the user selected. */
module ContactApi {
  import opened Crm
  import opened HttpErrors

  /** The selected-contact holder; `None` is `null`. */
  class ContactService {
    var selectedContact: Option<Contact>

    /** Nothing is selected at first. */
    constructor()
      ensures GetSelectedContact() == None
    {
      selectedContact := None;
    }

    function GetSelectedContact(): Option<Contact>
      reads this
    {
      selectedContact
    }

    /** Whatever was selected before, `contact` is selected afterwards. */
    method SetSelectedContact(contact: Contact)
      modifies this
      ensures GetSelectedContact() == Some(contact)
    {
      selectedContact := Some(contact);
    }

    method ClearSelectedContact()
      modifies this
      ensures GetSelectedContact() == None
    {
      selectedContact := None;
    }

    /** `getContactDeals` is a stub that always throws. */
    function GetContactDeals(id: string): (r: Result<seq<Deal>, string>)
      ensures r.Failure? && r.error == "Method not implemented."
    {
      Failure("Method not implemented.")
    }
  }

  /** `getContacts` */
  function GetContacts(response: Result<Option<seq<Contact>>, HttpErrorResponse>): (r: Result<seq<Contact>, string>)
    ensures response.Success? ==> r == Success(response.value.GetOr([]))
    ensures response.Failure? ==> r.Failure? && r.error == ErrorMessage(response.error)
  {
    FetchList(response)
  }

  /** `createContact`: the created contact, or the error message. */
  function CreateContact(response: Result<Contact, HttpErrorResponse>): (r: Result<Contact, string>)
    ensures response.Success? ==> r == Success(response.value)
    ensures response.Failure? ==> r.Failure? && r.error == ErrorMessage(response.error)
  {
    Caught(response)
  }

  /** Selecting twice keeps only the second contact, and clearing afterwards
      leaves nothing selected. */
  method SelectionSequence(first: Contact, second: Contact) returns (afterSets: Option<Contact>, afterClear: Option<Contact>)
    ensures afterSets == Some(second)
    ensures afterClear == None
  {
    var service := new ContactService();
    service.SetSelectedContact(first);
    service.SetSelectedContact(second);
    afterSets := service.GetSelectedContact();
    service.ClearSelectedContact();
    afterClear := service.GetSelectedContact();
  }
}
