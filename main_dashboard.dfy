/** The dashboard shell: the side menu with its open groups and active entry,
    the selected contact, and the counter the contact-deals view watches to
    reload. */
module MainDashboardView {
  import opened Crm
  import ContactApi

  /** The open groups after toggling `menu`: closed if it was open, opened
      otherwise. */
  function Toggled(open: set<string>, menu: string): (r: set<string>)
    ensures menu in r <==> menu !in open
    ensures forall m :: m != menu ==> (m in r <==> m in open)
  {
    if menu in open then open - {menu} else open + {menu}
  }

  /** Toggling the same group twice restores the open groups. */
  lemma ToggledTwice(open: set<string>, menu: string)
    ensures Toggled(Toggled(open, menu), menu) == open
  {
    var once := Toggled(open, menu);
    assert forall m :: m in Toggled(once, menu) <==> m in open;
  }

  /** The fixed titles of the sub-menu entries. */
  const FixedTitles: map<string, string> := map[
    "show-contacts" := "Show Contacts",
    "add-contact" := "Add Contact",
    "all-deals" := "All Deals",
    "create-deal" := "Create Deal",
    "ai-insights" := "AI Insights",
    "active-subscriptions" := "Active Subscriptions"]

  /** `getPageTitle`: a fixed title per entry; the contact-deals title names
      the selected contact; anything else is the overview. */
  function PageTitle(subMenu: string, selected: Option<Contact>): (r: string)
    ensures subMenu in FixedTitles ==> r == FixedTitles[subMenu]
    ensures subMenu == "contact-deals" && selected.None? ==> r == "Contact Deals"
    ensures subMenu == "contact-deals" && selected.Some? ==>
      r == "Deals - " + Interpolated(selected.value.properties.firstname) + " "
                      + Interpolated(selected.value.properties.lastname)
    ensures subMenu !in FixedTitles && subMenu != "contact-deals" ==> r == "Dashboard Overview"
  {
    match subMenu
    case "show-contacts" => "Show Contacts"
    case "add-contact" => "Add Contact"
    case "contact-deals" =>
      if selected.Some? then
        "Deals - " + Interpolated(selected.value.properties.firstname) + " "
                   + Interpolated(selected.value.properties.lastname)
      else "Contact Deals"
    case "all-deals" => "All Deals"
    case "create-deal" => "Create Deal"
    case "ai-insights" => "AI Insights"
    case "active-subscriptions" => "Active Subscriptions"
    case _ => "Dashboard Overview"
  }

  const OverviewDescription := "Manage your Breezy customer data and subscriptions"

  /** `getPageDescription` */
  function PageDescription(subMenu: string, selected: Option<Contact>): string {
    match subMenu
    case "show-contacts" => "View and manage all contacts synced with HubSpot"
    case "add-contact" => "Add a new contact to sync with HubSpot"
    case "contact-deals" =>
      if selected.Some? then
        "View subscription deals for " + Interpolated(selected.value.properties.firstname) + " "
                                       + Interpolated(selected.value.properties.lastname)
      else "Select a contact to view their subscription deals"
    case "all-deals" => "View all subscription deals and revenue"
    case "create-deal" => "Convert trial customers to paid subscriptions"
    case "ai-insights" => "Get AI-powered insights about your customers and business"
    case "active-subscriptions" => "View customers with active paid subscriptions and revenue analysis"
    case _ => OverviewDescription
  }

  /** The contact-deals description of a selected contact names it, and so
      is not the overview description. */
  lemma SelectedContactDescription(selected: Option<Contact>)
    requires selected.Some?
    ensures PageDescription("contact-deals", selected) == "View subscription deals for "
      + Interpolated(selected.value.properties.firstname) + " "
      + Interpolated(selected.value.properties.lastname)
    ensures PageDescription("contact-deals", selected) != OverviewDescription
  {
    var d := PageDescription("contact-deals", selected);
    assert d[0] == 'V';
    assert OverviewDescription == "Manage your Breezy customer " + "data and subscriptions";
    assert OverviewDescription[0] == 'M';
  }

  /** Only the overview entry, and the unknown ones, have the overview
      description. */
  lemma OverviewDescriptionOnlyByDefault(subMenu: string, selected: Option<Contact>)
    ensures PageDescription(subMenu, selected) == OverviewDescription <==>
      subMenu !in FixedTitles && subMenu != "contact-deals"
  {
    if subMenu == "contact-deals" && selected.Some? {
      SelectedContactDescription(selected);
    }
  }

  /** Only the overview entry, and the unknown ones, have the overview title. */
  lemma OverviewTitleOnlyByDefault(subMenu: string, selected: Option<Contact>)
    ensures PageTitle(subMenu, selected) == "Dashboard Overview" <==>
      subMenu !in FixedTitles && subMenu != "contact-deals"
  {
    if subMenu == "contact-deals" && selected.Some? {
      var t := PageTitle(subMenu, selected);
      assert t[..8] == "Deals - ";
      assert t[1] == 'e';
      assert "Dashboard Overview"[1] == 'a';
    }
  }

  class MainDashboard {
    var activeMenu: string
    var activeSubMenu: string
    var openMenus: set<string>
    var selectedContact: Option<Contact>
    var refreshTrigger: nat
    var refreshingDeals: bool
    const contactService: ContactApi.ContactService

    constructor(contactService: ContactApi.ContactService)
      ensures activeMenu == "contacts" && openMenus == {"contacts"} && activeSubMenu == ""
      ensures refreshTrigger == 0 && selectedContact.None? && !refreshingDeals
      ensures this.contactService == contactService
    {
      activeMenu := "contacts";
      activeSubMenu := "";
      openMenus := {"contacts"};
      selectedContact := None;
      refreshTrigger := 0;
      refreshingDeals := false;
      this.contactService := contactService;
    }

    /** `ngOnInit`: takes over the contact the service still holds. */
    method OnInit()
      modifies this
      ensures contactService.GetSelectedContact().Some? ==> selectedContact == contactService.GetSelectedContact()
      ensures contactService.GetSelectedContact().None? ==> selectedContact == old(selectedContact)
      ensures activeMenu == old(activeMenu) && activeSubMenu == old(activeSubMenu) && openMenus == old(openMenus)
      ensures refreshTrigger == old(refreshTrigger) && refreshingDeals == old(refreshingDeals)
    {
      var saved := contactService.GetSelectedContact();
      if saved.Some? {
        selectedContact := saved;
      }
    }

    predicate IsMenuOpen(menu: string)
      reads this
    {
      menu in openMenus
    }

    /** `toggleMenu`: flips the group, makes it the active one, and clears the
        sub-menu only when the active group is closed. */
    method ToggleMenu(menu: string)
      modifies this
      ensures openMenus == Toggled(old(openMenus), menu)
      ensures activeMenu == menu
      ensures activeSubMenu == (if menu in old(openMenus) && old(activeMenu) == menu then "" else old(activeSubMenu))
      ensures selectedContact == old(selectedContact) && refreshTrigger == old(refreshTrigger)
      ensures refreshingDeals == old(refreshingDeals)
    {
      var current := openMenus;
      if menu in current {
        current := current - {menu};
        if activeMenu == menu {
          activeSubMenu := "";
        }
      } else {
        current := current + {menu};
      }
      openMenus := current;
      activeMenu := menu;
    }

    /** `refreshContactDeals`: one more reload, when a contact is selected. */
    method RefreshContactDeals()
      modifies this
      ensures refreshTrigger == old(refreshTrigger) + (if selectedContact.Some? then 1 else 0)
      ensures activeMenu == old(activeMenu) && activeSubMenu == old(activeSubMenu) && openMenus == old(openMenus)
      ensures selectedContact == old(selectedContact) && refreshingDeals == old(refreshingDeals)
    {
      if selectedContact.Some? {
        refreshTrigger := refreshTrigger + 1;
      }
    }

    /** `setActiveSubMenu`: entering the contact-deals entry with a contact
        selected reloads it. */
    method SetActiveSubMenu(subMenu: string)
      modifies this
      ensures activeSubMenu == subMenu
      ensures refreshTrigger == old(refreshTrigger) + (if subMenu == "contact-deals" && selectedContact.Some? then 1 else 0)
      ensures activeMenu == old(activeMenu) && openMenus == old(openMenus)
      ensures selectedContact == old(selectedContact) && refreshingDeals == old(refreshingDeals)
    {
      activeSubMenu := subMenu;
      if subMenu == "contact-deals" && selectedContact.Some? {
        RefreshContactDeals();
      }
    }

    /** `onContactSelected`: one reload, or two when contact-deals was already
        showing. */
    method OnContactSelected(contact: Contact)
      modifies this, contactService
      ensures selectedContact == Some(contact) && contactService.GetSelectedContact() == Some(contact)
      ensures activeSubMenu == "contact-deals"
      ensures refreshTrigger == old(refreshTrigger) + (if old(activeSubMenu) == "contact-deals" then 2 else 1)
      ensures activeMenu == old(activeMenu) && openMenus == old(openMenus) && refreshingDeals == old(refreshingDeals)
    {
      selectedContact := Some(contact);
      contactService.SetSelectedContact(contact);
      if activeSubMenu == "contact-deals" {
        RefreshContactDeals();
      }
      SetActiveSubMenu("contact-deals");
    }

    /** `onContactCreated`: always two reloads. */
    method OnContactCreated(contact: Contact)
      modifies this, contactService
      ensures selectedContact == Some(contact) && contactService.GetSelectedContact() == Some(contact)
      ensures activeSubMenu == "contact-deals"
      ensures refreshTrigger == old(refreshTrigger) + 2
      ensures activeMenu == old(activeMenu) && openMenus == old(openMenus) && refreshingDeals == old(refreshingDeals)
    {
      selectedContact := Some(contact);
      contactService.SetSelectedContact(contact);
      SetActiveSubMenu("contact-deals");
      RefreshContactDeals();
    }

    /** `onDealCreated`: reloads only from the two deal entries. */
    method OnDealCreated()
      modifies this
      ensures refreshTrigger == old(refreshTrigger)
        + (if (activeSubMenu == "contact-deals" || activeSubMenu == "all-deals") && selectedContact.Some? then 1 else 0)
      ensures activeMenu == old(activeMenu) && activeSubMenu == old(activeSubMenu) && openMenus == old(openMenus)
      ensures selectedContact == old(selectedContact) && refreshingDeals == old(refreshingDeals)
    {
      if activeSubMenu == "contact-deals" || activeSubMenu == "all-deals" {
        RefreshContactDeals();
      }
    }

    method OnDealsLoadingStateChange(loading: bool)
      modifies this
      ensures refreshingDeals == loading
      ensures activeMenu == old(activeMenu) && activeSubMenu == old(activeSubMenu) && openMenus == old(openMenus)
      ensures selectedContact == old(selectedContact) && refreshTrigger == old(refreshTrigger)
    {
      refreshingDeals := loading;
    }

    function GetPageTitle(): string
      reads this
    {
      PageTitle(activeSubMenu, selectedContact)
    }

    function GetPageDescription(): string
      reads this
    {
      PageDescription(activeSubMenu, selectedContact)
    }
  }

  /** Toggling a group twice, from any state, restores the open groups but
      not always the sub-menu: opening a group makes it active, so closing it
      again clears the sub-menu. */
  method ToggleTwiceRestores(dashboard: MainDashboard, menu: string)
    modifies dashboard
    ensures dashboard.openMenus == old(dashboard.openMenus)
    ensures dashboard.activeMenu == menu
    ensures menu !in old(dashboard.openMenus) ==> dashboard.activeSubMenu == ""
    ensures menu in old(dashboard.openMenus) ==>
      dashboard.activeSubMenu == (if old(dashboard.activeMenu) == menu then "" else old(dashboard.activeSubMenu))
  {
    dashboard.ToggleMenu(menu);
    dashboard.ToggleMenu(menu);
    ToggledTwice(old(dashboard.openMenus), menu);
  }
}
