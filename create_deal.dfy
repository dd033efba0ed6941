/** The deal-creation form: the amount pattern, the subscription templates,
    the form's defaults and the request it sends. */
module CreateDealView {
  import opened Crm
  import opened Text
  import DealApi
  import ServerCrm

  /** The number of leading decimal digits. */
  function LeadingDigits(s: string): (n: nat)
    ensures n <= |s|
    ensures forall i :: 0 <= i < n ==> IsDigit(s[i])
    ensures n < |s| ==> !IsDigit(s[n])
  {
    if s == [] || !IsDigit(s[0]) then 0 else 1 + LeadingDigits(s[1..])
  }

  /** `/^\d+(\.\d{1,2})?$/` as a matcher: the greedy run of digits, then
      either the end or a point followed by one or two digits and the end. */
  predicate MatchesAmountPattern(s: string) {
    var n := LeadingDigits(s);
    n >= 1 && (n == |s| || (s[n] == '.' && 2 <= |s| - n <= 3 && AllDigits(s[n + 1..])))
  }

  /** The strings the pattern describes: digits only, or some digits, a point
      and one or two digits. */
  predicate AmountShape(s: string) {
    || (|s| >= 1 && AllDigits(s))
    || (exists k :: 1 <= k < |s| && s[k] == '.' && |s| - k - 1 in {1, 2} && AllDigits(s[..k]) && AllDigits(s[k + 1..]))
  }

  lemma {:induction false} LeadingDigitsExact(s: string, k: nat)
    requires k <= |s| && AllDigits(s[..k]) && (k == |s| || !IsDigit(s[k]))
    ensures LeadingDigits(s) == k
  {
    if k > 0 {
      assert IsDigit(s[..k][0]);
      assert s[1..][..k - 1] == s[..k][1..];
      LeadingDigitsExact(s[1..], k - 1);
    } else if s != [] {
      assert !IsDigit(s[0]);
    }
  }

  /** The matcher accepts exactly the strings of the pattern. */
  lemma AmountPatternMeaning(s: string)
    ensures MatchesAmountPattern(s) <==> AmountShape(s)
  {
    var n := LeadingDigits(s);
    assert AllDigits(s[..n]);
    if MatchesAmountPattern(s) && n < |s| {
      assert |s| - n - 1 in {1, 2};
    }
    if AmountShape(s) {
      if |s| >= 1 && AllDigits(s) {
        assert s[..|s|] == s;
        LeadingDigitsExact(s, |s|);
      } else {
        var k :| 1 <= k < |s| && s[k] == '.' && |s| - k - 1 in {1, 2} && AllDigits(s[..k]) && AllDigits(s[k + 1..]);
        LeadingDigitsExact(s, k);
      }
    }
  }

  /** The amount control: `Validators.required`, then `Validators.pattern`. */
  predicate AmountValid(amount: string) {
    amount != "" && MatchesAmountPattern(amount)
  }

  lemma AcceptedAmountExamples(cents: string, whole: string)
    requires cents == "9.99" && whole == "99"
    ensures AmountValid(cents) && AmountValid(whole)
  {
    assert LeadingDigits(cents[2..]) == 2;
    assert LeadingDigits(cents[1..]) == 0;
    assert LeadingDigits(cents) == 1;
    assert cents[2..] == "99";
    assert LeadingDigits(whole[1..]) == 1;
  }

  lemma RejectedAmountExamples(point: string, fraction: string, long: string)
    requires point == "9." && fraction == ".5" && long == "1.234"
    ensures !AmountValid(point) && !AmountValid(fraction) && !AmountValid(long)
  {
    assert LeadingDigits(point[1..]) == 0;
    assert LeadingDigits(point) == 1;
    assert LeadingDigits(fraction) == 0;
    assert LeadingDigits(long[1..]) == 0;
    assert LeadingDigits(long) == 1;
  }

  /** One entry of the subscription template list. */
  datatype Template = Template(name: string, amount: string, stage: string)

  /** `getSubscriptionTemplates` */
  const Templates: seq<Template> := [
    Template("Breezy Premium - Monthly Subscription", "9.99", "closedwon"),
    Template("Breezy Premium - Annual Subscription", "99", "closedwon"),
    Template("Breezy Premium - Lifetime Access", "299", "closedwon"),
    Template("Trial Extension - 60 Days", "0", "presentationscheduled"),
    Template("Failed Conversion - Trial Expired", "0", "closedlost")]

  lemma TemplateAmounts(a: string, b: string, c: string, z: string)
    requires a == "9.99" && b == "99" && c == "299" && z == "0"
    ensures AmountValid(a) && AmountValid(b) && AmountValid(c) && AmountValid(z)
  {
    AcceptedAmountExamples(a, b);
    assert LeadingDigits(c[2..]) == 1;
    assert LeadingDigits(c[1..]) == 2;
    assert LeadingDigits(z[1..]) == 0;
  }

  /** A template the form accepts: a name, a valid amount and a stage of the
      pipeline. */
  predicate TemplateFits(t: Template) {
    t.name != "" && AmountValid(t.amount) && t.stage in DealApi.DealStages()
  }

  /** Every template fits the form. */
  lemma TemplatesWellFormed()
    ensures forall t :: t in Templates ==> TemplateFits(t)
  {
    var ts := Templates;
    TemplateAmounts(ts[0].amount, ts[1].amount, ts[2].amount, ts[3].amount);
    var stages := DealApi.DealStages();
    assert "closedwon" in stages && "closedlost" in stages && "presentationscheduled" in stages;
    assert TemplateFits(ts[0]) && TemplateFits(ts[1]) && TemplateFits(ts[2]);
    assert TemplateFits(ts[3]) && TemplateFits(ts[4]);
    forall t | t in ts
      ensures TemplateFits(t)
    {
      assert t == ts[0] || t == ts[1] || t == ts[2] || t == ts[3] || t == ts[4];
    }
  }

  /** No two templates share a name, so the lookup by name is unambiguous. */
  lemma TemplateNamesDistinct()
    ensures forall i, j :: 0 <= i < j < |Templates| ==> Templates[i].name != Templates[j].name
  {
    var ts := Templates;
    assert ts[0].name[0] == ts[1].name[0] == ts[2].name[0] == 'B';
    assert ts[0].name[17] == 'M' && ts[1].name[17] == 'A' && ts[2].name[17] == 'L';
    assert ts[3].name[0] == 'T' && ts[4].name[0] == 'F';
  }

  /** `templates.find(t => t.name === name)` */
  function FindTemplate(ts: seq<Template>, name: string): (r: Option<Template>)
    ensures r.None? <==> forall t :: t in ts ==> t.name != name
    ensures r.Some? ==> r.value in ts && r.value.name == name
  {
    if ts == [] then None
    else if ts[0].name == name then Some(ts[0])
    else FindTemplate(ts[1..], name)
  }

  /** The deal fields of the request. */
  datatype DealFields = DealFields(dealname: string, amount: string, dealstage: string, pipeline: string)

  /** `CreateDealRequest`: the deal fields and the contact to associate. */
  datatype CreateDealRequest = CreateDealRequest(dealProperties: DealFields, contactId: string)

  /** The form's deal fields after a template is chosen by name: a known
      name fills in the deal's name, amount and stage; an unknown one changes
      nothing; the pipeline is never touched. */
  function ApplyTemplate(f: DealFields, value: string): (r: DealFields)
    ensures r.pipeline == f.pipeline
    ensures FindTemplate(Templates, value).None? ==> r == f
    ensures FindTemplate(Templates, value).Some? ==>
      var t := FindTemplate(Templates, value).value;
      r.dealname == t.name && r.amount == t.amount && r.dealstage == t.stage
  {
    var selected := FindTemplate(Templates, value);
    if selected.Some? then f.(dealname := selected.value.name, amount := selected.value.amount, dealstage := selected.value.stage)
    else f
  }

  /** The request's deal fields as the JSON body the proxy passes on. */
  function FieldsJson(f: DealFields): Json {
    JObject(map["dealname" := JString(f.dealname), "amount" := JString(f.amount),
                "dealstage" := JString(f.dealstage), "pipeline" := JString(f.pipeline)])
  }

  function CreatedMessage(response: Deal): string {
    "\U{2705} Deal \"" + Interpolated(response.properties.dealname) + "\" successfully created in HubSpot!"
  }

  function FailedMessage(message: string): string {
    "\U{274C} Failed to create deal: " + message
  }

  class CreateDeal {
    var contactId: string
    var dealname: string
    var amount: string
    var dealstage: string
    var pipeline: string
    var contacts: seq<Contact>
    var dealStages: seq<string>
    var loadingContacts: bool
    var submitting: bool
    var successMessage: string
    var errorMessage: string

    /** The form's defaults. */
    constructor()
      ensures contactId == "" && dealname == "" && amount == ""
      ensures dealstage == "closedwon" && pipeline == "default"
      ensures contacts == [] && dealStages == [] && !loadingContacts && !submitting
      ensures successMessage == "" && errorMessage == ""
    {
      contactId, dealname, amount := "", "", "";
      dealstage, pipeline := "closedwon", "default";
      contacts, dealStages := [], [];
      loadingContacts, submitting := false, false;
      successMessage, errorMessage := "", "";
    }

    /** `dealForm.valid` */
    predicate FormValid()
      reads this
    {
      contactId != "" && dealname != "" && AmountValid(amount) && dealstage != ""
    }

    /** `ngOnInit` up to the contact request: the stage list, and the
        preselected contact's id when it has one. */
    method OnInit(preselected: Option<Contact>)
      modifies this
      ensures loadingContacts && dealStages == DealApi.DealStages()
      ensures preselected.Some? && Truthy(preselected.value.id) ==> contactId == preselected.value.id.value
      ensures !(preselected.Some? && Truthy(preselected.value.id)) ==> contactId == old(contactId)
      ensures dealname == old(dealname) && amount == old(amount) && dealstage == old(dealstage)
      ensures pipeline == old(pipeline) && contacts == old(contacts) && submitting == old(submitting)
      ensures successMessage == old(successMessage) && errorMessage == old(errorMessage)
    {
      loadingContacts := true;
      dealStages := DealApi.DealStages();
      if preselected.Some? && Truthy(preselected.value.id) {
        contactId := preselected.value.id.value;
      }
    }

    method OnContactsLoaded(fetched: seq<Contact>)
      modifies this
      ensures contacts == fetched && !loadingContacts
      ensures contactId == old(contactId) && dealname == old(dealname) && amount == old(amount)
      ensures dealstage == old(dealstage) && pipeline == old(pipeline) && dealStages == old(dealStages)
      ensures submitting == old(submitting) && successMessage == old(successMessage) && errorMessage == old(errorMessage)
    {
      contacts := fetched;
      loadingContacts := false;
    }

    /** A failed contact request only ends the loading. */
    method OnContactsFailed()
      modifies this
      ensures !loadingContacts && contacts == old(contacts)
      ensures contactId == old(contactId) && dealname == old(dealname) && amount == old(amount)
      ensures dealstage == old(dealstage) && pipeline == old(pipeline) && dealStages == old(dealStages)
      ensures submitting == old(submitting) && successMessage == old(successMessage) && errorMessage == old(errorMessage)
    {
      loadingContacts := false;
    }

    /** The deal fields of the form. */
    function Fields(): DealFields
      reads this
    {
      DealFields(dealname, amount, dealstage, pipeline)
    }

    /** `onSubscriptionTemplateChange` with the selected option's value. */
    method OnSubscriptionTemplateChange(value: string)
      modifies this
      ensures Fields() == ApplyTemplate(old(Fields()), value)
      ensures contactId == old(contactId)
      ensures contacts == old(contacts) && dealStages == old(dealStages) && loadingContacts == old(loadingContacts)
      ensures submitting == old(submitting) && successMessage == old(successMessage) && errorMessage == old(errorMessage)
    {
      var patched := ApplyTemplate(Fields(), value);
      dealname, amount, dealstage := patched.dealname, patched.amount, patched.dealstage;
    }

    /** `onSubmit` up to the request: nothing for an invalid form; otherwise
        the messages are cleared and the request copies the form. */
    method OnSubmit() returns (request: Option<CreateDealRequest>)
      modifies this
      ensures !old(FormValid()) ==>
        request.None? && submitting == old(submitting)
        && successMessage == old(successMessage) && errorMessage == old(errorMessage)
      ensures old(FormValid()) ==>
        request == Some(CreateDealRequest(DealFields(dealname, amount, dealstage, pipeline), contactId))
        && submitting && successMessage == "" && errorMessage == ""
      ensures contactId == old(contactId) && dealname == old(dealname) && amount == old(amount)
      ensures dealstage == old(dealstage) && pipeline == old(pipeline)
      ensures contacts == old(contacts) && dealStages == old(dealStages) && loadingContacts == old(loadingContacts)
    {
      if !FormValid() {
        return None;
      }
      submitting := true;
      successMessage := "";
      errorMessage := "";
      request := Some(CreateDealRequest(DealFields(dealname, amount, dealstage, pipeline), contactId));
    }

    /** The request's `next`: only the name and amount are cleared, so the
        next deal is for the same contact, stage and pipeline. */
    method OnDealCreated(response: Deal)
      modifies this
      ensures !submitting && successMessage == CreatedMessage(response) && errorMessage == old(errorMessage)
      ensures dealname == "" && amount == ""
      ensures contactId == old(contactId) && dealstage == old(dealstage) && pipeline == old(pipeline)
      ensures contacts == old(contacts) && dealStages == old(dealStages) && loadingContacts == old(loadingContacts)
    {
      submitting := false;
      successMessage := CreatedMessage(response);
      dealname, amount := "", "";
    }

    method OnDealFailed(message: string)
      modifies this
      ensures !submitting && errorMessage == FailedMessage(message) && successMessage == old(successMessage)
      ensures contactId == old(contactId) && dealname == old(dealname) && amount == old(amount)
      ensures dealstage == old(dealstage) && pipeline == old(pipeline)
      ensures contacts == old(contacts) && dealStages == old(dealStages) && loadingContacts == old(loadingContacts)
    {
      submitting := false;
      errorMessage := FailedMessage(message);
    }
  }

  /** A known template fills in a name, an amount the form accepts and a
      stage, so a form with a contact chosen becomes valid. */
  lemma TemplateCompletesForm(f: DealFields, name: string)
    requires FindTemplate(Templates, name).Some?
    ensures var r := ApplyTemplate(f, name);
      r.dealname != "" && AmountValid(r.amount) && r.dealstage in DealApi.DealStages()
  {
    TemplatesWellFormed();
    assert TemplateFits(FindTemplate(Templates, name).value);
  }

  /** After a successful creation the form needs a new name and amount before
      it can be submitted again. */
  lemma CreatedFormIsInvalid(view: CreateDeal)
    requires view.dealname == "" && view.amount == ""
    ensures !view.FormValid()
  {
  }

  /** A request sent by a valid form names a contact, so the proxy creates
      the deal with exactly one association, to that contact. */
  lemma SubmittedDealIsAssociated(fields: DealFields, contactId: string)
    requires contactId != ""
    ensures var body := ServerCrm.DealCreatePayload(FieldsJson(fields), Some(contactId));
      body.associations == [ServerCrm.Association(contactId, [ServerCrm.DealToContact])]
      && body.properties == FieldsJson(fields)
  {
  }
}
