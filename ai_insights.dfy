/** The AI-insights view: AI availability, the gate on generating insights,
    the two analyses and the labels its template shows for an insight. */
module AiInsightsView {
  import opened Crm
  import opened Text
  import opened Revenue

  datatype AiStatus = Connected | Disconnected | Checking

  /** `canGenerateInsights`: the AI must be connected, and a customer
      analysis also needs a contact id. */
  predicate CanGenerate(status: AiStatus, analysisType: string, contactId: string) {
    status == Connected && (analysisType == "customer" ==> contactId != "")
  }

  /** The gate, spelled out case by case. */
  lemma CanGenerateCases(status: AiStatus, analysisType: string, contactId: string)
    ensures status != Connected ==> !CanGenerate(status, analysisType, contactId)
    ensures status == Connected && analysisType == "customer" ==>
      (CanGenerate(status, analysisType, contactId) <==> contactId != "")
    ensures status == Connected && analysisType != "customer" ==> CanGenerate(status, analysisType, contactId)
  {
  }

  /** `getConfidenceLevel` */
  function ConfidenceLevel(confidence: real): (r: string)
    ensures r == "high" <==> confidence >= 0.8
    ensures r == "medium" <==> 0.6 <= confidence < 0.8
    ensures r == "low" <==> confidence < 0.6
  {
    if confidence >= 0.8 then "high" else if confidence >= 0.6 then "medium" else "low"
  }

  /** The order of the levels. */
  function LevelRank(level: string): nat {
    if level == "high" then 2 else if level == "medium" then 1 else 0
  }

  /** A higher confidence never gets a lower level. */
  lemma ConfidenceLevelMonotone(a: real, b: real)
    requires a <= b
    ensures LevelRank(ConfidenceLevel(a)) <= LevelRank(ConfidenceLevel(b))
  {
  }

  /** The icons of the four insight types. */
  const Icons: map<string, string> := map[
    "upsell_opportunity" := "\U{1F4C8}",
    "retention_risk" := "\U{26A0}\U{FE0F}",
    "expansion_opportunity" := "\U{1F3E0}",
    "loyalty_identified" := "\U{2B50}"]

  /** `getInsightIcon`: the type's icon, or a light bulb for any other type. */
  function InsightIcon(kind: string): (r: string)
    ensures kind in Icons ==> r == Icons[kind]
    ensures kind !in Icons ==> r == "\U{1F4A1}"
    ensures r != []
  {
    if kind in Icons then Icons[kind] else "\U{1F4A1}"
  }

  /** Every insight type has its own icon. */
  lemma InsightIconsCoverKinds()
    ensures Icons.Keys == InsightKinds
    ensures forall k :: k in InsightKinds ==> InsightIcon(k) != "\U{1F4A1}"
  {
  }

  /** The `\w` class. */
  predicate IsWordChar(c: char) {
    IsAsciiUpper(c) || IsAsciiLower(c) || IsDigit(c) || c == '_'
  }

  /** `.replace(/_/g, ' ')` */
  function ReplaceUnderscores(s: string): (r: string)
    ensures |r| == |s|
    ensures forall i :: 0 <= i < |s| ==> r[i] == (if s[i] == '_' then ' ' else s[i])
  {
    if s == [] then [] else [if s[0] == '_' then ' ' else s[0]] + ReplaceUnderscores(s[1..])
  }

  /** The character before position `i` is a word character; `afterWord`
      says so for the first position. */
  predicate WordBefore(s: string, i: int, afterWord: bool)
    requires 0 <= i < |s|
  {
    if i == 0 then afterWord else IsWordChar(s[i - 1])
  }

  /** `.replace(/\b\w/g, l => l.toUpperCase())`: every word character that
      starts a word is upper-cased. */
  function CapitaliseWords(s: string, afterWord: bool): (r: string)
    ensures |r| == |s|
    ensures forall i :: 0 <= i < |s| ==>
      r[i] == (if IsWordChar(s[i]) && !WordBefore(s, i, afterWord) then UpperChar(s[i]) else s[i])
  {
    if s == [] then []
    else
      var head := if IsWordChar(s[0]) && !afterWord then UpperChar(s[0]) else s[0];
      var rest := CapitaliseWords(s[1..], IsWordChar(s[0]));
      assert forall i :: 1 <= i < |s| ==> WordBefore(s, i, afterWord) == WordBefore(s[1..], i - 1, IsWordChar(s[0]));
      [head] + rest
  }

  /** `formatInsightType` */
  function FormatInsightType(kind: string): (r: string)
    ensures |r| == |kind|
    ensures forall i :: 0 <= i < |r| ==> r[i] != '_'
  {
    CapitaliseWords(ReplaceUnderscores(kind), false)
  }

  lemma UpperCharKeepsWordChar(c: char)
    ensures IsWordChar(UpperChar(c)) == IsWordChar(c)
    ensures UpperChar(UpperChar(c)) == UpperChar(c)
  {
  }

  /** Formatting a formatted type changes nothing. */
  lemma FormatInsightTypeIdempotent(kind: string)
    ensures FormatInsightType(FormatInsightType(kind)) == FormatInsightType(kind)
  {
    var once := FormatInsightType(kind);
    var spaced := ReplaceUnderscores(kind);
    assert ReplaceUnderscores(once) == once;
    forall i | 0 <= i < |once|
      ensures FormatInsightType(once)[i] == once[i]
    {
      UpperCharKeepsWordChar(spaced[i]);
      if i > 0 {
        UpperCharKeepsWordChar(spaced[i - 1]);
        assert IsWordChar(once[i - 1]) == IsWordChar(spaced[i - 1]);
      }
      assert IsWordChar(once[i]) == IsWordChar(spaced[i]);
    }
  }

  /** `retention_risk` gives `Retention Risk`. */
  lemma FormatRetentionRiskExample()
    ensures FormatInsightType("retention_risk") == "Retention Risk"
  {
    var kind, spaced := "retention_risk", "retention risk";
    SpacedRetentionRisk(kind, spaced);
    CapitalisedRetentionRisk(spaced);
  }

  lemma SpacedRetentionRisk(kind: string, spaced: string)
    requires kind == "retention_risk" && spaced == "retention risk"
    ensures ReplaceUnderscores(kind) == spaced
  {
    var r := ReplaceUnderscores(kind);
    forall i | 0 <= i < |kind|
      ensures r[i] == spaced[i]
    {
    }
  }

  lemma CapitalisedRetentionRisk(spaced: string)
    requires spaced == "retention risk"
    ensures CapitaliseWords(spaced, false) == "Retention Risk"
  {
    var r := CapitaliseWords(spaced, false);
    assert forall j :: 0 <= j < |spaced| && j != 9 ==> IsAsciiLower(spaced[j]);
    forall i | 0 <= i < |spaced|
      ensures r[i] == "Retention Risk"[i]
    {
      if i != 0 && i != 9 && i != 10 {
        assert IsWordChar(spaced[i - 1]);
      }
    }
  }

  /** Customer analysis gets exactly the deals associated with the contact,
      in their order. */
  function CustomerDeals(deals: seq<Deal>, contactId: string): (r: seq<Deal>)
    ensures |r| <= |deals|
    ensures forall d :: d in r <==> d in deals && contactId in AssociatedContactIds(d)
  {
    Filter(deals, d => contactId in AssociatedContactIds(d))
  }

  /** The awaited analysis: a truthy value, the view's message for a missing
      one, or the thrown error's message. */
  function Received(reply: Result<Option<Json>, Thrown>, missing: string): (r: Result<Json, string>)
    ensures r.Success? <==> reply.Success? && reply.value.Some? && JsonTruthy(reply.value.value)
    ensures r.Success? ==> r.value == reply.value.value
    ensures reply.Success? && r.Failure? ==> r.error == missing
    ensures reply.Failure? ==> r.error == MessageOr(reply.error, "Failed to generate insights")
  {
    match reply
    case Success(value) =>
      if value.Some? && JsonTruthy(value.value) then Success(value.value) else Failure(missing)
    case Failure(t) => Failure(MessageOr(t, "Failed to generate insights"))
  }

  class AiInsights {
    var contacts: seq<Contact>
    var deals: seq<Deal>
    var loading: bool
    var error: string
    var aiStatus: AiStatus
    var customerAnalysis: Option<Json>
    var businessInsights: Option<Json>
    var selectedAnalysisType: string
    var selectedContactId: string

    constructor()
      ensures contacts == [] && deals == [] && !loading && error == "" && aiStatus == Checking
      ensures customerAnalysis.None? && businessInsights.None?
      ensures selectedAnalysisType == "customer" && selectedContactId == ""
    {
      contacts := [];
      deals := [];
      loading := false;
      error := "";
      aiStatus := Checking;
      customerAnalysis := None;
      businessInsights := None;
      selectedAnalysisType := "customer";
      selectedContactId := "";
    }

    /** `loadData` with the two awaited lists: both are set only when both
        arrive; loading ends false either way. */
    method LoadData(fetchedContacts: Result<Option<seq<Contact>>, Thrown>, fetchedDeals: Result<Option<seq<Deal>>, Thrown>)
      modifies this
      ensures !loading
      ensures fetchedContacts.Success? && fetchedDeals.Success? ==>
        contacts == fetchedContacts.value.GetOr([]) && deals == fetchedDeals.value.GetOr([])
      ensures !(fetchedContacts.Success? && fetchedDeals.Success?) ==> contacts == old(contacts) && deals == old(deals)
      ensures error == old(error) && aiStatus == old(aiStatus)
      ensures customerAnalysis == old(customerAnalysis) && businessInsights == old(businessInsights)
      ensures selectedAnalysisType == old(selectedAnalysisType) && selectedContactId == old(selectedContactId)
    {
      loading := true;
      if fetchedContacts.Success? && fetchedDeals.Success? {
        contacts := fetchedContacts.value.GetOr([]);
        deals := fetchedDeals.value.GetOr([]);
      }
      loading := false;
    }

    /** `checkAIConnection` with the awaited status call. */
    method CheckAIConnection(status: Result<Json, string>)
      modifies this
      ensures aiStatus == (if status.Success? then Connected else Disconnected)
      ensures contacts == old(contacts) && deals == old(deals) && loading == old(loading) && error == old(error)
      ensures customerAnalysis == old(customerAnalysis) && businessInsights == old(businessInsights)
      ensures selectedAnalysisType == old(selectedAnalysisType) && selectedContactId == old(selectedContactId)
    {
      aiStatus := Checking;
      if status.Success? {
        aiStatus := Connected;
      } else {
        aiStatus := Disconnected;
      }
    }

    predicate CanGenerateInsights()
      reads this
    {
      CanGenerate(aiStatus, selectedAnalysisType, selectedContactId)
    }

    /** `generateInsights`; `analyseCustomer` and `analyseBusiness` stand for
        the awaited AI calls. */
    method GenerateInsights(
      analyseCustomer: (Contact, seq<Deal>) -> Result<Option<Json>, Thrown>,
      analyseBusiness: (seq<Contact>, seq<Deal>) -> Result<Option<Json>, Thrown>)
      modifies this
      ensures contacts == old(contacts) && deals == old(deals) && aiStatus == old(aiStatus)
      ensures selectedAnalysisType == old(selectedAnalysisType) && selectedContactId == old(selectedContactId)
      // Without the gate nothing happens.
      ensures !old(CanGenerateInsights()) ==>
        loading == old(loading) && error == old(error)
        && customerAnalysis == old(customerAnalysis) && businessInsights == old(businessInsights)
      ensures old(CanGenerateInsights()) ==> !loading
      // A customer analysis starts from the contact with the selected id.
      ensures old(CanGenerateInsights()) && selectedAnalysisType == "customer"
              && FindContact(contacts, selectedContactId).None? ==>
        error == "Contact not found" && customerAnalysis.None? && businessInsights.None?
      ensures old(CanGenerateInsights()) && selectedAnalysisType == "customer"
              && FindContact(contacts, selectedContactId).Some? ==>
        var contact := FindContact(contacts, selectedContactId).value;
        var outcome := Received(analyseCustomer(contact, CustomerDeals(deals, selectedContactId)),
                                "No analysis data received from server");
        businessInsights.None?
        && (outcome.Success? ==> customerAnalysis == Some(outcome.value) && error == "")
        && (outcome.Failure? ==> customerAnalysis.None? && error == outcome.error)
      ensures old(CanGenerateInsights()) && selectedAnalysisType != "customer" ==>
        var outcome := Received(analyseBusiness(contacts, deals), "No business insights data received from server");
        customerAnalysis.None?
        && (outcome.Success? ==> businessInsights == Some(outcome.value) && error == "")
        && (outcome.Failure? ==> businessInsights.None? && error == outcome.error)
    {
      if !CanGenerateInsights() {
        return;
      }
      loading := true;
      error := "";
      customerAnalysis := None;
      businessInsights := None;
      if selectedAnalysisType == "customer" {
        var found := FindContact(contacts, selectedContactId);
        if found.None? {
          error := "Contact not found";
        } else {
          var contactDeals := CustomerDeals(deals, selectedContactId);
          var outcome := Received(analyseCustomer(found.value, contactDeals), "No analysis data received from server");
          match outcome {
            case Success(analysis) => customerAnalysis := Some(analysis);
            case Failure(message) => error := message;
          }
        }
      } else {
        var outcome := Received(analyseBusiness(contacts, deals), "No business insights data received from server");
        match outcome {
          case Success(insights) => businessInsights := Some(insights);
          case Failure(message) => error := message;
        }
      }
      loading := false;
    }

    method ClearError()
      modifies this
      ensures error == ""
      ensures contacts == old(contacts) && deals == old(deals) && loading == old(loading) && aiStatus == old(aiStatus)
      ensures customerAnalysis == old(customerAnalysis) && businessInsights == old(businessInsights)
      ensures selectedAnalysisType == old(selectedAnalysisType) && selectedContactId == old(selectedContactId)
    {
      error := "";
    }
  }
}
