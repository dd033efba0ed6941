/** The dashboard's deal service: the fixed list of pipeline stage codes, and
    the deal calls with their results-or-empty mapping and error message. */
module DealApi {
  import opened Crm
  import opened Text
  import opened HttpErrors
  import StageFormat

  /** No value occurs twice. */
  predicate Distinct(s: seq<string>) {
    forall i, j :: 0 <= i < j < |s| ==> s[i] != s[j]
  }

  /** `getDealStages`: the stage codes of the CRM's default pipeline, in order. */
  function DealStages(): (r: seq<string>)
    ensures |r| == 7 && Distinct(r)
    ensures "closedwon" in r && "closedlost" in r && "presentationscheduled" in r
  {
    ["appointmentscheduled", "qualifiedtobuy", "presentationscheduled",
     "decisionmakerboughtin", "contractsent", "closedwon", "closedlost"]
  }

  /** Every stage code is lower case without whitespace, so the stage label of
      each is the code with its first letter capitalised. */
  lemma DealStageLabels()
    ensures forall s :: s in DealStages() ==>
      s != [] && StageFormat.FormatDealStage(s) == [UpperChar(s[0])] + s[1..]
  {
    forall s | s in DealStages()
      ensures s != [] && StageFormat.FormatDealStage(s) == [UpperChar(s[0])] + s[1..]
    {
      PlainStageCode(s);
      StageFormat.FormatLowercaseCode(s);
    }
  }

  lemma PlainStageCode(s: string)
    requires s in DealStages()
    ensures s != [] && StageFormat.NoAsciiCapitals(s) && NoWhitespace(s)
  {
    StageCodeLetters(s);
    LowerLettersArePlain(s);
  }

  lemma StageCodeLetters(s: string)
    requires s in DealStages()
    ensures s != [] && forall i :: 0 <= i < |s| ==> IsAsciiLower(s[i])
  {
    var d := DealStages();
    assert s == d[0] || s == d[1] || s == d[2] || s == d[3] || s == d[4] || s == d[5] || s == d[6];
  }

  lemma LowerLettersArePlain(s: string)
    requires forall i :: 0 <= i < |s| ==> IsAsciiLower(s[i])
    ensures StageFormat.NoAsciiCapitals(s) && NoWhitespace(s)
  {
  }

  /** `getAllDeals` */
  function GetAllDeals(response: Result<Option<seq<Deal>>, HttpErrorResponse>): (r: Result<seq<Deal>, string>)
    ensures response.Success? ==> r == Success(response.value.GetOr([]))
    ensures response.Failure? ==> r.Failure? && r.error == ErrorMessage(response.error)
  {
    FetchList(response)
  }

  /** `getDealsForContact`; the contact id only names the endpoint. */
  function GetDealsForContact(contactId: string, response: Result<Option<seq<Deal>>, HttpErrorResponse>): (r: Result<seq<Deal>, string>)
    ensures response.Success? ==> r == Success(response.value.GetOr([]))
    ensures response.Failure? ==> r.Failure? && r.error == ErrorMessage(response.error)
  {
    FetchList(response)
  }

  /** `createDeal`: the created deal, or the error message. */
  function CreateDeal(response: Result<Deal, HttpErrorResponse>): (r: Result<Deal, string>)
    ensures response.Success? ==> r == Success(response.value)
    ensures response.Failure? ==> r.Failure? && r.error == ErrorMessage(response.error)
  {
    Caught(response)
  }
}
