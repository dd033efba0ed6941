/** The dashboard's AI service: the two analysis requests and the status call,
    with the AI service's own error-message chain. */
module AiApi {
  import opened Crm
  import opened HttpErrors

  /** `{contact, deals}`, the body of `analyseCustomerWithDeals`. The deals
      always form an array, which is truthy, so the proxy rejects such a body
      only when the contact is falsy. */
  function CustomerAnalysisRequest(contact: Json, deals: seq<Json>): (r: Json)
    ensures r.JObject? && r.fields.Keys == {"contact", "deals"}
    ensures r.fields["contact"] == contact && r.fields["deals"] == JArray(deals)
    ensures JsonTruthy(r.fields["deals"])
  {
    JObject(map["contact" := contact, "deals" := JArray(deals)])
  }

  /** `{contacts, deals}`, the body of `analyseBusinessIntelligence`; both
      arrays are truthy, so the proxy never rejects it. */
  function BusinessAnalysisRequest(contacts: seq<Json>, deals: seq<Json>): (r: Json)
    ensures r.JObject? && r.fields.Keys == {"contacts", "deals"}
    ensures r.fields["contacts"] == JArray(contacts) && r.fields["deals"] == JArray(deals)
    ensures JsonTruthy(r.fields["contacts"]) && JsonTruthy(r.fields["deals"])
  {
    JObject(map["contacts" := JArray(contacts), "deals" := JArray(deals)])
  }

  /** Any of the three calls: the reply body, or the AI chain's message. */
  function AiCall(response: Result<Json, HttpErrorResponse>): (r: Result<Json, string>)
    ensures response.Success? ==> r == Success(response.value)
    ensures response.Failure? ==> r == AiHandleError(response.error)
  {
    match response
    case Success(v) => Success(v)
    case Failure(e) => AiHandleError(e)
  }
}
