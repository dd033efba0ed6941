/** The proxy server's CRM endpoints: the upstream error reply they share, the
    body sent to create a deal with its contact association, and the two-step
    lookup of a contact's deals. Each upstream call is an input. */
module ServerCrm {
  import opened Crm

  /** The part of an upstream failure the handlers read: the HTTP response, if
      one came back, and the error's message. */
  datatype UpstreamResponse = UpstreamResponse(status: nat, data: Option<Json>)
  datatype UpstreamError = UpstreamError(response: Option<UpstreamResponse>, message: string)

  /** What a handler answers: a status and a JSON body. */
  datatype Reply = Reply(status: nat, body: Json)

  /** `res.status(error.response?.status || 500).json({error: caption, details:
      error.response?.data || error.message})` */
  function ErrorReply(caption: string, e: UpstreamError): (r: Reply)
    ensures r.status != 0
    ensures e.response.Some? && e.response.value.status != 0 ==> r.status == e.response.value.status
    ensures e.response.None? || e.response.value.status == 0 ==> r.status == 500
    ensures r.body.JObject? && r.body.fields.Keys == {"error", "details"}
    ensures r.body.fields["error"] == JString(caption)
    ensures UpstreamDataTruthy(e) ==> r.body.fields["details"] == e.response.value.data.value
    ensures !UpstreamDataTruthy(e) ==> r.body.fields["details"] == JString(e.message)
  {
    var status := if e.response.Some? && e.response.value.status != 0 then e.response.value.status else 500;
    var details := if UpstreamDataTruthy(e) then e.response.value.data.value else JString(e.message);
    Reply(status, JObject(map["error" := JString(caption), "details" := details]))
  }

  /** The upstream response carries a truthy body. */
  predicate UpstreamDataTruthy(e: UpstreamError) {
    e.response.Some? && e.response.value.data.Some? && JsonTruthy(e.response.value.data.value)
  }

  /** A handler that passes the upstream body through, or answers with the
      error reply. */
  function Relay(caption: string, outcome: Result<Json, UpstreamError>): (r: Reply)
    ensures outcome.Success? ==> r == Reply(200, outcome.value)
    ensures outcome.Failure? ==> r == ErrorReply(caption, outcome.error)
  {
    match outcome
    case Success(data) => Reply(200, data)
    case Failure(e) => ErrorReply(caption, e)
  }

  /** One association of the deal-creation body: `{to: {id}, types: [...]}`. */
  datatype AssociationType = AssociationType(category: string, typeId: nat)
  datatype Association = Association(toId: string, types: seq<AssociationType>)

  /** The body posted to the CRM to create a deal. */
  datatype DealCreateBody = DealCreateBody(properties: Json, associations: seq<Association>)

  /** The CRM's predefined deal-to-contact association. */
  const DealToContact: AssociationType := AssociationType("HUBSPOT_DEFINED", 3)

  /** The deal-creation body: the properties as given, and an association to
      the contact exactly when `contactId` is truthy. */
  function DealCreatePayload(dealProperties: Json, contactId: Option<string>): (r: DealCreateBody)
    ensures r.properties == dealProperties
    ensures r.associations == [] <==> !Truthy(contactId)
    ensures Truthy(contactId) ==> r.associations == [Association(contactId.value, [DealToContact])]
  {
    DealCreateBody(dealProperties, if Truthy(contactId) then [Association(contactId.value, [DealToContact])] else [])
  }

  /** Every association of the body points at the given contact with the
      deal-to-contact type. */
  lemma DealCreatePayloadTargets(dealProperties: Json, contactId: Option<string>)
    ensures var r := DealCreatePayload(dealProperties, contactId);
      |r.associations| <= 1
      && forall a :: a in r.associations ==> a.toId == contactId.value && a.types == [AssociationType("HUBSPOT_DEFINED", 3)]
  {
  }

  /** `POST /api/deals`: `send` stands for the CRM's create call. */
  method CreateDeal(dealProperties: Json, contactId: Option<string>, send: DealCreateBody -> Result<Json, UpstreamError>)
    returns (sent: DealCreateBody, reply: Reply)
    ensures sent == DealCreatePayload(dealProperties, contactId)
    ensures reply == Relay("Failed to create deal", send(sent))
  {
    sent := DealCreatePayload(dealProperties, contactId);
    reply := Relay("Failed to create deal", send(sent));
  }

  /** The batch read of deals by id. */
  datatype BatchReadRequest = BatchReadRequest(inputs: seq<string>, properties: seq<string>)

  const BatchProperties: seq<string> := ["dealname", "amount", "dealstage", "closedate", "pipeline"]

  /** The reply for a contact without deals. */
  const NoDeals: Json := JObject(map["results" := JArray([])])

  /** `GET /api/contacts/:contactId/deals`. `associationsOf` stands for the
      CRM's association lookup; it yields the associated deal ids, `None` when
      the response has no `results`. `batchRead` stands for the batch read. */
  method ContactDeals(
    contactId: string,
    associationsOf: string -> Result<Option<seq<string>>, UpstreamError>,
    batchRead: BatchReadRequest -> Result<Json, UpstreamError>)
    returns (batch: Option<BatchReadRequest>, reply: Reply)
    ensures associationsOf(contactId).Failure? ==>
      batch.None? && reply == ErrorReply("Failed to fetch deals for contact", associationsOf(contactId).error)
    ensures associationsOf(contactId).Success? ==>
      var ids := associationsOf(contactId).value;
      (batch.None? <==> ids.None? || ids.value == [])
      && (batch.None? ==> reply == Reply(200, NoDeals))
      && (batch.Some? ==> batch.value == BatchReadRequest(ids.value, BatchProperties)
                          && reply == Relay("Failed to fetch deals for contact", batchRead(batch.value)))
  {
    var associations := associationsOf(contactId);
    match associations {
      case Failure(e) =>
        batch := None;
        reply := ErrorReply("Failed to fetch deals for contact", e);
      case Success(ids) =>
        if ids.Some? && |ids.value| > 0 {
          var request := BatchReadRequest(ids.value, BatchProperties);
          batch := Some(request);
          reply := Relay("Failed to fetch deals for contact", batchRead(request));
        } else {
          batch := None;
          reply := Reply(200, NoDeals);
        }
    }
  }

  /** The query of a list request: a page size and the properties to return. */
  datatype ListQuery = ListQuery(limit: nat, properties: string)

  const ContactsQuery: ListQuery := ListQuery(50, "firstname,lastname,email,phone,address")
  const DealsQuery: ListQuery := ListQuery(50, "dealname,amount,dealstage,closedate,pipeline")

  /** `GET /api/contacts`: one page of 50 contacts with five properties;
      `fetch` stands for the CRM's list call. */
  method ListContacts(fetch: ListQuery -> Result<Json, UpstreamError>) returns (query: ListQuery, reply: Reply)
    ensures query.limit == 50 && query == ContactsQuery
    ensures reply == Relay("Failed to fetch contacts", fetch(query))
  {
    query := ContactsQuery;
    reply := Relay("Failed to fetch contacts", fetch(query));
  }

  /** `GET /api/deals`: one page of 50 deals with the five deal properties. */
  method ListDeals(fetch: ListQuery -> Result<Json, UpstreamError>) returns (query: ListQuery, reply: Reply)
    ensures query.limit == 50 && query == DealsQuery
    ensures reply == Relay("Failed to fetch deals", fetch(query))
  {
    query := DealsQuery;
    reply := Relay("Failed to fetch deals", fetch(query));
  }

  /** `POST /api/contacts`: the request's `properties` are forwarded unchanged
      as the only key of the body; `send` stands for the CRM's create call. */
  method CreateContact(properties: Json, send: Json -> Result<Json, UpstreamError>) returns (sent: Json, reply: Reply)
    ensures sent.JObject? && sent.fields.Keys == {"properties"} && sent.fields["properties"] == properties
    ensures reply == Relay("Failed to create contact", send(sent))
  {
    sent := JObject(map["properties" := properties]);
    reply := Relay("Failed to create contact", send(sent));
  }

  /** Every CRM endpoint answers 200 on success and, on failure, a nonzero
      status with its own caption. */
  lemma RelayStatus(caption: string, outcome: Result<Json, UpstreamError>)
    ensures outcome.Success? ==> Relay(caption, outcome).status == 200
    ensures outcome.Failure? ==> Relay(caption, outcome).status != 0
    ensures outcome.Failure? ==> Relay(caption, outcome).body.fields["error"] == JString(caption)
  {
  }
}
