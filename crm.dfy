/** Records shared by the proxy server and the dashboard: the CRM's contact and
    deal shapes, the AI insight records, and JSON values for the bodies that the
    proxy passes through without looking inside. */
module Crm {

  datatype Option<+T> = None | Some(value: T) {
    /** `x ?? default`, or `x || default` when every present value is truthy. */
    function GetOr(default: T): T {
      match this
      case Some(v) => v
      case None => default
    }
  }

  /** The outcome of an upstream call or of a rejected Observable/Promise. */
  datatype Result<+T, +E> = Success(value: T) | Failure(error: E)

  /** What a rejected promise carries: an `Error` with its message, or any
      other thrown value. */
  datatype Thrown = ErrorObject(message: string) | OtherValue

  /** `error instanceof Error ? error.message : fallback` */
  function MessageOr(t: Thrown, fallback: string): (r: string)
    ensures t.ErrorObject? ==> r == t.message
    ensures t.OtherValue? ==> r == fallback
  {
    match t
    case ErrorObject(m) => m
    case OtherValue => fallback
  }

  /** `${value}` in a template literal, for an optional string. */
  function Interpolated(value: Option<string>): string {
    match value
    case Some(s) => s
    case None => "undefined"
  }

  /** JavaScript truthiness of an optional string: `undefined`, `null` and `""` are falsy. */
  predicate Truthy(s: Option<string>) {
    s.Some? && s.value != ""
  }

  datatype ContactProperties = ContactProperties(
    firstname: Option<string>,
    lastname: Option<string>,
    email: Option<string>,
    jobtitle: Option<string>,
    company: Option<string>,
    phone: Option<string>,
    address: Option<string>,
    createdate: Option<string>,
    hs_object_id: Option<string>,
    lastmodifieddate: Option<string>)

  /** A CRM contact; the id is assigned by the CRM. */
  datatype Contact = Contact(
    id: Option<string>,
    properties: ContactProperties,
    createdAt: Option<string>,
    updatedAt: Option<string>,
    archived: Option<bool>)

  /** The amount is kept as an exact number: `Number(amount)` of a decimal string. */
  datatype DealProperties = DealProperties(
    dealname: Option<string>,
    amount: Option<real>,
    dealstage: Option<string>,
    createdate: Option<string>,
    closedate: Option<string>,
    pipeline: Option<string>)

  /** `contacts.find(c => c.id === id)`: the first contact with that id. */
  function FindContact(contacts: seq<Contact>, id: string): (r: Option<Contact>)
    ensures r.None? <==> forall c :: c in contacts ==> c.id != Some(id)
    ensures r.Some? ==> exists k :: 0 <= k < |contacts| && contacts[k] == r.value
                                   && r.value.id == Some(id)
                                   && forall j :: 0 <= j < k ==> contacts[j].id != Some(id)
  {
    if contacts == [] then None
    else if contacts[0].id == Some(id) then Some(contacts[0])
    else
      var rest := FindContact(contacts[1..], id);
      assert forall c :: c in contacts ==> c == contacts[0] || c in contacts[1..];
      if rest.Some? then
        var k :| 0 <= k < |contacts[1..]| && contacts[1..][k] == rest.value && rest.value.id == Some(id)
                 && forall j :: 0 <= j < k ==> contacts[1..][j].id != Some(id);
        assert contacts[k + 1] == rest.value;
        assert forall j :: 1 <= j < k + 1 ==> contacts[j] == contacts[1..][j - 1];
        rest
      else rest
  }

  /** A CRM deal. `associations` holds the ids under `associations.contacts.results`;
      `None` stands for any missing level of that path. */
  datatype Deal = Deal(
    id: Option<string>,
    properties: DealProperties,
    associations: Option<seq<string>>)

  /** `deal.associations?.contacts?.results?.map(c => c.id) || []` */
  function AssociatedContactIds(d: Deal): seq<string> {
    d.associations.GetOr([])
  }

  /** `deal.properties?.dealstage === 'closedwon'` */
  predicate IsClosedWon(d: Deal) {
    d.properties.dealstage == Some("closedwon")
  }

  /** `Number(deal.properties?.amount || 0)`: a missing amount counts as 0. */
  function Amount(d: Deal): real {
    d.properties.amount.GetOr(0.0)
  }

  /** One AI insight record of the dashboard's insight interface. */
  datatype Insight = Insight(
    kind: string,
    message: string,
    confidence: real,
    suggestion: string,
    priority: string)

  const InsightKinds: set<string> :=
    {"upsell_opportunity", "retention_risk", "expansion_opportunity", "loyalty_identified"}

  const Priorities: set<string> := {"high", "medium", "low"}

  /** What the insight interface promises of a record: a type from the closed set,
      a priority from the closed set and a confidence in [0, 1]. */
  predicate WellFormedInsight(i: Insight) {
    i.kind in InsightKinds && i.priority in Priorities && 0.0 <= i.confidence <= 1.0
  }

  datatype CustomerAnalysis = CustomerAnalysis(
    contact: Contact,
    deals: seq<Deal>,
    insights: seq<Insight>,
    summary: string)

  datatype CustomerWithSubscriptions = CustomerWithSubscriptions(
    contact: Contact,
    activeSubscriptions: seq<Deal>,
    totalMonthlyRevenue: real)

  /** A JSON value; numbers are exact. */
  datatype Json =
    | JNull
    | JBool(boolean: bool)
    | JNumber(number: real)
    | JString(str: string)
    | JArray(items: seq<Json>)
    | JObject(fields: map<string, Json>)

  /** JavaScript truthiness of a parsed JSON value. */
  predicate JsonTruthy(j: Json) {
    match j
    case JNull => false
    case JBool(b) => b
    case JNumber(n) => n != 0.0
    case JString(s) => s != ""
    case JArray(_) => true
    case JObject(_) => true
  }

  /** `obj.key`, where a missing key reads as `undefined`. */
  function Field(obj: map<string, Json>, key: string): Option<Json> {
    if key in obj then Some(obj[key]) else None
  }

  /** `obj.key || alternative` */
  function FieldOr(obj: map<string, Json>, key: string, alternative: Json): (r: Json)
    ensures key in obj && JsonTruthy(obj[key]) ==> r == obj[key]
    ensures !(key in obj && JsonTruthy(obj[key])) ==> r == alternative
  {
    match Field(obj, key)
    case Some(v) => if JsonTruthy(v) then v else alternative
    case None => alternative
  }
}
