/** The `handleError` message chains of the client services. A failed HTTP
    call carries either a client-side `ErrorEvent` or the server's reply body;
    the message shown is picked from it by a chain of `||` alternatives. */
module HttpErrors {
  import opened Crm
  import opened Text
  import ServerCrm

  /** `error.error`: a client-side event with its message, or the body the
      server answered with (absent when there was none). */
  datatype ErrorCause = ClientEvent(eventMessage: string) | ServerBody(body: Option<Json>)

  /** The parts of an `HttpErrorResponse` that `handleError` reads. */
  datatype HttpErrorResponse = HttpErrorResponse(error: ErrorCause, message: string, status: nat)

  /** The value at `path` below `j` under optional chaining, kept when it is
      truthy: a missing step, or a falsy value at the end, leaves the next
      alternative of the `||` chain to be tried. */
  function MessageAt(j: Json, path: seq<string>): (r: Option<Json>)
    ensures r.Some? ==> JsonTruthy(r.value)
    ensures path == [] ==> (r.Some? <==> JsonTruthy(j)) && (r.Some? ==> r.value == j)
    ensures path != [] && !(j.JObject? && path[0] in j.fields) ==> r.None?
    decreases |path|
  {
    if path == [] then
      if JsonTruthy(j) then Some(j) else None
    else if j.JObject? && path[0] in j.fields then MessageAt(j.fields[path[0]], path[1..])
    else None
  }

  function BodyMessageAt(body: Option<Json>, path: seq<string>): (r: Option<Json>)
    ensures r.Some? ==> JsonTruthy(r.value)
    ensures body.None? ==> r.None?
    ensures body.Some? ==> r == MessageAt(body.value, path)
  {
    if body.Some? then MessageAt(body.value, path) else None
  }

  /** `10^k` */
  function Pow10(k: nat): (r: real)
    ensures r >= 1.0
  {
    if k == 0 then 1.0 else 10.0 * Pow10(k - 1)
  }

  /** `String(i)` of an integer: an optional minus sign and the decimal digits. */
  function IntText(i: int): (r: string)
    ensures i >= 0 ==> r == NatToString(i)
    ensures i < 0 ==> r == "-" + NatToString(-i)
  {
    if i < 0 then "-" + NatToString(-i) else NatToString(i)
  }

  /** The fewest decimal places, from `k` up to 20, that write the fraction `f`
      exactly; 20 when none up to there does. */
  function FractionPlaces(f: real, k: nat): (r: nat)
    requires 1 <= k <= 20
    ensures k <= r <= 20
    ensures r < 20 ==> Scaled(f, r).Floor as real == Scaled(f, r)
    decreases 20 - k
  {
    if k == 20 || Scaled(f, k).Floor as real == Scaled(f, k) then k else FractionPlaces(f, k + 1)
  }

  /** `f` moved `k` decimal places to the left. */
  function Scaled(f: real, k: nat): real
  {
    f * Pow10(k)
  }

  /** The `i`-th decimal digit after the point of `f`. */
  function FractionDigit(f: real, i: nat): (r: nat)
    ensures r < 10
  {
    Scaled(f, i + 1).Floor % 10
  }

  /** The first `places` decimal digits of the fraction `f`. */
  function FractionDigits(f: real, places: nat): (r: string)
    ensures |r| == places && AllDigits(r)
  {
    seq(places, i requires 0 <= i < places => DigitChar(FractionDigit(f, i)))
  }

  /** `String(n)` of a JSON number: an integer in plain decimal, a fraction
      with the decimal places it needs. */
  function NumberText(n: real): (r: string)
    ensures r != []
    ensures n == n.Floor as real ==> r == IntText(n.Floor)
  {
    if n == n.Floor as real then IntText(n.Floor)
    else
      var x := if n < 0.0 then -n else n;
      var f := x - x.Floor as real;
      var text := NatToString(x.Floor as nat) + "." + FractionDigits(f, FractionPlaces(f, 1));
      if n < 0.0 then "-" + text else text
  }

  /** `Array.prototype.join(',')` of rendered elements. */
  function Join(parts: seq<string>): (r: string)
    ensures parts == [] ==> r == ""
    ensures |parts| == 1 ==> r == parts[0]
  {
    if parts == [] then ""
    else if |parts| == 1 then parts[0]
    else parts[0] + "," + Join(parts[1..])
  }

  /** `String(v)`, which `new Error(v)` applies to the chosen message: a
      string is itself, an object is `[object Object]`, an array joins its
      elements with commas (a `null` element as nothing). */
  function Render(j: Json): (r: string)
    ensures j.JString? ==> r == j.str
    ensures j.JObject? ==> r == "[object Object]"
    ensures j.JNumber? ==> r == NumberText(j.number)
    ensures j.JBool? ==> r == (if j.boolean then "true" else "false")
    ensures JsonTruthy(j) && !j.JArray? ==> r != []
    decreases j
  {
    match j
    case JNull => "null"
    case JBool(b) => if b then "true" else "false"
    case JNumber(n) => NumberText(n)
    case JString(s) => s
    case JArray(items) =>
      Join(seq(|items|, i requires 0 <= i < |items| => if items[i].JNull? then "" else Render(items[i])))
    case JObject(_) => "[object Object]"
  }

  /** An integer message reads back as the number it was. */
  lemma RenderIntegerRoundTrip(n: nat)
    ensures var r := Render(JNumber(n as real));
      AllDigits(r) && DigitsValue(r) == n
  {
    assert (n as real).Floor == n;
    NatToStringRoundTrip(n);
  }

  /** The empty array, and an array of one string, render as the string they
      hold (the empty string for the empty array). */
  lemma RenderArrayExamples(s: string)
    ensures Render(JArray([])) == ""
    ensures Render(JArray([JString(s)])) == s
    ensures Render(JArray([JNull])) == ""
  {
    var one := [JString(s)];
    assert seq(|one|, i requires 0 <= i < |one| => if one[i].JNull? then "" else Render(one[i])) == [s];
    var nul := [JNull];
    assert seq(|nul|, i requires 0 <= i < |nul| => if nul[i].JNull? then "" else Render(nul[i])) == [""];
  }

  /** The last alternative of every chain. */
  function ServerErrorMessage(status: nat): (r: string)
    ensures |r| > 14 && r[..14] == "Server error: "
    ensures AllDigits(r[14..]) && DigitsValue(r[14..]) == status
  {
    var digits := NatToString(status);
    NatToStringRoundTrip(status);
    assert ("Server error: " + digits)[14..] == digits;
    "Server error: " + digits
  }

  /** `error.error?.message || error.message || 'Server error: ' + status`,
      or `'Client error: ' + message` for a client-side event: the chain of the
      deal and contact services. Any truthy body message is taken and shown as
      `String(message)`; only an array can render as the empty string. */
  function ErrorMessage(e: HttpErrorResponse): (r: string)
    ensures e.error.ClientEvent? ==> r == "Client error: " + e.error.eventMessage
    ensures e.error.ServerBody? && BodyMessageAt(e.error.body, ["message"]).Some? ==>
      r == Render(BodyMessageAt(e.error.body, ["message"]).value)
    ensures e.error.ServerBody? && BodyMessageAt(e.error.body, ["message"]).None? && e.message != [] ==>
      r == e.message
    ensures e.error.ServerBody? && BodyMessageAt(e.error.body, ["message"]).None? && e.message == [] ==>
      r == ServerErrorMessage(e.status)
    ensures r == [] ==>
      e.error.ServerBody? && BodyMessageAt(e.error.body, ["message"]).Some?
      && BodyMessageAt(e.error.body, ["message"]).value.JArray?
  {
    match e.error
    case ClientEvent(m) => "Client error: " + m
    case ServerBody(body) =>
      var own := BodyMessageAt(body, ["message"]);
      if own.Some? then Render(own.value)
      else if e.message != [] then e.message
      else ServerErrorMessage(e.status)
  }

  /** The AI service's chain, which looks at `error.error?.error?.message`
      first. */
  function AiErrorMessage(e: HttpErrorResponse): (r: string)
    ensures e.error.ClientEvent? ==> r == "Client error: " + e.error.eventMessage
    ensures e.error.ServerBody? && BodyMessageAt(e.error.body, ["error", "message"]).Some? ==>
      r == Render(BodyMessageAt(e.error.body, ["error", "message"]).value)
    ensures e.error.ServerBody? && BodyMessageAt(e.error.body, ["error", "message"]).None? ==>
      r == ErrorMessage(e)
    ensures r == [] ==>
      e.error.ServerBody?
      && ((BodyMessageAt(e.error.body, ["error", "message"]).Some?
           && BodyMessageAt(e.error.body, ["error", "message"]).value.JArray?)
          || (BodyMessageAt(e.error.body, ["message"]).Some?
              && BodyMessageAt(e.error.body, ["message"]).value.JArray?))
  {
    match e.error
    case ClientEvent(_) => ErrorMessage(e)
    case ServerBody(body) =>
      var nested := BodyMessageAt(body, ["error", "message"]);
      if nested.Some? then Render(nested.value) else ErrorMessage(e)
  }

  /** A body message that is a number is shown as its digits, and one that is
      an empty array as the empty string, as `new Error(message)` does. */
  lemma NonStringBodyMessages(answer: string, status: nat)
    ensures var e := HttpErrorResponse(ServerBody(Some(JObject(map["message" := JNumber(42.0)]))), answer, status);
      ErrorMessage(e) == "42"
    ensures var e := HttpErrorResponse(ServerBody(Some(JObject(map["message" := JArray([])]))), answer, status);
      ErrorMessage(e) == ""
  {
    assert (42.0).Floor == 42;
    assert NatToString(42) == NatToString(4) + [DigitChar(2)];
    RenderArrayExamples("");
  }

  /** Without a nested message the two chains agree. */
  lemma AiErrorMessageAgrees(e: HttpErrorResponse)
    requires e.error.ServerBody? ==> BodyMessageAt(e.error.body, ["error", "message"]).None?
    ensures AiErrorMessage(e) == ErrorMessage(e)
  {
  }

  /** `throwError(() => new Error(message))`: the failed call always ends in an
      error carrying the chosen message, never in a value. */
  function HandleError<T>(e: HttpErrorResponse): (r: Result<T, string>)
    ensures r.Failure? && r.error == ErrorMessage(e)
  {
    Failure(ErrorMessage(e))
  }

  function AiHandleError<T>(e: HttpErrorResponse): (r: Result<T, string>)
    ensures r.Failure? && r.error == AiErrorMessage(e)
  {
    Failure(AiErrorMessage(e))
  }

  /** `map(response => response.results || [])` followed by `catchError`: the
      fetched list, the empty list when the body has no `results`, or the
      error message. */
  function FetchList<T>(response: Result<Option<seq<T>>, HttpErrorResponse>): (r: Result<seq<T>, string>)
    ensures response.Success? && response.value.Some? ==> r == Success(response.value.value)
    ensures response.Success? && response.value.None? ==> r == Success([])
    ensures response.Failure? ==> r == HandleError(response.error)
  {
    match response
    case Success(results) => Success(results.GetOr([]))
    case Failure(e) => HandleError(e)
  }

  /** `catchError(this.handleError)` alone, for a call whose value is passed on. */
  function Caught<T>(response: Result<T, HttpErrorResponse>): (r: Result<T, string>)
    ensures response.Success? ==> r == Success(response.value)
    ensures response.Failure? ==> r.Failure? && r.error == ErrorMessage(response.error)
  {
    match response
    case Success(v) => Success(v)
    case Failure(e) => HandleError(e)
  }

  /** The proxy's own error replies, `{error, details}`, carry no `message`
      key, so the deal and contact services never show anything from them:
      the message is the response's own, or the status line. The AI service
      does not find a nested message in them either, as `error` is a string. */
  lemma ProxyErrorReplyMessage(caption: string, upstream: ServerCrm.UpstreamError, message: string)
    ensures var reply := ServerCrm.ErrorReply(caption, upstream);
      var e := HttpErrorResponse(ServerBody(Some(reply.body)), message, reply.status);
      && ErrorMessage(e) == (if message != [] then message else ServerErrorMessage(reply.status))
      && AiErrorMessage(e) == ErrorMessage(e)
  {
    var reply := ServerCrm.ErrorReply(caption, upstream);
    assert "message" !in reply.body.fields;
    var inner := reply.body.fields["error"];
    assert inner == JString(caption);
    assert MessageAt(inner, ["message"]) == None;
    assert MessageAt(reply.body, ["error", "message"]) == MessageAt(inner, ["message"]);
  }
}
