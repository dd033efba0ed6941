/** The proxy server's handling of the generative model's replies: the
    code-fence and brace-span clean-up of `parseAIResponse`, the fixed fallback
    answers, and the merge of parsed output with fallbacks in the customer- and
    business-analysis handlers. The model call itself is an input. */
module ServerAi {
  import opened Crm
  import opened Text
  import opened Revenue
  import opened ServerMetrics

  const JsonFence: string := "```json"
  const Fence: string := "```"

  /** The length of the match of `/```json\s*|\s*```/` at the start of `s`:
      "```json" with the whitespace after it, or a run of whitespace followed
      by "```". The greedy `\s*` of the second alternative can only succeed
      with the whole run, since a backtick is not whitespace. */
  function FenceMatch(s: string): (n: Option<nat>)
    ensures n.Some? ==> 0 < n.value <= |s|
  {
    if StartsWith(s, JsonFence) then Some(|s| - |TrimStart(s[7..])|)
    else if StartsWith(TrimStart(s), Fence) then Some(|s| - |TrimStart(s)| + 3)
    else None
  }

  /** `text.replace(/```json\s*|\s*```/g, '')`: scanning left to right, each
      match is dropped and each position where none starts is copied. */
  function StripFences(s: string): (r: string)
    ensures |r| <= |s|
    decreases |s|
  {
    if s == [] then []
    else match FenceMatch(s)
      case Some(n) => StripFences(s[n..])
      case None => [s[0]] + StripFences(s[1..])
  }

  /** A character absent from the text is absent after stripping: stripping
      only removes characters. */
  lemma {:induction false} StripFencesKeepsAbsent(s: string, c: char)
    requires c !in s
    ensures c !in StripFences(s)
    decreases |s|
  {
    if s != [] {
      match FenceMatch(s)
      case Some(n) =>
        assert c !in s[n..] by {
          assert forall x :: x in s[n..] ==> x in s;
        }
        StripFencesKeepsAbsent(s[n..], c);
      case None =>
        assert c !in s[1..] by {
          assert forall x :: x in s[1..] ==> x in s;
        }
        StripFencesKeepsAbsent(s[1..], c);
    }
  }

  /** Neither fence starts at a character other than a backtick. */
  lemma NoFenceAt(t: string)
    requires t != [] && t[0] != '`'
    ensures !StartsWith(t, JsonFence) && !StartsWith(t, Fence)
  {
    if |t| >= 3 {
      assert t[..3][0] == t[0];
    }
    if |t| >= 7 {
      assert t[..7][0] == t[0];
    }
  }

  /** No match starts at a character other than a backtick unless only
      whitespace separates it from a backtick. */
  lemma NoMatchAt(s: string)
    requires s != [] && s[0] != '`'
    requires TrimStart(s) == [] || TrimStart(s)[0] != '`'
    ensures FenceMatch(s) == None
  {
    NoFenceAt(s);
    if TrimStart(s) != [] {
      NoFenceAt(TrimStart(s));
    }
  }

  /** The first character left by `TrimStart` is one of the text's characters. */
  lemma TrimStartHead(s: string)
    requires TrimStart(s) != []
    ensures TrimStart(s)[0] in s
  {
    var t := TrimStart(s);
    TrimStartSuffix(s);
    assert t[0] == s[|s| - |t|];
  }

  /** Text without a backtick has no fence to strip. */
  lemma {:induction false} StripFencesWithoutBackticks(s: string)
    requires '`' !in s
    ensures StripFences(s) == s
    decreases |s|
  {
    if s != [] {
      if TrimStart(s) != [] {
        TrimStartHead(s);
      }
      NoMatchAt(s);
      assert '`' !in s[1..] by {
        assert forall c :: c in s[1..] ==> c in s;
      }
      StripFencesWithoutBackticks(s[1..]);
    }
  }

  /** Whitespace and a closing fence are removed together. */
  lemma ClosingFenceRemoved(w: string)
    requires AllWhitespace(w)
    ensures StripFences(w + Fence) == []
  {
    var t := w + Fence;
    TrimStartOfPadded(w, Fence);
    assert !StartsWith(t, JsonFence) by {
      if w == [] {
        assert t == Fence;
      } else {
        assert t[0] == w[0];
        NoFenceAt(t);
      }
    }
    assert FenceMatch(t) == Some(|t|);
    assert t[|t|..] == [];
  }

  /** No match starts at backtick-free text that does not end with
      whitespace, whatever follows it. */
  lemma NoMatchBeforeFence(body: string, rest: string)
    requires body != [] && '`' !in body && !IsWhitespace(body[|body| - 1])
    ensures FenceMatch(body + rest) == None
  {
    var t := body + rest;
    assert t[0] == body[0];
    assert TrimStart(t) != [] && TrimStart(t)[0] != '`' by {
      TrimStartAppend(body, rest);
      TrimStartHead(body);
    }
    NoMatchAt(t);
  }

  /** Text free of backticks that does not end with whitespace, followed by
      whitespace and a closing fence, loses only the fence and that whitespace. */
  lemma {:induction false} StripClosingFence(body: string, w: string)
    requires '`' !in body && AllWhitespace(w)
    requires body == [] || !IsWhitespace(body[|body| - 1])
    ensures StripFences(body + w + Fence) == body
    decreases |body|
  {
    if body == [] {
      assert body + w + Fence == w + Fence;
      ClosingFenceRemoved(w);
    } else {
      var t := body + w + Fence;
      assert FenceMatch(t) == None by {
        assert t == body + (w + Fence);
        NoMatchBeforeFence(body, w + Fence);
      }
      var tail := body[1..];
      assert t[1..] == tail + w + Fence;
      assert '`' !in tail by {
        assert forall c :: c in tail ==> c in body;
      }
      assert tail == [] || tail[|tail| - 1] == body[|body| - 1];
      StripClosingFence(tail, w);
      assert body == [body[0]] + tail;
    }
  }

  /** An opening fence with the whitespace after it is one match. */
  lemma OpeningFenceMatch(w: string, rest: string)
    requires AllWhitespace(w) && (rest == [] || !IsWhitespace(rest[0]))
    ensures StripFences(JsonFence + w + rest) == StripFences(rest)
  {
    var s := JsonFence + w + rest;
    assert StartsWith(s, JsonFence) by {
      assert s[..7] == JsonFence;
    }
    assert s[7..] == w + rest;
    TrimStartOfPadded(w, rest);
    assert FenceMatch(s) == Some(|s| - |rest|);
    assert s[|s| - |rest|..] == rest;
  }

  /** A fenced reply with nothing inside is stripped to nothing. */
  lemma StripEmptyJsonFence(w1: string, w2: string)
    requires AllWhitespace(w1) && AllWhitespace(w2)
    ensures StripFences(JsonFence + w1 + w2 + Fence) == []
  {
    var w := w1 + w2;
    assert JsonFence + w1 + w2 + Fence == JsonFence + w + Fence;
    assert AllWhitespace(w);
    OpeningFenceMatch(w, Fence);
    ClosingFenceRemoved([]);
    assert [] + Fence == Fence;
  }

  /** A reply wrapped in a "```json" fence loses exactly the fence and the
      whitespace around the wrapped text. */
  lemma StripJsonFence(w1: string, body: string, w2: string)
    requires '`' !in body && AllWhitespace(w1) && AllWhitespace(w2)
    requires body == [] || (!IsWhitespace(body[0]) && !IsWhitespace(body[|body| - 1]))
    ensures StripFences(JsonFence + w1 + body + w2 + Fence) == body
  {
    var head := JsonFence + w1;
    if body == [] {
      assert head + body == head;
      StripEmptyJsonFence(w1, w2);
    } else {
      var rest := body + w2 + Fence;
      assert head + body + w2 + Fence == head + rest;
      StripFencedBody(w1, rest, body, w2);
    }
  }

  lemma StripFencedBody(w1: string, rest: string, body: string, w2: string)
    requires '`' !in body && AllWhitespace(w1) && AllWhitespace(w2)
    requires body != [] && !IsWhitespace(body[0]) && !IsWhitespace(body[|body| - 1])
    requires rest == body + w2 + Fence
    ensures StripFences(JsonFence + w1 + rest) == body
  {
    assert rest[0] == body[0];
    OpeningFenceMatch(w1, rest);
    StripClosingFence(body, w2);
  }

  /** The cleaned reply: fences removed, then `trim()`. */
  function Clean(text: string): string {
    Trim(StripFences(text))
  }

  /** The position of the first `c` in `s`. */
  function IndexOf(s: string, c: char): (r: Option<nat>)
    ensures r.Some? ==> r.value < |s| && s[r.value] == c && forall k :: 0 <= k < r.value ==> s[k] != c
    ensures r.None? <==> c !in s
  {
    if s == [] then None
    else if s[0] == c then Some(0)
    else match IndexOf(s[1..], c)
      case None => None
      case Some(i) => Some(i + 1)
  }

  /** The position of the last `c` in `s`. */
  function LastIndexOf(s: string, c: char): (r: Option<nat>)
    ensures r.Some? ==> r.value < |s| && s[r.value] == c && forall k :: r.value < k < |s| ==> s[k] != c
    ensures r.None? <==> c !in s
  {
    if s == [] then None
    else if s[|s| - 1] == c then Some(|s| - 1)
    else
      assert forall x :: x in s <==> x in s[..|s| - 1] || x == s[|s| - 1];
      LastIndexOf(s[..|s| - 1], c)
  }

  /** A `{` at `i` with a `}` after it at `j`. */
  predicate BracePair(s: string, i: int, j: int) {
    0 <= i < j < |s| && s[i] == '{' && s[j] == '}'
  }

  /** `cleaned.match(/\{[\s\S]*\}/)`: from the first `{` to the last `}` after
      it; there is no match when no `}` follows a `{`. */
  function BraceSpan(s: string): (r: Option<string>)
    ensures r.Some? ==> |r.value| >= 2 && r.value[0] == '{' && r.value[|r.value| - 1] == '}'
    ensures r.None? <==> forall i, j :: !BracePair(s, i, j)
  {
    match IndexOf(s, '{')
    case None => None
    case Some(i) =>
      match LastIndexOf(s, '}')
      case None => None
      case Some(j) =>
        if i < j then
          assert BracePair(s, i, j);
          Some(s[i..j + 1])
        else
          assert forall a, b :: BracePair(s, a, b) ==> i <= a && b <= j;
          None
  }

  /** The span is the widest one: it starts at the first `{` and ends at the
      last `}` of the text. */
  lemma BraceSpanIsWidest(s: string)
    requires BraceSpan(s).Some?
    ensures exists i, j :: (BracePair(s, i, j) && BraceSpan(s).value == s[i..j + 1]
      && (forall k :: 0 <= k < i ==> s[k] != '{') && (forall k :: j < k < |s| ==> s[k] != '}'))
  {
    var i := IndexOf(s, '{').value;
    var j := LastIndexOf(s, '}').value;
    assert BracePair(s, i, j);
  }

  /** Extracting the span from the span itself gives it back. */
  lemma BraceSpanIdempotent(s: string)
    requires BraceSpan(s).Some?
    ensures BraceSpan(BraceSpan(s).value) == BraceSpan(s)
  {
    var t := BraceSpan(s).value;
    assert IndexOf(t, '{') == Some(0);
    var j := LastIndexOf(t, '}');
    assert j.Some? && j.value == |t| - 1;
    assert t[0..|t|] == t;
  }

  /** One record of the customer fallback, as its JSON object. */
  function InsightJson(i: Insight): (r: Json)
    ensures r.JObject? && r.fields.Keys == {"type", "message", "confidence", "suggestion", "priority"}
    ensures r.fields["confidence"] == JNumber(i.confidence) && r.fields["type"] == JString(i.kind)
  {
    JObject(map[
      "type" := JString(i.kind),
      "message" := JString(i.message),
      "confidence" := JNumber(i.confidence),
      "suggestion" := JString(i.suggestion),
      "priority" := JString(i.priority)])
  }

  /** `getFallbackInsights().insights` */
  const FallbackCustomerInsights: seq<Insight> := [
    Insight(
      "upsell_opportunity",
      "Customer has shown interest in smart home technology and could benefit from premium features",
      0.7,
      "Offer annual subscription with additional smart home integration features",
      "medium"),
    Insight(
      "retention_risk",
      "Customer is on monthly plan which has higher churn risk",
      0.6,
      "Proactively offer loyalty discount for annual commitment",
      "medium")]

  /** `getFallbackInsights().summary` */
  const FallbackSummary: string := "Customer has potential for growth with the right engagement strategy."

  function InsightsJson(insights: seq<Insight>): (r: Json)
    ensures r.JArray? && |r.items| == |insights|
    ensures forall k :: 0 <= k < |insights| ==> r.items[k] == InsightJson(insights[k])
  {
    JArray(seq(|insights|, k requires 0 <= k < |insights| => InsightJson(insights[k])))
  }

  /** `getFallbackInsights()` */
  function FallbackInsights(): (r: map<string, Json>)
    ensures r.Keys == {"insights", "summary"}
  {
    map["insights" := InsightsJson(FallbackCustomerInsights), "summary" := JString(FallbackSummary)]
  }

  /** The customer fallback keeps the insight interface's promises: known types
      and priorities, confidences in [0, 1]. */
  lemma FallbackCustomerInsightsWellFormed()
    ensures |FallbackCustomerInsights| == 2
    ensures forall i :: i in FallbackCustomerInsights ==> WellFormedInsight(i)
  {
  }

  /** One business insight record. */
  datatype BusinessInsight = BusinessInsight(
    title: string,
    description: string,
    recommendation: string,
    impact: string)

  function BusinessInsightJson(i: BusinessInsight): (r: Json)
    ensures r.JObject? && r.fields.Keys == {"title", "description", "recommendation", "impact"}
    ensures forall k :: k in r.fields ==> r.fields[k].JString?
  {
    JObject(map[
      "title" := JString(i.title),
      "description" := JString(i.description),
      "recommendation" := JString(i.recommendation),
      "impact" := JString(i.impact)])
  }

  /** The figures of `key_metrics`. */
  datatype KeyMetrics = KeyMetrics(
    totalCustomers: int,
    activeSubscriptions: int,
    monthlyRecurringRevenue: real,
    conversionRate: int)

  /** Always a non-empty object, so it is truthy wherever it stands in an
      `||` chain. */
  function KeyMetricsJson(m: KeyMetrics): (r: Json)
    ensures r.JObject? && JsonTruthy(r)
    ensures r.fields.Keys == {"total_customers", "active_subscriptions", "monthly_recurring_revenue", "conversion_rate"}
    ensures forall k :: k in r.fields ==> r.fields[k].JNumber?
    ensures r.fields["monthly_recurring_revenue"] == JNumber(m.monthlyRecurringRevenue)
  {
    JObject(map[
      "total_customers" := JNumber(m.totalCustomers as real),
      "active_subscriptions" := JNumber(m.activeSubscriptions as real),
      "monthly_recurring_revenue" := JNumber(m.monthlyRecurringRevenue),
      "conversion_rate" := JNumber(m.conversionRate as real)])
  }

  const FallbackOverview: string := "Your smart home thermostat business is growing with opportunities for expansion."

  const FallbackBusinessRecords: seq<BusinessInsight> := [
    BusinessInsight(
      "Focus on Customer Retention",
      "Improving customer retention can significantly increase lifetime value",
      "Implement a customer success program and proactive support",
      "high"),
    BusinessInsight(
      "Expand Product Offerings",
      "Customers may be interested in additional smart home products",
      "Consider bundling thermostats with other smart home devices",
      "medium")]

  const FallbackOpportunities: seq<string> := [
    "Upsell existing customers to annual plans",
    "Expand into commercial building automation",
    "Develop partnerships with HVAC companies"]

  const ZeroMetrics: KeyMetrics := KeyMetrics(0, 0, 0.0, 0)

  function BusinessInsightsJson(insights: seq<BusinessInsight>): (r: Json)
    ensures r.JArray? && |r.items| == |insights|
    ensures forall k :: 0 <= k < |insights| ==> r.items[k] == BusinessInsightJson(insights[k])
  {
    JArray(seq(|insights|, k requires 0 <= k < |insights| => BusinessInsightJson(insights[k])))
  }

  function StringsJson(items: seq<string>): (r: Json)
    ensures r.JArray? && |r.items| == |items|
    ensures forall k :: 0 <= k < |items| ==> r.items[k] == JString(items[k])
  {
    JArray(seq(|items|, k requires 0 <= k < |items| => JString(items[k])))
  }

  /** `getFallbackBusinessInsights()` */
  function FallbackBusinessInsights(): (r: map<string, Json>)
    ensures r.Keys == {"overview", "key_metrics", "insights", "top_opportunities"}
    ensures r["key_metrics"] == KeyMetricsJson(ZeroMetrics)
  {
    map[
      "overview" := JString(FallbackOverview),
      "key_metrics" := KeyMetricsJson(ZeroMetrics),
      "insights" := BusinessInsightsJson(FallbackBusinessRecords),
      "top_opportunities" := StringsJson(FallbackOpportunities)]
  }

  /** `parseAIResponse`: the object parsed from the brace span of the cleaned
      reply, or the customer fallback when there is no span or it does not
      parse. `parse` stands for `JSON.parse`, `None` for a thrown error. */
  function ParseAIResponse(text: string, parse: string -> Option<map<string, Json>>): (r: map<string, Json>)
    ensures r == FallbackInsights()
         || exists span :: BraceSpan(span) == Some(span) && parse(span) == Some(r)
  {
    match BraceSpan(Clean(text))
    case None => FallbackInsights()
    case Some(span) =>
      BraceSpanIdempotent(Clean(text));
      match parse(span)
      case None => FallbackInsights()
      case Some(obj) => obj
  }

  /** A reply without any `{` is answered with the customer fallback. */
  lemma ParseWithoutBrace(text: string, parse: string -> Option<map<string, Json>>)
    requires '{' !in text
    ensures ParseAIResponse(text, parse) == FallbackInsights()
  {
    StripFencesKeepsAbsent(text, '{');
    TrimKeepsAbsent(StripFences(text), '{');
    var cleaned := Clean(text);
    forall a, b | 0 <= a < |cleaned|
      ensures !BracePair(cleaned, a, b)
    {
      assert cleaned[a] in cleaned;
    }
  }

  /** A reply whose JSON text is wrapped in a "```json" fence is read exactly as
      the bare JSON text. */
  lemma ParseFencedReply(w1: string, body: string, w2: string, parse: string -> Option<map<string, Json>>)
    requires '`' !in body && AllWhitespace(w1) && AllWhitespace(w2)
    requires body == [] || (!IsWhitespace(body[0]) && !IsWhitespace(body[|body| - 1]))
    ensures ParseAIResponse(JsonFence + w1 + body + w2 + Fence, parse) == ParseAIResponse(body, parse)
  {
    StripJsonFence(w1, body, w2);
    StripFencesWithoutBackticks(body);
  }

  /** The analyse-customer reply: a 400 rejection, or the contact and deals
      echoed with the insights and summary. */
  datatype CustomerReply =
    | CustomerRejected(status: nat, error: string)
    | CustomerAnalysed(contact: Contact, deals: seq<Deal>, insights: Json, summary: Json)

  /** `parsed.insights || fallback.insights` and `parsed.summary || fallback.summary` */
  function MergeCustomerReply(parsed: map<string, Json>): (r: (Json, Json))
    ensures "insights" in parsed && JsonTruthy(parsed["insights"]) ==> r.0 == parsed["insights"]
    ensures !("insights" in parsed && JsonTruthy(parsed["insights"])) ==> r.0 == FallbackInsights()["insights"]
    ensures "summary" in parsed && JsonTruthy(parsed["summary"]) ==> r.1 == parsed["summary"]
    ensures !("summary" in parsed && JsonTruthy(parsed["summary"])) ==> r.1 == FallbackInsights()["summary"]
    ensures JsonTruthy(r.0) && JsonTruthy(r.1)
  {
    (FieldOr(parsed, "insights", FallbackInsights()["insights"]),
     FieldOr(parsed, "summary", FallbackInsights()["summary"]))
  }

  /** The handler of `POST /api/ai/analyse-customer`. `contact` and `deals` are
      the request body's fields (`None` when absent); `generated` is the model's
      reply text, or the error it threw. */
  method AnalyseCustomer(
    contact: Option<Contact>, deals: Option<seq<Deal>>,
    generated: Result<string, string>, parse: string -> Option<map<string, Json>>)
    returns (reply: CustomerReply)
    ensures (contact.None? || deals.None?) <==> reply.CustomerRejected?
    ensures reply.CustomerRejected? ==> reply == CustomerRejected(400, "Contact and deals data are required")
    ensures reply.CustomerAnalysed? ==>
      reply.contact == contact.value && reply.deals == deals.value
      && JsonTruthy(reply.insights) && JsonTruthy(reply.summary)
    ensures reply.CustomerAnalysed? && generated.Failure? ==>
      reply.insights == FallbackInsights()["insights"] && reply.summary == FallbackInsights()["summary"]
    ensures reply.CustomerAnalysed? && generated.Success? ==>
      (reply.insights, reply.summary) == MergeCustomerReply(ParseAIResponse(generated.value, parse))
  {
    if contact.None? || deals.None? {
      return CustomerRejected(400, "Contact and deals data are required");
    }
    match generated {
      case Failure(_) =>
        var fallback := FallbackInsights();
        reply := CustomerAnalysed(contact.value, deals.value, fallback["insights"], fallback["summary"]);
      case Success(text) =>
        var parsed := ParseAIResponse(text, parse);
        var merged := MergeCustomerReply(parsed);
        reply := CustomerAnalysed(contact.value, deals.value, merged.0, merged.1);
    }
  }

  /** The figures the business handler computes from the request. */
  function ComputedMetrics(contacts: seq<Contact>, deals: seq<Deal>): (m: KeyMetrics)
    ensures m.totalCustomers == |contacts|
    ensures 0 <= m.activeSubscriptions <= |deals|
    ensures m.conversionRate >= 0
  {
    KeyMetrics(|contacts|, |ClosedWon(deals)|, MonthlyRevenue(deals), ConversionRate(contacts, deals))
  }

  const MergedKeys: set<string> := {"key_metrics", "insights", "top_opportunities"}

  /** `{...parsed, key_metrics: parsed.key_metrics || computed, insights:
      parsed.insights || fallback.insights, top_opportunities:
      parsed.top_opportunities || fallback.top_opportunities}` */
  function MergeBusinessReply(parsed: map<string, Json>, computed: KeyMetrics): (r: map<string, Json>)
    ensures r.Keys == parsed.Keys + MergedKeys
    ensures forall k :: k in parsed && k !in MergedKeys ==> r[k] == parsed[k]
    ensures r["key_metrics"] == FieldOr(parsed, "key_metrics", KeyMetricsJson(computed))
    ensures r["insights"] == FieldOr(parsed, "insights", FallbackBusinessInsights()["insights"])
    ensures r["top_opportunities"] == FieldOr(parsed, "top_opportunities", FallbackBusinessInsights()["top_opportunities"])
  {
    parsed + map[
      "key_metrics" := FieldOr(parsed, "key_metrics", KeyMetricsJson(computed)),
      "insights" := FieldOr(parsed, "insights", FallbackBusinessInsights()["insights"]),
      "top_opportunities" := FieldOr(parsed, "top_opportunities", FallbackBusinessInsights()["top_opportunities"])]
  }

  /** After a parse failure the business reply is built on the customer
      fallback: it carries the customer insights and summary, the computed
      metrics and the business fallback's opportunities, and no overview. */
  lemma BusinessReplyAfterParseFailure(computed: KeyMetrics)
    ensures var r := MergeBusinessReply(FallbackInsights(), computed);
      r.Keys == {"summary", "key_metrics", "insights", "top_opportunities"}
      && r["insights"] == InsightsJson(FallbackCustomerInsights)
      && r["summary"] == JString(FallbackSummary)
      && r["key_metrics"] == KeyMetricsJson(computed)
      && r["top_opportunities"] == StringsJson(FallbackOpportunities)
  {
    var f := FallbackInsights();
    assert "summary" !in MergedKeys;
    assert JsonTruthy(f["insights"]);
  }

  /** The analyse-business reply: a 400 rejection or a JSON object. */
  datatype BusinessReply =
    | BusinessRejected(status: nat, error: string)
    | BusinessAnalysed(body: map<string, Json>)

  /** The handler of `POST /api/ai/analyse-business`. */
  method AnalyseBusiness(
    contacts: Option<seq<Contact>>, deals: Option<seq<Deal>>,
    generated: Result<string, string>, parse: string -> Option<map<string, Json>>)
    returns (reply: BusinessReply)
    ensures (contacts.None? || deals.None?) <==> reply.BusinessRejected?
    ensures reply.BusinessRejected? ==> reply == BusinessRejected(400, "Contacts and deals data are required")
    ensures reply.BusinessAnalysed? && generated.Failure? ==> reply.body == FallbackBusinessInsights()
    ensures reply.BusinessAnalysed? && generated.Success? ==>
      reply.body == MergeBusinessReply(ParseAIResponse(generated.value, parse),
                                       ComputedMetrics(contacts.value, deals.value))
    ensures reply.BusinessAnalysed? ==> MergedKeys <= reply.body.Keys
  {
    if contacts.None? || deals.None? {
      return BusinessRejected(400, "Contacts and deals data are required");
    }
    match generated {
      case Failure(_) =>
        reply := BusinessAnalysed(FallbackBusinessInsights());
      case Success(text) =>
        var parsed := ParseAIResponse(text, parse);
        var metrics := ComputedMetrics(contacts.value, deals.value);
        reply := BusinessAnalysed(MergeBusinessReply(parsed, metrics));
    }
  }
}
