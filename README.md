# Breezy HubSpot proof of concept, modelled in Dafny

Breezy sells smart thermostats on subscription and keeps its customers and
deals in HubSpot. The repository has three tiers:

- A small Express server (`server/server.js`) that relays contact and deal
  requests to the HubSpot CRM API.
- Two AI endpoints on the same server. They ask a Gemini model for customer
  and business insights, extract and parse the JSON in its reply, and fall
  back to fixed insights when that fails.
- An Angular client: three services and the dashboard's views (contact list
  and form, contact deals, all deals, deal creation, active subscriptions,
  AI insights, and the main dashboard shell).

This project models that core in Dafny and proves properties of the model.

- `crm.dfy`: the CRM records (contacts, deals, insights), JSON values, and
  JavaScript truthiness.
- `text.dfy`: the string operations the source relies on: `\s` whitespace,
  `trim`, ASCII case mapping, `includes`, and decimal digits.
- Server:
  - `revenue.dfy`: the closed-won filter and the revenue sums shared by the
    server and the views.
  - `server_metrics.dfy`: `calculateMonthlyRevenue` and
    `calculateConversionRate`.
  - `server_ai.dfy`: `parseAIResponse`, the fallbacks, and the two AI
    endpoints.
  - `server_crm.dfy`: the CRM relay endpoints and the error reply they share.
- Client services:
  - `http_errors.dfy`: the services' `handleError`.
  - `deal_service.dfy`, `contact_service.dfy` and `ai_service.dfy`: the
    three services.
- Client views:
  - `stage_format.dfy`: the shared `formatDealStage`.
  - `contact_list.dfy`, `contact_form.dfy`, `contact_deals.dfy`,
    `all_deals.dfy`, `create_deal.dfy`, `active_subscriptions.dfy`,
    `ai_insights.dfy` and `main_dashboard.dfy`: one module per component.

Components whose signals the source updates are classes. Their methods carry
`modifies this` and state the whole new state. An asynchronous request is
split into the part before the request and its `next` and `error` callbacks.
A `...With` method composes those steps for a given outcome. Upstream calls
are function parameters, as are the model's reply, `JSON.parse`,
`toLocaleDateString` and the e-mail validator. Their results arrive as
`Result` values.

Two behaviours of the source are easy to miss:

- The business endpoint keeps the model's `key_metrics` when the parsed
  reply has a truthy one. It computes the metrics only when that field is
  missing or falsy (`server/server.js:361-371`). The metrics are not always
  replaced by computed ones.
- `parseAIResponse` falls back to the customer fallback in every context
  (`server/server.js:433`), including the business endpoint. The fallback
  does not match the endpoint that called it. `ServerAi.BusinessReplyAfterParseFailure`
  states the merged business reply that results.

## Model

| member | source | states |
|---|---|---|
| Crm.MessageOr | client/breezy-hubspot-poc/src/app/active-subscriptions/active-subscriptions.ts:87 | an `Error` yields its message, any other thrown value yields the fallback text |
| Crm.Truthy | client/breezy-hubspot-poc/src/app/contact-form/contact-form.ts:10 | truthiness of an optional string: `undefined`, `null` and `''` are falsy; `ContactFormView.PhoneValidator` and `ContactFormView.ContactPayload` state its effect |
| Crm.JsonTruthy | server/server.js:286-287 | truthiness of a parsed value: `null`, `false`, `0` and `''` are falsy, arrays and objects truthy; `Crm.FieldOr` and `ServerAi.MergeCustomerReply` state its effect on `\|\|` |
| Crm.Interpolated | client/breezy-hubspot-poc/src/app/main-dashboard/main-dashboard.ts:114 | `${value}` of an optional string: the string, or `undefined`; `MainDashboardView.PageTitle` and the success messages use it |
| Crm.AssociatedContactIds | server/server.js:501 | a deal's associated contact ids, or `[]`; `ServerMetrics.AssociatedIds` and `AiInsightsView.CustomerDeals` characterise its use |
| Crm.IsClosedWon | server/server.js:492 | `dealstage === 'closedwon'`, a missing stage failing; `Revenue.WonCount` and `Revenue.ClosedWonRevenueCons` state its effect |
| Crm.Amount | server/server.js:495 | `Number(amount \|\| 0)`: the amount, or 0 when missing; `Revenue.ClosedWonRevenueCons` states its effect |
| Crm.FindContact | client/breezy-hubspot-poc/src/app/active-subscriptions/active-subscriptions.ts:60 | `find` by id: there is no result exactly when no contact has the id; a result is the first contact with that id |
| Crm.FieldOr | server/server.js:363-370 | `parsed.k \|\| alternative`: the field when present and truthy, the alternative otherwise |
| Text.RemoveWhitespace | client/breezy-hubspot-poc/src/app/contact-form/contact-form.ts:15 | `replace(/\s/g, '')` leaves no whitespace character and never lengthens the string |
| Text.IsWhitespace | client/breezy-hubspot-poc/src/app/contact-form/contact-form.ts:15 | the characters `\s` matches and `trim` removes; `Text.DigitsHaveNoWhitespace` and the `Trim` lemmas use it |
| Text.RemoveWhitespaceAppend | client/breezy-hubspot-poc/src/app/contact-form/contact-form.ts:15 | removing whitespace distributes over concatenation |
| Text.RemoveWhitespaceOfWhitespace | client/breezy-hubspot-poc/src/app/contact-form/contact-form.ts:15 | a whitespace-only string becomes empty |
| Text.RemoveWhitespaceOfClean | client/breezy-hubspot-poc/src/app/contact-form/contact-form.ts:15 | a string without whitespace is unchanged |
| Text.DigitsHaveNoWhitespace | client/breezy-hubspot-poc/src/app/contact-form/contact-form.ts:14-15 | decimal digits are not `\s` characters |
| Text.TrimStart | server/server.js:424 | drops leading whitespace: never longer, and the result starts with a non-whitespace character when it is non-empty |
| Text.TrimStartSuffix | server/server.js:424 | the left-trimmed string is a suffix of the input |
| Text.TrimStartCut | server/server.js:424 | what left-trimming removes is all whitespace |
| Text.TrimEnd | server/server.js:424 | drops trailing whitespace: never longer, and the result ends with a non-whitespace character when it is non-empty |
| Text.TrimEndPrefix | server/server.js:424 | the right-trimmed string is a prefix of the input |
| Text.TrimEndCut | server/server.js:424 | what right-trimming removes is all whitespace |
| Text.Trim | server/server.js:424 | `trim()`: never longer, and neither end of a non-empty result is whitespace |
| Text.TrimSlice | server/server.js:424 | the trimmed string is a contiguous slice of the input with only whitespace on either side |
| Text.TrimKeepsAbsent | server/server.js:424 | trimming introduces no character that was absent from the input |
| Text.TrimOfTrimmed | server/server.js:424 | trimming a string with no whitespace at its ends changes nothing |
| Text.TrimStartOfPadded | server/server.js:424 | whitespace padding before a non-blank string is exactly what left-trimming removes |
| Text.TrimStartAppend | server/server.js:424 | left-trimming a concatenation only affects its first part when that part ends in a non-blank character |
| Text.UpperChar | client/breezy-hubspot-poc/src/app/ai-insights/ai-insights.ts:129 | `toUpperCase` on one character: the result is never lower-case, a lower-case letter becomes a capital, and anything else is unchanged |
| Text.LowerChar | server/server.js:493 | `toLowerCase` on one character: the result is never a capital, and a non-capital is unchanged |
| Text.LowerCase | server/server.js:493 | `toLowerCase()` keeps the length and lower-cases each character in place |
| Text.ContainsAt | server/server.js:493 | `includes` holds exactly when the substring occurs at some index |
| Text.Contains | server/server.js:493 | `includes`; `Text.ContainsAt` states that it holds exactly when an occurrence index exists |
| Text.DigitChar | client/breezy-hubspot-poc/src/app/services/deal-service.ts:54 | a digit value below ten is written as a decimal digit |
| Text.NatToString | client/breezy-hubspot-poc/src/app/services/deal-service.ts:54 | a number interpolated in a template is non-empty decimal digits with no leading zero |
| Text.NatToStringRoundTrip | client/breezy-hubspot-poc/src/app/services/deal-service.ts:54 | reading the written digits back gives the number |
| Text.Utf16Length | client/breezy-hubspot-poc/src/app/contact-form/contact-form.ts:37-38 | a string's JavaScript `length`: between its character count and twice that, and equal to it when no character is above U+FFFF |
| Revenue.Filter | server/server.js:491-494 | `filter` keeps exactly the elements that satisfy the predicate and is never longer |
| Revenue.SumAmounts | server/server.js:495 | `reduce` adding `Number(amount \|\| 0)`; characterised by `Revenue.SumAmountsAppend` and `Revenue.SumAmountsPermutation` |
| Revenue.ClosedWon | client/breezy-hubspot-poc/src/app/all-deals/all-deals.ts:70 | the won deals in their order; by `Revenue.Filter` exactly the deals with stage `closedwon` |
| Revenue.ClosedWonRevenue | client/breezy-hubspot-poc/src/app/all-deals/all-deals.ts:68-72 | the amount sum of the won deals; characterised by `Revenue.ClosedWonRevenueCons`, `Revenue.ClosedWonRevenueAppend` and `Revenue.ClosedWonRevenuePermutation` |
| Revenue.WonCount | server/server.js:365 | the closed-won count is at most the deal count, and equals it exactly when every deal is won |
| Revenue.WonCountFull | client/breezy-hubspot-poc/src/app/all-deals/all-deals.ts:74-76 | the closed-won list is as long as the deals exactly when every deal is won |
| Revenue.FilterAppend | server/server.js:491-494 | filtering distributes over concatenation |
| Revenue.SumAmountsAppend | server/server.js:495 | the amount sum distributes over concatenation |
| Revenue.FilterPermutation | server/server.js:491-494 | filtering a permutation gives a permutation of the filtered list |
| Revenue.SumAmountsPermutation | server/server.js:495 | the amount sum does not depend on the order of the deals |
| Revenue.SumFilterMonotone | server/server.js:490-496 | with no negative amount, a narrower filter never sums to more |
| Revenue.ClosedWonRevenueAppend | client/breezy-hubspot-poc/src/app/all-deals/all-deals.ts:68-72 | the won revenue of two lists is the sum of their won revenues |
| Revenue.ClosedWonRevenueCons | client/breezy-hubspot-poc/src/app/ai-insights/ai-insights.ts:142-146 | a deal adds its amount to the won revenue when it is won, and nothing otherwise (a missing amount counts 0) |
| Revenue.ClosedWonRevenuePermutation | client/breezy-hubspot-poc/src/app/ai-insights/ai-insights.ts:142-146 | the won revenue does not depend on the order of the deals |
| Revenue.CountAndRevenueShareFilter | client/breezy-hubspot-poc/src/app/ai-insights/ai-insights.ts:138-146 | the active-subscription count and the total revenue use the same filter: no won deal means zero revenue, and a zero count means no deal is won |
| StageFormat.SpaceBeforeCapitals | client/breezy-hubspot-poc/src/app/all-deals/all-deals.ts:55 | `replace(/([A-Z])/g, ' $1')` never shortens the string |
| StageFormat.UpperFirst | client/breezy-hubspot-poc/src/app/all-deals/all-deals.ts:56 | `replace(/^./, upper)` keeps the length |
| StageFormat.FormatDealStage | client/breezy-hubspot-poc/src/app/all-deals/all-deals.ts:53-58 | the formatted stage has no whitespace at either end |
| StageFormat.FormatDefaultedStage | client/breezy-hubspot-poc/src/app/contact-deals/contact-deals.ts:74-79 | an undefined stage defaults to `''`, which formats to `''`; a defined stage is formatted |
| StageFormat.SpaceBeforeCapitalsIdentity | client/breezy-hubspot-poc/src/app/all-deals/all-deals.ts:55 | a code without capitals gets no spaces |
| StageFormat.FormatLowercaseCode | client/breezy-hubspot-poc/src/app/all-deals/all-deals.ts:53-58 | a lower-case code without whitespace is shown with only its first letter capitalised |
| StageFormat.SpaceBeforeCapitalsAppend | client/breezy-hubspot-poc/src/app/all-deals/all-deals.ts:55 | spacing capitals distributes over concatenation |
| StageFormat.SpacedTwoWords | client/breezy-hubspot-poc/src/app/all-deals/all-deals.ts:55 | a camel-case code gets one space before its capital |
| StageFormat.FormatOfSpaced | client/breezy-hubspot-poc/src/app/all-deals/all-deals.ts:53-58 | after the spaces are inserted, only the first character is upper-cased and nothing is trimmed |
| StageFormat.FormatTwoWords | client/breezy-hubspot-poc/src/app/all-deals/all-deals.ts:53-58 | a two-word camel-case code becomes two words, the first capitalised |
| StageFormat.ClosedWonCodeIsPlain | client/breezy-hubspot-poc/src/app/services/deal-service.ts:42 | `closedwon` has no capitals or whitespace |
| StageFormat.FormatEmptyExample | client/breezy-hubspot-poc/src/app/contact-deals/contact-deals.ts:74 | the empty default stage formats to the empty string |
| StageFormat.FormatClosedWonExample | client/breezy-hubspot-poc/src/app/all-deals/all-deals.ts:53-58 | `closedwon` is shown as `Closedwon` |
| StageFormat.ContractSentIsTwoWords | client/breezy-hubspot-poc/src/app/all-deals/all-deals.ts:55-56 | `contractSent` splits into two words without capitals around its one capital |
| StageFormat.FormatContractSentExample | client/breezy-hubspot-poc/src/app/all-deals/all-deals.ts:53-58 | `contractSent` is shown as `Contract Sent` |
| ServerMetrics.MonthlyRevenueCons | server/server.js:490-496 | a deal counts toward monthly revenue only when it is won and its lower-cased name mentions `monthly`; a missing amount counts 0 |
| ServerMetrics.IsMonthlyWon | server/server.js:491-494 | the monthly filter: won, and the lower-cased name contains `monthly`; a missing name fails it; its effect on the sum is stated by `ServerMetrics.MonthlyRevenueCons` |
| ServerMetrics.MonthlyRevenue | server/server.js:490-496 | `calculateMonthlyRevenue`; characterised by `ServerMetrics.MonthlyRevenueCons`, `ServerMetrics.MonthlyRevenueAppend`, `ServerMetrics.MonthlyRevenuePermutation` and `ServerMetrics.MonthlyRevenueAtMostWonRevenue` |
| ServerMetrics.MonthlyRevenuePermutation | server/server.js:490-496 | monthly revenue does not depend on the order of the deals |
| ServerMetrics.MonthlyRevenueAppend | server/server.js:490-496 | monthly revenue of two lists is the sum of their monthly revenues |
| ServerMetrics.MonthlyRevenueAtMostWonRevenue | server/server.js:490-496 | with no negative amount, monthly revenue is between 0 and the whole won revenue |
| ServerMetrics.FilterEmpty | server/server.js:491-494 | a filter that accepts nothing yields the empty list |
| ServerMetrics.RoundHalfUp | server/server.js:504 | `Math.round` gives the integer within half a unit, ties rounded up |
| ServerMetrics.RoundHalfUpMonotone | server/server.js:504 | `Math.round` is monotone |
| ServerMetrics.AssociatedIds | server/server.js:499-503 | the set holds exactly the contact ids associated with some deal |
| ServerMetrics.ContactIds | server/server.js:498-505 | the set holds exactly the ids of defined contacts and has no more elements than there are contacts |
| ServerMetrics.Percentage | server/server.js:504 | the model rounds the exact share: the result is within half a unit of the exact rational `100 * k / n`, an exact half rounding up, and lies in 0..100 when `k <= n` |
| ServerMetrics.PercentageExactTies | server/server.js:504 | the exact shares 57.5 (23 of 40) and 14.5 (29 of 200) round up to 58 and 15 in the model |
| ServerMetrics.PercentageRange | server/server.js:504 | `Math.round(k / n * 100)` lies in 0..100 when `k <= n` |
| ServerMetrics.MulStrictMonotone | server/server.js:504 | multiplying by a positive factor keeps strict order |
| ServerMetrics.ConversionRateBounds | server/server.js:498-505 | when every associated id is a listed contact, the conversion rate lies in 0..100 |
| ServerMetrics.ConversionRate | server/server.js:498-505 | `calculateConversionRate`: 0 without contacts, otherwise the exact-rational rounding `ServerMetrics.Percentage` of the distinct associated ids; characterised by `ServerMetrics.ConversionRateBounds`, `ServerMetrics.ConversionRateDuplicateIds`, `ServerMetrics.ConversionRatePermutation` and `ServerMetrics.ConversionRateExamples` |
| ServerMetrics.SubsetCardinality | server/server.js:499-504 | a subset has no more elements than its superset |
| ServerMetrics.ConversionRateDuplicateIds | server/server.js:499-503 | a deal whose contacts are already counted does not change the rate, because the ids form a set |
| ServerMetrics.ConversionRatePermutation | server/server.js:498-505 | the conversion rate does not depend on the order of the deals |
| ServerMetrics.ConversionRateExamples | server/server.js:504 | 2 of 4 contacts give 50, 1 of 3 gives 33, and 2 of 3 give 67 |
| ServerAi.FenceMatch | server/server.js:424 | a match of `` ```json\s* `` or `` \s*``` `` at the start is non-empty and within the string |
| ServerAi.StripFences | server/server.js:424 | removing the fences never lengthens the text |
| ServerAi.StripFencesKeepsAbsent | server/server.js:424 | removing fences introduces no new character |
| ServerAi.NoFenceAt | server/server.js:424 | neither fence starts at a character other than a backtick |
| ServerAi.NoMatchAt | server/server.js:424 | no fence matches where neither the next character nor the next non-blank one is a backtick |
| ServerAi.TrimStartHead | server/server.js:424 | the first character left after left-trimming comes from the string |
| ServerAi.StripFencesWithoutBackticks | server/server.js:424 | text without backticks is unchanged by fence removal |
| ServerAi.ClosingFenceRemoved | server/server.js:424 | whitespace followed by a closing fence is removed entirely |
| ServerAi.NoMatchBeforeFence | server/server.js:424 | inside a backtick-free body that ends non-blank, no fence matches |
| ServerAi.StripClosingFence | server/server.js:424 | a body followed by whitespace and a closing fence keeps just the body |
| ServerAi.OpeningFenceMatch | server/server.js:424 | an opening `` ```json `` fence and the whitespace after it are removed |
| ServerAi.StripEmptyJsonFence | server/server.js:424 | a fenced block with an empty body leaves nothing |
| ServerAi.StripJsonFence | server/server.js:424 | a `` ```json `` fenced body comes out exactly as the body |
| ServerAi.StripFencedBody | server/server.js:424 | the fenced-body round trip, stated with the text after the opening fence named |
| ServerAi.Clean | server/server.js:424 | fence removal then `trim()`; characterised by `ServerAi.ParseFencedReply` and `ServerAi.ParseWithoutBrace`, which go through it |
| ServerAi.IndexOf | server/server.js:425 | the first occurrence of a character, or none exactly when it is absent |
| ServerAi.LastIndexOf | server/server.js:425 | the last occurrence of a character, or none exactly when it is absent |
| ServerAi.BraceSpan | server/server.js:425-427 | the greedy `/\{[\s\S]*\}/` match starts with `{` and ends with `}`; there is no match exactly when no `{` comes before a `}` |
| ServerAi.BraceSpanIsWidest | server/server.js:425 | the match runs from the first `{` to the last `}` |
| ServerAi.BraceSpanIdempotent | server/server.js:425-427 | matching again inside the matched span gives the same span |
| ServerAi.InsightsJson | server/server.js:439-454 | the insight list becomes a JSON array of the same length, element by element |
| ServerAi.InsightJson | server/server.js:440-446 | one insight record as an object with exactly the keys `type`, `message`, `confidence`, `suggestion` and `priority` |
| ServerAi.FallbackInsights | server/server.js:437-457 | the customer fallback has exactly the keys `insights` and `summary` |
| ServerAi.FallbackCustomerInsightsWellFormed | server/server.js:439-454 | the two fallback insights use the declared insight kinds and priorities, with confidence in 0..1 |
| ServerAi.BusinessInsightsJson | server/server.js:468-481 | the business insight list becomes a JSON array of the same length, element by element |
| ServerAi.BusinessInsightJson | server/server.js:469-474 | one business insight as an object with exactly the four string keys `title`, `description`, `recommendation` and `impact` |
| ServerAi.KeyMetricsJson | server/server.js:363-368 | the metrics object has exactly the four numeric keys of `key_metrics`, the monthly revenue as given, and is truthy |
| ServerAi.StringsJson | server/server.js:482-486 | a list of strings becomes a JSON array of the same strings |
| ServerAi.FallbackBusinessInsights | server/server.js:459-488 | the business fallback has exactly four keys, and its metrics are all zero |
| ServerAi.ParseAIResponse | server/server.js:422-435 | the result is the customer fallback, or the parse of a span that is its own brace match |
| ServerAi.ParseWithoutBrace | server/server.js:425-429 | a reply without `{` always gives the customer fallback |
| ServerAi.ParseFencedReply | server/server.js:422-435 | a reply fenced as `` ```json `` parses as its body would |
| ServerAi.MergeCustomerReply | server/server.js:286-287 | each of `insights` and `summary` is the parsed value when truthy and the fallback otherwise, so both are always truthy |
| ServerAi.AnalyseCustomer | server/server.js:224-301 | 400 with its message exactly when contact or deals is missing; otherwise contact and deals are echoed, with merged insights on success and the fallback insights when generation fails |
| ServerAi.ComputedMetrics | server/server.js:363-368 | the computed metrics count every contact, at most every deal as active, and a non-negative conversion rate |
| ServerAi.MergeBusinessReply | server/server.js:361-371 | every parsed key is kept, and `key_metrics`, `insights` and `top_opportunities` are each the parsed value or its fallback |
| ServerAi.BusinessReplyAfterParseFailure | server/server.js:360-371 | after a parse failure the business reply carries the customer fallback's insights and summary with computed metrics |
| ServerAi.AnalyseBusiness | server/server.js:304-377 | 400 with its message exactly when contacts or deals is missing; the whole business fallback when generation fails; the merged reply otherwise |
| ServerCrm.ErrorReply | server/server.js:69-72 | the upstream status, or 500 when there is none; the body has exactly `error` (the caption) and `details` (the upstream data when truthy, else the message) |
| ServerCrm.Relay | server/server.js:66-73 | success relays the upstream data with 200; failure gives the error reply |
| ServerCrm.DealCreatePayload | server/server.js:133-143 | the properties pass through, with one deal-to-contact association exactly when the contact id is truthy |
| ServerCrm.DealCreatePayloadTargets | server/server.js:137-143 | every association targets the given contact with type `HUBSPOT_DEFINED`/3 |
| ServerCrm.CreateDeal | server/server.js:128-161 | sends the deal payload and relays the outcome under `Failed to create deal` |
| ServerCrm.ContactDeals | server/server.js:164-208 | a failed association lookup is relayed as an error; no associated ids give `{results: []}` without a batch read; otherwise the ids and the five properties are batch-read and relayed |
| ServerCrm.ListContacts | server/server.js:51-74 | queries up to 50 contacts with the five contact properties and relays the answer |
| ServerCrm.ListDeals | server/server.js:102-125 | queries up to 50 deals with the five deal properties and relays the answer |
| ServerCrm.CreateContact | server/server.js:77-99 | sends `{properties}` alone and relays the answer |
| ServerCrm.RelayStatus | server/server.js:66-73 | a relayed reply has status 200 on success; on failure its status is non-zero and its `error` is the caption |
| HttpErrors.MessageAt | client/breezy-hubspot-poc/src/app/services/deal-service.ts:54 | optional chaining down a path yields the value there when it is truthy, whatever its JSON type, and nothing when a step is missing or the value is falsy |
| HttpErrors.BodyMessageAt | client/breezy-hubspot-poc/src/app/services/deal-service.ts:54 | the same on an optional error body; without a body there is nothing |
| HttpErrors.IntText | client/breezy-hubspot-poc/src/app/services/deal-service.ts:57 | `String` of an integer: its decimal digits, after a minus sign when negative |
| HttpErrors.FractionPlaces | client/breezy-hubspot-poc/src/app/services/deal-service.ts:57 | the decimal places written for a fraction: the fewest, up to 20, that write it exactly |
| HttpErrors.FractionDigits | client/breezy-hubspot-poc/src/app/services/deal-service.ts:57 | the written decimal places are that many digits |
| HttpErrors.NumberText | client/breezy-hubspot-poc/src/app/services/deal-service.ts:57 | `String` of a number is never empty, and an integral number is written as that integer |
| HttpErrors.Join | client/breezy-hubspot-poc/src/app/services/deal-service.ts:57 | `join(',')` of no parts is empty and of one part is that part |
| HttpErrors.Render | client/breezy-hubspot-poc/src/app/services/deal-service.ts:57 | `new Error(v)` shows `String(v)`: a string as itself, an object as `[object Object]`, a number by `NumberText`, a boolean as `true`/`false`; only an array of a truthy value can render empty |
| HttpErrors.RenderIntegerRoundTrip | client/breezy-hubspot-poc/src/app/services/deal-service.ts:57 | a whole-number message reads back as the number it was |
| HttpErrors.RenderArrayExamples | client/breezy-hubspot-poc/src/app/services/deal-service.ts:57 | an empty array, and an array holding only `null`, render as the empty string; an array of one string renders as that string |
| HttpErrors.ServerErrorMessage | client/breezy-hubspot-poc/src/app/services/deal-service.ts:54 | `Server error: ` followed by the status in decimal, which reads back as the status |
| HttpErrors.ErrorMessage | client/breezy-hubspot-poc/src/app/services/deal-service.ts:47-58 | a client event gives `Client error: …`; otherwise `String` of a truthy body message, else the error's message, else the server-error text; the result is empty only when the body message is an array |
| HttpErrors.NonStringBodyMessages | client/breezy-hubspot-poc/src/app/services/deal-service.ts:54-57 | a body message `42` is shown as `42`, and a body message `[]` as the empty string |
| HttpErrors.AiErrorMessage | client/breezy-hubspot-poc/src/app/services/ai-service.ts:40-51 | the same cascade, starting from `String` of a truthy nested `error.message`; empty only when the message chosen is an array |
| HttpErrors.AiErrorMessageAgrees | client/breezy-hubspot-poc/src/app/services/ai-service.ts:40-51 | without a nested `error.message` the AI service's message equals the other services' message |
| HttpErrors.HandleError | client/breezy-hubspot-poc/src/app/services/contact-service.ts:31-42 | an HTTP error always becomes a failure carrying the chain's message |
| HttpErrors.AiHandleError | client/breezy-hubspot-poc/src/app/services/ai-service.ts:40-51 | the AI service's error becomes a failure carrying its chain's message |
| HttpErrors.FetchList | client/breezy-hubspot-poc/src/app/services/deal-service.ts:15-20 | `results \|\| []`: the results, or the empty list when there are none; an HTTP error is handled |
| HttpErrors.Caught | client/breezy-hubspot-poc/src/app/services/deal-service.ts:22-26 | a success passes through; an error becomes its handled message |
| HttpErrors.ProxyErrorReplyMessage | server/server.js:69-72 | a client reading the server's error reply shows the error's message, or the server-error text for the reply's status |
| DealApi.DealStages | client/breezy-hubspot-poc/src/app/services/deal-service.ts:35-45 | seven distinct stage codes, including `closedwon`, `closedlost` and `presentationscheduled` |
| DealApi.DealStageLabels | client/breezy-hubspot-poc/src/app/services/deal-service.ts:35-45 | every stage code is formatted as itself with its first letter capitalised |
| DealApi.PlainStageCode | client/breezy-hubspot-poc/src/app/services/deal-service.ts:35-45 | every stage code is non-empty, with no capitals and no whitespace |
| DealApi.StageCodeLetters | client/breezy-hubspot-poc/src/app/services/deal-service.ts:35-45 | every stage code is non-empty lower-case letters |
| DealApi.LowerLettersArePlain | client/breezy-hubspot-poc/src/app/services/deal-service.ts:35-45 | lower-case letters contain no capitals and no whitespace |
| DealApi.GetAllDeals | client/breezy-hubspot-poc/src/app/services/deal-service.ts:15-20 | the `results` of a success, or the empty list when absent; an error fails with the handler's message |
| DealApi.CreateDeal | client/breezy-hubspot-poc/src/app/services/deal-service.ts:22-26 | the created deal on success; an error fails with the handler's message |
| DealApi.GetDealsForContact | client/breezy-hubspot-poc/src/app/services/deal-service.ts:28-33 | the `results` of a success, or the empty list when absent; an error fails with the handler's message |
| ContactApi.ContactService.constructor | client/breezy-hubspot-poc/src/app/services/contact-service.ts:16 | no contact is selected at first |
| ContactApi.ContactService.GetSelectedContact | client/breezy-hubspot-poc/src/app/services/contact-service.ts:48-50 | the held contact; what it returns after each update is stated by the constructor, `SetSelectedContact` and `ClearSelectedContact` |
| ContactApi.ContactService.SetSelectedContact | client/breezy-hubspot-poc/src/app/services/contact-service.ts:44-46 | the given contact becomes the selected one |
| ContactApi.ContactService.ClearSelectedContact | client/breezy-hubspot-poc/src/app/services/contact-service.ts:52-54 | no contact is selected afterwards |
| ContactApi.ContactService.GetContactDeals | client/breezy-hubspot-poc/src/app/services/contact-service.ts:11-13 | always fails with `Method not implemented.` |
| ContactApi.SelectionSequence | client/breezy-hubspot-poc/src/app/services/contact-service.ts:44-54 | the later of two selections wins, and clearing leaves none |
| ContactApi.GetContacts | client/breezy-hubspot-poc/src/app/services/contact-service.ts:18-23 | the `results` of a success, or the empty list when absent; an error fails with the handler's message |
| ContactApi.CreateContact | client/breezy-hubspot-poc/src/app/services/contact-service.ts:25-29 | the created contact on success; an error fails with the handler's message |
| AiApi.CustomerAnalysisRequest | client/breezy-hubspot-poc/src/app/services/ai-service.ts:14-21 | the body is exactly `{contact, deals}`, and its deals array is truthy even when empty |
| AiApi.BusinessAnalysisRequest | client/breezy-hubspot-poc/src/app/services/ai-service.ts:24-31 | the body is exactly `{contacts, deals}`, and both arrays are truthy |
| AiApi.AiCall | client/breezy-hubspot-poc/src/app/services/ai-service.ts:14-38 | a success passes through; an error goes to the AI service's handler |
| ActiveSubscriptionsView.Summary | client/breezy-hubspot-poc/src/app/active-subscriptions/active-subscriptions.ts:71-84 | the customer's active subscriptions are exactly its won deals, and their total is the won revenue |
| ActiveSubscriptionsView.FormatStage | client/breezy-hubspot-poc/src/app/active-subscriptions/active-subscriptions.ts:94-101 | a falsy stage shows `Unknown`; otherwise the formatted stage, with no whitespace at either end |
| ActiveSubscriptionsView.ActiveSubscriptions.constructor | client/breezy-hubspot-poc/src/app/active-subscriptions/active-subscriptions.ts:20-26 | the initial signals: nothing loaded, loading or selected |
| ActiveSubscriptionsView.ActiveSubscriptions.LoadContacts | client/breezy-hubspot-poc/src/app/active-subscriptions/active-subscriptions.ts:32-45 | success sets `contacts \|\| []` and leaves the error cleared; failure keeps the contacts and sets `Failed to load customers`; loading ends either way |
| ActiveSubscriptionsView.ActiveSubscriptions.OnCustomerSelected | client/breezy-hubspot-poc/src/app/active-subscriptions/active-subscriptions.ts:47-92 | no id clears the selection; an unknown id sets `Selected customer not found`; a known id selects it and sets the summary of its deals, or the thrown message on failure; loading ends |
| ActiveSubscriptionsView.ActiveSubscriptions.ClearError | client/breezy-hubspot-poc/src/app/active-subscriptions/active-subscriptions.ts:103-105 | the error is cleared and nothing else changes |
| ActiveSubscriptionsView.SummaryOfAppend | client/breezy-hubspot-poc/src/app/active-subscriptions/active-subscriptions.ts:71-78 | the summary of two deal lists concatenates the subscriptions and adds the revenues |
| ActiveSubscriptionsView.SummaryCoversMonthlyRevenue | client/breezy-hubspot-poc/src/app/active-subscriptions/active-subscriptions.ts:76-78 | the view's total is at least the server's monthly revenue for the same deals |
| AiInsightsView.CanGenerateCases | client/breezy-hubspot-poc/src/app/ai-insights/ai-insights.ts:64-72 | nothing can be generated unless the AI is connected; a customer analysis also needs a selected contact; a business analysis needs nothing more |
| AiInsightsView.CanGenerate | client/breezy-hubspot-poc/src/app/ai-insights/ai-insights.ts:64-72 | the generation gate; `AiInsightsView.CanGenerateCases` states its three cases |
| AiInsightsView.AiInsights.CanGenerateInsights | client/breezy-hubspot-poc/src/app/ai-insights/ai-insights.ts:64-72 | the gate on the view's state; `AiInsights.GenerateInsights` does nothing unless it holds |
| AiInsightsView.ConfidenceLevel | client/breezy-hubspot-poc/src/app/ai-insights/ai-insights.ts:132-136 | `high` exactly from 0.8, `medium` exactly in [0.6, 0.8), `low` exactly below 0.6 |
| AiInsightsView.ConfidenceLevelMonotone | client/breezy-hubspot-poc/src/app/ai-insights/ai-insights.ts:132-136 | a higher confidence never has a lower level |
| AiInsightsView.InsightIcon | client/breezy-hubspot-poc/src/app/ai-insights/ai-insights.ts:118-126 | a known insight kind has its icon; any other kind has the bulb |
| AiInsightsView.InsightIconsCoverKinds | client/breezy-hubspot-poc/src/app/ai-insights/ai-insights.ts:118-126 | the icon table covers exactly the declared insight kinds, none with the default icon |
| AiInsightsView.ReplaceUnderscores | client/breezy-hubspot-poc/src/app/ai-insights/ai-insights.ts:129 | `replace(/_/g, ' ')`: each underscore becomes a space and nothing else changes |
| AiInsightsView.IsWordChar | client/breezy-hubspot-poc/src/app/ai-insights/ai-insights.ts:129 | the `\w` class: ASCII letters, digits and `_`; `AiInsightsView.UpperCharKeepsWordChar` and `AiInsightsView.CapitaliseWords` use it |
| AiInsightsView.CapitaliseWords | client/breezy-hubspot-poc/src/app/ai-insights/ai-insights.ts:129 | `replace(/\b\w/g, upper)`: a word character at a word boundary is upper-cased and every other character is kept |
| AiInsightsView.FormatInsightType | client/breezy-hubspot-poc/src/app/ai-insights/ai-insights.ts:128-130 | the label keeps the length and has no underscore |
| AiInsightsView.UpperCharKeepsWordChar | client/breezy-hubspot-poc/src/app/ai-insights/ai-insights.ts:129 | upper-casing keeps word characters as word characters and is idempotent |
| AiInsightsView.FormatInsightTypeIdempotent | client/breezy-hubspot-poc/src/app/ai-insights/ai-insights.ts:128-130 | formatting a label again changes nothing |
| AiInsightsView.FormatRetentionRiskExample | client/breezy-hubspot-poc/src/app/ai-insights/ai-insights.ts:128-130 | `retention_risk` is shown as `Retention Risk` |
| AiInsightsView.SpacedRetentionRisk | client/breezy-hubspot-poc/src/app/ai-insights/ai-insights.ts:129 | the underscore step turns `retention_risk` into `retention risk` |
| AiInsightsView.CapitalisedRetentionRisk | client/breezy-hubspot-poc/src/app/ai-insights/ai-insights.ts:129 | the capitalising step turns `retention risk` into `Retention Risk` |
| AiInsightsView.CustomerDeals | client/breezy-hubspot-poc/src/app/ai-insights/ai-insights.ts:89-91 | exactly the deals associated with the contact |
| AiInsightsView.Received | client/breezy-hubspot-poc/src/app/ai-insights/ai-insights.ts:93-108 | a truthy reply is kept; a missing one fails with the view's message; a thrown error gives its message or `Failed to generate insights` |
| AiInsightsView.AiInsights.constructor | client/breezy-hubspot-poc/src/app/ai-insights/ai-insights.ts:22-31 | the initial signals: status checking, customer analysis selected, nothing loaded |
| AiInsightsView.AiInsights.LoadData | client/breezy-hubspot-poc/src/app/ai-insights/ai-insights.ts:38-51 | when both requests succeed, the contacts and deals (`\|\| []`) are set; otherwise both are kept; loading ends |
| AiInsightsView.AiInsights.CheckAIConnection | client/breezy-hubspot-poc/src/app/ai-insights/ai-insights.ts:53-62 | the status is connected exactly when the status request succeeds |
| AiInsightsView.AiInsights.GenerateInsights | client/breezy-hubspot-poc/src/app/ai-insights/ai-insights.ts:74-112 | nothing happens unless generation is allowed; otherwise both results are cleared, an unknown contact sets `Contact not found`, and the chosen analysis is set from the reply or its error; loading ends |
| AiInsightsView.AiInsights.ClearError | client/breezy-hubspot-poc/src/app/ai-insights/ai-insights.ts:114-116 | the error is cleared and nothing else changes |
| AllDealsView.StageClass | client/breezy-hubspot-poc/src/app/all-deals/all-deals.ts:39-51 | `closed-won`, `closed-lost` and `in-progress` exactly for their stages, and `early-stage` exactly for every other stage, undefined included |
| AllDealsView.FormatStage | client/breezy-hubspot-poc/src/app/all-deals/all-deals.ts:53-58 | an undefined stage gives `''`; a defined one is formatted |
| AllDealsView.WonRevenueSign | client/breezy-hubspot-poc/src/app/all-deals/all-deals.ts:68-72 | with no negative amount the won revenue is not negative |
| AllDealsView.AllDeals.constructor | client/breezy-hubspot-poc/src/app/all-deals/all-deals.ts:15-17 | no deals, not loading, no error |
| AllDealsView.AllDeals.LoadDeals | client/breezy-hubspot-poc/src/app/all-deals/all-deals.ts:23-26 | loading starts and the error is cleared |
| AllDealsView.AllDeals.OnDealsLoaded | client/breezy-hubspot-poc/src/app/all-deals/all-deals.ts:28-31 | the fetched deals replace the list and loading ends |
| AllDealsView.AllDeals.OnDealsFailed | client/breezy-hubspot-poc/src/app/all-deals/all-deals.ts:32-35 | the error's message is shown, the deals are kept, and loading ends |
| AllDealsView.AllDeals.LoadDealsWith | client/breezy-hubspot-poc/src/app/all-deals/all-deals.ts:23-37 | after a load, the deals are the fetched ones with no error, or the old ones with the error's message |
| AllDealsView.AllDeals.ClosedWonDeals | client/breezy-hubspot-poc/src/app/all-deals/all-deals.ts:74-76 | at most the deal count, and equal to it exactly when every deal is won |
| AllDealsView.AllDeals.TotalDeals | client/breezy-hubspot-poc/src/app/all-deals/all-deals.ts:64-66 | the number of deals held; `AllDeals.ClosedWonDeals` is at most it, and `AllDealsView.FiguresIgnoreOrder` shows it ignores order |
| AllDealsView.AllDeals.TotalRevenue | client/breezy-hubspot-poc/src/app/all-deals/all-deals.ts:68-72 | with no negative amount the total is not negative |
| AllDealsView.TotalRevenueOfCons | client/breezy-hubspot-poc/src/app/all-deals/all-deals.ts:68-72 | the first deal adds its amount to the total when won, and nothing otherwise |
| AllDealsView.FiguresIgnoreOrder | client/breezy-hubspot-poc/src/app/all-deals/all-deals.ts:64-76 | the deal count, the won count and the revenue do not depend on the order of the deals |
| ContactDealsView.StageClass | client/breezy-hubspot-poc/src/app/contact-deals/contact-deals.ts:63-72 | `closed-won` and `closed-lost` exactly for their stages, and `in-progress` exactly for every other stage |
| ContactDealsView.FormatDate | client/breezy-hubspot-poc/src/app/contact-deals/contact-deals.ts:81-84 | a falsy date shows `-`; otherwise the locale rendering |
| ContactDealsView.ClientMonthlyAtMostTotal | client/breezy-hubspot-poc/src/app/contact-deals/contact-deals.ts:86-102 | with no negative amount, monthly revenue never exceeds the total revenue |
| ContactDealsView.IsClientMonthlyWon | client/breezy-hubspot-poc/src/app/contact-deals/contact-deals.ts:97-100 | won, and the name contains `Monthly` as written; `ContactDealsView.MonthlyLowerCased` relates it to the server's test |
| ContactDealsView.ClientMonthlyRevenue | client/breezy-hubspot-poc/src/app/contact-deals/contact-deals.ts:96-102 | `getMonthlyRevenue`; bounded by `ContactDealsView.ClientMonthlyAtMostTotal` and `ContactDealsView.ClientMonthlyAtMostServer` |
| ContactDealsView.MonthlyLowerCased | client/breezy-hubspot-poc/src/app/contact-deals/contact-deals.ts:99 | a name containing `Monthly` also matches the server's lower-cased `monthly` test |
| ContactDealsView.ClientMonthlyAtMostServer | client/breezy-hubspot-poc/src/app/contact-deals/contact-deals.ts:96-102 | the view's case-sensitive monthly revenue never exceeds the server's case-insensitive one |
| ContactDealsView.WonConversionRate | client/breezy-hubspot-poc/src/app/contact-deals/contact-deals.ts:104-108 | 0 without deals; otherwise the exact share of won deals rounded to within half a unit, in 0..100, and 100 when all are won |
| ContactDealsView.ContactDeals.constructor | client/breezy-hubspot-poc/src/app/contact-deals/contact-deals.ts:20-26 | the inputs as given, with no deals, no loading and no error |
| ContactDealsView.ContactDeals.LoadDeals | client/breezy-hubspot-poc/src/app/contact-deals/contact-deals.ts:41-48 | without a contact id nothing happens; otherwise loading starts, the error is cleared, `true` is emitted and the id is requested |
| ContactDealsView.ContactDeals.OnDealsLoaded | client/breezy-hubspot-poc/src/app/contact-deals/contact-deals.ts:50-54 | the deals are set, loading ends and `false` is emitted |
| ContactDealsView.ContactDeals.OnDealsFailed | client/breezy-hubspot-poc/src/app/contact-deals/contact-deals.ts:55-59 | the error's message is set, loading ends and `false` is emitted |
| ContactDealsView.ContactDeals.LoadDealsWith | client/breezy-hubspot-poc/src/app/contact-deals/contact-deals.ts:41-61 | a load with an id emits `true` then `false` and ends with the deals or the error |
| ContactDealsView.ContactDeals.OnChanges | client/breezy-hubspot-poc/src/app/contact-deals/contact-deals.ts:32-39 | one reload for each changed input that is not its first change |
| ContactDealsView.Reloads | client/breezy-hubspot-poc/src/app/contact-deals/contact-deals.ts:33 | a change record that is present and not the first; `ContactDeals.OnChanges` reloads once per such record |
| ContactDealsView.ContactDeals.NavigateToCreateDeal | client/breezy-hubspot-poc/src/app/contact-deals/contact-deals.ts:115-118 | the view's contact becomes the service's selected contact |
| ContactFormView.PhoneValidator | client/breezy-hubspot-poc/src/app/contact-form/contact-form.ts:9-17 | no error for a falsy value; otherwise no error exactly when the whitespace-free value is an Irish number, and the error is exactly `{irelandPhone: true}` |
| ContactFormView.PhoneWhitespaceInvariant | client/breezy-hubspot-poc/src/app/contact-form/contact-form.ts:14-15 | inserting whitespace into a non-empty value never changes the verdict |
| ContactFormView.WhitespaceOnlyPhoneRejected | client/breezy-hubspot-poc/src/app/contact-form/contact-form.ts:10-16 | a whitespace-only value is rejected, though the empty value passes |
| ContactFormView.IrishPhoneShape | client/breezy-hubspot-poc/src/app/contact-form/contact-form.ts:14 | an accepted number has 10 or 11 characters after `0` and 13 or 14 after `+353`, all digits after the first |
| ContactFormView.IrishPhone | client/breezy-hubspot-poc/src/app/contact-form/contact-form.ts:14 | the phone pattern on a whitespace-free string; `ContactFormView.IrishPhoneShape` gives the accepted lengths and digits, and the example lemmas give instances each way |
| ContactFormView.NumberExample | client/breezy-hubspot-poc/src/app/contact-form/contact-form.ts:14-15 | `0871234567` is accepted |
| ContactFormView.SpacedNumberExample | client/breezy-hubspot-poc/src/app/contact-form/contact-form.ts:14-15 | `087 1234567` is accepted |
| ContactFormView.RejectedNumberExamples | client/breezy-hubspot-poc/src/app/contact-form/contact-form.ts:14-16 | a number that is too short, or one with a wrong prefix, is rejected |
| ContactFormView.ContactPayload | client/breezy-hubspot-poc/src/app/contact-form/contact-form.ts:51-59 | the names and email as entered; phone and address only when truthy; nothing else set |
| ContactFormView.CreatedMessage | client/breezy-hubspot-poc/src/app/contact-form/contact-form.ts:64-66 | the success text naming the created contact; `ContactForm.OnCreated` sets it |
| ContactFormView.FailedMessage | client/breezy-hubspot-poc/src/app/contact-form/contact-form.ts:77 | the failure text around the error's message; `ContactForm.OnFailed` sets it |
| ContactFormView.NameValid | client/breezy-hubspot-poc/src/app/contact-form/contact-form.ts:37-38 | `required` and `minLength(2)` of a name, its length counted in UTF-16 code units; used by `ContactFormView.PayloadOfValidForm` |
| ContactFormView.NameLengthExamples | client/breezy-hubspot-poc/src/app/contact-form/contact-form.ts:37-38 | one character above U+FFFF is a long enough name, and a single other character is not |
| ContactFormView.ContactForm.FormValid | client/breezy-hubspot-poc/src/app/contact-form/contact-form.ts:36-42 | the form's validators all pass; `ContactFormView.PayloadOfValidForm` and `ContactFormView.ResetFormIsInvalid` state what it implies |
| ContactFormView.ContactForm.constructor | client/breezy-hubspot-poc/src/app/contact-form/contact-form.ts:36-42 | every control starts empty and untouched, with no messages |
| ContactFormView.ContactForm.OnSubmit | client/breezy-hubspot-poc/src/app/contact-form/contact-form.ts:45-85 | an invalid form marks every control touched and sends nothing; a valid one clears the messages, starts submitting and sends the payload |
| ContactFormView.ContactForm.ResetForm | client/breezy-hubspot-poc/src/app/contact-form/contact-form.ts:68 | every value becomes null and nothing is touched |
| ContactFormView.ContactForm.OnCreated | client/breezy-hubspot-poc/src/app/contact-form/contact-form.ts:62-74 | sets the success message naming the contact, resets the form and emits the contact |
| ContactFormView.ContactForm.OnFailed | client/breezy-hubspot-poc/src/app/contact-form/contact-form.ts:75-78 | sets the failure message and keeps the values |
| ContactFormView.ContactForm.OnReset | client/breezy-hubspot-poc/src/app/contact-form/contact-form.ts:87-91 | resets the form and clears both messages |
| ContactFormView.PayloadOfValidForm | client/breezy-hubspot-poc/src/app/contact-form/contact-form.ts:45-59 | a valid form sends names at least two UTF-16 code units long, its email, and a phone that is absent or passes the validator |
| ContactFormView.ResetFormIsInvalid | client/breezy-hubspot-poc/src/app/contact-form/contact-form.ts:87-91 | a reset form cannot be submitted, though its phone passes |
| ContactListView.ContactList.constructor | client/breezy-hubspot-poc/src/app/contact-list/contact-list.ts:19-24 | no contacts and no panels |
| ContactListView.ContactList.LoadContacts | client/breezy-hubspot-poc/src/app/contact-list/contact-list.ts:30-33 | loading starts and the error is cleared |
| ContactListView.ContactList.OnContactsLoaded | client/breezy-hubspot-poc/src/app/contact-list/contact-list.ts:35-40 | the fetched contacts replace the list and loading ends |
| ContactListView.ContactList.OnContactsFailed | client/breezy-hubspot-poc/src/app/contact-list/contact-list.ts:41-44 | the error's message is shown and loading ends |
| ContactListView.ContactList.LoadContactsWith | client/breezy-hubspot-poc/src/app/contact-list/contact-list.ts:30-46 | after a load, the contacts are the fetched ones with no error, or the old ones with the message |
| ContactListView.ContactList.SelectContact | client/breezy-hubspot-poc/src/app/contact-list/contact-list.ts:48-50 | the contact is emitted as it is |
| ContactListView.ContactList.ToggleDeals | client/breezy-hubspot-poc/src/app/contact-list/contact-list.ts:52-72 | nothing without an id; a shown panel, even an empty one, is removed and nothing more; otherwise the id is marked loading and requested |
| ContactListView.ContactList.OnDealsLoaded | client/breezy-hubspot-poc/src/app/contact-list/contact-list.ts:73-81 | the deals are shown under the id, and the id is no longer loading |
| ContactListView.ContactList.OnDealsFailed | client/breezy-hubspot-poc/src/app/contact-list/contact-list.ts:82-85 | the id is no longer loading and no panel is added |
| ContactListView.ContactList.ToggleDealsWith | client/breezy-hubspot-poc/src/app/contact-list/contact-list.ts:52-87 | a whole toggle: collapse, or expand with the fetched deals, or expand failing without a panel |
| ContactListView.ExpandThenCollapse | client/breezy-hubspot-poc/src/app/contact-list/contact-list.ts:52-87 | expanding and then collapsing a panel restores the shown panels |
| CreateDealView.LeadingDigits | client/breezy-hubspot-poc/src/app/create-deal/create-deal.ts:35 | the length of the longest all-digit prefix |
| CreateDealView.LeadingDigitsExact | client/breezy-hubspot-poc/src/app/create-deal/create-deal.ts:35 | a digit prefix followed by a non-digit, or by the end, is the longest one |
| CreateDealView.AmountPatternMeaning | client/breezy-hubspot-poc/src/app/create-deal/create-deal.ts:35 | `/^\d+(\.\d{1,2})?$/` holds exactly for digits with an optional point and one or two digits |
| CreateDealView.MatchesAmountPattern | client/breezy-hubspot-poc/src/app/create-deal/create-deal.ts:35 | `/^\d+(\.\d{1,2})?$/` as a matcher; `CreateDealView.AmountPatternMeaning` states the strings it accepts |
| CreateDealView.AmountValid | client/breezy-hubspot-poc/src/app/create-deal/create-deal.ts:35 | `required` and the pattern; the example lemmas give accepted and rejected amounts |
| CreateDealView.AcceptedAmountExamples | client/breezy-hubspot-poc/src/app/create-deal/create-deal.ts:35 | `9.99` and `99` are accepted |
| CreateDealView.RejectedAmountExamples | client/breezy-hubspot-poc/src/app/create-deal/create-deal.ts:35 | `9.`, `.5` and `1.234` are rejected |
| CreateDealView.TemplateAmounts | client/breezy-hubspot-poc/src/app/create-deal/create-deal.ts:67-75 | every template amount passes the amount pattern |
| CreateDealView.TemplatesWellFormed | client/breezy-hubspot-poc/src/app/create-deal/create-deal.ts:67-75 | every template has a non-empty name, a valid amount and a stage from the stage list |
| CreateDealView.TemplateNamesDistinct | client/breezy-hubspot-poc/src/app/create-deal/create-deal.ts:67-75 | the template names are distinct |
| CreateDealView.FindTemplate | client/breezy-hubspot-poc/src/app/create-deal/create-deal.ts:79-81 | `find` by name: no result exactly when no template has the name; a result is a listed template with that name |
| CreateDealView.ApplyTemplate | client/breezy-hubspot-poc/src/app/create-deal/create-deal.ts:77-90 | an unknown name changes nothing; a known one sets the name, amount and stage; the pipeline is never changed |
| CreateDealView.CreatedMessage | client/breezy-hubspot-poc/src/app/create-deal/create-deal.ts:118-120 | the success text naming the created deal; `CreateDeal.OnDealCreated` sets it |
| CreateDealView.FailedMessage | client/breezy-hubspot-poc/src/app/create-deal/create-deal.ts:132 | the failure text around the error's message; `CreateDeal.OnDealFailed` sets it |
| CreateDealView.CreateDeal.FormValid | client/breezy-hubspot-poc/src/app/create-deal/create-deal.ts:32-38 | all four required controls are set and the amount is valid; `CreateDealView.TemplateCompletesForm` and `CreateDealView.CreatedFormIsInvalid` state how the form reaches and leaves it |
| CreateDealView.CreateDeal.constructor | client/breezy-hubspot-poc/src/app/create-deal/create-deal.ts:32-38 | the form defaults: stage `closedwon`, pipeline `default`, everything else empty |
| CreateDealView.CreateDeal.OnInit | client/breezy-hubspot-poc/src/app/create-deal/create-deal.ts:41-51 | the stage list is loaded, and a preselected contact with a truthy id fills the contact field |
| CreateDealView.CreateDeal.OnContactsLoaded | client/breezy-hubspot-poc/src/app/create-deal/create-deal.ts:53-65 | the fetched contacts are set and loading ends |
| CreateDealView.CreateDeal.OnContactsFailed | client/breezy-hubspot-poc/src/app/create-deal/create-deal.ts:53-65 | loading ends and the contacts are kept |
| CreateDealView.CreateDeal.OnSubscriptionTemplateChange | client/breezy-hubspot-poc/src/app/create-deal/create-deal.ts:77-90 | the form's fields become the template applied to them, and nothing else changes |
| CreateDealView.CreateDeal.OnSubmit | client/breezy-hubspot-poc/src/app/create-deal/create-deal.ts:99-113 | an invalid form sends nothing; a valid one clears the messages, starts submitting and sends the request built from the fields |
| CreateDealView.CreateDeal.OnDealCreated | client/breezy-hubspot-poc/src/app/create-deal/create-deal.ts:116-124 | the success message names the deal, and only the name and amount are cleared |
| CreateDealView.CreateDeal.OnDealFailed | client/breezy-hubspot-poc/src/app/create-deal/create-deal.ts:130-133 | the failure message is set and the form is kept |
| CreateDealView.TemplateCompletesForm | client/breezy-hubspot-poc/src/app/create-deal/create-deal.ts:67-90 | applying a known template leaves a non-empty name, a valid amount and a stage from the stage list |
| CreateDealView.CreatedFormIsInvalid | client/breezy-hubspot-poc/src/app/create-deal/create-deal.ts:116-124 | after a deal is created the form cannot be submitted again until it is filled in |
| CreateDealView.SubmittedDealIsAssociated | server/server.js:130-143 | the server turns a submitted deal into a payload with exactly one association, to the chosen contact |
| MainDashboardView.Toggled | client/breezy-hubspot-poc/src/app/main-dashboard/main-dashboard.ts:50-62 | toggling flips one menu's membership and keeps every other menu |
| MainDashboardView.ToggledTwice | client/breezy-hubspot-poc/src/app/main-dashboard/main-dashboard.ts:50-62 | toggling twice restores the open menus |
| MainDashboardView.PageTitle | client/breezy-hubspot-poc/src/app/main-dashboard/main-dashboard.ts:106-127 | each fixed sub-menu has its title; contact deals name the selected contact or say `Contact Deals`; anything else is `Dashboard Overview` |
| MainDashboardView.PageDescription | client/breezy-hubspot-poc/src/app/main-dashboard/main-dashboard.ts:129-150 | `getPageDescription`; characterised by `MainDashboardView.OverviewDescriptionOnlyByDefault` and `MainDashboardView.SelectedContactDescription` |
| MainDashboardView.SelectedContactDescription | client/breezy-hubspot-poc/src/app/main-dashboard/main-dashboard.ts:135-138 | with a selected contact, the contact-deals description names it and is not the overview description |
| MainDashboardView.OverviewDescriptionOnlyByDefault | client/breezy-hubspot-poc/src/app/main-dashboard/main-dashboard.ts:129-150 | the description is the overview one exactly for sub-menus outside the switch |
| MainDashboardView.OverviewTitleOnlyByDefault | client/breezy-hubspot-poc/src/app/main-dashboard/main-dashboard.ts:106-127 | the title is `Dashboard Overview` exactly for sub-menus outside the switch |
| MainDashboardView.MainDashboard.constructor | client/breezy-hubspot-poc/src/app/main-dashboard/main-dashboard.ts:31-36 | the contacts menu is active and open, and nothing is selected |
| MainDashboardView.MainDashboard.IsMenuOpen | client/breezy-hubspot-poc/src/app/main-dashboard/main-dashboard.ts:46-48 | whether the group is among the open ones; `MainDashboard.ToggleMenu` and `MainDashboardView.Toggled` state how that changes |
| MainDashboardView.MainDashboard.OnInit | client/breezy-hubspot-poc/src/app/main-dashboard/main-dashboard.ts:38-44 | a contact selected in the service becomes the selected contact |
| MainDashboardView.MainDashboard.ToggleMenu | client/breezy-hubspot-poc/src/app/main-dashboard/main-dashboard.ts:50-62 | the menu becomes active and its membership flips; closing the active menu clears the sub-menu |
| MainDashboardView.MainDashboard.RefreshContactDeals | client/breezy-hubspot-poc/src/app/main-dashboard/main-dashboard.ts:100-104 | the trigger goes up by one exactly when a contact is selected |
| MainDashboardView.MainDashboard.SetActiveSubMenu | client/breezy-hubspot-poc/src/app/main-dashboard/main-dashboard.ts:64-70 | the sub-menu is set, and opening contact deals with a selection refreshes them |
| MainDashboardView.MainDashboard.OnContactSelected | client/breezy-hubspot-poc/src/app/main-dashboard/main-dashboard.ts:72-81 | the contact is selected here and in the service, contact deals open, and the trigger goes up once, or twice when already there |
| MainDashboardView.MainDashboard.OnContactCreated | client/breezy-hubspot-poc/src/app/main-dashboard/main-dashboard.ts:83-88 | the new contact is selected, contact deals open, and the trigger goes up by two |
| MainDashboardView.MainDashboard.OnDealCreated | client/breezy-hubspot-poc/src/app/main-dashboard/main-dashboard.ts:90-94 | when the sub-menu is `contact-deals` or `all-deals` and a contact is selected, the refresh trigger goes up by one; otherwise it is unchanged; the menus, the selection and the refreshing flag never change |
| MainDashboardView.MainDashboard.OnDealsLoadingStateChange | client/breezy-hubspot-poc/src/app/main-dashboard/main-dashboard.ts:96-98 | the refreshing flag follows the emitted value |
| MainDashboardView.MainDashboard.GetPageTitle | client/breezy-hubspot-poc/src/app/main-dashboard/main-dashboard.ts:106-127 | `MainDashboardView.PageTitle` of the active sub-menu and selection |
| MainDashboardView.MainDashboard.GetPageDescription | client/breezy-hubspot-poc/src/app/main-dashboard/main-dashboard.ts:129-150 | `MainDashboardView.PageDescription` of the active sub-menu and selection |
| MainDashboardView.ToggleTwiceRestores | client/breezy-hubspot-poc/src/app/main-dashboard/main-dashboard.ts:50-62 | toggling a menu twice restores the open menus, and the sub-menu survives only when the menu was open but not active |

## Left out

- HTTP, axios, Express routing, CORS, environment variables and the HubSpot API: each upstream call is a function parameter. Its outcome is a `Result` value.
- The Gemini SDK, the model fallback chain and the prompt texts: the model's reply text is a parameter of the AI endpoints.
- `JSON.parse` is a parameter returning an optional object, so malformed JSON is its `None`.
- The health, AI status and model-listing endpoints, plus server startup, shutdown and logging. They compute nothing beyond a fixed reply.
- Floating-point arithmetic: amounts are `real`, and `Number(amount || 0)` is the amount when present, else 0. Amounts that do not parse as numbers (`NaN`) are not modelled.
- ServerMetrics.Percentage, ServerMetrics.ConversionRate and ContactDealsView.WonConversionRate: the share is rounded exactly, while the source rounds the IEEE double `(k / n) * 100`. They differ only at an exact half whose double product falls just below it. For 23 of 40 the double is 57.49999999999999, so `Math.round` gives 57 where the model gives 58 (`ServerMetrics.PercentageExactTies`); 29 of 200 gives 14 against 15. Away from exact halves the two agree: for counts of realistic size, a share of whole counts lies much further from a half than the double's rounding error.
- Locale date rendering: `toLocaleDateString` is the `localeDate` parameter of `ContactDealsView.FormatDate`. The all-deals view's `formatDate` (`all-deals.ts:60-62`) is nothing but that call, so it has no member of its own.
- The `ngOnInit` hooks of the contact-deals, all-deals, contact-list, active-subscriptions and AI-insights views only start their loads. They are the `LoadDeals`, `LoadContacts`, `LoadData` and `CheckAIConnection` methods, modelled on their own. The create-deal and dashboard hooks are `CreateDeal.OnInit` and `MainDashboard.OnInit`.
- Angular, RxJS and signals: a subscription is split into its request and its `next`/`error` callbacks. Interleavings of concurrent callbacks, `setTimeout`, `console` and `alert` are not modelled.
- Text.UpperChar, Text.LowerChar and Text.LowerCase: case mapping covers ASCII letters only. This is exact for the `\w` characters of insight types and for the `monthly` test, where only ASCII letters can match. It shows in `StageFormat.UpperFirst`: a stage code whose first letter is not ASCII (such as `é…`) keeps that letter, while `toUpperCase` would map it.
- Object keys of the prototype chain in `icons[type]` (such as `constructor`) are not modelled.
- ContactListView.ContactList.ToggleDeals and ContactListView.ContactList.ToggleDealsWith: they collapse when `id in selectedContactDeals`, while the source tests the truthiness of `currentDeals[contact.id]` (`contact-list.ts:62`). For an id naming an inherited property, such as `constructor`, `toString` or `__proto__`, that lookup is truthy and the source would take the collapse branch. The model does not capture this; CRM ids are numeric, so real contacts never have such an id.
- `Validators.email` is the parameter `emailValid`.
- A form value reset to `null` is modelled as `None`. `Interpolated` renders `None` as `undefined`, because the model does not tell `null` from `undefined`.
- The create-deal component declares a `dealCreated` output but never emits it, so the model has no such event.
- The create-deal request interface and the contact and deal interface files are not part of this model beyond the records in `crm.dfy`.
- The deal request's `contactId` is a string, so the server's `contactId ? … : []` test is truthiness of a string.
- MainDashboardView.PageDescription: has no contract of its own. Its texts are characterised by two lemmas: the overview text appears exactly for unknown sub-menus, and a selected contact is named. The fixed texts are not stated one by one.
- ContactFormView.PhoneValidator: the regular expression is modelled on the whitespace-free value only, where its `\s` parts can never match. A whitespace-only value is therefore rejected, as in the source.
- ServerAi.ParseAIResponse: states only that the result is the fallback or the parse of a brace span. Which one is decided by the `JSON.parse` parameter.
- HttpErrors.NumberText: `String` of a non-integral number is modelled as its exact decimal expansion, cut off at 20 places. JavaScript's shortest round-trip digits and its exponent notation for very large or very small numbers are not modelled.
