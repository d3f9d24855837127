# Itinerary cost reconciliation, modelled in Dafny

This project models the serverless `generate` function of a travel-itinerary
web app. The function takes a POST with `{city, budget, days, preferences}`,
asks a generative-text provider for an itinerary as JSON, and then
**reconciles** the costs in that itinerary before returning it:

- every day gets all five parts (`morning`, `afternoon`, `evening`, `dining`,
  `hotel`). A part the provider left out becomes a fixed placeholder that
  costs 0;
- every day's `dailyCost` is recomputed as the sum of its five part costs. An
  absent part or an absent or zero cost counts as 0. Any `dailyCost` the
  provider sent is overwritten;
- the trip's `totalCost` is recomputed as the sum of the days' `dailyCost`.
  Any upstream total is overwritten.

Around that step, the handler refuses non-POST methods with 405. A request
whose `budget` or `days` is missing or zero fails with "Missing budget or
days". Every failure becomes an HTTP-200 fallback envelope, except a non-empty
request body that does not parse or parses to `null`: then the handler's
promise rejects instead of answering.

Modules:

- `Wrappers` (`wrappers.dfy`): `Option` for JSON fields that may be absent,
  `Result` for the value or the thrown message of the handler's `try` block.
- `Itinerary` (`itinerary.dfy`): the parsed provider object (`Plan`, `Day`,
  `Activity`, `Dining`, `Stay`, `Hotel`, `Coordinates`). It holds the
  reconciliation as functions: `ReconcileDay` is the `map` callback,
  `ReconcileDays` is the `map`, `Reduce` is the `reduce`. It also holds the
  specifications they are proved against: `PartSum`, `Consistent`, `Complete`,
  `SumDaily`, `RawTotal` and `PlanConsistent`.
- `Handler` (`handler.dfy`): the request, the provider reply, the response and
  the fallback envelope. `Handle` is the handler as an imperative method. It
  overwrites the `itinerary`, `totalCost` and `cityCoordinates` fields of the
  parsed record in that order, and reassigns the coordinates variable when
  geocoding succeeds.
- `Numerals` (`numerals.dfy`): the decimal rendering of the HTTP status in
  the provider-failure message.

Modelling choices:

- Costs are unbounded integers. `x || 0` on a cost gives 0 for an absent cost
  and for a zero one, so both are modelled as "absent counts 0". A negative
  cost is truthy in JavaScript and counts as itself here too.
- Coordinates are an opaque `[longitude, latitude]` pair of reals. The
  default is `[77.209, 28.6139]`.
- Fields of a part (slot, dining, stay), a day, a hotel or the plan that the
  code never names are kept in an `others` map from key to the value's JSON
  text. They are carried through untouched: a part the provider sent, such as
  `{activity, cost, time}`, is returned whole.
- The network and the parsers are parameters of `Handle`. `geocoded` is what
  geocoding found for the city. `reply` is the outcome of the provider round
  trip: it threw, it answered non-2xx, it had no text, or its text parsed to
  a `Plan`. `Event.body` is what parsing the request body gave. Messages that
  the JavaScript runtime writes itself (parse errors, a failed fetch) are
  carried in those inputs as strings.
- A falsy body (`Absent`) leads to a fallback whose `totalCost` is 0. A
  non-empty body that does not parse or parses to `null` (`Malformed`) makes
  the catch block's own `JSON.parse(event.body)`, or its `.budget` read, throw
  again. The handler's promise then rejects instead of answering, which is
  modelled as `Response.Rejected`. A body that parses but
  has no `budget` leads to a fallback with no `totalCost` key, because
  `JSON.stringify` drops an undefined value.

What the code does not do:

- the code does not check that the itinerary has `days` entries. The
  reconciled itinerary has exactly as many days as the provider sent;
- it has no per-day minimum budget;
- it does not clamp `totalCost` to the requested budget;
- it answers every failure with 200 and the fallback envelope, except a
  non-empty body that does not parse or parses to `null`, where its promise
  rejects. It never answers 400 or 500.

## Model

| member | source | states |
|---|---|---|
| Itinerary.ReconcileDay | netlify/functions/generate.js:100-118 | the output day has all five parts, and its `dailyCost` is the sum of its own part costs; that sum equals the input's part sum, so placeholders add 0; present parts are kept exactly and missing ones become the fixed placeholders; `day` and every other field are unchanged |
| Itinerary.ReconcileDays | netlify/functions/generate.js:100 | the result has as many days as the input, and day i of the result is the reconciliation of input day i (order kept) |
| Itinerary.Reduce | netlify/functions/generate.js:121 | the left-to-right `reduce` from any start value is that value plus the sum of the days' `dailyCost` |
| Itinerary.EmptyTotal | netlify/functions/generate.js:121 | an empty itinerary totals 0 |
| Itinerary.ReconciledAreCosted | netlify/functions/generate.js:100-121 | every reconciled day has a numeric `dailyCost`, so the `reduce` never adds an undefined value |
| Itinerary.ReconciledTotal | netlify/functions/generate.js:101-121 | the total of the reconciled days equals the sum of the input days' part costs, so it depends on no upstream `dailyCost` or `totalCost` |
| Itinerary.DailyCostIgnored | netlify/functions/generate.js:109-111 | a day's upstream `dailyCost`, whatever it is, has no effect on the reconciled day |
| Itinerary.DailyCostsIgnored | netlify/functions/generate.js:100-111 | two itineraries that differ only in their days' `dailyCost` reconcile to the same itinerary |
| Itinerary.ReconcileFixesConsistent | netlify/functions/generate.js:109-117 | a day that is complete and whose `dailyCost` is already its part sum is returned unchanged |
| Itinerary.ReconcileFixesConsistentDays | netlify/functions/generate.js:100-118 | an itinerary of complete, consistent days is returned unchanged |
| Itinerary.ReconcileIdempotent | netlify/functions/generate.js:100-118 | reconciling a reconciled itinerary changes nothing |
| Handler.HasBudgetAndDays | netlify/functions/generate.js:13-15 | the guard fails exactly when `budget` is missing or 0, or `days` is missing or 0 |
| Handler.ProviderFailed | netlify/functions/generate.js:87-90 | the provider-failure message is "Gemini API failed: ", then the digits of the status with no leading zero (reading them back gives the status), a space and the response text |
| Handler.FallbackFor | netlify/functions/generate.js:135-143 | the fallback envelope has the fixed summary, no hotels, no days, the default coordinates and `_fallback` set; its `totalCost` is the budget given and its `_error` the message given |
| Handler.Handle | netlify/functions/generate.js:3-148 | a non-POST returns 405 with "Method not allowed". A POST answers 200 unless the catch block's re-parse, or its `.budget` read, throws. Each failure gives the fallback envelope with the message it threw: an absent body (total 0), the guard ("Missing budget or days"), the provider threw, a non-2xx reply, no text, no itinerary. A failure after the body parsed echoes the requested budget as the total. On success, only `itinerary`, `totalCost` and `cityCoordinates` change: the days are reconciled, the total is the input's part-cost sum, and the coordinates are the geocoded point if the city is named and geocoding found one, the default otherwise. The result is consistent: every day complete and summed, and the total the sum of the days |
| Numerals.Decimal | netlify/functions/generate.js:89 | the status is rendered as decimal digits only, with no leading zero |
| Numerals.DecimalRoundTrip | netlify/functions/generate.js:89 | reading the rendered digits back gives the status |
| Numerals.DecimalInjective | netlify/functions/generate.js:89 | different statuses render as different numerals |

## Left out

- Geocoding (netlify/functions/generate.js:17-33): the fetch to the geocoding service is network I/O. Its result is the `geocoded` parameter, and a failed lookup is `None`.
- Building the prompt and calling the provider (netlify/functions/generate.js:35-95): the prompt text and the HTTP call itself are not modelled. The call is abstracted into the `reply` parameter, and its failure outcomes are modelled: the non-2xx message (line 89), the missing-text message (line 95) and a thrown error.
- Null and undefined are merged: `Option.None` stands for both. For a body with `"budget": null`, the source's fallback carries `"totalCost": null`, while the model's `None` describes a dropped key. The same merge applies to every optional field of the plan.
- JSON parsing of the request body and of the generated text (netlify/functions/generate.js:11, 97, 137): the parsers are not modelled. Their results, or the messages they throw, are inputs.
- JavaScript coercions: string costs concatenating under `+`, `NaN`, non-numeric or string `budget`/`days` (the form sends strings), and non-object values where an object is expected. Costs and numbers are integers, and parts and costs are `Option`s.
- Runtime failure variants: an `itinerary` that is `null` rather than absent, a non-array `itinerary`, a `null` element inside it, or a `null` parsed plan would each throw with a different runtime message. The model has one "itinerary missing" case with the runtime's message for an undefined `itinerary`, which also covers a parsed plan that is a number, string or boolean (reading `.itinerary` on it gives undefined). Days are always objects.
- Logging (`console.error`) and the response headers (content type, CORS) are not modelled.
- app.js is not part of this model: it is DOM rendering, form handlers and map markers.
- netlify/functions/get-mapbox-token.js is not part of this model: it only returns an environment variable.
- Local synthesis of an itinerary (splitting the budget across slots, rotating activity pools) and a per-day minimum budget are not in the source, so they are not modelled.
