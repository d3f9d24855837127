/**
 * The serverless `generate` handler around the reconciliation step: the
 * method check, the `budget`/`days` guard, the choice of city coordinates,
 * the outcomes of the provider call, and the fallback envelope that every
 * failure turns into. The network calls are not modelled; what they return
 * is given to the handler as parameters.
 */
module Handler {
  import opened Wrappers
  import opened Itinerary
  import Numerals

  /** The fields destructured from the request body. */
  datatype Request = Request(
    city: Option<string>,
    budget: Option<int>,
    days: Option<int>,
    preferences: Option<string>)

  /** What the runtime makes of `event.body`. */
  datatype Body =
    /** The body is falsy (undefined, null or empty): parsing or destructuring it throws `parseError`. */
    | Absent(parseError: string)
    /** Non-empty text that does not parse, or parses to `null`: parsing or destructuring throws `parseError`. */
    | Malformed(parseError: string)
    /** The body parsed, and these are its fields. */
    | Json(request: Request)

  datatype Event = Event(httpMethod: string, body: Body)

  /** What the generative-text provider's round trip yields. */
  datatype Reply =
    /** The fetch, the response's JSON or the parse of the generated text threw `error`. */
    | Threw(error: string)
    /** The provider answered with a non-2xx `status` and body text `details`. */
    | NotOk(status: nat, details: string)
    /** The answer held no generated text (missing or empty). */
    | NoText
    /** The generated text parsed to this object. */
    | Answer(plan: Plan)

  /** The minimal JSON body sent when anything in the handler threw. */
  datatype Fallback = Fallback(
    summary: string,
    totalCost: Option<int>,  // None: the requested budget was undefined, so `JSON.stringify` drops the key
    hotels: seq<Hotel>,
    itinerary: seq<Day>,
    cityCoordinates: Coordinates,
    isFallback: bool,        // `_fallback`
    error: string)           // `_error`

  datatype Payload = ErrorBody(error: string) | PlanBody(plan: Plan) | FallbackBody(fallback: Fallback)

  /** An HTTP response; `Rejected` is a handler whose promise rejects instead of answering. */
  datatype Response = Response(statusCode: nat, payload: Payload) | Rejected

  const MethodNotAllowed := "Method not allowed"
  const MissingBudgetOrDays := "Missing budget or days"
  const NoContent := "No content from Gemini"
  /** The runtime's message when `parsedItinerary.itinerary` is undefined and `.map` is read on it. */
  const NoItinerary := "Cannot read properties of undefined (reading 'map')"
  const FallbackSummary := "Your travel plan will appear here."

  /** The message thrown for a non-2xx provider answer: a fixed prefix, the status, the details. */
  function ProviderFailed(status: nat, details: string): (m: string)
    ensures |m| >= 21 + |details|
    ensures m[..19] == "Gemini API failed: " && m[|m| - |details|..] == details
    ensures Numerals.AllDigits(m[19..|m| - |details| - 1]) && m[|m| - |details| - 1] == ' '
    ensures Numerals.Value(m[19..|m| - |details| - 1]) == status
    ensures |m| - |details| - 20 > 1 ==> m[19] != '0'
  {
    var m := "Gemini API failed: " + Numerals.Decimal(status) + " " + details;
    assert m[19..|m| - |details| - 1] == Numerals.Decimal(status);
    Numerals.DecimalRoundTrip(status);
    m
  }

  /** `!!n` on a number: present and not zero. */
  predicate Truthy(n: Option<int>) {
    n.Some? && n.value != 0
  }

  /** `!!city`: present and not the empty string. */
  predicate Named(city: Option<string>) {
    city.Some? && city.value != ""
  }

  /** The guard `!budget || !days` fails exactly when either is missing or zero. */
  function HasBudgetAndDays(r: Request): (ok: bool)
    ensures !ok <==> r.budget in {None, Some(0)} || r.days in {None, Some(0)}
  {
    Truthy(r.budget) && Truthy(r.days)
  }

  /** The fallback envelope echoing `budget` as its total and carrying `message`. */
  function FallbackFor(budget: Option<int>, message: string): (f: Fallback)
    ensures IsFallback(f) && f.totalCost == budget && f.error == message
  {
    Fallback(FallbackSummary, budget, [], [], DefaultCoordinates, true, message)
  }

  /** The shape every fallback envelope has, whatever went wrong. */
  predicate IsFallback(f: Fallback) {
    && f.summary == FallbackSummary
    && f.hotels == [] && f.itinerary == []
    && f.cityCoordinates == DefaultCoordinates
    && f.isFallback
  }

  // Which branch of the handler an event reaches.

  /** A POST whose body parsed. */
  predicate Posted(event: Event) {
    event.httpMethod == "POST" && event.body.Json?
  }

  /** A POST whose body parsed and passed the guard. */
  predicate Admitted(event: Event) {
    Posted(event) && HasBudgetAndDays(event.body.request)
  }

  /** The coordinates the handler reports: the geocoded point for a named city, else the default. */
  ghost function ChosenCoordinates(city: Option<string>, geocoded: Option<Coordinates>): Coordinates {
    if Named(city) && geocoded.Some? then geocoded.value else DefaultCoordinates
  }

  /** The catch block's answer: status 200 with the fallback envelope as its body. */
  function Fails(budget: Option<int>, message: string): Response {
    Response(200, FallbackBody(FallbackFor(budget, message)))
  }

  /**
   * The handler. `geocoded` is the centre of the first feature the geocoding
   * service returned for the city (None when the lookup failed or found
   * nothing); it is consulted only for a named city. `reply` is what the
   * provider round trip yielded.
   */
  method Handle(event: Event, geocoded: Option<Coordinates>, reply: Reply) returns (response: Response)
    // Methods other than POST are refused before anything else.
    ensures event.httpMethod != "POST" ==> response == Response(405, ErrorBody(MethodNotAllowed))
    // A POST always answers 200, except when the catch block's re-parse, or its `.budget` read, throws.
    ensures event.httpMethod == "POST" ==> (response.Rejected? <==> event.body.Malformed?)
    ensures response.Response? && !response.payload.ErrorBody? ==> response.statusCode == 200
    ensures response.Response? && response.payload.FallbackBody? ==> IsFallback(response.payload.fallback)
    // Each failure and the message it puts in `_error`.
    ensures event.httpMethod == "POST" && event.body.Absent? ==>
              response == Fails(Some(0), event.body.parseError)
    ensures Posted(event) && !HasBudgetAndDays(event.body.request) ==>
              response == Fails(event.body.request.budget, MissingBudgetOrDays)
    ensures Admitted(event) && reply.Threw? ==>
              response == Fails(event.body.request.budget, reply.error)
    ensures Admitted(event) && reply.NotOk? ==>
              response == Fails(event.body.request.budget, ProviderFailed(reply.status, reply.details))
    ensures Admitted(event) && reply.NoText? ==>
              response == Fails(event.body.request.budget, NoContent)
    ensures Admitted(event) && reply.Answer? && reply.plan.itinerary.None? ==>
              response == Fails(event.body.request.budget, NoItinerary)
    // Success: only `itinerary`, `totalCost` and `cityCoordinates` are rewritten, and the
    // result is consistent.
    ensures Admitted(event) && reply.Answer? && reply.plan.itinerary.Some? ==>
              var days := reply.plan.itinerary.value;
              && response == Response(200, PlanBody(reply.plan.(
                   itinerary := Some(ReconcileDays(days)),
                   totalCost := Some(RawTotal(days)),
                   cityCoordinates := Some(ChosenCoordinates(event.body.request.city, geocoded)))))
              && PlanConsistent(response.payload.plan)
  {
    if event.httpMethod != "POST" {
      return Response(405, ErrorBody(MethodNotAllowed));
    }

    // The try block: either the reconciled plan or the message of what it threw.
    var outcome: Result<Plan, string>;
    match event.body {
      case Absent(e) =>
        outcome := Failure(e);
      case Malformed(e) =>
        outcome := Failure(e);
      case Json(request) =>
        if !HasBudgetAndDays(request) {
          outcome := Failure(MissingBudgetOrDays);
        } else {
          var cityCoordinates := DefaultCoordinates;
          if Named(request.city) {
            if geocoded.Some? {
              cityCoordinates := geocoded.value;
            }
          }
          match reply {
            case Threw(e) =>
              outcome := Failure(e);
            case NotOk(status, details) =>
              outcome := Failure(ProviderFailed(status, details));
            case NoText =>
              outcome := Failure(NoContent);
            case Answer(parsedItinerary) =>
              if parsedItinerary.itinerary.None? {
                outcome := Failure(NoItinerary);
              } else {
                var days := parsedItinerary.itinerary.value;
                var plan := parsedItinerary;
                plan := plan.(itinerary := Some(ReconcileDays(days)));
                ReconciledAreCosted(days);
                plan := plan.(totalCost := Some(Reduce(plan.itinerary.value, 0)));
                plan := plan.(cityCoordinates := Some(cityCoordinates));
                ReconciledTotal(days);
                outcome := Success(plan);
              }
          }
        }
    }

    // The catch block: the fallback echoes the budget of a re-parsed body, or 0 without one.
    match outcome {
      case Success(plan) =>
        response := Response(200, PlanBody(plan));
      case Failure(message) =>
        match event.body {
          case Absent(_) =>
            response := Fails(Some(0), message);
          case Malformed(_) =>
            response := Rejected;
          case Json(request) =>
            response := Fails(request.budget, message);
        }
    }
  }
}
