/**
 * The itinerary object parsed from the AI provider's answer, and the
 * cost-reconciliation step the handler applies to it: every day gets all
 * five parts (a fixed zero-cost placeholder where the provider left one out),
 * its `dailyCost` is recomputed from those parts, and the trip's `totalCost`
 * is recomputed from the days. Upstream aggregates are never trusted.
 */
module Itinerary {
  import opened Wrappers

  // Every record below keeps, in `others`, every key of the JSON object
  // besides the ones it names, each with its value as JSON text; the step
  // never looks inside them, and a present record is returned whole.

  /** A morning, afternoon or evening slot: `{activity, cost, ...}`. */
  datatype Activity = Activity(activity: Option<string>, cost: Option<int>, others: map<string, string>)

  /** The day's meal: `{restaurant, cuisine, cost, ...}`. */
  datatype Dining = Dining(
    restaurant: Option<string>,
    cuisine: Option<string>,
    cost: Option<int>,
    others: map<string, string>)

  /** The night's stay: `{name, price, ...}`. */
  datatype Stay = Stay(name: Option<string>, price: Option<int>, others: map<string, string>)

  /** One element of the `itinerary` array. */
  datatype Day = Day(
    day: Option<int>,
    dailyCost: Option<int>,
    morning: Option<Activity>,
    afternoon: Option<Activity>,
    evening: Option<Activity>,
    dining: Option<Dining>,
    hotel: Option<Stay>,
    others: map<string, string>)

  /** An element of the top-level `hotels` array; only passed through. */
  datatype Hotel = Hotel(
    name: Option<string>,
    pricePerNight: Option<int>,
    description: Option<string>,
    rating: Option<real>,
    distanceFromCenter: Option<string>,
    others: map<string, string>)

  /** A `[longitude, latitude]` pair, never computed with. */
  datatype Coordinates = Coordinates(longitude: real, latitude: real)

  /** The default point (Delhi) used when geocoding gives nothing. */
  const DefaultCoordinates := Coordinates(77.209, 28.6139)

  /** The whole parsed object. */
  datatype Plan = Plan(
    summary: Option<string>,
    totalCost: Option<int>,
    hotels: Option<seq<Hotel>>,
    itinerary: Option<seq<Day>>,
    cityCoordinates: Option<Coordinates>,
    others: map<string, string>)

  // The placeholders that stand in for a missing part; each costs 0.
  const MorningPlaceholder := Activity(Some("Explore local area"), Some(0), map[])
  const AfternoonPlaceholder := Activity(Some("Sightseeing"), Some(0), map[])
  const EveningPlaceholder := Activity(Some("Evening activity"), Some(0), map[])
  const DiningPlaceholder := Dining(Some("Local eatery"), Some("Local cuisine"), Some(0), map[])
  const HotelPlaceholder := Stay(Some("Unknown"), Some(0), map[])

  /** `cost || 0`: an absent cost reads as 0, and so does a zero one. */
  function CostOrZero(c: Option<int>): int {
    c.GetOr(0)
  }

  /** `part?.cost || 0` for a slot. */
  function ActivityCost(a: Option<Activity>): int {
    if a.Some? then CostOrZero(a.value.cost) else 0
  }

  /** `dining?.cost || 0`. */
  function DiningCost(d: Option<Dining>): int {
    if d.Some? then CostOrZero(d.value.cost) else 0
  }

  /** `hotel?.price || 0`. */
  function StayCost(h: Option<Stay>): int {
    if h.Some? then CostOrZero(h.value.price) else 0
  }

  /** The sum of a day's five part costs, absent parts and costs counting 0. */
  function PartSum(d: Day): int {
    ActivityCost(d.morning) + ActivityCost(d.afternoon) + ActivityCost(d.evening)
      + DiningCost(d.dining) + StayCost(d.hotel)
  }

  /** All five parts are present. */
  predicate Complete(d: Day) {
    d.morning.Some? && d.afternoon.Some? && d.evening.Some? && d.dining.Some? && d.hotel.Some?
  }

  /** The day's declared total is the sum of its own parts. */
  predicate Consistent(d: Day) {
    d.dailyCost == Some(PartSum(d))
  }

  /** Reconciliation touches only costs and missing parts: the rest of the day is the same. */
  predicate SameDescription(d: Day, r: Day) {
    r.day == d.day && r.others == d.others
  }

  /** Present parts are kept exactly; missing ones become their placeholders. */
  predicate PartsFilled(d: Day, r: Day) {
    && r.morning == (if d.morning.Some? then d.morning else Some(MorningPlaceholder))
    && r.afternoon == (if d.afternoon.Some? then d.afternoon else Some(AfternoonPlaceholder))
    && r.evening == (if d.evening.Some? then d.evening else Some(EveningPlaceholder))
    && r.dining == (if d.dining.Some? then d.dining else Some(DiningPlaceholder))
    && r.hotel == (if d.hotel.Some? then d.hotel else Some(HotelPlaceholder))
  }

  /** The callback of `itinerary.map`: the spread of the day, then the six assignments. */
  function ReconcileDay(d: Day): (r: Day)
    ensures Complete(r) && Consistent(r)
    ensures PartSum(r) == PartSum(d)
    ensures PartsFilled(d, r) && SameDescription(d, r)
  {
    d.(dailyCost := Some(PartSum(d)),
       morning := Some(d.morning.GetOr(MorningPlaceholder)),
       afternoon := Some(d.afternoon.GetOr(AfternoonPlaceholder)),
       evening := Some(d.evening.GetOr(EveningPlaceholder)),
       dining := Some(d.dining.GetOr(DiningPlaceholder)),
       hotel := Some(d.hotel.GetOr(HotelPlaceholder)))
  }

  /** `itinerary.map(ReconcileDay)`: one output day per input day, in the same order. */
  function ReconcileDays(days: seq<Day>): (r: seq<Day>)
    ensures |r| == |days|
    ensures forall i :: 0 <= i < |days| ==> r[i] == ReconcileDay(days[i])
  {
    if days == [] then [] else [ReconcileDay(days[0])] + ReconcileDays(days[1..])
  }

  /** Every day carries a numeric `dailyCost`, so summing them is defined. */
  predicate AllCosted(days: seq<Day>) {
    forall i :: 0 <= i < |days| ==> days[i].dailyCost.Some?
  }

  /** The sum of the days' declared `dailyCost` values. */
  function SumDaily(days: seq<Day>): int
    requires AllCosted(days)
  {
    if days == [] then 0 else days[0].dailyCost.value + SumDaily(days[1..])
  }

  /** `days.reduce((sum, d) => sum + d.dailyCost, sum)`, left to right: the start value plus the sum. */
  function Reduce(days: seq<Day>, sum: int): (r: int)
    requires AllCosted(days)
    ensures r == sum + SumDaily(days)
  {
    if days == [] then sum else Reduce(days[1..], sum + days[0].dailyCost.value)
  }

  /** The sum of the input days' part costs; it never reads an upstream `dailyCost`. */
  function RawTotal(days: seq<Day>): int {
    if days == [] then 0 else PartSum(days[0]) + RawTotal(days[1..])
  }

  /** Every day complete and consistent, and the trip total the sum of the days. */
  predicate PlanConsistent(p: Plan) {
    && p.itinerary.Some?
    && (forall i :: 0 <= i < |p.itinerary.value| ==>
          Complete(p.itinerary.value[i]) && Consistent(p.itinerary.value[i]))
    && p.totalCost == Some(SumDaily(p.itinerary.value))
  }

  // ---------------------------------------------------------------------
  // Properties of the step
  // ---------------------------------------------------------------------

  /** The empty itinerary costs 0. */
  lemma EmptyTotal()
    ensures Reduce([], 0) == 0 && RawTotal([]) == 0
  {
  }

  /** Reconciled days all carry a `dailyCost`: the reduce never meets a missing one. */
  lemma ReconciledAreCosted(days: seq<Day>)
    ensures AllCosted(ReconcileDays(days))
  {
  }

  /**
   * The total of the reconciled days is the sum of the input's part costs:
   * it depends on no `dailyCost` and no `totalCost` the provider sent.
   */
  lemma {:induction false} ReconciledTotal(days: seq<Day>)
    ensures SumDaily(ReconcileDays(days)) == RawTotal(days)
  {
    if days != [] {
      ReconciledTotal(days[1..]);
      assert ReconcileDays(days)[1..] == ReconcileDays(days[1..]);
    }
  }

  /** A day's upstream `dailyCost` has no effect on the reconciled day. */
  lemma DailyCostIgnored(d: Day, upstream: Option<int>)
    ensures ReconcileDay(d.(dailyCost := upstream)) == ReconcileDay(d)
  {
  }

  /** Two itineraries that differ only in their days' `dailyCost` reconcile alike. */
  lemma DailyCostsIgnored(a: seq<Day>, b: seq<Day>)
    requires |a| == |b|
    requires forall i :: 0 <= i < |a| ==> a[i].(dailyCost := None) == b[i].(dailyCost := None)
    ensures ReconcileDays(a) == ReconcileDays(b)
  {
  }

  /** A complete, consistent day is already reconciled. */
  lemma ReconcileFixesConsistent(d: Day)
    requires Complete(d) && Consistent(d)
    ensures ReconcileDay(d) == d
  {
  }

  /** Reconciling an itinerary twice gives what reconciling it once gives. */
  lemma ReconcileIdempotent(days: seq<Day>)
    ensures ReconcileDays(ReconcileDays(days)) == ReconcileDays(days)
  {
  }

  /** An itinerary of complete, consistent days passes through unchanged. */
  lemma ReconcileFixesConsistentDays(days: seq<Day>)
    requires forall i :: 0 <= i < |days| ==> Complete(days[i]) && Consistent(days[i])
    ensures ReconcileDays(days) == days
  {
  }
}
