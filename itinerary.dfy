/**
 * The itinerary: the ordered stops of a ride, the legs between consecutive stops,
 * resolving the legs one after another until the first failure, and the running totals.
 */
module Itinerary {
  import opened Wrappers
  import opened LegResolver

  /** One origin/destination pair to be resolved. */
  datatype Leg = Leg(from: Location, to: Location)

  /** One entry of the per-leg breakdown of a quote (unrounded). */
  datatype LegRecord = LegRecord(from: Location, to: Location, distanceKm: real, durationMinutes: real)

  /** How far resolving a list of legs got: all of them, or a failure at one index. */
  datatype Progress = Resolved(records: seq<LegRecord>) | FailedAt(index: nat, cause: ResolveError)

  type Resolver = (Location, Location) -> Result<Measure, ResolveError>

  /** The stop sequence of a ride: the fixed origin, the pickup, the primary destination, then the rest. */
  function Stops(origin: Location, pickup: Location, primary: Location, additional: seq<Location>): (stops: seq<Location>)
    ensures |stops| == 3 + |additional|
    ensures stops[0] == origin && stops[1] == pickup && stops[2] == primary
    ensures forall j :: 0 <= j < |additional| ==> stops[j + 3] == additional[j]
  {
    [origin, pickup, primary] + additional
  }

  /** The consecutive pairs of a stop sequence. */
  function Legs(stops: seq<Location>): seq<Leg>
    decreases |stops|
  {
    if |stops| < 2 then [] else [Leg(stops[0], stops[1])] + Legs(stops[1..])
  }

  /** There is one leg fewer than stops, and leg i goes from stop i to stop i + 1. */
  lemma {:induction false} LegsShape(stops: seq<Location>)
    requires |stops| >= 1
    ensures |Legs(stops)| == |stops| - 1
    ensures forall i :: 0 <= i < |Legs(stops)| ==> Legs(stops)[i] == Leg(stops[i], stops[i + 1])
  {
    if |stops| >= 2 {
      LegsShape(stops[1..]);
    }
  }

  /** Consecutive legs chain: each leg ends where the next one starts. */
  lemma LegsChain(stops: seq<Location>)
    ensures forall i :: 0 <= i < |Legs(stops)| - 1 ==> Legs(stops)[i].to == Legs(stops)[i + 1].from
  {
    if |stops| >= 1 {
      LegsShape(stops);
    }
  }

  function RecordOf(leg: Leg, m: Measure): LegRecord {
    LegRecord(leg.from, leg.to, m.km, m.minutes)
  }

  /** Resolves the legs in order, stopping at the first one that fails. */
  function ResolveLegs(resolve: Resolver, legs: seq<Leg>): Progress
    decreases |legs|
  {
    if |legs| == 0 then Resolved([])
    else
      match ResolveLegs(resolve, legs[..|legs| - 1])
      case FailedAt(k, e) => FailedAt(k, e)
      case Resolved(records) =>
        var last := legs[|legs| - 1];
        match resolve(last.from, last.to)
        case Failure(e) => FailedAt(|legs| - 1, e)
        case Success(m) => Resolved(records + [RecordOf(last, m)])
  }

  /** Every one of the legs resolves. */
  predicate AllResolve(resolve: Resolver, legs: seq<Leg>) {
    forall i :: 0 <= i < |legs| ==> resolve(legs[i].from, legs[i].to).Success?
  }

  /** The records are the legs, in order, each with the values its resolution returned. */
  predicate RecordsMatch(resolve: Resolver, legs: seq<Leg>, records: seq<LegRecord>) {
    |records| == |legs|
    && forall i :: 0 <= i < |legs| ==>
         resolve(legs[i].from, legs[i].to).Success?
         && records[i] == RecordOf(legs[i], resolve(legs[i].from, legs[i].to).value)
  }

  /**
   * What ResolveLegs means: either every leg resolved and the records are their results in
   * order, or leg k is the first leg that failed and its error is reported.
   */
  lemma {:induction false} ResolveLegsOutcome(resolve: Resolver, legs: seq<Leg>)
    ensures ResolveLegs(resolve, legs).Resolved? ==> RecordsMatch(resolve, legs, ResolveLegs(resolve, legs).records)
    ensures ResolveLegs(resolve, legs).FailedAt? ==>
              var k := ResolveLegs(resolve, legs).index;
              k < |legs|
              && resolve(legs[k].from, legs[k].to) == Failure(ResolveLegs(resolve, legs).cause)
              && AllResolve(resolve, legs[..k])
    ensures ResolveLegs(resolve, legs).Resolved? <==> AllResolve(resolve, legs)
  {
    if |legs| > 0 {
      var init := legs[..|legs| - 1];
      ResolveLegsOutcome(resolve, init);
      assert forall i :: 0 <= i < |init| ==> init[i] == legs[i];
      var last := legs[|legs| - 1];
      match ResolveLegs(resolve, init)
      case FailedAt(k, e) =>
        assert legs[..k] == init[..k];
        assert !resolve(legs[k].from, legs[k].to).Success?;
      case Resolved(records) =>
        match resolve(last.from, last.to)
        case Failure(e) =>
          assert legs[..|legs| - 1] == init;
        case Success(m) =>
          var all := records + [RecordOf(last, m)];
          assert forall i :: 0 <= i < |init| ==> all[i] == records[i];
    }
  }

  /** Once a prefix of the legs has failed, resolving more legs reports the same failure. */
  lemma {:induction false} FailureIsFinal(resolve: Resolver, legs: seq<Leg>, n: nat)
    requires n <= |legs|
    requires ResolveLegs(resolve, legs[..n]).FailedAt?
    ensures ResolveLegs(resolve, legs) == ResolveLegs(resolve, legs[..n])
    decreases |legs| - n
  {
    if n < |legs| {
      assert legs[..n + 1][..n] == legs[..n];
      FailureIsFinal(resolve, legs, n + 1);
      assert legs[..|legs|] == legs;
    } else {
      assert legs[..n] == legs;
    }
  }

  /** Resolving one more leg after a resolved prefix. */
  lemma ResolveStep(resolve: Resolver, legs: seq<Leg>, n: nat)
    requires n < |legs|
    ensures ResolveLegs(resolve, legs[..n + 1])
            == match ResolveLegs(resolve, legs[..n])
               case FailedAt(k, e) => FailedAt(k, e)
               case Resolved(records) =>
                 match resolve(legs[n].from, legs[n].to)
                 case Failure(e) => FailedAt(n, e)
                 case Success(m) => Resolved(records + [RecordOf(legs[n], m)])
  {
    assert legs[..n + 1][..n] == legs[..n];
  }

  /** Resolving leg n after the first n legs resolved: a failure there is the final outcome. */
  lemma NextLeg(resolve: Resolver, legs: seq<Leg>, n: nat, records: seq<LegRecord>, r: Result<Measure, ResolveError>)
    requires n < |legs|
    requires ResolveLegs(resolve, legs[..n]) == Resolved(records)
    requires r == resolve(legs[n].from, legs[n].to)
    ensures r.Failure? ==> ResolveLegs(resolve, legs) == FailedAt(n, r.error)
    ensures r.Success? ==> ResolveLegs(resolve, legs[..n + 1]) == Resolved(records + [RecordOf(legs[n], r.value)])
  {
    ResolveStep(resolve, legs, n);
    if r.Failure? {
      FailureIsFinal(resolve, legs, n + 1);
    }
  }

  /** Total distance of a breakdown: the sum of its legs' distances. */
  function TotalKm(records: seq<LegRecord>): real
    decreases |records|
  {
    if |records| == 0 then 0.0 else TotalKm(records[..|records| - 1]) + records[|records| - 1].distanceKm
  }

  /** Total duration of a breakdown: the sum of its legs' durations. */
  function TotalMinutes(records: seq<LegRecord>): real
    decreases |records|
  {
    if |records| == 0 then 0.0 else TotalMinutes(records[..|records| - 1]) + records[|records| - 1].durationMinutes
  }

  /** Adding a leg to a breakdown adds its values to the totals. */
  lemma TotalsSnoc(records: seq<LegRecord>, r: LegRecord)
    ensures TotalKm(records + [r]) == TotalKm(records) + r.distanceKm
    ensures TotalMinutes(records + [r]) == TotalMinutes(records) + r.durationMinutes
  {
    assert (records + [r])[..|records|] == records;
  }

  /** Legs with non-negative values give non-negative totals. */
  lemma {:induction false} TotalsNonNegative(records: seq<LegRecord>)
    requires forall i :: 0 <= i < |records| ==> records[i].distanceKm >= 0.0 && records[i].durationMinutes >= 0.0
    ensures TotalKm(records) >= 0.0 && TotalMinutes(records) >= 0.0
    decreases |records|
  {
    if |records| > 0 {
      TotalsNonNegative(records[..|records| - 1]);
    }
  }
}
