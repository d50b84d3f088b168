/**
 * The ride-booking request: validation of the JSON body, the leg-by-leg resolution of the
 * itinerary with running totals, and the quote returned to the caller.
 */
module Booking {
  import opened Wrappers
  import opened Pricing
  import opened LegResolver
  import opened Itinerary
  import opened Configuration

  /** The decoded JSON object of a request; `None` is a key absent from the object. */
  datatype Body = Body(
    name: Option<string>,
    email: Option<string>,
    phone: Option<string>,
    pickupLocation: Option<Location>,
    primaryDestination: Option<Location>,
    additionalDestinations: Option<seq<Location>>,
    passengerRequests: Option<string>)

  /** An object with none of the keys: an empty object, which is falsy. */
  predicate IsEmptyObject(body: Body) {
    body.name.None? && body.email.None? && body.phone.None? && body.pickupLocation.None?
    && body.primaryDestination.None? && body.additionalDestinations.None? && body.passengerRequests.None?
  }

  /** A string field that is present and not empty. */
  predicate Truthy(field: Option<string>) {
    field.Some? && field.value != ""
  }

  predicate HasRequiredFields(body: Body) {
    Truthy(body.name) && Truthy(body.email) && Truthy(body.phone)
    && Truthy(body.pickupLocation) && Truthy(body.primaryDestination)
  }

  /** A request that passed validation. */
  datatype Ride = Ride(
    name: string,
    email: string,
    phone: string,
    pickup: Location,
    primary: Location,
    additional: seq<Location>,
    passengerRequests: Option<string>)

  /** Which leg of the itinerary failed. */
  datatype Phase = ToPickup | ToPrimaryDestination | ToAdditionalDestination(destination: Location)

  datatype BookingError =
    | InvalidJson
    | MissingRequiredFields
    | LegFailed(phase: Phase, cause: ResolveError)

  /** The booking details of a successful response (distances, durations and cost unrounded). */
  datatype BookingDetails = BookingDetails(
    name: string,
    email: string,
    phone: string,
    pickupLocation: Location,
    primaryDestination: Location,
    additionalDestinations: seq<Location>,
    passengerRequests: Option<string>,
    totalDistanceKm: real,
    totalDurationMinutes: real,
    estimatedCostUsd: real,
    calculatedLegs: seq<LegRecord>)

  datatype Response = Booked(details: BookingDetails) | Rejected(error: BookingError)

  function StatusCode(response: Response): int {
    match response
    case Booked(_) => 200
    case Rejected(LegFailed(_, _)) => 500
    case Rejected(_) => 400
  }

  /** The first step of a request: reject a missing or empty body, then any falsy required field. */
  function Validate(request: Option<Body>): (r: Result<Ride, BookingError>)
    ensures r.Success? <==> request.Some? && HasRequiredFields(request.value)
    ensures r == Failure(InvalidJson) <==> request.None? || IsEmptyObject(request.value)
    ensures r.Failure? ==> r.error == InvalidJson || r.error == MissingRequiredFields
    ensures r.Success? ==>
              var body := request.value;
              r.value.name == body.name.value && r.value.email == body.email.value
              && r.value.phone == body.phone.value && r.value.pickup == body.pickupLocation.value
              && r.value.primary == body.primaryDestination.value
              && r.value.additional == body.additionalDestinations.GetOr([])
              && r.value.passengerRequests == body.passengerRequests
  {
    if request.None? || IsEmptyObject(request.value) then Failure(InvalidJson)
    else if !HasRequiredFields(request.value) then Failure(MissingRequiredFields)
    else
      var body := request.value;
      Success(Ride(body.name.value, body.email.value, body.phone.value, body.pickupLocation.value,
                   body.primaryDestination.value, body.additionalDestinations.GetOr([]), body.passengerRequests))
  }

  /** The resolver the request handler uses: the provider asked under the configured credential. */
  function SourceResolver(cfg: Config, provider: (Location, Location) -> Fetch): Resolver {
    (origin: Location, destination: Location) => GetDistanceAndDuration(cfg.apiKeyPresent, provider, origin, destination)
  }

  function RideStops(cfg: Config, ride: Ride): seq<Location> {
    Stops(cfg.fixedOrigin, ride.pickup, ride.primary, ride.additional)
  }

  /** The phase that leg k of a ride belongs to. */
  function PhaseOf(ride: Ride, k: nat): Phase
    requires k < 2 + |ride.additional|
  {
    if k == 0 then ToPickup
    else if k == 1 then ToPrimaryDestination
    else ToAdditionalDestination(ride.additional[k - 2])
  }

  function Quote(ride: Ride, records: seq<LegRecord>, rates: Rates): BookingDetails {
    BookingDetails(ride.name, ride.email, ride.phone, ride.pickup, ride.primary, ride.additional,
                   ride.passengerRequests, TotalKm(records), TotalMinutes(records),
                   CalculateCost(rates, TotalKm(records), TotalMinutes(records)), records)
  }

  /** The response to a validated ride, as a function of the configuration and the resolver's answers. */
  function QuoteSpec(cfg: Config, resolve: Resolver, ride: Ride): Response {
    var legs := Legs(RideStops(cfg, ride));
    match ResolveLegs(resolve, legs)
    case FailedAt(k, e) =>
      ResolveLegsOutcome(resolve, legs);
      LegsShape(RideStops(cfg, ride));
      Rejected(LegFailed(PhaseOf(ride, k), e))
    case Resolved(records) => Booked(Quote(ride, records, cfg.rates))
  }

  /** The legs the resolver is asked for, in order, while quoting a validated ride. */
  function QuoteCallsSpec(cfg: Config, resolve: Resolver, ride: Ride): seq<Leg> {
    var legs := Legs(RideStops(cfg, ride));
    match ResolveLegs(resolve, legs)
    case FailedAt(k, _) =>
      ResolveLegsOutcome(resolve, legs);
      legs[..k + 1]
    case Resolved(_) => legs
  }

  /** The response to a request. */
  function BookRideSpec(cfg: Config, provider: (Location, Location) -> Fetch, request: Option<Body>): Response {
    match Validate(request)
    case Failure(e) => Rejected(e)
    case Success(ride) => QuoteSpec(cfg, SourceResolver(cfg, provider), ride)
  }

  /** The legs the resolver is asked for, in order, while answering a request. */
  function CallsSpec(cfg: Config, provider: (Location, Location) -> Fetch, request: Option<Body>): seq<Leg> {
    match Validate(request)
    case Failure(_) => []
    case Success(ride) => QuoteCallsSpec(cfg, SourceResolver(cfg, provider), ride)
  }

  /** The response and the calls of a ride whose leg k fails. */
  lemma QuoteOfFailedLeg(cfg: Config, resolve: Resolver, ride: Ride, k: nat, e: ResolveError)
    requires ResolveLegs(resolve, Legs(RideStops(cfg, ride))) == FailedAt(k, e)
    ensures k < |Legs(RideStops(cfg, ride))| == 2 + |ride.additional|
    ensures QuoteSpec(cfg, resolve, ride) == Rejected(LegFailed(PhaseOf(ride, k), e))
    ensures QuoteCallsSpec(cfg, resolve, ride) == Legs(RideStops(cfg, ride))[..k + 1]
  {
    ResolveLegsOutcome(resolve, Legs(RideStops(cfg, ride)));
    LegsShape(RideStops(cfg, ride));
  }

  /**
   * The request handler: rejects a body that fails validation, otherwise quotes the ride.
   * `asked` records the legs the resolver was asked for.
   */
  method BookRide(cfg: Config, provider: (Location, Location) -> Fetch, request: Option<Body>)
    returns (response: Response, ghost asked: seq<Leg>)
    ensures response == BookRideSpec(cfg, provider, request)
    ensures asked == CallsSpec(cfg, provider, request)
  {
    var validated := Validate(request);
    if validated.Failure? {
      return Rejected(validated.error), [];
    }
    response, asked := QuoteRide(cfg, SourceResolver(cfg, provider), validated.value);
  }

  /** The legs of a ride: origin to pickup, pickup to primary destination, then one per additional destination. */
  lemma RideLegs(cfg: Config, ride: Ride)
    ensures |Legs(RideStops(cfg, ride))| == 2 + |ride.additional|
    ensures Legs(RideStops(cfg, ride))[0] == Leg(cfg.fixedOrigin, ride.pickup)
    ensures Legs(RideStops(cfg, ride))[1] == Leg(ride.pickup, ride.primary)
    ensures forall j :: 0 <= j < |ride.additional| ==>
              Legs(RideStops(cfg, ride))[j + 2] == Leg(RideStops(cfg, ride)[j + 2], ride.additional[j])
  {
    LegsShape(RideStops(cfg, ride));
  }

  /**
   * The quote of a validated ride: resolves the leg from the fixed origin to the pickup, the
   * leg to the primary destination, then one leg per additional destination, accumulating the
   * totals, and returns on the first failed leg.
   */
  method QuoteRide(cfg: Config, resolve: Resolver, ride: Ride)
    returns (response: Response, ghost asked: seq<Leg>)
    ensures response == QuoteSpec(cfg, resolve, ride)
    ensures asked == QuoteCallsSpec(cfg, resolve, ride)
  {
    ghost var stops := RideStops(cfg, ride);
    ghost var legs := Legs(stops);
    RideLegs(cfg, ride);

    var totalKm := 0.0;
    var totalMinutes := 0.0;
    var calculated: seq<LegRecord> := [];

    // the leg from the fixed origin to the pickup
    var leg := resolve(cfg.fixedOrigin, ride.pickup);
    asked := [Leg(cfg.fixedOrigin, ride.pickup)];
    assert legs[..0] == [] && asked == legs[..1];
    NextLeg(resolve, legs, 0, calculated, leg);
    if leg.Failure? {
      response := Rejected(LegFailed(ToPickup, leg.error));
      QuoteOfFailedLeg(cfg, resolve, ride, 0, leg.error);
      return;
    }
    totalKm := totalKm + leg.value.km;
    totalMinutes := totalMinutes + leg.value.minutes;
    var first := LegRecord(cfg.fixedOrigin, ride.pickup, leg.value.km, leg.value.minutes);
    TotalsSnoc(calculated, first);
    calculated := calculated + [first];
    var current := ride.pickup;

    // the leg from the pickup to the primary destination
    leg := resolve(current, ride.primary);
    asked := asked + [Leg(current, ride.primary)];
    assert asked == legs[..2];
    NextLeg(resolve, legs, 1, calculated, leg);
    if leg.Failure? {
      response := Rejected(LegFailed(ToPrimaryDestination, leg.error));
      QuoteOfFailedLeg(cfg, resolve, ride, 1, leg.error);
      return;
    }
    totalKm := totalKm + leg.value.km;
    totalMinutes := totalMinutes + leg.value.minutes;
    var second := LegRecord(current, ride.primary, leg.value.km, leg.value.minutes);
    TotalsSnoc(calculated, second);
    calculated := calculated + [second];
    current := ride.primary;

    // one leg per additional destination
    for i := 0 to |ride.additional|
      invariant current == stops[i + 2]
      invariant asked == legs[..i + 2]
      invariant ResolveLegs(resolve, legs[..i + 2]) == Resolved(calculated)
      invariant totalKm == TotalKm(calculated) && totalMinutes == TotalMinutes(calculated)
    {
      var dest := ride.additional[i];
      leg := resolve(current, dest);
      asked := asked + [Leg(current, dest)];
      assert asked == legs[..i + 3];
      NextLeg(resolve, legs, i + 2, calculated, leg);
      if leg.Failure? {
        response := Rejected(LegFailed(ToAdditionalDestination(dest), leg.error));
        QuoteOfFailedLeg(cfg, resolve, ride, i + 2, leg.error);
        return;
      }
      var record := LegRecord(current, dest, leg.value.km, leg.value.minutes);
      TotalsSnoc(calculated, record);
      totalKm := totalKm + leg.value.km;
      totalMinutes := totalMinutes + leg.value.minutes;
      calculated := calculated + [record];
      current := dest;
    }
    assert legs[..|ride.additional| + 2] == legs;
    var totalCost := CalculateCost(cfg.rates, totalKm, totalMinutes);
    response := Booked(BookingDetails(ride.name, ride.email, ride.phone, ride.pickup, ride.primary,
                                      ride.additional, ride.passengerRequests, totalKm, totalMinutes,
                                      totalCost, calculated));
  }

  // ---------------------------------------------------------------------------
  // What a response means

  /** A provider whose usable answers never carry a negative distance or duration. */
  ghost predicate NonNegativeProvider(provider: (Location, Location) -> Fetch) {
    forall origin, destination :: Answered(provider(origin, destination)) ==>
      FirstElement(provider(origin, destination).reply).distanceMeters.value >= 0
      && FirstElement(provider(origin, destination).reply).durationSeconds.value >= 0
  }

  /**
   * A request is rejected with 400 exactly when the body is missing or empty or a required
   * field is falsy, and then no leg is resolved.
   */
  lemma ValidationRejectsBeforeAnyLeg(cfg: Config, provider: (Location, Location) -> Fetch, request: Option<Body>)
    ensures StatusCode(BookRideSpec(cfg, provider, request)) == 400
            <==> !(request.Some? && HasRequiredFields(request.value))
    ensures StatusCode(BookRideSpec(cfg, provider, request)) == 400 ==> CallsSpec(cfg, provider, request) == []
    ensures request.None? || IsEmptyObject(request.value) ==> BookRideSpec(cfg, provider, request) == Rejected(InvalidJson)
  {
    if request.Some? && HasRequiredFields(request.value) {
      var ride := Validate(request).value;
      var resolve := SourceResolver(cfg, provider);
      assert BookRideSpec(cfg, provider, request) == QuoteSpec(cfg, resolve, ride);
      assert QuoteSpec(cfg, resolve, ride).Booked? || QuoteSpec(cfg, resolve, ride).error.LegFailed?;
    }
  }

  /** The legs of a quoted ride are the legs of its stops, and they are the legs asked for. */
  lemma QuotedLegs(cfg: Config, resolve: Resolver, ride: Ride)
    requires QuoteSpec(cfg, resolve, ride).Booked?
    ensures
      var stops := RideStops(cfg, ride);
      var legs := QuoteSpec(cfg, resolve, ride).details.calculatedLegs;
      var calls := QuoteCallsSpec(cfg, resolve, ride);
      |legs| == |stops| - 1 && |calls| == |legs|
      && (forall i :: 0 <= i < |legs| ==> legs[i].from == stops[i] && legs[i].to == stops[i + 1])
      && (forall i :: 0 <= i < |legs| ==> calls[i] == Leg(legs[i].from, legs[i].to))
  {
    var stops := RideStops(cfg, ride);
    var legs := Legs(stops);
    var records := ResolveLegs(resolve, legs).records;
    ResolveLegsOutcome(resolve, legs);
    LegsShape(stops);
    assert QuoteSpec(cfg, resolve, ride).details.calculatedLegs == records;
    assert QuoteCallsSpec(cfg, resolve, ride) == legs;
    forall i | 0 <= i < |records|
      ensures records[i].from == stops[i] && records[i].to == stops[i + 1]
      ensures legs[i] == Leg(records[i].from, records[i].to)
    {
      assert records[i] == RecordOf(legs[i], resolve(legs[i].from, legs[i].to).value);
      assert legs[i] == Leg(stops[i], stops[i + 1]);
    }
  }

  /**
   * A quote covers exactly the legs origin to pickup, pickup to primary destination, then one
   * per additional destination, in order; each leg starts where the previous one ended; and the
   * resolver was asked for exactly these legs, in this order.
   */
  lemma BookedLegs(cfg: Config, provider: (Location, Location) -> Fetch, request: Option<Body>)
    requires BookRideSpec(cfg, provider, request).Booked?
    ensures request.Some? && HasRequiredFields(request.value)
    ensures
      var body := request.value;
      var additional := body.additionalDestinations.GetOr([]);
      var stops := Stops(cfg.fixedOrigin, body.pickupLocation.value, body.primaryDestination.value, additional);
      var legs := BookRideSpec(cfg, provider, request).details.calculatedLegs;
      var calls := CallsSpec(cfg, provider, request);
      |legs| == 2 + |additional| && |calls| == |legs|
      && legs[0].from == cfg.fixedOrigin && legs[0].to == body.pickupLocation.value
      && legs[1].from == body.pickupLocation.value && legs[1].to == body.primaryDestination.value
      && (forall i :: 0 <= i < |legs| ==> legs[i].from == stops[i] && legs[i].to == stops[i + 1])
      && (forall i :: 0 <= i < |legs| - 1 ==> legs[i].to == legs[i + 1].from)
      && (forall i :: 0 <= i < |legs| ==> calls[i] == Leg(legs[i].from, legs[i].to))
  {
    var ride := Validate(request).value;
    var resolve := SourceResolver(cfg, provider);
    assert BookRideSpec(cfg, provider, request) == QuoteSpec(cfg, resolve, ride);
    assert CallsSpec(cfg, provider, request) == QuoteCallsSpec(cfg, resolve, ride);
    QuotedLegs(cfg, resolve, ride);
  }

  /**
   * Each leg of a quote carries the values the resolver returned for it, the totals are the
   * sums over the legs, and the cost is the fare formula applied to the totals.
   */
  lemma BookedTotals(cfg: Config, provider: (Location, Location) -> Fetch, request: Option<Body>)
    requires BookRideSpec(cfg, provider, request).Booked?
    ensures
      var d := BookRideSpec(cfg, provider, request).details;
      (forall i :: 0 <= i < |d.calculatedLegs| ==>
         GetDistanceAndDuration(cfg.apiKeyPresent, provider, d.calculatedLegs[i].from, d.calculatedLegs[i].to)
         == Success(Measure(d.calculatedLegs[i].distanceKm, d.calculatedLegs[i].durationMinutes)))
      && d.totalDistanceKm == TotalKm(d.calculatedLegs)
      && d.totalDurationMinutes == TotalMinutes(d.calculatedLegs)
      && d.estimatedCostUsd == CalculateCost(cfg.rates, d.totalDistanceKm, d.totalDurationMinutes)
  {
    var ride := Validate(request).value;
    var resolve := SourceResolver(cfg, provider);
    ResolveLegsOutcome(resolve, Legs(RideStops(cfg, ride)));
  }

  /** A valid request is quoted exactly when every one of its legs resolves. */
  lemma BookedIffEveryLegResolves(cfg: Config, provider: (Location, Location) -> Fetch, request: Option<Body>)
    requires request.Some? && HasRequiredFields(request.value)
    ensures
      var body := request.value;
      var stops := Stops(cfg.fixedOrigin, body.pickupLocation.value, body.primaryDestination.value,
                         body.additionalDestinations.GetOr([]));
      BookRideSpec(cfg, provider, request).Booked?
      <==> forall i :: 0 <= i < |stops| - 1 ==>
             GetDistanceAndDuration(cfg.apiKeyPresent, provider, stops[i], stops[i + 1]).Success?
  {
    var ride := Validate(request).value;
    var stops := RideStops(cfg, ride);
    var resolve := SourceResolver(cfg, provider);
    ResolveLegsOutcome(resolve, Legs(stops));
    LegsShape(stops);
  }

  /** The calls of a ride whose quote failed: a prefix of its legs that ends at the failed one. */
  lemma QuoteFailed(cfg: Config, resolve: Resolver, ride: Ride)
    requires QuoteSpec(cfg, resolve, ride).Rejected?
    ensures QuoteSpec(cfg, resolve, ride).error.LegFailed?
    ensures
      var legs := Legs(RideStops(cfg, ride));
      var calls := QuoteCallsSpec(cfg, resolve, ride);
      var k := |calls| - 1;
      var error := QuoteSpec(cfg, resolve, ride).error;
      1 <= |calls| <= |legs| && |legs| == 2 + |ride.additional| && calls == legs[..|calls|]
      && resolve(calls[k].from, calls[k].to) == Failure(error.cause)
      && (forall i :: 0 <= i < k ==> resolve(calls[i].from, calls[i].to).Success?)
      && error.phase == PhaseOf(ride, k)
  {
    var stops := RideStops(cfg, ride);
    var legs := Legs(stops);
    ResolveLegsOutcome(resolve, legs);
    LegsShape(stops);
    var k := ResolveLegs(resolve, legs).index;
    var calls := legs[..k + 1];
    assert QuoteCallsSpec(cfg, resolve, ride) == calls;
    forall i | 0 <= i < k
      ensures resolve(calls[i].from, calls[i].to).Success?
    {
      assert calls[i] == legs[..k][i];
    }
  }

  /**
   * A failed leg gives a 500 response and no quote: the resolver was asked for the legs up to
   * and including the failed one and no further, every earlier leg resolved, the failed one
   * reported the error in the response, and the phase names that leg.
   */
  lemma FailedLegStopsTheQuote(cfg: Config, provider: (Location, Location) -> Fetch, request: Option<Body>)
    requires BookRideSpec(cfg, provider, request).Rejected?
    requires BookRideSpec(cfg, provider, request).error.LegFailed?
    ensures StatusCode(BookRideSpec(cfg, provider, request)) == 500
    ensures request.Some? && HasRequiredFields(request.value)
    ensures
      var ride := Validate(request).value;
      var legs := Legs(RideStops(cfg, ride));
      var calls := CallsSpec(cfg, provider, request);
      var k := |calls| - 1;
      var error := BookRideSpec(cfg, provider, request).error;
      1 <= |calls| <= |legs| && |legs| == 2 + |ride.additional| && calls == legs[..|calls|]
      && GetDistanceAndDuration(cfg.apiKeyPresent, provider, calls[k].from, calls[k].to) == Failure(error.cause)
      && (forall i :: 0 <= i < k ==> GetDistanceAndDuration(cfg.apiKeyPresent, provider, calls[i].from, calls[i].to).Success?)
      && error.phase == PhaseOf(ride, k)
  {
    var ride := Validate(request).value;
    var resolve := SourceResolver(cfg, provider);
    assert BookRideSpec(cfg, provider, request) == QuoteSpec(cfg, resolve, ride);
    assert CallsSpec(cfg, provider, request) == QuoteCallsSpec(cfg, resolve, ride);
    QuoteFailed(cfg, resolve, ride);
  }

  /** A quote echoes the request's contact details, stops and passenger requests unchanged. */
  lemma EchoesRequest(cfg: Config, provider: (Location, Location) -> Fetch, request: Option<Body>)
    requires BookRideSpec(cfg, provider, request).Booked?
    ensures
      var d := BookRideSpec(cfg, provider, request).details;
      var body := request.value;
      request.Some?
      && body.name == Some(d.name) && body.email == Some(d.email) && body.phone == Some(d.phone)
      && body.pickupLocation == Some(d.pickupLocation) && body.primaryDestination == Some(d.primaryDestination)
      && d.additionalDestinations == body.additionalDestinations.GetOr([])
      && d.passengerRequests == body.passengerRequests
  {
  }

  /** Without a credential every valid request fails at the first leg, the only one asked for. */
  lemma NoCredentialFailsAtPickup(cfg: Config, provider: (Location, Location) -> Fetch, request: Option<Body>)
    requires !cfg.apiKeyPresent
    requires request.Some? && HasRequiredFields(request.value)
    ensures BookRideSpec(cfg, provider, request) == Rejected(LegFailed(ToPickup, ApiKeyMissing))
    ensures CallsSpec(cfg, provider, request) == [Leg(cfg.fixedOrigin, request.value.pickupLocation.value)]
  {
    var ride := Validate(request).value;
    var stops := RideStops(cfg, ride);
    var legs := Legs(stops);
    var resolve := SourceResolver(cfg, provider);
    RideLegs(cfg, ride);
    assert legs[..0] == [];
    NextLeg(resolve, legs, 0, [], resolve(legs[0].from, legs[0].to));
    QuoteOfFailedLeg(cfg, resolve, ride, 0, ApiKeyMissing);
  }

  /** With non-negative rates and provider values, a quote costs at least the base fare. */
  lemma CostAtLeastBaseFareOfQuote(cfg: Config, provider: (Location, Location) -> Fetch, request: Option<Body>)
    requires BookRideSpec(cfg, provider, request).Booked?
    requires NonNegativeRates(cfg.rates)
    requires NonNegativeProvider(provider)
    ensures BookRideSpec(cfg, provider, request).details.totalDistanceKm >= 0.0
    ensures BookRideSpec(cfg, provider, request).details.totalDurationMinutes >= 0.0
    ensures BookRideSpec(cfg, provider, request).details.estimatedCostUsd >= cfg.rates.baseFare
  {
    var d := BookRideSpec(cfg, provider, request).details;
    BookedTotals(cfg, provider, request);
    forall i | 0 <= i < |d.calculatedLegs|
      ensures d.calculatedLegs[i].distanceKm >= 0.0 && d.calculatedLegs[i].durationMinutes >= 0.0
    {
      var leg := d.calculatedLegs[i];
      assert GetDistanceAndDuration(cfg.apiKeyPresent, provider, leg.from, leg.to).Success?;
      GetDistanceAndDurationMeaning(cfg.apiKeyPresent, provider, leg.from, leg.to);
      ResolvedNonNegative(provider(leg.from, leg.to));
    }
    TotalsNonNegative(d.calculatedLegs);
    CostAtLeastBaseFare(cfg.rates, d.totalDistanceKm, d.totalDurationMinutes);
  }

  /** Whatever the outcome of a quote, its first call is the leg from the fixed origin to the pickup. */
  lemma FirstLegAsked(cfg: Config, resolve: Resolver, ride: Ride)
    ensures |QuoteCallsSpec(cfg, resolve, ride)| >= 1
    ensures QuoteCallsSpec(cfg, resolve, ride)[0] == Leg(cfg.fixedOrigin, ride.pickup)
  {
    var legs := Legs(RideStops(cfg, ride));
    RideLegs(cfg, ride);
    ResolveLegsOutcome(resolve, legs);
  }

  /**
   * The handler under the configuration read from the environment: the first leg asked starts at
   * the configured origin (the default only when the variable is absent, an empty value used as
   * it is); an absent or empty credential fails every valid request at the pickup leg, while a
   * non-empty one hands every leg to the provider; a quote is priced with the compiled-in rates.
   */
  lemma HandlerUnderEnvironment(fixedOriginVar: Option<string>, apiKeyVar: Option<string>,
                                provider: (Location, Location) -> Fetch, request: Option<Body>)
    requires request.Some? && HasRequiredFields(request.value)
    ensures
      var cfg := ConfigFromEnvironment(fixedOriginVar, apiKeyVar);
      var origin := if fixedOriginVar.None? then "Harare, Zimbabwe" else fixedOriginVar.value;
      var calls := CallsSpec(cfg, provider, request);
      |calls| >= 1 && calls[0] == Leg(origin, request.value.pickupLocation.value)
    ensures
      var cfg := ConfigFromEnvironment(fixedOriginVar, apiKeyVar);
      apiKeyVar.None? || apiKeyVar.value == "" ==>
        BookRideSpec(cfg, provider, request) == Rejected(LegFailed(ToPickup, ApiKeyMissing))
    ensures
      var cfg := ConfigFromEnvironment(fixedOriginVar, apiKeyVar);
      apiKeyVar.Some? && apiKeyVar.value != "" ==>
        forall o: Location, d: Location ::
          SourceResolver(cfg, provider)(o, d) == Interpret(provider(o, d))
    ensures
      var cfg := ConfigFromEnvironment(fixedOriginVar, apiKeyVar);
      var response := BookRideSpec(cfg, provider, request);
      response.Booked? ==>
        response.details.estimatedCostUsd
        == CalculateCost(SourceRates, response.details.totalDistanceKm, response.details.totalDurationMinutes)
  {
    var cfg := ConfigFromEnvironment(fixedOriginVar, apiKeyVar);
    var ride := Validate(request).value;
    assert CallsSpec(cfg, provider, request) == QuoteCallsSpec(cfg, SourceResolver(cfg, provider), ride);
    FirstLegAsked(cfg, SourceResolver(cfg, provider), ride);
    if !cfg.apiKeyPresent {
      NoCredentialFailsAtPickup(cfg, provider, request);
    }
    if BookRideSpec(cfg, provider, request).Booked? {
      BookedTotals(cfg, provider, request);
    }
  }

  /** A usable provider answer with the given metres and seconds. */
  function AnswerOf(metres: int, seconds: int): Fetch {
    Received(Reply(Some("OK"), Some([Row(Some([Element(Some("OK"), Some(metres), Some(seconds))]))])))
  }

  /** The provider of the worked example: answers depend on the origin only. */
  function ExampleProvider(origin: Location, destination: Location): Fetch {
    if origin == "Depot" then AnswerOf(2000, 300)
    else if origin == "A" then AnswerOf(8000, 600)
    else AnswerOf(5000, 600)
  }

  const ExampleConfig: Config := Config("Depot", true, SourceRates)

  const ExampleRide: Ride := Ride("Ann", "ann@example.com", "555-0100", "A", "B", ["C"], None)

  /** The worked example's legs resolve to 2 km / 5 min, 8 km / 10 min and 5 km / 10 min. */
  lemma ExampleLegsResolve()
    ensures ResolveLegs(SourceResolver(ExampleConfig, ExampleProvider), Legs(RideStops(ExampleConfig, ExampleRide)))
            == Resolved([LegRecord("Depot", "A", 2.0, 5.0), LegRecord("A", "B", 8.0, 10.0), LegRecord("B", "C", 5.0, 10.0)])
  {
    var legs := Legs(RideStops(ExampleConfig, ExampleRide));
    assert legs == [Leg("Depot", "A"), Leg("A", "B"), Leg("B", "C")] by {
      RideLegs(ExampleConfig, ExampleRide);
    }
    var resolve := SourceResolver(ExampleConfig, ExampleProvider);
    var r0 := LegRecord("Depot", "A", 2.0, 5.0);
    var r1 := LegRecord("A", "B", 8.0, 10.0);
    assert resolve("Depot", "A") == Success(Measure(2.0, 5.0));
    assert resolve("A", "B") == Success(Measure(8.0, 10.0));
    assert resolve("B", "C") == Success(Measure(5.0, 10.0));
    assert legs[..0] == [];
    NextLeg(resolve, legs, 0, [], resolve("Depot", "A"));
    NextLeg(resolve, legs, 1, [r0], resolve("A", "B"));
    NextLeg(resolve, legs, 2, [r0, r1], resolve("B", "C"));
    assert legs[..3] == legs;
  }

  /**
   * A worked quote with the compiled-in rates: legs Depot to A (2 km, 5 min), A to B (8 km,
   * 10 min) and B to C (5 km, 10 min) total 15 km and 25 minutes and cost 14.50.
   */
  lemma QuoteExample()
    ensures
      var request := Some(Body(Some("Ann"), Some("ann@example.com"), Some("555-0100"), Some("A"), Some("B"),
                               Some(["C"]), None));
      BookRideSpec(ExampleConfig, ExampleProvider, request)
      == Booked(BookingDetails("Ann", "ann@example.com", "555-0100", "A", "B", ["C"], None, 15.0, 25.0, 14.50,
                               [LegRecord("Depot", "A", 2.0, 5.0), LegRecord("A", "B", 8.0, 10.0),
                                LegRecord("B", "C", 5.0, 10.0)]))
  {
    var request := Some(Body(Some("Ann"), Some("ann@example.com"), Some("555-0100"), Some("A"), Some("B"),
                             Some(["C"]), None));
    assert Validate(request) == Success(ExampleRide);
    ExampleLegsResolve();
    var r0 := LegRecord("Depot", "A", 2.0, 5.0);
    var r1 := LegRecord("A", "B", 8.0, 10.0);
    var r2 := LegRecord("B", "C", 5.0, 10.0);
    TotalsSnoc([], r0);
    TotalsSnoc([r0], r1);
    TotalsSnoc([r0, r1], r2);
    assert [r0, r1, r2] == [r0, r1] + [r2] && [r0, r1] == [r0] + [r1] && [r0] == [] + [r0];
  }
}
