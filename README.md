# Ride quote backend, modelled in Dafny

The ride-app backend answers one request, `POST /book-ride`. It takes a JSON body with the
rider's contact details, a pickup location, a primary destination, optional additional
destinations and optional free-text passenger requests. It validates the body. It then builds
the chain of legs `fixed origin → pickup → primary destination → additional destinations…` and
asks the Google Distance Matrix service for each leg in turn, adding up kilometres and minutes.
It stops at the first leg that fails. On success it prices the ride with a linear fare formula and
echoes the request back with the totals, the estimated cost and the per-leg breakdown.

The model has one module per component:

- `Wrappers` (`wrappers.dfy`): `Option` and `Result`.
- `Pricing` (`pricing.dfy`): the rates, the compiled-in constants 2.00 / 0.50 / 0.20, and
  `CalculateCost` with its properties.
- `LegResolver` (`leg_resolver.dfy`): the provider's reply as a datatype. A missing JSON key is
  `None`. The reply's decision logic (`Interpret`) and the credential check
  (`GetDistanceAndDuration`) are here. The HTTP exchange is a parameter: the provider is a
  function from an origin/destination pair to what the exchange produced (`Fetch`).
- `Itinerary` (`itinerary.dfy`): the stop sequence, the consecutive legs, the left fold
  `ResolveLegs` that resolves legs in order and stops at the first failure, and the totals.
- `Configuration` (`configuration.dfy`): the immutable configuration (fixed origin, whether a
  credential is set, the rates), built from the two environment variables.
- `Booking` (`booking.dfy`): the request body, validation, the response, and the request handler.
  The handler is imperative. `BookRide` validates and hands over to `QuoteRide`. `QuoteRide`
  resolves the two fixed legs and then loops over the additional destinations, updating the
  running totals, the leg list and the current origin, and returns on the first failure.
  `BookRide` is proved equal to the specification functions `BookRideSpec` and `CallsSpec`, and
  `QuoteRide` to `QuoteSpec` and `QuoteCallsSpec`. The ghost out-parameter `asked` records which
  legs the resolver was asked for, in order. The lemmas below
  derive the behaviour from those functions.

Numbers are exact reals: kilometres are metres / 1000 and minutes are seconds / 60. Three
behaviours of the handler worth noting:

- The fixed-origin leg is always present: every quote starts with the leg from the fixed origin
  to the pickup.
- Additional destinations and the fixed origin are never checked for being non-empty. An empty
  `FIXED_ORIGIN` variable is used as it is.
- Each leg is rounded for display only. The totals are sums of the unrounded values.

## Model

| member | source | states |
|---|---|---|
| Pricing.CalculateCost | ride-app-backend/app.py:67-71 | definition: base fare plus distance times the per-km rate plus duration times the per-minute rate, unrounded; its properties are proved in the lemmas below |
| Pricing.CostAtLeastBaseFare | ride-app-backend/app.py:67-71 | with non-negative rates and totals the cost is at least the base fare |
| Pricing.CostMonotone | ride-app-backend/app.py:67-71 | with non-negative rates the cost does not decrease when either total grows |
| Pricing.CostIsAffine | ride-app-backend/app.py:67-71 | the formula is base fare plus a part linear in the totals: pricing two parts of a ride separately charges the base fare twice |
| Pricing.EmptyRideCostsBaseFare | ride-app-backend/app.py:67-71 | zero kilometres and zero minutes cost exactly the base fare |
| Pricing.SourceRatesExample | ride-app-backend/app.py:18-20 | the compiled-in rates are non-negative, and 15 km / 25 min cost 14.50 |
| LegResolver.InterpretElement | ride-app-backend/app.py:44-55 | definition: the decision on the first element; its meaning is proved in InterpretMeaning |
| LegResolver.Interpret | ride-app-backend/app.py:38-64 | definition: the decision on what the HTTP exchange produced; its meaning is proved in InterpretMeaning |
| LegResolver.GetDistanceAndDuration | ride-app-backend/app.py:23-26 | definition: no credential gives ApiKeyMissing without asking the provider, otherwise the provider's answer is interpreted; its meaning is proved in GetDistanceAndDurationMeaning |
| LegResolver.InterpretMeaning | ride-app-backend/app.py:43-64 | the reply is accepted exactly when status is "OK", rows and rows[0].elements are non-empty, the first element's status is "OK" and both values are present; km·1000 and minutes·60 then give back the provider's metres and seconds; a transport failure, a body taken as non-JSON (see Left out) and a non-OK top-level status each give their own error; an element error carries the element's non-OK status |
| LegResolver.GetDistanceAndDurationMeaning | ride-app-backend/app.py:23-57 | without a credential the result is ApiKeyMissing whatever the provider would say; with one it is the decision on the provider's answer for that pair; success exactly when a credential is set and the answer is usable |
| LegResolver.ResolvedNonNegative | ride-app-backend/app.py:46-53 | non-negative metres and seconds resolve to a non-negative distance and duration |
| LegResolver.ConversionExample | ride-app-backend/app.py:46-53 | 12345 m and 900 s resolve to 12.345 km and 15 minutes |
| LegResolver.EmptyElementsExample | ride-app-backend/app.py:43-57 | a first row with no elements is an error reported with the top-level status "OK" |
| Itinerary.Stops | ride-app-backend/app.py:96-141 | the stop sequence is fixed origin, pickup, primary destination, then the additional destinations in order |
| Itinerary.Legs | ride-app-backend/app.py:96-141 | definition: the consecutive pairs of the stop sequence; its shape is proved in LegsShape and LegsChain |
| Itinerary.LegsShape | ride-app-backend/app.py:96-141 | a sequence of n stops has n − 1 legs, and leg i goes from stop i to stop i + 1 |
| Itinerary.LegsChain | ride-app-backend/app.py:110-141 | each leg ends where the next one starts |
| Itinerary.ResolveLegsOutcome | ride-app-backend/app.py:97-141 | resolving in order either resolves every leg, with records that are the legs with their resolved values in order, or stops at a leg k that failed after every earlier leg succeeded; it resolves everything exactly when every leg resolves |
| Itinerary.ResolveLegs | ride-app-backend/app.py:97-141 | definition: the legs resolved in order, stopping at the first failure; its outcome is characterised in ResolveLegsOutcome |
| Itinerary.FailureIsFinal | ride-app-backend/app.py:128-131 | once a prefix of the legs has failed, the later legs do not change the outcome |
| Itinerary.ResolveStep | ride-app-backend/app.py:128-141 | resolving one more leg: after a failure nothing changes; otherwise the leg's failure is the outcome, or its record is appended |
| Itinerary.NextLeg | ride-app-backend/app.py:128-141 | after the first n legs resolved, a failure of leg n is the outcome for the whole itinerary, and a success appends leg n's record |
| Itinerary.TotalsSnoc | ride-app-backend/app.py:133-134 | appending a leg adds its distance and its duration to the totals |
| Itinerary.TotalKm | ride-app-backend/app.py:92-134 | definition: the sum of the legs' distances; its step is proved in TotalsSnoc |
| Itinerary.TotalMinutes | ride-app-backend/app.py:93-134 | definition: the sum of the legs' durations; its step is proved in TotalsSnoc |
| Itinerary.TotalsNonNegative | ride-app-backend/app.py:92-134 | legs with non-negative values have non-negative totals |
| Configuration.ConfigFromEnvironment | ride-app-backend/app.py:13-20 | definition: the configuration from the two environment variables and the compiled-in rates; what it means for a request is proved in Booking.HandlerUnderEnvironment |
| Booking.Validate | ride-app-backend/app.py:76-90 | a missing or empty body is InvalidJson; otherwise any absent or empty field among name, email, phone, pickupLocation and primaryDestination is MissingRequiredFields; success exactly when all five are non-empty, carrying the fields unchanged and the additional destinations defaulted to [] |
| Booking.QuoteSpec | ride-app-backend/app.py:92-163 | definition: the response to a validated ride, from the in-order resolution of its legs; QuoteRide is proved equal to it and its meaning is proved in QuotedLegs, QuoteFailed and QuoteOfFailedLeg |
| Booking.QuoteCallsSpec | ride-app-backend/app.py:96-141 | definition: the legs asked for while quoting, the legs up to the failed one or all of them; QuoteRide is proved equal to it |
| Booking.BookRideSpec | ride-app-backend/app.py:75-163 | definition: validation, then QuoteSpec under the configured resolver; BookRide is proved equal to it and its meaning is proved in the request-level lemmas below |
| Booking.CallsSpec | ride-app-backend/app.py:75-141 | definition: no legs for a rejected body, otherwise QuoteCallsSpec; BookRide is proved equal to it |
| Booking.QuoteOfFailedLeg | ride-app-backend/app.py:97-131 | when leg k is the first to fail, k is one of the ride's 2 + (number of additional destinations) legs, the response names leg k's phase and error, and legs 0..k were asked for |
| Booking.BookRide | ride-app-backend/app.py:75-163 | the handler's response and the legs it asks for are those of BookRideSpec and CallsSpec |
| Booking.RideLegs | ride-app-backend/app.py:96-141 | a ride has 2 + (number of additional destinations) legs: origin to pickup, pickup to primary, then each additional destination reached from the previous stop |
| Booking.QuoteRide | ride-app-backend/app.py:92-163 | the leg-by-leg loop with running totals and early return gives the response and the legs asked of QuoteSpec and QuoteCallsSpec |
| Booking.ValidationRejectsBeforeAnyLeg | ride-app-backend/app.py:76-90 | the status is 400 exactly when the body is missing or a required field is falsy, and then no leg is resolved; a missing or empty body gives InvalidJson |
| Booking.QuotedLegs | ride-app-backend/app.py:96-141 | the legs of a quoted ride are the consecutive pairs of its stops, and they are exactly the legs asked for, in order |
| Booking.BookedLegs | ride-app-backend/app.py:96-141 | a quote has 2 + (number of additional destinations) legs, from the fixed origin to the pickup, then to the primary destination, then through the additional destinations; legs chain end to start; the resolver was asked for exactly these legs, once each, in order |
| Booking.BookedTotals | ride-app-backend/app.py:92-144 | each leg of a quote carries what the resolver returned for it; the totals are the exact sums over the legs; the cost is the fare formula applied to the totals |
| Booking.BookedIffEveryLegResolves | ride-app-backend/app.py:97-141 | a valid request is quoted exactly when every consecutive pair of its stops resolves |
| Booking.QuoteFailed | ride-app-backend/app.py:97-131 | a failed quote asked for a non-empty prefix of the legs, ending at the failed leg; every earlier leg resolved, and the phase names the failed leg |
| Booking.FailedLegStopsTheQuote | ride-app-backend/app.py:97-131 | a failed leg gives 500 and no quote; the legs asked for are a prefix of the itinerary ending at the failed leg, so no later leg is resolved; every earlier leg succeeded; the reported error and phase are those of the failed leg |
| Booking.EchoesRequest | ride-app-backend/app.py:146-160 | a quote echoes name, email, phone, pickup, primary destination, additional destinations and passenger requests unchanged |
| Booking.NoCredentialFailsAtPickup | ride-app-backend/app.py:24-26 | without a credential every valid request fails at the pickup leg with ApiKeyMissing, and only that leg was attempted |
| Booking.FirstLegAsked | ride-app-backend/app.py:96-97 | whatever the outcome, the first leg asked for goes from the fixed origin to the pickup |
| Booking.HandlerUnderEnvironment | ride-app-backend/app.py:13-26 | under the configuration read from the environment, the first leg asked starts at "Harare, Zimbabwe" when FIXED_ORIGIN is absent and at its value, even an empty one, otherwise; an absent or empty credential fails every valid request at the pickup leg with ApiKeyMissing; a non-empty one hands every leg to the provider's interpreted answer; a quote is priced with the rates 2.00 / 0.50 / 0.20 |
| Booking.CostAtLeastBaseFareOfQuote | ride-app-backend/app.py:67-71 | with non-negative rates and a provider that never answers with negative values, a quote's totals are non-negative and its cost is at least the base fare |
| Booking.ExampleLegsResolve | ride-app-backend/app.py:97-141 | in the worked example the three legs resolve to 2 km / 5 min, 8 km / 10 min and 5 km / 10 min |
| Booking.QuoteExample | ride-app-backend/app.py:92-160 | worked example: Depot → A → B → C with the compiled-in rates totals 15 km and 25 minutes and costs 14.50, with the three legs listed in order |

## Left out

- Rounding: Python's `round(x, 2)` on binary floats is not modelled. It is applied to each leg's
  displayed values, to both totals and to the cost. Distances, durations and the cost are exact
  reals, unrounded.
- Floating point: the arithmetic is exact real arithmetic, not IEEE doubles.
- HTTP transport: Flask routing, CORS, `jsonify`, the response's `message` field and the
  development server. A response is `Booked` (status 200) or `Rejected` with an error kind
  (400 or 500).
- The network call: `requests.get` and `raise_for_status` are a parameter (`Fetch`: a JSON reply,
  a request failure, or a body that is not JSON). The provider is a deterministic function of the
  pair, so asking the same pair twice in one request gets the same answer.
- Environment and logging: reading `os.environ` is replaced by the parameters of
  `ConfigFromEnvironment`, and the `print` of a missing credential is left out.
- Catch-all exception branch: only the missing-key cases are modelled, each as the `Unexpected`
  error. Other errors that reach it are not modelled, such as a JSON value of the wrong type in
  the reply.
- Request bodies that are not a JSON object, unknown keys, and field values that are not strings
  are not modelled. Neither is an `additionalDestinations` that is JSON `null`. A body with only
  unknown keys is truthy in the source and reaches the required-field check. In the model it is
  the empty body. Both are rejected with 400.
- Library behaviour assumed for malformed JSON: a provider body that is not JSON is the `NotJson`
  exchange and gives `UnparsableReply`, as with the `ValueError` branch. With requests 2.27 or
  later that error is a `RequestException` and is reported as `RequestError` instead; either way
  the leg fails with status 500 in the same phase. A request body that is absent (`None`) stands
  for any body `request.get_json()` hands back as falsy, such as JSON `null`. Since Werkzeug 2.1
  a content type that is not JSON or a malformed body is rejected by `request.get_json()` itself
  with 400 or 415 before the handler's own check; the model treats it as an absent body (400,
  no leg resolved) and does not distinguish the 415 status.
- Error messages: their text is not modelled. An error records which phase or leg failed and the
  resolver's cause.
