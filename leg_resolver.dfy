/**
 * The leg resolver: asks the distance provider for one origin/destination pair and
 * turns its reply into a distance in kilometres and a duration in minutes, or a failure.
 * The HTTP exchange itself is a parameter: a `Fetch` is what the exchange produced.
 */
module LegResolver {
  import opened Wrappers

  /** A free-text address or place name. */
  type Location = string

  /** One element of a reply row; a `None` field is a key missing from the JSON. */
  datatype Element = Element(status: Option<string>, distanceMeters: Option<int>, durationSeconds: Option<int>)

  datatype Row = Row(elements: Option<seq<Element>>)

  /** The decoded JSON reply of the distance provider. */
  datatype Reply = Reply(status: Option<string>, rows: Option<seq<Row>>)

  /** What the HTTP exchange produced. */
  datatype Fetch =
    | Received(reply: Reply)         // a 2xx response whose body decoded as JSON
    | RequestFailed(reason: string)  // a network failure or an HTTP error status
    | NotJson                        // a body that is not valid JSON

  /** A resolved distance and duration. */
  datatype Measure = Measure(km: real, minutes: real)

  datatype ResolveError =
    | ApiKeyMissing                  // no provider credential is configured
    | StatusNotOk(status: string)    // the top-level status, or an empty rows/elements list
    | ElementNotOk(status: string)   // the element's own status is not "OK"
    | RequestError(reason: string)   // the HTTP exchange failed
    | UnparsableReply                // the body is not JSON
    | Unexpected                     // any other error, here a key missing from the reply

  /** The element the resolver reads: the first element of the first row, when there is one. */
  predicate HasFirstElement(reply: Reply) {
    reply.rows.Some? && |reply.rows.value| > 0
    && reply.rows.value[0].elements.Some? && |reply.rows.value[0].elements.value| > 0
  }

  function FirstElement(reply: Reply): Element
    requires HasFirstElement(reply)
  {
    reply.rows.value[0].elements.value[0]
  }

  /** The provider's answer carries a usable distance and duration. */
  predicate Answered(fetch: Fetch) {
    fetch.Received?
    && fetch.reply.status == Some("OK")
    && HasFirstElement(fetch.reply)
    && FirstElement(fetch.reply).status == Some("OK")
    && FirstElement(fetch.reply).distanceMeters.Some?
    && FirstElement(fetch.reply).durationSeconds.Some?
  }

  function MetresToKm(metres: int): real { metres as real / 1000.0 }

  function SecondsToMinutes(seconds: int): real { seconds as real / 60.0 }

  function InterpretElement(element: Element): Result<Measure, ResolveError> {
    match element.status
    case None => Failure(Unexpected)
    case Some(status) =>
      if status != "OK" then Failure(ElementNotOk(status))
      else if element.distanceMeters.None? || element.durationSeconds.None? then Failure(Unexpected)
      else Success(Measure(MetresToKm(element.distanceMeters.value), SecondsToMinutes(element.durationSeconds.value)))
  }

  /** The decision taken on what the HTTP exchange produced. */
  function Interpret(fetch: Fetch): Result<Measure, ResolveError>
  {
    match fetch
    case RequestFailed(reason) => Failure(RequestError(reason))
    case NotJson => Failure(UnparsableReply)
    case Received(reply) =>
      match reply.status
      case None => Failure(Unexpected)
      case Some(status) =>
        if status != "OK" then Failure(StatusNotOk(status))
        else
          match reply.rows
          case None => Failure(Unexpected)
          case Some(rows) =>
            if |rows| == 0 then Failure(StatusNotOk(status))
            else
              match rows[0].elements
              case None => Failure(Unexpected)
              case Some(elements) =>
                if |elements| == 0 then Failure(StatusNotOk(status))
                else InterpretElement(elements[0])
  }

  /**
   * Resolves one leg: without a configured credential the provider is not asked;
   * otherwise the provider's answer for the pair is interpreted.
   */
  function GetDistanceAndDuration(apiKeyPresent: bool, provider: (Location, Location) -> Fetch,
                                  origin: Location, destination: Location): Result<Measure, ResolveError>
  {
    if !apiKeyPresent then Failure(ApiKeyMissing) else Interpret(provider(origin, destination))
  }

  /**
   * The resolver's decision: it succeeds exactly when the reply has status "OK", a first row with
   * a first element, and that element has status "OK" and both values; the values are then
   * converted from metres and seconds. Every other case is a failure of its own kind.
   */
  lemma InterpretMeaning(fetch: Fetch)
    ensures Interpret(fetch).Success? <==> Answered(fetch)
    ensures Interpret(fetch).Success? ==>
              Interpret(fetch).value.km * 1000.0 == FirstElement(fetch.reply).distanceMeters.value as real
              && Interpret(fetch).value.minutes * 60.0 == FirstElement(fetch.reply).durationSeconds.value as real
    ensures fetch.RequestFailed? ==> Interpret(fetch) == Failure(RequestError(fetch.reason))
    ensures fetch.NotJson? ==> Interpret(fetch) == Failure(UnparsableReply)
    ensures fetch.Received? && fetch.reply.status.Some? && fetch.reply.status.value != "OK"
            ==> Interpret(fetch) == Failure(StatusNotOk(fetch.reply.status.value))
    ensures Interpret(fetch).Failure? && Interpret(fetch).error.ElementNotOk? ==>
              fetch.Received? && fetch.reply.status == Some("OK") && HasFirstElement(fetch.reply)
              && FirstElement(fetch.reply).status == Some(Interpret(fetch).error.status)
              && Interpret(fetch).error.status != "OK"
  {
  }

  /**
   * Resolving a leg: without a credential it fails before the provider is asked; with one it
   * succeeds exactly when the provider's answer for the pair is usable.
   */
  lemma GetDistanceAndDurationMeaning(apiKeyPresent: bool, provider: (Location, Location) -> Fetch,
                                      origin: Location, destination: Location)
    ensures !apiKeyPresent ==> GetDistanceAndDuration(apiKeyPresent, provider, origin, destination) == Failure(ApiKeyMissing)
    ensures GetDistanceAndDuration(apiKeyPresent, provider, origin, destination).Success?
            <==> apiKeyPresent && Answered(provider(origin, destination))
    ensures apiKeyPresent ==> GetDistanceAndDuration(apiKeyPresent, provider, origin, destination)
                              == Interpret(provider(origin, destination))
  {
    InterpretMeaning(provider(origin, destination));
  }

  /** Non-negative provider values give a non-negative distance and duration. */
  lemma ResolvedNonNegative(fetch: Fetch)
    requires Answered(fetch)
    requires FirstElement(fetch.reply).distanceMeters.value >= 0
    requires FirstElement(fetch.reply).durationSeconds.value >= 0
    ensures Interpret(fetch).Success?
    ensures Interpret(fetch).value.km >= 0.0 && Interpret(fetch).value.minutes >= 0.0
  {
    InterpretMeaning(fetch);
  }

  /** 12 345 metres and 900 seconds resolve to 12.345 km and 15 minutes. */
  lemma ConversionExample()
    ensures Interpret(Received(Reply(Some("OK"), Some([Row(Some([Element(Some("OK"), Some(12345), Some(900))]))]))))
            == Success(Measure(12.345, 15.0))
  {
  }

  /** A row without elements is reported with the top-level status, which is "OK". */
  lemma EmptyElementsExample()
    ensures Interpret(Received(Reply(Some("OK"), Some([Row(Some([]))])))) == Failure(StatusNotOk("OK"))
  {
  }
}
