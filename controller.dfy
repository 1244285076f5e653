/**
 * WeatherController: the handler of GET /weather. It rejects a missing or blank
 * `city` query parameter, otherwise asks the service and turns its answer or
 * exception into a status code and a JSON body.
 */
module Controller {
  import opened Wrappers
  import opened Text
  import opened Models
  import opened Upstream
  import opened Service
  import Cache

  /** The JSON body: the reading itself, or an object with one "error" field. */
  datatype ReplyBody = WeatherJson(data: WeatherResponse) | ErrorJson(error: string)

  /** What the handler leaves on the context; `status` is None when it keeps Javalin's default 200. */
  datatype HttpReply = HttpReply(status: Option<int>, body: ReplyBody)

  const MissingCityMessage: string := "Staden måste anges som en 'city' parameter"
  const PlaceNotFoundPrefix: string := "Kunde inte hitta plats: "
  const InvalidPlaceTypePrefix: string := "Ogiltig platstyp: "
  const WeatherDataPrefix: string := "Kunde inte hämta väderdata: "
  const InternalErrorPrefix: string := "Ett internt fel inträffade: "

  /** Kotlin's String?.isNullOrBlank. */
  predicate IsNullOrBlank(city: Option<string>) {
    city.None? || IsBlank(city.value)
  }

  /**
   * The try/catch cascade around the service call, clause by clause. The second
   * OpenStreetMapException clause is kept as written: the first one catches first.
   */
  function Render(outcome: Result<WeatherResponse, Failure>): (reply: HttpReply)
    ensures reply.body.WeatherJson? <==> outcome.Ok?
    ensures outcome.Ok? <==> reply.status.None?
  {
    match outcome
    case Ok(weatherData) => HttpReply(None, WeatherJson(weatherData))
    case Err(e) =>
      if e.OpenStreetMapError? then HttpReply(Some(404), ErrorJson(PlaceNotFoundPrefix + e.message))
      else if e.OpenStreetMapError? then HttpReply(Some(400), ErrorJson(InvalidPlaceTypePrefix + e.message))
      else if e.WeatherApiError? then HttpReply(Some(500), ErrorJson(WeatherDataPrefix + e.message))
      else HttpReply(Some(500), ErrorJson(InternalErrorPrefix + e.message))
  }

  /** The handler as a function of the query parameter and what the service would answer. */
  function Respond(city: Option<string>, outcome: Result<WeatherResponse, Failure>): HttpReply {
    if IsNullOrBlank(city) then HttpReply(Some(400), ErrorJson(MissingCityMessage)) else Render(outcome)
  }

  /** The "Ogiltig platstyp" clause is dead: no service outcome is rendered as 400. */
  lemma RenderNeverBadRequest(outcome: Result<WeatherResponse, Failure>)
    ensures Render(outcome).status != Some(400)
    ensures Render(outcome).body.ErrorJson? ==> !(InvalidPlaceTypePrefix <= Render(outcome).body.error)
  {
    if outcome.Err? {
      var error := Render(outcome).body.error;
      assert error[0] != InvalidPlaceTypePrefix[0];
    }
  }

  /** Status 400 is given exactly for a missing or blank city, whatever the service would have said. */
  lemma BadRequestIffBlank(city: Option<string>, outcome: Result<WeatherResponse, Failure>)
    ensures Respond(city, outcome).status == Some(400) <==> IsNullOrBlank(city)
  {
    RenderNeverBadRequest(outcome);
  }

  /** For a blank city the service's answer plays no part: it is never asked. */
  lemma BlankIgnoresService(city: Option<string>, outcome: Result<WeatherResponse, Failure>, other: Result<WeatherResponse, Failure>)
    requires IsNullOrBlank(city)
    ensures Respond(city, outcome) == Respond(city, other)
  {
  }

  /**
   * Status by outcome: success keeps the default status and returns the reading,
   * OpenStreetMapException is 404, every other exception 500; the exception's
   * message is kept in the error text.
   */
  lemma StatusByOutcome(outcome: Result<WeatherResponse, Failure>)
    ensures outcome.Ok? ==> Render(outcome) == HttpReply(None, WeatherJson(outcome.value))
    ensures outcome.Err? && outcome.error.OpenStreetMapError? ==> Render(outcome).status == Some(404)
    ensures outcome.Err? && !outcome.error.OpenStreetMapError? ==> Render(outcome).status == Some(500)
    ensures outcome.Err? ==> Render(outcome).body.ErrorJson? && Contains(Render(outcome).body.error, outcome.error.message)
    ensures outcome.Err? && outcome.error.OpenStreetMapError? ==>
      Render(outcome).body == ErrorJson(PlaceNotFoundPrefix + outcome.error.message)
    ensures outcome.Err? && outcome.error.WeatherApiError? ==>
      Render(outcome).body == ErrorJson(WeatherDataPrefix + outcome.error.message)
    ensures outcome.Err? && outcome.error.OtherError? ==>
      Render(outcome).body == ErrorJson(InternalErrorPrefix + outcome.error.message)
  {
    if outcome.Err? {
      var e := outcome.error;
      var prefix := if e.OpenStreetMapError? then PlaceNotFoundPrefix
                    else if e.WeatherApiError? then WeatherDataPrefix else InternalErrorPrefix;
      assert Render(outcome).body.error == prefix + e.message + "";
      ContainsInfix(prefix, e.message, "");
    }
  }

  /**
   * A geocoding failure that is not the app's own check (a failed call, an unreadable
   * or a malformed body) escapes unwrapped and reaches the user as an internal error.
   */
  lemma GeocodeForeignFailureIsInternal(city: string, upstream: Oracles, code: nat, message: string)
    requires || upstream.geocode(city) == CallFailed(message)
             || (IsSuccessful(code) && upstream.geocode(city) == Response(code, ReadFailed(message)))
             || (IsSuccessful(code) && upstream.geocode(city) == Response(code, Malformed(message)))
    ensures Render(Fetch(city, upstream)) == HttpReply(Some(500), ErrorJson(InternalErrorPrefix + message))
  {
  }

  /** A failed forecast, whatever the cause, reaches the user as "Kunde inte hämta väderdata" with 500. */
  lemma ForecastFailureIsServerError(city: string, upstream: Oracles)
    requires GetCoordinates(city, upstream.geocode(city), upstream.toDouble).Ok?
    requires Fetch(city, upstream).Err?
    ensures Render(Fetch(city, upstream)).status == Some(500)
    ensures WeatherDataPrefix <= Render(Fetch(city, upstream)).body.error
  {
    FetchFailureKind(city, upstream);
  }

  class WeatherController {
    const weatherService: WeatherService

    constructor(weatherService: WeatherService)
      ensures this.weatherService == weatherService
    {
      this.weatherService := weatherService;
    }

    /** getWeatherForCity(ctx): `city` is the query parameter, the rest is what the service needs. */
    method GetWeatherForCity(city: Option<string>, checkedAt: int, storedAt: int, upstream: Oracles)
      returns (reply: HttpReply)
      requires weatherService.Valid()
      modifies weatherService
      ensures weatherService.Valid()
      ensures IsNullOrBlank(city) ==>
        reply == HttpReply(Some(400), ErrorJson(MissingCityMessage)) && unchanged(weatherService)
      ensures !IsNullOrBlank(city) ==>
        var key, outcome := CacheKey(city.value), Serve(old(weatherService.cache), city.value, checkedAt, upstream);
        && reply == Respond(city, outcome)
        && (IsHit(old(weatherService.cache), key, checkedAt) ==>
              weatherService.cache == old(weatherService.cache)
              && weatherService.upstreamCalls == old(weatherService.upstreamCalls))
        && (!IsHit(old(weatherService.cache), key, checkedAt) ==>
              && weatherService.upstreamCalls == old(weatherService.upstreamCalls) + CallsOnMiss(city.value, upstream)
              && weatherService.cache ==
                   if outcome.Ok? then old(weatherService.cache)[key := Cache.CachedWeatherData(outcome.value, storedAt)]
                   else old(weatherService.cache))
    {
      if IsNullOrBlank(city) {
        return HttpReply(Some(400), ErrorJson(MissingCityMessage));
      }
      var outcome := weatherService.GetWeatherForCity(city.value, checkedAt, storedAt, upstream);
      reply := Render(outcome);
    }
  }
}
