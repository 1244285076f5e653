/**
 * WeatherService: answers a query for a city from an in-memory cache, or by
 * resolving the city to coordinates with the geocoder and reading the first
 * time slot of the forecast for those coordinates, and caches what it fetched.
 */
module Service {
  import opened Wrappers
  import opened Text
  import opened Models
  import opened Upstream
  import opened Cache

  /** cacheTTL: thirty minutes. */
  const CacheTtlMillis: int := MinutesToMillis(30)

  // ---------------------------------------------------------------------------
  // Symbol-to-description classifier

  const UnknownWeather: string := "Okänt väder"

  /** The classifier's rules in the order they are tried: (substring of the symbol code, description). */
  const Rules: seq<(string, string)> := [
    ("clearsky", "Klar himmel"),
    ("fair", "Mestadels klart"),
    ("partlycloudy", "Delvis molnigt"),
    ("cloudy", "Molnigt"),
    ("rain", "Regn"),
    ("snow", "Snö"),
    ("sleet", "Snöblandat regn"),
    ("fog", "Dimma"),
    ("thunder", "Åska")
  ]

  /** The description of the first rule whose substring occurs in `symbol`, or the fallback. */
  function FirstMatch(rules: seq<(string, string)>, symbol: string): string {
    if rules == [] then UnknownWeather
    else if Contains(symbol, rules[0].0) then rules[0].1
    else FirstMatch(rules[1..], symbol)
  }

  /** `rules[i]` is the first rule whose substring occurs in `symbol`. */
  predicate IsFirstHit(rules: seq<(string, string)>, symbol: string, i: int) {
    && 0 <= i < |rules|
    && Contains(symbol, rules[i].0)
    && forall j :: 0 <= j < i ==> !Contains(symbol, rules[j].0)
  }

  /** FirstMatch picks the least matching rule, and falls back only when no rule matches. */
  lemma {:induction false} FirstMatchIsLeastHit(rules: seq<(string, string)>, symbol: string)
    ensures forall i :: IsFirstHit(rules, symbol, i) ==> FirstMatch(rules, symbol) == rules[i].1
    ensures (forall i :: 0 <= i < |rules| ==> !Contains(symbol, rules[i].0)) ==>
              FirstMatch(rules, symbol) == UnknownWeather
  {
    if rules != [] && !Contains(symbol, rules[0].0) {
      FirstMatchIsLeastHit(rules[1..], symbol);
      forall i | IsFirstHit(rules, symbol, i) ensures FirstMatch(rules, symbol) == rules[i].1 {
        assert IsFirstHit(rules[1..], symbol, i - 1);
      }
      if forall i :: 0 <= i < |rules| ==> !Contains(symbol, rules[i].0) {
        assert forall i :: 0 <= i < |rules[1..]| ==> !Contains(symbol, rules[1..][i].0) by {
          forall i | 0 <= i < |rules[1..]| ensures !Contains(symbol, rules[1..][i].0) {
            assert rules[1..][i] == rules[i + 1];
          }
        }
      }
    }
  }

  /** getWeatherDescription: the `when` chain of the source, tested top to bottom. */
  function Describe(symbol: string): (r: string)
    ensures r == UnknownWeather || exists i :: 0 <= i < |Rules| && Rules[i].1 == r
  {
    if Contains(symbol, "clearsky") then assert Rules[0].1 == "Klar himmel"; "Klar himmel"
    else if Contains(symbol, "fair") then assert Rules[1].1 == "Mestadels klart"; "Mestadels klart"
    else if Contains(symbol, "partlycloudy") then assert Rules[2].1 == "Delvis molnigt"; "Delvis molnigt"
    else if Contains(symbol, "cloudy") then assert Rules[3].1 == "Molnigt"; "Molnigt"
    else if Contains(symbol, "rain") then assert Rules[4].1 == "Regn"; "Regn"
    else if Contains(symbol, "snow") then assert Rules[5].1 == "Snö"; "Snö"
    else if Contains(symbol, "sleet") then assert Rules[6].1 == "Snöblandat regn"; "Snöblandat regn"
    else if Contains(symbol, "fog") then assert Rules[7].1 == "Dimma"; "Dimma"
    else if Contains(symbol, "thunder") then assert Rules[8].1 == "Åska"; "Åska"
    else UnknownWeather
  }

  /** The `when` chain is the ordered rule list, first match wins. */
  lemma DescribeFollowsRules(symbol: string)
    ensures Describe(symbol) == FirstMatch(Rules, symbol)
  {
    assert Rules[0..] == Rules;
    assert Rules[9..] == [];
    FirstMatchStep(Rules, 0, symbol);
    FirstMatchStep(Rules, 1, symbol);
    FirstMatchStep(Rules, 2, symbol);
    FirstMatchStep(Rules, 3, symbol);
    FirstMatchStep(Rules, 4, symbol);
    FirstMatchStep(Rules, 5, symbol);
    FirstMatchStep(Rules, 6, symbol);
    FirstMatchStep(Rules, 7, symbol);
    FirstMatchStep(Rules, 8, symbol);
  }

  /** FirstMatch on the rules from `k` on unfolds into the test of rule `k`. */
  lemma FirstMatchStep(rules: seq<(string, string)>, k: int, symbol: string)
    requires 0 <= k < |rules|
    ensures FirstMatch(rules[k..], symbol) ==
      if Contains(symbol, rules[k].0) then rules[k].1 else FirstMatch(rules[k + 1..], symbol)
  {
    assert rules[k..][1..] == rules[k + 1..];
  }

  /** The description is the label of the first rule whose substring occurs in the symbol. */
  lemma DescribeIsFirstHit(symbol: string, i: int)
    requires IsFirstHit(Rules, symbol, i)
    ensures Describe(symbol) == Rules[i].1
  {
    DescribeFollowsRules(symbol);
    FirstMatchIsLeastHit(Rules, symbol);
  }

  /** The fallback description is given exactly when no rule's substring occurs in the symbol. */
  lemma DescribeUnknownIff(symbol: string)
    ensures Describe(symbol) == UnknownWeather <==> forall i :: 0 <= i < |Rules| ==> !Contains(symbol, Rules[i].0)
  {
    if exists i :: 0 <= i < |Rules| && Contains(symbol, Rules[i].0) {
      var i :| 0 <= i < |Rules| && Contains(symbol, Rules[i].0);
      LeastHitExists(Rules, symbol, i);
      var k :| IsFirstHit(Rules, symbol, k);
      DescribeIsFirstHit(symbol, k);
    } else {
      DescribeFollowsRules(symbol);
      FirstMatchIsLeastHit(Rules, symbol);
    }
  }

  /** If some rule matches, a first one does. */
  lemma {:induction false} LeastHitExists(rules: seq<(string, string)>, symbol: string, i: int)
    requires 0 <= i < |rules| && Contains(symbol, rules[i].0)
    ensures exists k :: IsFirstHit(rules, symbol, k)
  {
    if forall j :: 0 <= j < i ==> !Contains(symbol, rules[j].0) {
      assert IsFirstHit(rules, symbol, i);
    } else {
      var j :| 0 <= j < i && Contains(symbol, rules[j].0);
      LeastHitExists(rules, symbol, j);
    }
  }

  /** "partlycloudy_day" holds a "c" but not "clearsky". */
  lemma PartlyCloudyDayLacksClearsky()
    ensures !Contains("partlycloudy_day", "clearsky")
  {
    var before, rest, after := "partly", "cloudy_day", "loudy_day";
    assert "partlycloudy_day" == before + rest;
    SkipPrefix(before, rest, "clearsky");
    MismatchAt(rest, "clearsky", 2);
    ContainsPastMismatch(rest, "clearsky");
    assert rest[1..] == after;
    FirstCharAbsent(after, "clearsky");
  }

  /** "partlycloudy_day" is "Delvis molnigt": the earlier rules do not match, "cloudy" is never reached. */
  lemma DescribePartlyCloudyDay()
    ensures Describe("partlycloudy_day") == "Delvis molnigt"
  {
    PartlyCloudyDayLacksClearsky();
    PartlyCloudyDayLacksFair();
    PartlyCloudyDayIsPartlyCloudy();
  }

  lemma PartlyCloudyDayLacksFair()
    ensures !Contains("partlycloudy_day", "fair")
  {
    FirstCharAbsent("partlycloudy_day", "fair");
  }

  lemma PartlyCloudyDayIsPartlyCloudy()
    ensures Contains("partlycloudy_day", "partlycloudy")
  {
    assert "partlycloudy_day" == "" + "partlycloudy" + "_day";
    ContainsInfix("", "partlycloudy", "_day");
  }

  /** The fallback symbol "unknown" matches no rule, so it is described as unknown weather. */
  lemma DescribeUnknownSymbol()
    ensures Describe("unknown") == UnknownWeather
  {
    UnknownLacksFirstRules();
    UnknownLacksMiddleRules();
    UnknownLacksLastRules();
  }

  /** "unknown" holds none of the first letters of the rules' substrings, so none of them. */
  lemma UnknownLacksFirstRules()
    ensures !Contains("unknown", "clearsky") && !Contains("unknown", "fair") && !Contains("unknown", "partlycloudy")
  {
    FirstCharAbsent("unknown", "clearsky");
    FirstCharAbsent("unknown", "fair");
    FirstCharAbsent("unknown", "partlycloudy");
  }

  lemma UnknownLacksMiddleRules()
    ensures !Contains("unknown", "cloudy") && !Contains("unknown", "rain") && !Contains("unknown", "snow")
  {
    FirstCharAbsent("unknown", "cloudy");
    FirstCharAbsent("unknown", "rain");
    FirstCharAbsent("unknown", "snow");
  }

  lemma UnknownLacksLastRules()
    ensures !Contains("unknown", "sleet") && !Contains("unknown", "fog") && !Contains("unknown", "thunder")
  {
    FirstCharAbsent("unknown", "sleet");
    FirstCharAbsent("unknown", "fog");
    FirstCharAbsent("unknown", "thunder");
  }

  // ---------------------------------------------------------------------------
  // Geocoding: getCoordinates

  /** Both "city" and "suburb" count as a city. */
  predicate IsCityType(place: Place) {
    place.addressType == "city" || place.addressType == "suburb"
  }

  /** The index of the first candidate that counts as a city, in the order the geocoder gave them. */
  function FirstCity(places: seq<Place>): (r: Option<nat>)
    ensures r.Some? ==> r.value < |places| && IsCityType(places[r.value])
    ensures r.Some? ==> forall j :: 0 <= j < r.value ==> !IsCityType(places[j])
    ensures r.None? ==> forall j :: 0 <= j < |places| ==> !IsCityType(places[j])
  {
    if places == [] then None
    else if IsCityType(places[0]) then Some(0)
    else match FirstCity(places[1..])
      case None => None
      case Some(i) => Some(i + 1)
  }

  const GeocodeConnectPrefix: string := "Kunde inte ansluta till OpenStreetMap API: "
  const GeocodeNoBody: string := "Fick inget svar från OpenStreetMap API"

  const NoPlacesPhrase: string := "Inga platser hittades"
  const NotACityPhrase: string := "inte en giltig stad"

  /** "Inga platser hittades för '<city>'". */
  function NoPlacesMessage(city: string): string {
    NoPlacesPhrase + " för '" + city + "'"
  }

  /** "'<city>' är inte en giltig stad. Vänligen ange en giltig stad." */
  function NotACityMessage(city: string): string {
    "'" + city + "' är " + NotACityPhrase + ". Vänligen ange en giltig stad."
  }

  /**
   * getCoordinates: one geocoding reply turned into coordinates or the exception
   * the source throws. Exceptions from the HTTP client, the JSON decoder and
   * toDouble escape as they are; only the app's own checks raise OpenStreetMapException.
   */
  function GetCoordinates(city: string, reply: Reply<seq<Place>>, toDouble: string -> Result<Double, string>)
    : (r: Result<Coordinates, Failure>)
    ensures r.Err? ==> !r.error.WeatherApiError?
  {
    match reply
    case CallFailed(m) => Err(OtherError(m))
    case Response(code, body) =>
      if !IsSuccessful(code) then Err(OpenStreetMapError(GeocodeConnectPrefix + DecimalString(code)))
      else match body
        case NoBody => Err(OpenStreetMapError(GeocodeNoBody))
        case ReadFailed(m) => Err(OtherError(m))
        case Malformed(m) => Err(OtherError(m))
        case Parsed(places) =>
          if places == [] then Err(OpenStreetMapError(NoPlacesMessage(city)))
          else match FirstCity(places)
            case None => Err(OpenStreetMapError(NotACityMessage(city)))
            case Some(i) =>
              match toDouble(places[i].lat)
              case Err(m) => Err(OtherError(m))
              case Ok(latitude) =>
                match toDouble(places[i].lon)
                case Err(m) => Err(OtherError(m))
                case Ok(longitude) => Ok(Coordinates(latitude, longitude))
  }

  /** A non-success status is an OpenStreetMapException whose message ends in the status code. */
  lemma GeocodeStatusError(city: string, code: nat, body: Body<seq<Place>>, toDouble: string -> Result<Double, string>)
    requires !IsSuccessful(code)
    ensures var r := GetCoordinates(city, Response(code, body), toDouble);
      && r.Err? && r.error.OpenStreetMapError?
      && |r.error.message| >= |DecimalString(code)|
      && var digits := r.error.message[|r.error.message| - |DecimalString(code)|..];
         (forall i :: 0 <= i < |digits| ==> '0' <= digits[i] <= '9') && DecimalValue(digits) == code
  {
    var r := GetCoordinates(city, Response(code, body), toDouble);
    assert r.error.message[|r.error.message| - |DecimalString(code)|..] == DecimalString(code);
    DecimalRoundTrip(code);
  }

  /** A successful reply without a body is the OpenStreetMapException "Fick inget svar från OpenStreetMap API". */
  lemma GeocodeBodyMissing(city: string, code: nat, toDouble: string -> Result<Double, string>)
    requires IsSuccessful(code)
    ensures GetCoordinates(city, Response(code, NoBody), toDouble) == Err(OpenStreetMapError("Fick inget svar från OpenStreetMap API"))
  {
  }

  /** An empty candidate list is the OpenStreetMapException "Inga platser hittades". */
  lemma GeocodeNoPlaces(city: string, code: nat, toDouble: string -> Result<Double, string>)
    requires IsSuccessful(code)
    ensures var r := GetCoordinates(city, Response(code, Parsed([])), toDouble);
      r.Err? && r.error.OpenStreetMapError? && Contains(r.error.message, NoPlacesPhrase)
  {
    ContainsInfix("", NoPlacesPhrase, " för '" + city + "'");
    assert NoPlacesMessage(city) == "" + NoPlacesPhrase + (" för '" + city + "'");
  }

  /** Candidates of which none is a city or suburb: the OpenStreetMapException "inte en giltig stad". */
  lemma GeocodeNoCity(city: string, code: nat, places: seq<Place>, toDouble: string -> Result<Double, string>)
    requires IsSuccessful(code) && places != []
    requires forall j :: 0 <= j < |places| ==> !IsCityType(places[j])
    ensures var r := GetCoordinates(city, Response(code, Parsed(places)), toDouble);
      r.Err? && r.error.OpenStreetMapError? && Contains(r.error.message, NotACityPhrase)
  {
    ContainsInfix("'" + city + "' är ", NotACityPhrase, ". Vänligen ange en giltig stad.");
  }

  /**
   * Among several candidates the first city or suburb in the geocoder's order supplies
   * the coordinates; a failing toDouble on its text escapes as a generic exception.
   */
  lemma GeocodeTakesFirstCity(city: string, code: nat, places: seq<Place>, toDouble: string -> Result<Double, string>, i: nat)
    requires IsSuccessful(code) && i < |places| && IsCityType(places[i])
    requires forall j :: 0 <= j < i ==> !IsCityType(places[j])
    ensures var r := GetCoordinates(city, Response(code, Parsed(places)), toDouble);
      var lat, lon := toDouble(places[i].lat), toDouble(places[i].lon);
      && (lat.Ok? && lon.Ok? ==> r == Ok(Coordinates(lat.value, lon.value)))
      && (lat.Err? ==> r == Err(OtherError(lat.error)))
      && (lat.Ok? && lon.Err? ==> r == Err(OtherError(lon.error)))
  {
  }

  // ---------------------------------------------------------------------------
  // Forecast: getWeatherFromYr

  const ForecastConnectPrefix: string := "Kunde inte ansluta till yr.no API: "
  const ForecastNoBody: string := "Fick inget svar från yr.no API"
  const NoWeatherData: string := "Ingen väderdata hittades"
  const ForecastWrapPrefix: string := "Fel vid hämtning av väderdata: "
  const UnknownSymbol: string := "unknown"

  /** next_1_hours?.summary?.symbol_code ?: "unknown". */
  function SymbolOf(data: YrData): string {
    match data.next1Hours
    case Some(next) => next.summary.symbolCode
    case None => UnknownSymbol
  }

  /** The reading built from the first time slot and the reply's update time. */
  function ReadingOf(yr: YrResponse): WeatherResponse
    requires yr.properties.timeseries != []
  {
    var data := yr.properties.timeseries[0].data;
    var details := data.instant.details;
    var symbol := SymbolOf(data);
    WeatherResponse(details.airTemperature, details.windSpeed, details.relativeHumidity,
                    Describe(symbol), symbol, yr.properties.meta.updatedAt)
  }

  /** The body of the `try` in getWeatherFromYr: what it returns or throws. */
  function ReadForecast(reply: Reply<YrResponse>): (r: Result<WeatherResponse, Failure>)
    ensures r.Ok? ==> r.value.description == Describe(r.value.symbolCode)
  {
    match reply
    case CallFailed(m) => Err(OtherError(m))
    case Response(code, body) =>
      if !IsSuccessful(code) then Err(WeatherApiError(ForecastConnectPrefix + DecimalString(code)))
      else match body
        case NoBody => Err(WeatherApiError(ForecastNoBody))
        case ReadFailed(m) => Err(OtherError(m))
        case Malformed(m) => Err(OtherError(m))
        case Parsed(yr) =>
          if yr.properties.timeseries == [] then Err(WeatherApiError(NoWeatherData))
          else Ok(ReadingOf(yr))
  }

  /** The `catch` of getWeatherFromYr: a WeatherApiException is rethrown, anything else wrapped. */
  function Rewrap(outcome: Result<WeatherResponse, Failure>): (r: Result<WeatherResponse, Failure>)
    ensures r.Ok? <==> outcome.Ok?
    ensures outcome.Ok? ==> r == outcome
    ensures r.Err? ==> r.error.WeatherApiError?
    ensures outcome.Err? && outcome.error.WeatherApiError? ==> r == outcome
  {
    match outcome
    case Ok(_) => outcome
    case Err(e) =>
      if e.WeatherApiError? then outcome
      else Err(WeatherApiError(ForecastWrapPrefix + e.message))
  }

  /** Rewrapping an already rewrapped outcome changes nothing. */
  lemma RewrapIdempotent(outcome: Result<WeatherResponse, Failure>)
    ensures Rewrap(Rewrap(outcome)) == Rewrap(outcome)
  {
  }

  /** getWeatherFromYr: every failure of the forecast step surfaces as a WeatherApiException. */
  function GetWeatherFromYr(reply: Reply<YrResponse>): (r: Result<WeatherResponse, Failure>)
    ensures r.Err? ==> r.error.WeatherApiError?
    ensures r.Ok? ==> r.value.description == Describe(r.value.symbolCode)
  {
    Rewrap(ReadForecast(reply))
  }

  /** A thrown exception other than WeatherApiException is wrapped, its message kept at the end. */
  lemma ForecastWrapsForeignFailure(code: nat, message: string)
    requires IsSuccessful(code)
    ensures var r := GetWeatherFromYr(Response(code, ReadFailed(message)));
      && r == GetWeatherFromYr(CallFailed(message))
      && r == GetWeatherFromYr(Response(code, Malformed(message)))
      && r.Err? && r.error.WeatherApiError?
      && Contains(r.error.message, message)
  {
    ContainsInfix(ForecastWrapPrefix, message, "");
    assert ForecastWrapPrefix + message == ForecastWrapPrefix + message + "";
  }

  /** A non-success status is a WeatherApiException whose message ends in the status code. */
  lemma ForecastStatusError(code: nat, body: Body<YrResponse>)
    requires !IsSuccessful(code)
    ensures var r := GetWeatherFromYr(Response(code, body));
      && r.Err? && r.error.WeatherApiError?
      && |r.error.message| >= |DecimalString(code)|
      && var digits := r.error.message[|r.error.message| - |DecimalString(code)|..];
         (forall i :: 0 <= i < |digits| ==> '0' <= digits[i] <= '9') && DecimalValue(digits) == code
  {
    var r := GetWeatherFromYr(Response(code, body));
    assert r.error.message[|r.error.message| - |DecimalString(code)|..] == DecimalString(code);
    DecimalRoundTrip(code);
  }

  /** A successful reply without a body is the WeatherApiException "Fick inget svar från yr.no API", not rewrapped. */
  lemma ForecastBodyMissing(code: nat)
    requires IsSuccessful(code)
    ensures GetWeatherFromYr(Response(code, NoBody)) == Err(WeatherApiError("Fick inget svar från yr.no API"))
  {
  }

  /** An empty time series is the WeatherApiException "Ingen väderdata hittades". */
  lemma ForecastEmptySeries(code: nat, meta: YrMeta)
    requires IsSuccessful(code)
    ensures GetWeatherFromYr(Response(code, Parsed(YrResponse(YrProperties(meta, []))))) ==
            Err(WeatherApiError(NoWeatherData))
  {
  }

  /**
   * Only the first time slot counts: two replies that agree on it and on the update
   * time give the same reading, whose numbers are that slot's and whose symbol falls
   * back to "unknown" (described as unknown weather) when the slot has no next-hour summary.
   */
  lemma ForecastUsesFirstSlotOnly(code: nat, yr: YrResponse, other: YrResponse)
    requires IsSuccessful(code)
    requires yr.properties.timeseries != [] && other.properties.timeseries != []
    requires yr.properties.timeseries[0] == other.properties.timeseries[0]
    requires yr.properties.meta == other.properties.meta
    ensures var r := GetWeatherFromYr(Response(code, Parsed(yr)));
      var slot := yr.properties.timeseries[0].data;
      && r == GetWeatherFromYr(Response(code, Parsed(other)))
      && r.Ok?
      && r.value.temperature == slot.instant.details.airTemperature
      && r.value.windSpeed == slot.instant.details.windSpeed
      && r.value.humidity == slot.instant.details.relativeHumidity
      && r.value.updatedAt == yr.properties.meta.updatedAt
      && (slot.next1Hours.Some? ==> r.value.symbolCode == slot.next1Hours.value.summary.symbolCode)
      && (slot.next1Hours.None? ==> r.value.symbolCode == "unknown" && r.value.description == "Okänt väder")
  {
    DescribeUnknownSymbol();
  }

  // ---------------------------------------------------------------------------
  // Orchestration: getWeatherForCity

  /** A cache-miss fetch: geocode the raw city, then read the forecast for its coordinates. */
  function Fetch(city: string, upstream: Oracles): (r: Result<WeatherResponse, Failure>)
    ensures r.Ok? ==> r.value.description == Describe(r.value.symbolCode)
  {
    match GetCoordinates(city, upstream.geocode(city), upstream.toDouble)
    case Err(e) => Err(e)
    case Ok(coordinates) => GetWeatherFromYr(upstream.forecast(coordinates))
  }

  /** The number of upstream HTTP calls a cache miss makes: the forecast is asked only after geocoding succeeded. */
  function CallsOnMiss(city: string, upstream: Oracles): nat {
    if GetCoordinates(city, upstream.geocode(city), upstream.toDouble).Ok? then 2 else 1
  }

  /** A failed fetch is a WeatherApiException exactly when geocoding had succeeded. */
  lemma FetchFailureKind(city: string, upstream: Oracles)
    ensures Fetch(city, upstream).Err? ==>
      (Fetch(city, upstream).error.WeatherApiError? <==> CallsOnMiss(city, upstream) == 2)
  {
  }

  /** The cache key: the city lower-cased, not trimmed. */
  function CacheKey(city: string): (key: string)
    ensures |key| == |city|
    ensures forall i :: 0 <= i < |key| ==> !IsUpperLetter(key[i])
    ensures Lower(key) == key
  {
    LowerIdempotent(city);
    Lower(city)
  }

  /** Cases share a cache entry, surrounding blanks do not. */
  lemma CacheKeyExamples()
    ensures CacheKey("Stockholm") == CacheKey("STOCKHOLM") == "stockholm"
    ensures CacheKey(" Stockholm") != CacheKey("Stockholm")
  {
    assert Lower("Stockholm") == "stockholm";
    assert Lower("STOCKHOLM") == "stockholm";
    assert |Lower(" Stockholm")| == 10;
  }

  /** A present, unexpired entry for the key. */
  predicate IsHit(cache: map<string, CachedWeatherData>, key: string, now: int) {
    key in cache && !IsExpired(cache[key], CacheTtlMillis, now)
  }

  /** What a query answers: the cached reading on a hit, a fresh fetch otherwise. */
  function Serve(cache: map<string, CachedWeatherData>, city: string, checkedAt: int, upstream: Oracles)
    : Result<WeatherResponse, Failure>
  {
    var key := CacheKey(city);
    if IsHit(cache, key, checkedAt) then Ok(cache[key].data) else Fetch(city, upstream)
  }

  /** A reading cached at `storedAt` is what the same city, in any case, gets up to the TTL later. */
  lemma StoredReadingServed(cache: map<string, CachedWeatherData>, city: string, other: string,
                            reading: WeatherResponse, storedAt: int, later: int, upstream: Oracles)
    requires CacheKey(other) == CacheKey(city)
    ensures var stored := cache[CacheKey(city) := CachedWeatherData(reading, storedAt)];
      && (later - storedAt <= CacheTtlMillis ==> Serve(stored, other, later, upstream) == Ok(reading))
      && (later - storedAt > CacheTtlMillis ==> Serve(stored, other, later, upstream) == Fetch(other, upstream))
  {
  }

  /** A cache keyed by normalized city names holding consistent readings. */
  ghost predicate WellFormedCache(cache: map<string, CachedWeatherData>) {
    forall key :: key in cache ==> CacheKey(key) == key && cache[key].data.description == Describe(cache[key].data.symbolCode)
  }

  /** A served reading, cached or fetched, never pairs a description with another symbol's. */
  lemma ServedReadingConsistent(cache: map<string, CachedWeatherData>, city: string, checkedAt: int, upstream: Oracles)
    requires WellFormedCache(cache)
    ensures var r := Serve(cache, city, checkedAt, upstream);
      r.Ok? ==> r.value.description == Describe(r.value.symbolCode)
  {
  }

  class WeatherService {
    /** cache: normalized city name to cached reading. */
    var cache: map<string, CachedWeatherData>
    /** The number of HTTP calls made to the two upstream services so far. */
    ghost var upstreamCalls: nat

    ghost predicate Valid()
      reads this
    {
      WellFormedCache(cache)
    }

    constructor()
      ensures Valid() && cache == map[] && upstreamCalls == 0
    {
      cache := map[];
      upstreamCalls := 0;
    }

    /** The geocoding HTTP call: one upstream call. */
    method RequestCoordinates(city: string, upstream: Oracles) returns (r: Result<Coordinates, Failure>)
      modifies this`upstreamCalls
      ensures r == GetCoordinates(city, upstream.geocode(city), upstream.toDouble)
      ensures upstreamCalls == old(upstreamCalls) + 1
    {
      upstreamCalls := upstreamCalls + 1;
      r := GetCoordinates(city, upstream.geocode(city), upstream.toDouble);
    }

    /** The forecast HTTP call: one upstream call. */
    method RequestForecast(coordinates: Coordinates, upstream: Oracles) returns (r: Result<WeatherResponse, Failure>)
      modifies this`upstreamCalls
      ensures r == GetWeatherFromYr(upstream.forecast(coordinates))
      ensures upstreamCalls == old(upstreamCalls) + 1
    {
      upstreamCalls := upstreamCalls + 1;
      r := GetWeatherFromYr(upstream.forecast(coordinates));
    }

    /**
     * getWeatherForCity. The source reads the clock twice: `checkedAt` when testing
     * the cached entry's age, `storedAt` when stamping the new entry after the fetch.
     */
    method GetWeatherForCity(city: string, checkedAt: int, storedAt: int, upstream: Oracles)
      returns (r: Result<WeatherResponse, Failure>)
      requires Valid()
      modifies this
      ensures Valid()
      ensures r == Serve(old(cache), city, checkedAt, upstream)
      ensures IsHit(old(cache), CacheKey(city), checkedAt) ==>
        cache == old(cache) && upstreamCalls == old(upstreamCalls)
      ensures !IsHit(old(cache), CacheKey(city), checkedAt) ==>
        && upstreamCalls == old(upstreamCalls) + CallsOnMiss(city, upstream)
        && cache == if r.Ok? then old(cache)[CacheKey(city) := CachedWeatherData(r.value, storedAt)] else old(cache)
    {
      var key := Lower(city);
      if key in cache {
        var cachedData := cache[key];
        if !IsExpired(cachedData, CacheTtlMillis, checkedAt) {
          return Ok(cachedData.data);
        }
      }
      var coordinates := RequestCoordinates(city, upstream);
      if coordinates.Err? {
        return Err(coordinates.error);
      }
      var weatherData := RequestForecast(coordinates.value, upstream);
      if weatherData.Err? {
        return weatherData;
      }
      LowerIdempotent(city);
      cache := cache[key := CachedWeatherData(weatherData.value, storedAt)];
      return weatherData;
    }
  }

  /**
   * Two queries for the same city on a new service, the second within the TTL of the
   * first one's stamp: equal answers, and only the first query reached the upstream services.
   */
  method RepeatedQueryHitsCache(city: string, checkedAt: int, storedAt: int, laterCheck: int, laterStore: int,
                                upstream: Oracles, laterUpstream: Oracles)
    returns (first: Result<WeatherResponse, Failure>, second: Result<WeatherResponse, Failure>, ghost calls: nat)
    requires laterCheck - storedAt <= CacheTtlMillis
    ensures first == Fetch(city, upstream)
    ensures first.Ok? ==> second == first && calls == 2
    ensures first.Err? ==> second == Fetch(city, laterUpstream)
  {
    var service := new WeatherService();
    first := service.GetWeatherForCity(city, checkedAt, storedAt, upstream);
    second := service.GetWeatherForCity(city, laterCheck, laterStore, laterUpstream);
    calls := service.upstreamCalls;
  }

  /** The end-to-end scenario: Stockholm, a city candidate, and a "partlycloudy_day" first slot. */
  lemma StockholmScenario(upstream: Oracles, lat: Double, lon: Double, temperature: Double, wind: Double, humidity: Double)
    requires upstream.geocode("Stockholm") ==
      Response(200, Parsed([Place("59.3293", "18.0686", "Stockholm, Sverige", "city")]))
    requires upstream.toDouble("59.3293") == Ok(lat) && upstream.toDouble("18.0686") == Ok(lon)
    requires upstream.forecast(Coordinates(lat, lon)) ==
      Response(200, Parsed(YrResponse(YrProperties(
        YrMeta("2023-10-16T12:00:00Z"),
        [YrTimeseries(YrData(YrInstant(YrDetails(temperature, wind, humidity)),
                             Some(YrNextHours(YrSummary("partlycloudy_day")))))]))))
    ensures Fetch("Stockholm", upstream) ==
      Ok(WeatherResponse(temperature, wind, humidity, "Delvis molnigt", "partlycloudy_day", "2023-10-16T12:00:00Z"))
    ensures CallsOnMiss("Stockholm", upstream) == 2
  {
    var coordinates := GetCoordinates("Stockholm", upstream.geocode("Stockholm"), upstream.toDouble);
    GeocodeTakesFirstCity("Stockholm", 200, [Place("59.3293", "18.0686", "Stockholm, Sverige", "city")], upstream.toDouble, 0);
    assert coordinates == Ok(Coordinates(lat, lon));
    var reading := GetWeatherFromYr(upstream.forecast(Coordinates(lat, lon)));
    DescribePartlyCloudyDay();
    assert reading.Ok? && reading.value.symbolCode == "partlycloudy_day";
  }
}
