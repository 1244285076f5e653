# WeatherApp core, modelled in Dafny

WeatherApp is a small Kotlin/Javalin server with a browser page. A user types a
city. The page trims it and sends it to `GET /weather?city=…`. The controller
rejects a missing or blank city with 400 and otherwise asks `WeatherService`.

The service keeps an in-memory cache keyed by the lower-cased city name. An
entry lives for 30 minutes. On a miss the service:

- asks OpenStreetMap's geocoder for the city;
- takes the first candidate whose address type is `city` or `suburb`;
- asks yr.no for the forecast at its coordinates;
- reads the first time slot;
- turns its symbol code into a Swedish description;
- caches the reading.

Most failures become `OpenStreetMapException` or `WeatherApiException`; some
geocoding failures escape as other exceptions (see below). The controller maps
them to 404 and 500. The page capitalises the city name for
display and picks an icon for the description.

The project has eight modules, one per file:

| module | file | models |
|---|---|---|
| `Wrappers` | `wrappers.dfy` | `Option` and `Result` |
| `Text` | `text.dfy` | the string library behaviour the code relies on: Kotlin `isBlank`, JavaScript `trim`, `lowercase`/`toUpperCase` on the ASCII and Latin-1 letters whose case partner is also in Latin-1, `contains`, decimal rendering of a status code |
| `Models` | `models.dfy` | the records of `YrModels.kt`, `LocationModel.kt` and `WeatherResponse.kt` |
| `Upstream` | `upstream.dfy` | an HTTP reply as the code sees it (call failure, status, missing/unreadable/malformed/parsed body), the three exception kinds the code distinguishes, and the upstream calls as functions |
| `Cache` | `cache.dfy` | `CachedWeatherData` and `isExpired` |
| `Service` | `service.dfy` | `WeatherService`: the symbol classifier, `getCoordinates`, `getWeatherFromYr`, and the class with its cache and `getWeatherForCity` |
| `Controller` | `controller.dfy` | `WeatherController.getWeatherForCity(ctx)` as a status and a JSON body |
| `Page` | `page.dfy` | `weather.js`: the trim/empty guard, the displayed city name, `getWeatherIconClass` |

`WeatherService` is a class. Its field `cache` is a `map` that
`GetWeatherForCity` reassigns. A ghost counter `upstreamCalls` counts the HTTP
calls made. The method is proved against the function `Serve`, which states the
answer, and against the new cache it leaves. `Serve` is specified through
lemmas: the cache-hit window, per-case sharing of entries, and consistency of
the served readings.

The rest is pure. Each HTTP exchange is a parameter. The geocoder reply, the
forecast reply and Kotlin's `String.toDouble` are functions in `Oracles`, so the
model sees exactly one reply per call. The clock is passed in too.
`getWeatherForCity` reads the clock at most twice: in `isExpired` when an entry
exists, and again when the new `CachedWeatherData` is built after a successful
fetch. The method therefore
takes `checkedAt` and `storedAt`.

Some behaviours of the code are easy to misread; the model follows the code:

- The cache key is `city.lowercase()` with no trim. `" Stockholm"` and
  `"Stockholm"` use different entries (`Service.CacheKeyExamples`).
- Geocoding scans all candidates for the first city or suburb
  (`firstOrNull`), not just the first candidate. The "not a valid city"
  message names the queried city, not a candidate.
- Some geocoding failures are not `OpenStreetMapException`s and escape as
  they are:
  - a failed HTTP call;
  - an unreadable or malformed body;
  - a coordinate text that `toDouble` rejects.

  The controller answers those with 500 "Ett internt fel inträffade", not 404.
- The controller's second `catch (e: OpenStreetMapException)` (400, "Ogiltig
  platstyp") can never run, because the first clause catches the same class.
  No service outcome is answered with 400 (`Controller.RenderNeverBadRequest`).
- The page trims with JavaScript's whitespace set and the controller checks
  with Kotlin's. They differ on U+001C..U+001F, which only Kotlin counts as
  whitespace, and on U+FEFF, which only JavaScript trims. A city made of
  U+001C..U+001F passes the page and gets the controller's 400
  (`Page.SeparatorCityRejected`).

## Model

| member | source | states |
|---|---|---|
| Cache.IsExpired | src/main/kotlin/com/weatherapp/cache/CachedWeatherData.kt:11-14 | no contract; the age test `now - timestamp > ttl` as written, specified by ExpiryBoundary, FreshEntryLive, ExpiryMonotoneInTime and ExpiryAntitoneInTtl |
| Cache.ExpiryBoundary | src/main/kotlin/com/weatherapp/cache/CachedWeatherData.kt:11-14 | an entry is live at an age equal to the TTL and expired one millisecond later: expiry is a strict `>` |
| Cache.FreshEntryLive | src/main/kotlin/com/weatherapp/cache/CachedWeatherData.kt:7-14 | an entry stamped with the current time is live for every non-negative TTL |
| Cache.ExpiryMonotoneInTime | src/main/kotlin/com/weatherapp/cache/CachedWeatherData.kt:11-14 | once expired, an entry stays expired as the clock advances |
| Cache.ExpiryAntitoneInTtl | src/main/kotlin/com/weatherapp/cache/CachedWeatherData.kt:11-14 | a longer TTL never expires an entry that a shorter one keeps |
| Service.Describe | src/main/kotlin/com/weatherapp/service/WeatherService.kt:143-156 | the description is "Okänt väder" or the label of one of the nine rules; the `when` chain as written, fully specified by DescribeIsFirstHit and DescribeUnknownIff |
| Service.FirstMatchIsLeastHit | src/main/kotlin/com/weatherapp/service/WeatherService.kt:143-156 | an ordered rule list answers with the label of the least rule whose substring occurs, and falls back to "Okänt väder" only when none occurs |
| Service.LeastHitExists | src/main/kotlin/com/weatherapp/service/WeatherService.kt:143-156 | if any rule's substring occurs in the symbol, a first such rule exists |
| Service.DescribeFollowsRules | src/main/kotlin/com/weatherapp/service/WeatherService.kt:143-156 | the `when` chain of getWeatherDescription is the first-match evaluation of the nine (substring, description) rules in source order |
| Service.DescribeIsFirstHit | src/main/kotlin/com/weatherapp/service/WeatherService.kt:143-156 | the description is the label of the first rule whose substring occurs in the symbol code |
| Service.DescribeUnknownIff | src/main/kotlin/com/weatherapp/service/WeatherService.kt:154 | "Okänt väder" is given if and only if none of the nine substrings occurs in the symbol code |
| Service.DescribePartlyCloudyDay | src/main/kotlin/com/weatherapp/service/WeatherService.kt:145-148 | "partlycloudy_day" is "Delvis molnigt": it contains neither "clearsky" nor "fair", and "partlycloudy" is tested before "cloudy" |
| Service.DescribeUnknownSymbol | src/main/kotlin/com/weatherapp/service/WeatherService.kt:125-126 | the fallback symbol "unknown" matches no rule and is described as "Okänt väder" |
| Service.FirstCity | src/main/kotlin/com/weatherapp/service/WeatherService.kt:84-86 | the index found is a city or suburb with no city or suburb before it; none is found only when no candidate is a city or suburb |
| Service.GetCoordinates | src/main/kotlin/com/weatherapp/service/WeatherService.kt:63-100 | geocoding never fails with a WeatherApiException |
| Service.GeocodeStatusError | src/main/kotlin/com/weatherapp/service/WeatherService.kt:70-72 | a status outside 200..299 is an OpenStreetMapException whose message ends in the status code's decimal digits, which read back as that code |
| Service.GeocodeBodyMissing | src/main/kotlin/com/weatherapp/service/WeatherService.kt:74-75 | a successful reply without a body is the OpenStreetMapException "Fick inget svar från OpenStreetMap API" |
| Service.GeocodeNoPlaces | src/main/kotlin/com/weatherapp/service/WeatherService.kt:79-81 | an empty candidate list is an OpenStreetMapException whose message contains "Inga platser hittades" |
| Service.GeocodeNoCity | src/main/kotlin/com/weatherapp/service/WeatherService.kt:84-91 | a non-empty list with no city or suburb is an OpenStreetMapException whose message contains "inte en giltig stad" |
| Service.GeocodeTakesFirstCity | src/main/kotlin/com/weatherapp/service/WeatherService.kt:84-98 | the first city or suburb supplies the coordinates; a rejected latitude or longitude text escapes as a generic exception carrying the parser's message |
| Service.ReadForecast | src/main/kotlin/com/weatherapp/service/WeatherService.kt:103-136 | the try body: a reading it returns carries the description of its own symbol code; its failures are specified by ForecastStatusError, ForecastBodyMissing, ForecastEmptySeries and ForecastWrapsForeignFailure |
| Service.Rewrap | src/main/kotlin/com/weatherapp/service/WeatherService.kt:137-140 | the catch keeps success and WeatherApiExceptions unchanged and turns every other exception into a WeatherApiException |
| Service.RewrapIdempotent | src/main/kotlin/com/weatherapp/service/WeatherService.kt:137-140 | applying the catch to its own result changes nothing |
| Service.GetWeatherFromYr | src/main/kotlin/com/weatherapp/service/WeatherService.kt:102-141 | every failure of the forecast step is a WeatherApiException; a reading's description is the classifier's description of its symbol code |
| Service.ForecastStatusError | src/main/kotlin/com/weatherapp/service/WeatherService.kt:110-112 | a status outside 200..299 is a WeatherApiException whose message ends in the status code's digits, which read back as that code |
| Service.ForecastWrapsForeignFailure | src/main/kotlin/com/weatherapp/service/WeatherService.kt:137-140 | a failed call, an unreadable body and a malformed body all become the same WeatherApiException, whose message contains the original message |
| Service.ForecastBodyMissing | src/main/kotlin/com/weatherapp/service/WeatherService.kt:114-115 | a successful reply without a body is the WeatherApiException "Fick inget svar från yr.no API", rethrown unchanged by the catch |
| Service.ForecastEmptySeries | src/main/kotlin/com/weatherapp/service/WeatherService.kt:120-121 | an empty time series is exactly the WeatherApiException "Ingen väderdata hittades" |
| Service.ForecastUsesFirstSlotOnly | src/main/kotlin/com/weatherapp/service/WeatherService.kt:120-135 | only the first slot and the update time matter: the reading carries that slot's temperature, wind and humidity, its symbol or "unknown" with "Okänt väder" |
| Service.Fetch | src/main/kotlin/com/weatherapp/service/WeatherService.kt:43-48 | a fetched reading's description agrees with its symbol code |
| Service.FetchFailureKind | src/main/kotlin/com/weatherapp/service/WeatherService.kt:43-48 | a failed miss is a WeatherApiException exactly when geocoding succeeded, that is, when both upstream calls were made |
| Service.CacheKey | src/main/kotlin/com/weatherapp/service/WeatherService.kt:35 | the key has the city's length, holds no upper-case letter, and is its own key |
| Service.Serve | src/main/kotlin/com/weatherapp/service/WeatherService.kt:33-54 | no contract; the answer of getWeatherForCity for a given cache, specified by StoredReadingServed and ServedReadingConsistent, and tied to the class by WeatherService.GetWeatherForCity |
| Service.CacheKeyExamples | src/main/kotlin/com/weatherapp/service/WeatherService.kt:35 | "Stockholm" and "STOCKHOLM" share the key "stockholm"; " Stockholm" does not |
| Service.StoredReadingServed | src/main/kotlin/com/weatherapp/service/WeatherService.kt:35-38 | a reading stored at time t is served for the same city in any letter case up to t + 30 min inclusive, and refetched after |
| Service.ServedReadingConsistent | src/main/kotlin/com/weatherapp/service/WeatherService.kt:33-54 | from a well-formed cache, every served reading, cached or fetched, has the description of its own symbol code |
| Service.WeatherService.constructor | src/main/kotlin/com/weatherapp/service/WeatherService.kt:30-31 | a new service has an empty cache and has made no upstream call |
| Service.WeatherService.RequestCoordinates | src/main/kotlin/com/weatherapp/service/WeatherService.kt:44 | the geocoding step is one upstream call and returns getCoordinates' outcome |
| Service.WeatherService.RequestForecast | src/main/kotlin/com/weatherapp/service/WeatherService.kt:48 | the forecast step is one upstream call and returns getWeatherFromYr's outcome |
| Service.WeatherService.GetWeatherForCity | src/main/kotlin/com/weatherapp/service/WeatherService.kt:33-54 | a hit returns the cached reading without calls or cache change; a miss makes one or two calls and caches only a success, under the lower-cased key stamped at the second clock read; the cache stays well formed |
| Service.RepeatedQueryHitsCache | src/test/kotlin/com/weatherapp/service/WeatherServiceTest.kt:173-181 | when the first query succeeds, two queries for one city within the TTL give equal answers and make only the first query's two upstream calls; when it fails, the second query fetches again |
| Service.StockholmScenario | src/test/kotlin/com/weatherapp/service/WeatherServiceTest.kt:92-103 | the Stockholm city candidate with a "partlycloudy_day" first slot gives that slot's numbers, "Delvis molnigt" and the update time, after two upstream calls |
| Controller.Render | src/main/kotlin/com/weatherapp/controller/WeatherController.kt:18-29 | the body is the reading exactly when the service succeeded, and only then is the default status kept; per-kind status and text are in StatusByOutcome and RenderNeverBadRequest |
| Controller.Respond | src/main/kotlin/com/weatherapp/controller/WeatherController.kt:10-29 | no contract; the handler as a function of the query parameter and the service's answer, specified by BadRequestIffBlank and BlankIgnoresService |
| Controller.RenderNeverBadRequest | src/main/kotlin/com/weatherapp/controller/WeatherController.kt:21-24 | the second OpenStreetMapException clause never runs: no service outcome is answered with 400 or "Ogiltig platstyp" |
| Controller.BadRequestIffBlank | src/main/kotlin/com/weatherapp/controller/WeatherController.kt:13-16 | the status is 400 if and only if the city parameter is missing or blank |
| Controller.BlankIgnoresService | src/main/kotlin/com/weatherapp/controller/WeatherController.kt:13-16 | for a missing or blank city the reply does not depend on the service |
| Controller.StatusByOutcome | src/main/kotlin/com/weatherapp/controller/WeatherController.kt:18-29 | success keeps the default status and returns the reading as JSON; OpenStreetMapException is 404 with "Kunde inte hitta plats: " + message, WeatherApiException 500 with "Kunde inte hämta väderdata: " + message, any other exception 500 with "Ett internt fel inträffade: " + message |
| Controller.GeocodeForeignFailureIsInternal | src/main/kotlin/com/weatherapp/controller/WeatherController.kt:27-28 | a failed geocoding call, an unreadable geocoding body or a malformed one escapes the service unwrapped and is answered with 500 and "Ett internt fel inträffade: " + its message |
| Controller.ForecastFailureIsServerError | src/main/kotlin/com/weatherapp/controller/WeatherController.kt:25-26 | a fetch failing after geocoding succeeded is answered with 500 and "Kunde inte hämta väderdata: …" |
| Controller.WeatherController.constructor | src/main/kotlin/com/weatherapp/controller/WeatherController.kt:9 | the controller holds the service it was given |
| Controller.WeatherController.GetWeatherForCity | src/main/kotlin/com/weatherapp/controller/WeatherController.kt:10-30 | a blank city is 400 with the service untouched; otherwise the reply renders the service's answer for the cache as it was, and the service's cache and call count change exactly as its getWeatherForCity states: unchanged on a hit, one or two calls on a miss with the reading cached only on success |
| Page.CityToSend | src/main/resources/public/js/weather.js:29-33 | no contract; the trim and empty check as written, specified by CityToSendGuard |
| Page.CityToSendGuard | src/main/resources/public/js/weather.js:29-33 | the page refuses exactly the all-whitespace inputs, with the message "Vänligen ange en stad"; what it sends is the trimmed input, with no whitespace at either end |
| Page.SentCityReachesService | src/main/resources/public/js/weather.js:29-39 | a city the page sends passes the controller's blank check unless it starts with U+001C..U+001F |
| Page.SeparatorCityRejected | src/main/resources/public/js/weather.js:29-33 | a lone U+001F passes the page's guard and the controller answers it with 400 |
| Page.DisplayName | src/main/resources/public/js/weather.js:50 | the displayed name has the trimmed city's length |
| Page.DisplayNameIdempotent | src/main/resources/public/js/weather.js:50 | capitalising a displayed name again changes nothing |
| Page.DisplayNameSharesCacheKey | src/main/resources/public/js/weather.js:50 | the displayed name and the trimmed city the page sends lower-case to the same cache key |
| Page.IconClass | src/main/resources/public/js/weather.js:77-95 | no contract; the if/else chain as written, specified by IconClassIsTableLookup, ClassifierLabelsHaveIcons, SunIconIffClearsky and UnmatchedSymbolIcon |
| Page.IconClassIsTableLookup | src/main/resources/public/js/weather.js:77-95 | the if/else chain is a lookup in a nine-entry table with "fa-solid fa-cloud" for anything else |
| Page.ClassifierLabelsHaveIcons | src/main/resources/public/js/weather.js:77-95 | every description the server's classifier gives has an entry in the icon table; "Okänt väder" has none and gets the default cloud |
| Page.SunIconIffClearsky | src/main/resources/public/js/weather.js:78-79 | with the server's classifier, the sun icon is shown if and only if the symbol code contains "clearsky" |
| Page.UnmatchedSymbolIcon | src/main/resources/public/js/weather.js:92-94 | a symbol code matching no rule is shown with the plain cloud |
| Text.SkipBlanks | src/main/resources/public/js/weather.js:29 | the index found is the first one at or after the start holding a character trim keeps: everything before it is whitespace |
| Text.SkipBlanksBack | src/main/resources/public/js/weather.js:29 | the end found leaves only whitespace after it and a kept character just before it |
| Text.Trim | src/main/resources/public/js/weather.js:29 | the trimmed string is a slice of the input; what is dropped before and after it is all whitespace, and the slice neither starts nor ends with whitespace |
| Text.TrimEmptyIff | src/main/resources/public/js/weather.js:29-30 | trimming leaves nothing if and only if every character is whitespace |
| Text.TrimIdempotent | src/main/resources/public/js/weather.js:29 | trimming twice is trimming once |
| Text.LowerChar | src/main/kotlin/com/weatherapp/service/WeatherService.kt:35 | an upper-case letter maps to a lower-case letter and every other character to itself |
| Text.UpperChar | src/main/resources/public/js/weather.js:50 | a lower-case letter maps to an upper-case letter and every other character to itself |
| Text.CaseRoundTrip | src/main/resources/public/js/weather.js:50 | lower-casing an upper-cased character gives the lower-cased character back |
| Text.Lower | src/main/kotlin/com/weatherapp/service/WeatherService.kt:35 | lower-casing keeps the length, leaves no upper-case letter, keeps every character that is not an upper-case letter, and shifts each upper-case letter to its lower-case partner |
| Text.LowerIdempotent | src/main/kotlin/com/weatherapp/service/WeatherService.kt:35 | a lower-cased key is its own key |
| Text.ContainsIff | src/main/kotlin/com/weatherapp/service/WeatherService.kt:145-153 | `contains` holds if and only if the pattern occurs at some index |
| Text.DecimalRoundTrip | src/main/kotlin/com/weatherapp/service/WeatherService.kt:71 | a status code rendered in decimal reads back as that code |

## Left out

- HTTP transport, timeouts, URL building and URL encoding: each exchange is one reply given as a parameter.
- JSON decoding: the decoder's outcome (a parsed record, or a failure message) is part of the reply.
- `String.toDouble` is a parameter. Temperatures, wind and humidity are opaque 64-bit values, never computed on.
- Clock reads (`System.currentTimeMillis`) are parameters.
- Concurrency: the cache is `ConcurrentHashMap`. Two simultaneous misses for one city both fetch. The model runs one request at a time.
- Logging (`println`), Javalin wiring and `Main.kt` have no effect on results.
- The `?: throw OpenStreetMapException("Kunde inte hitta koordinater …")` in getWeatherForCity is left out. getCoordinates never returns null, so that branch cannot run.
- Cache.IsExpired: the `Long` subtraction `now - timestamp` is unbounded here. The source would wrap around only for clock values about 2^63 apart.
- An exception whose message is `null` renders as "null" in Kotlin. Messages here are always strings.
- Text.LowerChar, Text.UpperChar: case mapping covers, one to one, the ASCII and Latin-1 letters whose partner is also in Latin-1. Letters outside ASCII and Latin-1 (such as `Ł`, `Č`, `Ő`) are kept as they are, so "ŁÓDŹ" and "łódź" get different keys here but one key in Kotlin; so are the Latin-1 letters whose upper case lies outside it: `ß` (to "SS"), `ÿ` (to U+0178) and `µ` (to U+039C) are kept as they are.
- Exception classes are three distinct kinds. No subclassing between the app's exceptions and the library's is modelled.
- The page's `encodeURIComponent` and the server's query decoding are taken as exact inverses.
- Page rendering is not modelled: the DOM, `toFixed`, date formatting, the error banner and the fetch promise chain.
