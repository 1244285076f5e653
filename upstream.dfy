/**
 * What an HTTP call to an upstream service can give back, the two exception
 * classes of the app plus "any other exception", and the upstream services
 * themselves as pure oracles.
 */
module Upstream {
  import opened Wrappers
  import opened Models

  /** What reading and decoding a response body gives. */
  datatype Body<T> =
    | NoBody                        // response.body is null
    | ReadFailed(message: string)   // body.string() threw
    | Malformed(message: string)    // the JSON decoder threw
    | Parsed(value: T)              // the decoded record

  /** The outcome of one executed HTTP call. */
  datatype Reply<T> =
    | CallFailed(message: string)   // execute() threw (connection, timeout)
    | Response(code: nat, body: Body<T>)

  /** OkHttp's Response.isSuccessful: a status code in [200, 300). */
  predicate IsSuccessful(code: nat) {
    200 <= code < 300
  }

  /** The exceptions that reach the controller: the app's two classes and every other kind. */
  datatype Failure =
    | OpenStreetMapError(message: string)   // OpenStreetMapException
    | WeatherApiError(message: string)      // WeatherApiException
    | OtherError(message: string)           // any other exception, with its message

  /**
   * The upstream services as they answer at the time of the call: the geocoder
   * by query text, the forecast service by coordinates, and the library's
   * String.toDouble, which is foreign code too.
   */
  datatype Oracles = Oracles(
    geocode: string -> Reply<seq<Place>>,
    forecast: Coordinates -> Reply<YrResponse>,
    toDouble: string -> Result<Double, string>)
}
