/**
 * The records the weather app reads from its two upstream services and the
 * reading it returns, with only the fields the app consumes. Unknown upstream
 * fields are ignored by the JSON decoder, so they have no counterpart here.
 */
module Models {
  import opened Wrappers

  /** A Kotlin Double, kept as its IEEE 754 bit pattern: copied through, never computed on. */
  datatype Double = Double(bits: bv64)

  /** Coordinates(latitude, longitude). */
  datatype Coordinates = Coordinates(latitude: Double, longitude: Double)

  /** One geocoding candidate (OpenStreetMapResponse): coordinates as text, name and place type. */
  datatype Place = Place(lat: string, lon: string, displayName: string, addressType: string)

  /** The forecast reply (YrResponse and its nested records). */
  datatype YrResponse = YrResponse(properties: YrProperties)

  datatype YrProperties = YrProperties(meta: YrMeta, timeseries: seq<YrTimeseries>)

  datatype YrMeta = YrMeta(updatedAt: string)

  datatype YrTimeseries = YrTimeseries(data: YrData)

  /** One time slot: instantaneous details and an optional next-hour summary. */
  datatype YrData = YrData(instant: YrInstant, next1Hours: Option<YrNextHours>)

  datatype YrInstant = YrInstant(details: YrDetails)

  datatype YrDetails = YrDetails(airTemperature: Double, windSpeed: Double, relativeHumidity: Double)

  datatype YrNextHours = YrNextHours(summary: YrSummary)

  datatype YrSummary = YrSummary(symbolCode: string)

  /** The reading returned to callers and cached (WeatherResponse). */
  datatype WeatherResponse = WeatherResponse(
    temperature: Double,
    windSpeed: Double,
    humidity: Double,
    description: string,
    symbolCode: string,
    updatedAt: string)
}
