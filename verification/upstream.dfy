/** The weather provider as seen by the backend: the four lookups it issues
    and the answers it gets back. The network itself is a parameter `net`. */
module Upstream {
  import opened Outcomes
  import opened Json

  /** One GET request, identified by what varies in its URI and query. */
  datatype Request =
    | CountriesOf(regionCode: string)                   // locations/v1/countries/{region}
    | AdminAreasOf(countryCode: string)                 // locations/v1/adminareas/{country}
    | CitySearch(countryCode: string, query: Json)      // locations/v1/cities/{country}/search?q=
    | DailyForecast(period: string, locationKey: Json)  // forecasts/v1/daily/{period}/{key}

  /** The provider's answer: `response.ok` and the decoded `response.json()`. */
  datatype Response = Response(ok: bool, body: Json)

  /** What the provider answers to each request. */
  type Net = Request -> Response

  /** The value an operation ends with, and the requests it issued, in order. */
  datatype Call = Call(out: Outcome<Json>, sent: seq<Request>)
}
