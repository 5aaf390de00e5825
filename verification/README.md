# Location resolution and forecast relay — a Dafny model

This project models the backend of a small weather application. The backend relays
lookups to the AccuWeather location and forecast API. A client resolves a location in
three steps:

1. A region code (`EUR`, `NAM`, …) gives a list of countries.
2. A country name, matched against the cached country list, gives a country code and
   that country's administrative areas.
3. A province name, searched under the cached country code, gives a location key, and the
   backend then fetches the daily forecast for that key.

The intermediate lists are cached between requests. Upstream failures are turned into a
uniform error envelope.

How the model represents the program:

- **Values.** Every Python value the code handles is a `Json`: `Null` (Python `None`),
  `Str`, `Arr` or `Obj`. Python truthiness is `Json.Truthy`, and `dict.get` is `Json.Get`.
- **The network.** Each HTTP request is a `Upstream.Request` that records what varies in
  its URI and query. The provider is a parameter `net: Request -> Response` (the `ok`
  flag plus the decoded body). Each controller operation that may reach the network
  returns a `Call`: its outcome plus the requests it sent, in order. "Issues no lookup"
  therefore reads `sent == []`. `ApiCountryResponse` also returns the new country code
  (a `CountryStep`), and the routes return a `Reply` that adds the new session. The
  pure scans `FindCountryId`, `FirstKey` and `KeyFromSearch` return a plain `Outcome`.
- **Exceptions.** An exception that nobody catches ends the request. It is the outcome
  `Crashed`. State written before the raise is kept, as it is in the program. For
  example, `country_code` is recorded before the admin-area request whose error handling
  may raise.
- **Global state.** The router's `country_code` and the global `Storage` instance are
  gathered into one `Routes.Session` value. It is passed into each route and returned
  from it.

Modules follow the source files: `ErrorMessage` (helpers/error_message.py), `UnpackJson`
(helpers/unpack_json.py), `Datas` (data/datas.py), `LocationController`
(controller/location_controller.py) and `Routes` (routes.py). `Json`, `Outcomes` and
`Upstream` hold the shared types. `Pipeline` states a three-route scenario against a
small fixed provider.

Behaviour worth noting, all of it reproduced by the model:

- A country list entry that is not a dict aborts the request
  (backend/src/controller/location_controller.py:182-184). The `AttributeError` from
  `.get` is caught, but the handler calls `.json()` on the exception object, which
  raises again.
- A failed province search does not stop the forecast route
  (backend/src/controller/location_controller.py:38-40, :137, :56). Its error envelope is
  a non-empty dict, so it is truthy. It is sent on as the location key of the forecast
  request (`LocationController.ProvinceErrorBecomesLocationKey`).
- Resolving provinces while the country cache reads `None` aborts the request. The cache
  reads `None` before any country list is stored, and also when the stored list is empty
  (backend/src/data/datas.py:34-35). The loop in `api_call_if_country_code_on_continent`
  then iterates `None` (backend/src/controller/location_controller.py:176).
- A forecast request made before any country code has been resolved sends nothing and
  answers `None` (`Routes.FreshSessionForecastIsSilent`).
- The region route answers the English names of the countries
  (backend/src/routes.py:50-57). Only the cache keeps the raw list.
- A target country of `None` (the request has no `country` field) matches an entry that
  has no `EnglishName`, because `None == None` in Python
  (backend/src/controller/location_controller.py:178).

## Model

| member | source | states |
|---|---|---|
| `ErrorMessage.NotAValidRegionCode` | backend/src/helpers/error_message.py:15-28 | the payload has exactly the keys `ValueError` and `Region_Code`; `Region_Code` echoes the rejected code; the payload is truthy and is not an upstream error envelope |
| `ErrorMessage.WithoutReference` | backend/src/helpers/error_message.py:43 | the filtered body never holds `Reference`; every other key is kept, with its value unchanged, and no key is added |
| `ErrorMessage.WithoutReferenceIdempotent` | backend/src/helpers/error_message.py:43 | filtering twice gives the same map as filtering once |
| `ErrorMessage.WithoutReferenceKeepsCleanBody` | backend/src/helpers/error_message.py:43 | a body without `Reference` passes through unchanged |
| `ErrorMessage.ReturnErrorFromApi` | backend/src/helpers/error_message.py:30-45 | succeeds exactly when the failed response's body is a dict; the result is an envelope `ACCUWEATHER_ERROR_RESPONSE.error` whose nested map is the body minus `Reference` |
| `ErrorMessage.ApiErrorIsTruthy` | backend/src/helpers/error_message.py:41-45 | every error envelope is a non-empty dict, so Python treats it as true |
| `ErrorMessage.MissingDatas` | backend/src/helpers/error_message.py:47-56 | always the single-key `InputError` map with its fixed message; never mistaken for an upstream error |
| `UnpackJson.UnpackJsonResponse` | backend/src/helpers/unpack_json.py:3-25 | requires every record to be a dict with `EnglishName`; the output has the input's length and position i holds record i's English name |
| `UnpackJson.UnpackConcat` | backend/src/helpers/unpack_json.py:18-25 | projecting a concatenation equals concatenating the projections |
| `Datas.NewStorage` | backend/src/data/datas.py:12-25 | a fresh store reads back `None` for both countries and provinces |
| `Datas.GetCountries` | backend/src/data/datas.py:27-35 | returns the stored list exactly when it is present and non-empty; an empty list reads back as `None` |
| `Datas.SetCountries` | backend/src/data/datas.py:37-44 | a non-empty list written is read back, an empty one reads back as `None`; provinces are untouched |
| `Datas.GetProvinces` | backend/src/data/datas.py:46-54 | returns the stored list exactly when it is present and non-empty; an empty list reads back as `None` |
| `Datas.SetProvinces` | backend/src/data/datas.py:56-63 | a non-empty list written is read back, an empty one reads back as `None`; countries are untouched |
| `Datas.LastCountriesWriteWins` | backend/src/data/datas.py:37-44 | of two country writes only the last is visible |
| `Datas.LastProvincesWriteWins` | backend/src/data/datas.py:56-63 | of two province writes only the last is visible |
| `Datas.WritesCommute` | backend/src/data/datas.py:37-63 | a country write and a province write give the same store in either order |
| `LocationController.ApiCallRegionContinent` | backend/src/controller/location_controller.py:140-161 | a code outside the ten tokens yields the region-code error and sends no request; a valid code sends exactly one countries lookup and relays its body, or the error envelope on failure |
| `LocationController.ApiContinentResponse` | backend/src/controller/location_controller.py:65-81 | returns exactly what the region lookup returns, on both branches of its error check |
| `LocationController.FindCountryId` | backend/src/controller/location_controller.py:164-184 | the outcome is fixed by the first entry that is a non-dict or carries the searched English or localized name: that entry's `ID`, or an abort if it is a non-dict or has no `ID`; `None` when no entry stops the scan |
| `LocationController.FindCountryIdIgnoresSuffix` | backend/src/controller/location_controller.py:176-180 | once an entry has stopped the scan, appending entries changes nothing, so no entry after a match is examined |
| `LocationController.FindCountryIdSkipsPrefix` | backend/src/controller/location_controller.py:176-184 | non-matching dict entries in front do not change the result |
| `LocationController.EarlierMatchWins` | backend/src/controller/location_controller.py:176-180 | when every entry before the earlier match is a dict that does not match, and the earlier match carries `ID`, that `ID` is returned; removing the later match changes nothing |
| `LocationController.ApiCountryResponse` | backend/src/controller/location_controller.py:84-107 | on a string `ID` it records that code and issues one admin-area lookup for it; otherwise the code is unchanged, nothing is sent, and the result is `None` (or an abort from the scan or from an absent country list) |
| `LocationController.FirstKey` | backend/src/controller/location_controller.py:130-134 | the value of the first `Key` in response order; an abort at a non-dict met earlier; `None` when no record has a `Key` |
| `LocationController.FirstKeyIgnoresSuffix` | backend/src/controller/location_controller.py:130-134 | records after the first one holding `Key` are never examined |
| `LocationController.KeyFromSearch` | backend/src/controller/location_controller.py:127-134 | a list body goes through the first-`Key` scan, and an empty list gives `None`; an empty dict or string gives `None`; `None` or a non-empty dict or string aborts |
| `LocationController.ApiProvinceKey` | backend/src/controller/location_controller.py:109-137 | with no non-empty cached country code, or an empty province name, it returns `None` and sends nothing; otherwise one search under the cached code, giving the first `Key` or the error envelope |
| `LocationController.ApiGetDailyWeatherForecast` | backend/src/controller/location_controller.py:46-63 | a falsy key returns `None` and sends nothing; a truthy key sends one forecast request and returns its body verbatim, or the error envelope |
| `LocationController.WeatherForecastRouter` | backend/src/controller/location_controller.py:21-43 | `missing_datas()` with no request unless continent, country and province are all truthy; otherwise the key lookup is followed by a forecast fetch of whatever it returned, and the requests are the two stages' requests in order |
| `LocationController.ForecastIgnoresRequestCountry` | backend/src/controller/location_controller.py:32-40 | two complete requests that name the same province give the same result whatever country they name |
| `LocationController.ForecastSearchesCachedCountry` | backend/src/controller/location_controller.py:36-40 | with a cached code, the first request sent is the search for the province under that cached code |
| `LocationController.ProvinceErrorBecomesLocationKey` | backend/src/controller/location_controller.py:36-40 | when the province search fails with a dict body, its error envelope is sent as the location key of the forecast request |
| `Routes.NewSession` | backend/src/routes.py:8-11 | at start no country code is set and both caches read `None` |
| `Routes.DisplayForecastRouter` | backend/src/routes.py:13-27 | answers exactly the controller's forecast route and leaves the session unchanged |
| `Routes.ContinentRouter` | backend/src/routes.py:29-60 | a list answer whose records all have English names is returned as those names, and the raw list is cached; a non-list answer is returned as is; in every other case the session is untouched; provinces and country code never change |
| `Routes.CountryRouter` | backend/src/routes.py:62-96 | resolves against the cached country list; a list answer is returned as English names and the raw list is cached as provinces; a list answer with a record lacking `EnglishName` aborts with provinces untouched; a non-list answer is returned as is with provinces untouched; the country cache is never written; the country code is whatever the country stage left |
| `Routes.InvalidRegionIsRejected` | backend/src/controller/location_controller.py:150-161 | a request with an invalid region code answers the region-code error, sends nothing and leaves the session unchanged |
| `Routes.ValidRegionListIsCached` | backend/src/routes.py:50-57 | for a valid code, a non-empty list answer is read back verbatim from the country cache |
| `Routes.FreshSessionForecastIsSilent` | backend/src/controller/location_controller.py:109-119 | before any country code is resolved, a complete forecast request sends nothing and answers `None` |
| `Pipeline.ScenarioRegion` | backend/src/routes.py:29-60 | region `EUR` answers the countries' English names and caches the raw list |
| `Pipeline.ScenarioCountry` | backend/src/routes.py:62-96 | country `France` records code `FR`, fetches its admin areas and caches them |
| `Pipeline.ScenarioForecast` | backend/src/controller/location_controller.py:21-43 | with `FR` cached, the forecast for `Paris` is the provider's report for key `123`, after exactly one search and one forecast request |
| `Pipeline.ResolveThenForecast` | backend/src/routes.py:13-96 | the three routes in sequence, each reading what the previous one cached, end with the provider's forecast unchanged |

## Left out

- HTTP transport: URLs, the API key parameter, the 60-second timeout and connection
  errors. Each request is an abstract `Request`, and the provider is the `net`
  parameter. A timeout or connection failure would raise and abort, like `Crashed`.
- A response body that is not valid JSON. `response.json()` would raise. Bodies here are
  always decoded `Json` values.
- JSON numbers and booleans. They are not in the `Json` datatype: Python's `True == 1`
  would not agree with structural equality. Record names, IDs and keys are strings.
- The Flask app, CORS, `jsonify`, dotenv and configuration loading
  (backend/src/__init__.py, backend/run.py, backend/src/credential_class.py). The
  configured forecast `period` is a parameter.
- The frontend (React components). It is UI rendering only.
- Concurrent requests sharing the global router and storage. One session value is
  threaded through sequential calls instead.
- `Storage(...)` with explicit initial lists: only the no-argument construction used by
  the routes is modelled (`Datas.NewStorage`).
- The exception type of an abort (`AttributeError`, `KeyError`, `TypeError`). Every
  abort is the same `Crashed` outcome.
- Key order inside a dict. The province scan looks for `Key` in each record. A dict holds
  `Key` at most once, so the order inside one record does not change the result.
