# Weather proxy controller — Dafny model

The BSP_Weather service is an HTTP proxy in front of the Gismeteo weather API.
Its `WeatherController` exposes five endpoints: the current weather and the
1-, 3-, 6- and 24-hour forecasts. Each endpoint takes an optional latitude and
longitude, which default to Moscow (55.7558, 37.6173). It builds the upstream
URL `https://api.gismeteo.net/v3/weather/<segment>?latitude=…&longitude=…`,
rejects coordinates outside [-90, 90] × [-180, 180] with a fixed 400 message,
and otherwise calls the upstream service once. It relays the body with 200. An
HTTP request failure is answered with its own status (500 when it has none) and
its message. Any other failure becomes an opaque 500.

The model is in `weather_controller.dfy` (module `WeatherController`).
`wrappers.dfy` holds the `Option` type. The controller code is pure, so the
model is functions over datatypes plus lemmas:

- `QueryKind` is the closed set of endpoints. `Route`, `PathSegment` and
  `BuildUrl` give each endpoint's route, upstream path and URL.
- The upstream call is a parameter, `service: string -> Upstream`. The
  `Upstream` type has three cases: content returned, an HTTP request failure
  with an optional status code, or any other failure. A handler's result is an
  `Exchange`: the response, plus the list of URLs the service was asked for.
  This list is how the model observes "called once, with this URL" or "never
  called".
- The culture-invariant number-to-text conversion is a parameter
  `fmt: real -> string`.
- `ParseUrl` reads an upstream URL back into its endpoint and coordinate texts.
  It is the inverse against which `BuildUrl` is proved.

## Model

| member | source | states |
|---|---|---|
| `WeatherController.Route` | Controllers/WeatherController.cs:26-90 | every endpoint's action route is `bsp_` followed by four lower-case letters |
| `WeatherController.RoutesDistinct` | Controllers/WeatherController.cs:26-90 | distinct endpoints have distinct routes |
| `WeatherController.PathSegment` | Controllers/WeatherController.cs:27-96 | each endpoint's upstream path segment is non-empty and ends in `/` |
| `WeatherController.BuildUrl` | Controllers/WeatherController.cs:30-94 | for each of the five handlers (lines 30, 46, 62, 78, 94), the URL starts with the base URL, `/`, the endpoint's segment and `?latitude=`, and its length is that prefix plus both formatted coordinates and the `&longitude=` key |
| `WeatherController.ParseBuildRoundTrip` | Controllers/WeatherController.cs:17-96 | reading back a built URL gives exactly the endpoint and both formatted coordinates, provided the latitude text has no `&` |
| `WeatherController.BuildUrlInjective` | Controllers/WeatherController.cs:17-96 | two endpoints never produce the same URL for any coordinates; for one endpoint, equal URLs mean equal coordinate texts, provided neither latitude text contains `&` |
| `WeatherController.DefaultCurrentWeatherUrl` | Controllers/WeatherController.cs:27-30 | at the default coordinates, the current-weather URL is `https://api.gismeteo.net/v3/weather/current/?latitude=55.7558&longitude=37.6173` when the defaults print as written |
| `WeatherController.Rejected` | Controllers/WeatherController.cs:116 | a pair is rejected exactly when it lies outside the closed ranges [-90, 90] and [-180, 180] |
| `WeatherController.RangeBoundaries` | Controllers/WeatherController.cs:116 | the range ends ±90 and ±180 are accepted, and any value beyond them is rejected |
| `WeatherController.RespondTo` | Controllers/WeatherController.cs:122-137 | content gives 200 with the body unchanged; an HTTP request failure gives its status, or 500 without one, with its message as body; any other failure gives 500 with "Internal server error" |
| `WeatherController.SuccessStatusIffContent` | Controllers/WeatherController.cs:122-137 | when HTTP request failures carry only non-success statuses, the client sees a 2xx status exactly when upstream returned content, and the body is then that content |
| `WeatherController.OtherFailureIsOpaque` | Controllers/WeatherController.cs:133-136 | the response to a failure other than an HTTP request failure is the same 500 whatever its message |
| `WeatherController.ProxyRequest` | Controllers/WeatherController.cs:106-137 | the service is asked at most once, and only for the given URL; it is asked exactly when the coordinates are in range; out of range gives 400 with the fixed message; in range gives the mapped upstream outcome |
| `WeatherController.Handle` | Controllers/WeatherController.cs:27-96 | omitted coordinates take the defaults; the service is asked for the endpoint's URL exactly when the resolved coordinates are in range, and the response follows the proxy rule |
| `WeatherController.DefaultRequestReachesUpstream` | Controllers/WeatherController.cs:27-91 | for each of the five handlers (default arguments on lines 27, 43, 59, 75, 91), a request with no coordinates always calls upstream with the endpoint's URL at the default coordinates |
| `WeatherController.UpstreamSeesRequest` | Controllers/WeatherController.cs:116-124 | an accepted request makes exactly one upstream call, and its URL names the requested endpoint and carries both coordinates as formatted, provided the latitude text contains no `&` |
| `WeatherController.RejectedRequestIsAnsweredLocally` | Controllers/WeatherController.cs:116-120 | a rejected request gets 400 with the fixed message and makes no upstream call, for every endpoint and every upstream behaviour |

## Left out

- `Services/GismeteoService.cs` is not part of this model. It holds the HTTP
  client with its accept-any-certificate callback, the `User-Agent` and
  `X-Gismeteo-Token` headers, the GET request and `EnsureSuccessStatusCode`.
  This is network I/O, so its result is the `Upstream` value passed to the
  handler. What `SuccessStatusIffContent` assumes of it (an HTTP request
  failure from a response carries a non-success status) is written as the
  predicate `ServiceOutcome`.
- The service constructor's check for a missing token is left out. It is a
  configuration guard at startup and takes no part in request handling.
- `Program.cs` is not part of this model. It covers host setup, Serilog, CORS,
  Swagger and the request-logging middleware.
- Logging, and capturing the client IP address and the request time, are left
  out. They are observability side effects and do not affect the response.
- Number formatting (`double.ToString(CultureInfo.InvariantCulture)`) is the
  parameter `fmt`, with no properties assumed. The round-trip lemmas only
  require that the latitude text contains no `&`.
- Coordinates are `real`, not IEEE-754 doubles. In the source, a NaN coordinate
  makes every comparison in the range check false. NaN therefore passes
  validation and is proxied upstream as `NaN`. A `real` cannot be NaN, so the
  model does not capture this divergence.
- The defaults 55.7558 and 37.6173 are exact reals here. In the source they are
  the nearest doubles.
- `async`/`Task` is left out. Each request is one synchronous function
  application. The model has no state, so two identical requests make two
  identical, independent upstream calls (there is no caching).
- Route matching by the host is left out: case-insensitive matching, the
  `api/Weather` prefix, and query-string binding of `latitude`/`longitude`. A
  handler gets its two query parameters as already-bound `Option<real>` values.
- The commented-out `…/test` endpoints in the controller are not compiled in
  the source, so they are not modelled.
