/** The request handling of the weather proxy controller: five endpoints that
    differ only in the upstream path they target, a coordinate range check,
    a single call to the upstream weather service and the mapping of that
    call's outcome to an HTTP response.

    The upstream call itself is not modelled: a handler receives the service
    as a function from the requested URL to the call's `Upstream` outcome and
    records in its `Exchange` which URLs it asked for. Turning a coordinate
    into text is likewise a parameter, `fmt`. */
module WeatherController {

  import opened Wrappers

  // ---------------------------------------------------------------------
  // Endpoints and upstream URLs
  // ---------------------------------------------------------------------

  /** The five weather queries the controller exposes, one per endpoint. */
  datatype QueryKind = Current | ForecastH1 | ForecastH3 | ForecastH6 | ForecastH24

  /** The action route of each endpoint under the controller's `api/Weather` route. */
  function Route(kind: QueryKind): (route: string)
    ensures |route| == 8 && route[..4] == "bsp_"
    ensures forall i | 4 <= i < 8 :: 'a' <= route[i] <= 'z'
  {
    match kind
    case Current => "bsp_abcd"
    case ForecastH1 => "bsp_efgh"
    case ForecastH3 => "bsp_ijkl"
    case ForecastH6 => "bsp_mnop"
    case ForecastH24 => "bsp_qrst"
  }

  /** No two endpoints share a route. */
  lemma RoutesDistinct(k1: QueryKind, k2: QueryKind)
    requires k1 != k2
    ensures Route(k1) != Route(k2)
  {
  }

  /** Root of every upstream URL. */
  const BaseUrl: string := "https://api.gismeteo.net/v3/weather"

  const LatitudeKey: string := "?latitude="
  const LongitudeKey: string := "&longitude="

  /** Turns a coordinate into its decimal text; the controller uses the
      culture-invariant conversion of the host platform. */
  type Formatter = real -> string

  /** The upstream path segment of each endpoint. */
  function PathSegment(kind: QueryKind): (segment: string)
    ensures |segment| > 1 && segment[|segment| - 1] == '/'
  {
    match kind
    case Current => "current/"
    case ForecastH1 => "forecast/h1/"
    case ForecastH3 => "forecast/h3/"
    case ForecastH6 => "forecast/h6/"
    case ForecastH24 => "forecast/h24/"
  }

  /** Everything of an endpoint's URL that precedes the formatted latitude. */
  function KindPrefix(kind: QueryKind): string
  {
    BaseUrl + "/" + PathSegment(kind) + LatitudeKey
  }

  /** The URL a handler builds before it proxies the request. */
  function BuildUrl(kind: QueryKind, latitude: real, longitude: real, fmt: Formatter): (url: string)
    ensures KindPrefix(kind) <= url
    ensures |url| == |KindPrefix(kind)| + |fmt(latitude)| + |LongitudeKey| + |fmt(longitude)|
  {
    BaseUrl + "/" + PathSegment(kind) + LatitudeKey + fmt(latitude) + LongitudeKey + fmt(longitude)
  }

  /** Position, in every endpoint's URL, of the first character of the path segment. */
  const SegmentStart: nat := |BaseUrl| + 1

  /** The character ten places into the path segment: it tells the four
      forecasts apart ('c' versus 'f' at `SegmentStart` tells the current
      weather from them). */
  function Discriminator(kind: QueryKind): char
  {
    match kind
    case Current => 'a'
    case ForecastH1 => '1'
    case ForecastH3 => '3'
    case ForecastH6 => '6'
    case ForecastH24 => '2'
  }

  /** Two characters of every endpoint prefix that together identify the endpoint. */
  lemma PrefixSignature(kind: QueryKind)
    ensures SegmentStart + 10 < |KindPrefix(kind)|
    ensures KindPrefix(kind)[SegmentStart] == (if kind == Current then 'c' else 'f')
    ensures KindPrefix(kind)[SegmentStart + 10] == Discriminator(kind)
  {
  }

  /** No endpoint's prefix can be extended into another endpoint's URL. */
  lemma PrefixesExclusive(k1: QueryKind, k2: QueryKind, url: string)
    requires KindPrefix(k1) <= url && KindPrefix(k2) <= url
    ensures k1 == k2
  {
    PrefixSignature(k1);
    PrefixSignature(k2);
    assert KindPrefix(k1)[SegmentStart] == url[SegmentStart] == KindPrefix(k2)[SegmentStart];
    assert KindPrefix(k1)[SegmentStart + 10] == url[SegmentStart + 10] == KindPrefix(k2)[SegmentStart + 10];
  }

  // ---------------------------------------------------------------------
  // Reading an upstream URL back (the inverse of BuildUrl)
  // ---------------------------------------------------------------------

  /** What an upstream URL carries: the endpoint and the two coordinate texts. */
  datatype UrlParts = UrlParts(kind: QueryKind, latitude: string, longitude: string)

  /** The endpoint whose prefix starts `url`, if there is one. */
  function ParseKind(url: string): (r: Option<QueryKind>)
    ensures r.Some? ==> KindPrefix(r.value) <= url
    ensures r.None? ==> forall k: QueryKind :: !(KindPrefix(k) <= url)
  {
    if KindPrefix(Current) <= url then Some(Current)
    else if KindPrefix(ForecastH1) <= url then Some(ForecastH1)
    else if KindPrefix(ForecastH3) <= url then Some(ForecastH3)
    else if KindPrefix(ForecastH6) <= url then Some(ForecastH6)
    else if KindPrefix(ForecastH24) <= url then Some(ForecastH24)
    else None
  }

  /** Index of the first `c` in `s`, or `|s|` when `s` has none. */
  function FirstIndex(s: string, c: char): (i: nat)
    ensures i <= |s|
    ensures c !in s[..i]
    ensures i < |s| ==> s[i] == c
  {
    if s == [] then 0
    else if s[0] == c then 0
    else
      var j := FirstIndex(s[1..], c);
      assert s[..j + 1] == [s[0]] + s[1..][..j];
      1 + j
  }

  /** A sequence that starts with `p` is `p` followed by the rest. */
  lemma PrefixSplit<T>(p: seq<T>, s: seq<T>)
    requires p <= s
    ensures s == p + s[|p|..]
  {
  }

  /** A position holding `c` with no `c` before it is the first index of `c`. */
  lemma FirstIndexAt(s: string, c: char, k: nat)
    requires k < |s| && s[k] == c && c !in s[..k]
    ensures FirstIndex(s, c) == k
  {
  }

  /** Splits the query part of an upstream URL at its first '&', which must
      open the longitude key. */
  function SplitQuery(query: string): (r: Option<(string, string)>)
    ensures r.Some? ==> '&' !in r.value.0
    ensures r.Some? ==> query == r.value.0 + LongitudeKey + r.value.1
  {
    var i := FirstIndex(query, '&');
    var key := LongitudeKey;
    if key <= query[i..] then
      var rest := query[i..][|key|..];
      PrefixSplit(key, query[i..]);
      assert query == query[..i] + query[i..];
      Some((query[..i], rest))
    else None
  }

  /** Splits an upstream URL into its endpoint and coordinate texts, if it
      has the shape BuildUrl produces. */
  function ParseUrl(url: string): (r: Option<UrlParts>)
    ensures r.Some? ==> '&' !in r.value.latitude
    ensures r.Some? ==>
      url == KindPrefix(r.value.kind) + r.value.latitude + LongitudeKey + r.value.longitude
  {
    match ParseKind(url)
    case None => None
    case Some(kind) =>
      var prefix := KindPrefix(kind);
      PrefixSplit(prefix, url);
      match SplitQuery(url[|prefix|..])
      case None => None
      case Some((lat, lon)) => Some(UrlParts(kind, lat, lon))
  }

  /** SplitQuery undoes joining a text without '&' to another by the
      longitude key. */
  lemma SplitQueryJoin(lat: string, lon: string)
    requires '&' !in lat
    ensures SplitQuery(lat + LongitudeKey + lon) == Some((lat, lon))
  {
    var key := LongitudeKey;
    var query := lat + key + lon;
    assert query[..|lat|] == lat;
    FirstIndexAt(query, '&', |lat|);
    var i := FirstIndex(query, '&');
    assert query[i..] == key + lon;
    assert query[i..][|key|..] == lon;
  }

  /** ParseUrl recovers the endpoint and both coordinate texts from the URL a
      handler builds, provided the latitude text has no '&' (decimal text
      never does). */
  lemma ParseBuildRoundTrip(kind: QueryKind, latitude: real, longitude: real, fmt: Formatter)
    requires '&' !in fmt(latitude)
    ensures ParseUrl(BuildUrl(kind, latitude, longitude, fmt)) == Some(UrlParts(kind, fmt(latitude), fmt(longitude)))
  {
    var url := BuildUrl(kind, latitude, longitude, fmt);
    var lat, lon := fmt(latitude), fmt(longitude);
    var prefix := KindPrefix(kind);
    var found := ParseKind(url);
    assert found.Some?;
    PrefixesExclusive(found.value, kind, url);
    assert url == prefix + (lat + LongitudeKey + lon);
    assert url[|prefix|..] == lat + LongitudeKey + lon;
    SplitQueryJoin(lat, lon);
  }

  /** Distinct endpoints never send the same upstream URL, whatever the
      coordinates; with the same endpoint, equal URLs mean equal coordinate texts. */
  lemma BuildUrlInjective(k1: QueryKind, lat1: real, lon1: real, k2: QueryKind, lat2: real, lon2: real, fmt: Formatter)
    requires BuildUrl(k1, lat1, lon1, fmt) == BuildUrl(k2, lat2, lon2, fmt)
    ensures k1 == k2
    ensures '&' !in fmt(lat1) && '&' !in fmt(lat2) ==> fmt(lat1) == fmt(lat2) && fmt(lon1) == fmt(lon2)
  {
    PrefixesExclusive(k1, k2, BuildUrl(k1, lat1, lon1, fmt));
    if '&' !in fmt(lat1) && '&' !in fmt(lat2) {
      ParseBuildRoundTrip(k1, lat1, lon1, fmt);
      ParseBuildRoundTrip(k2, lat2, lon2, fmt);
    }
  }

  /** The URL of the current-weather endpoint at the default coordinates,
      when the two coordinates print as they are written. */
  lemma DefaultCurrentWeatherUrl(fmt: Formatter)
    requires fmt(DefaultLatitude) == "55.7558" && fmt(DefaultLongitude) == "37.6173"
    ensures BuildUrl(Current, DefaultLatitude, DefaultLongitude, fmt)
         == "https://api.gismeteo.net/v3/weather/current/?latitude=55.7558&longitude=37.6173"
  {
    assert BaseUrl + "/" == "https://api.gismeteo.net/v3/weather/";
    assert BaseUrl + "/" + PathSegment(Current) == "https://api.gismeteo.net/v3/weather/current/";
    assert KindPrefix(Current) == "https://api.gismeteo.net/v3/weather/current/?latitude=";
    assert BuildUrl(Current, DefaultLatitude, DefaultLongitude, fmt)
        == KindPrefix(Current) + "55.7558" + "&longitude=" + "37.6173";
  }

  // ---------------------------------------------------------------------
  // Coordinate validation
  // ---------------------------------------------------------------------

  /** Coordinates used when a request omits the corresponding parameter. */
  const DefaultLatitude: real := 55.7558
  const DefaultLongitude: real := 37.6173

  /** The accepted coordinates: latitude and longitude in their closed ranges. */
  predicate InRange(latitude: real, longitude: real)
  {
    -90.0 <= latitude <= 90.0 && -180.0 <= longitude <= 180.0
  }

  /** The controller's rejection test. */
  function Rejected(latitude: real, longitude: real): (rejected: bool)
    ensures rejected <==> !InRange(latitude, longitude)
  {
    latitude < -90.0 || latitude > 90.0 || longitude < -180.0 || longitude > 180.0
  }

  /** The range ends are accepted and anything beyond them is rejected. */
  lemma RangeBoundaries(latitude: real, longitude: real)
    ensures !Rejected(-90.0, longitude) <==> -180.0 <= longitude <= 180.0
    ensures !Rejected(90.0, longitude) <==> -180.0 <= longitude <= 180.0
    ensures !Rejected(latitude, -180.0) <==> -90.0 <= latitude <= 90.0
    ensures !Rejected(latitude, 180.0) <==> -90.0 <= latitude <= 90.0
    ensures latitude > 90.0 || latitude < -90.0 ==> Rejected(latitude, longitude)
    ensures longitude > 180.0 || longitude < -180.0 ==> Rejected(latitude, longitude)
  {
  }

  // ---------------------------------------------------------------------
  // Upstream outcomes and responses
  // ---------------------------------------------------------------------

  /** How the call to the upstream service ends: with the response text, with
      an HTTP request failure (carrying the upstream status code when there
      was a response), or with any other failure. */
  datatype Upstream =
    | Returned(content: string)
    | HttpRequestFailed(statusCode: Option<int>, message: string)
    | Failed(message: string)

  /** The HTTP response the controller sends back. */
  datatype Response = Response(status: int, body: string)

  /** What handling one request produces: the response, and the URLs the
      upstream service was asked for, in order. */
  datatype Exchange = Exchange(response: Response, calls: seq<string>)

  const StatusOk: int := 200
  const StatusBadRequest: int := 400
  const StatusInternalServerError: int := 500

  const InvalidCoordinatesMessage: string :=
    "Latitude must be between -90 and 90, and longitude must be between -180 and 180."
  const InternalServerErrorMessage: string := "Internal server error"

  /** The response for an upstream outcome: content is relayed with 200, an
      HTTP request failure keeps its status (500 when it has none) and its
      message, and any other failure becomes an opaque 500. */
  function RespondTo(outcome: Upstream): (r: Response)
    ensures outcome.Returned? ==> r == Response(StatusOk, outcome.content)
    ensures outcome.HttpRequestFailed? ==>
      r.body == outcome.message && r.status == outcome.statusCode.GetOr(StatusInternalServerError)
    ensures outcome.Failed? ==> r == Response(StatusInternalServerError, InternalServerErrorMessage)
  {
    match outcome
    case Returned(content) => Response(StatusOk, content)
    case HttpRequestFailed(statusCode, message) =>
      Response(statusCode.GetOr(StatusInternalServerError), message)
    case Failed(_) => Response(StatusInternalServerError, InternalServerErrorMessage)
  }

  predicate IsSuccessStatus(status: int)
  {
    200 <= status <= 299
  }

  /** The outcomes the upstream service can produce: it raises an HTTP request
      failure for a response only when that response's status is not a
      success status. */
  predicate ServiceOutcome(outcome: Upstream)
  {
    outcome.HttpRequestFailed? && outcome.statusCode.Some? ==> !IsSuccessStatus(outcome.statusCode.value)
  }

  /** For every outcome the service can produce, the client sees a success
      status exactly when upstream returned content, and then the body is
      that content. */
  lemma SuccessStatusIffContent(outcome: Upstream)
    requires ServiceOutcome(outcome)
    ensures IsSuccessStatus(RespondTo(outcome).status) <==> outcome.Returned?
    ensures outcome.Returned? ==> RespondTo(outcome).body == outcome.content
  {
  }

  /** The message of a failure other than an HTTP request failure never
      reaches the client. */
  lemma OtherFailureIsOpaque(m1: string, m2: string)
    ensures RespondTo(Failed(m1)) == RespondTo(Failed(m2))
    ensures RespondTo(Failed(m1)).status == StatusInternalServerError
  {
  }

  // ---------------------------------------------------------------------
  // Proxying a request
  // ---------------------------------------------------------------------

  /** Validates the coordinates and, when they are accepted, asks `service`
      for `url` exactly once and maps the outcome to a response. */
  function ProxyRequest(url: string, latitude: real, longitude: real, service: string -> Upstream): (x: Exchange)
    ensures |x.calls| <= 1
    ensures forall u :: u in x.calls ==> u == url
    ensures x.calls == [] <==> !InRange(latitude, longitude)
    ensures !InRange(latitude, longitude) ==> x.response == Response(StatusBadRequest, InvalidCoordinatesMessage)
    ensures InRange(latitude, longitude) ==> x.response == RespondTo(service(url))
  {
    if Rejected(latitude, longitude) then
      Exchange(Response(StatusBadRequest, InvalidCoordinatesMessage), [])
    else
      Exchange(RespondTo(service(url)), [url])
  }

  /** Any of the five endpoints: omitted coordinates take their defaults,
      the endpoint's URL is built and the request is proxied. */
  function Handle(kind: QueryKind, latitude: Option<real>, longitude: Option<real>,
                  fmt: Formatter, service: string -> Upstream): (x: Exchange)
    ensures
      var lat, lon := latitude.GetOr(DefaultLatitude), longitude.GetOr(DefaultLongitude);
      x.calls == (if InRange(lat, lon) then [BuildUrl(kind, lat, lon, fmt)] else [])
    ensures
      var lat, lon := latitude.GetOr(DefaultLatitude), longitude.GetOr(DefaultLongitude);
      x.response == if InRange(lat, lon) then RespondTo(service(BuildUrl(kind, lat, lon, fmt)))
                    else Response(StatusBadRequest, InvalidCoordinatesMessage)
  {
    var lat := latitude.GetOr(DefaultLatitude);
    var lon := longitude.GetOr(DefaultLongitude);
    ProxyRequest(BuildUrl(kind, lat, lon, fmt), lat, lon, service)
  }

  /** A request without coordinates always reaches the upstream service. */
  lemma DefaultRequestReachesUpstream(kind: QueryKind, fmt: Formatter, service: string -> Upstream)
    ensures Handle(kind, None, None, fmt, service).calls == [BuildUrl(kind, DefaultLatitude, DefaultLongitude, fmt)]
  {
  }

  /** An accepted request sends upstream exactly one URL, and that URL names
      the requested endpoint and carries both coordinates as formatted. */
  lemma UpstreamSeesRequest(kind: QueryKind, latitude: real, longitude: real,
                            fmt: Formatter, service: string -> Upstream)
    requires InRange(latitude, longitude)
    requires '&' !in fmt(latitude)
    ensures
      var x := Handle(kind, Some(latitude), Some(longitude), fmt, service);
      |x.calls| == 1 && ParseUrl(x.calls[0]) == Some(UrlParts(kind, fmt(latitude), fmt(longitude)))
  {
    ParseBuildRoundTrip(kind, latitude, longitude, fmt);
  }

  /** A rejected request gets the fixed 400 answer and never reaches upstream,
      whatever the endpoint and whatever upstream would have answered. */
  lemma RejectedRequestIsAnsweredLocally(kind: QueryKind, latitude: real, longitude: real,
                                         fmt: Formatter, service: string -> Upstream)
    requires Rejected(latitude, longitude)
    ensures Handle(kind, Some(latitude), Some(longitude), fmt, service)
         == Exchange(Response(StatusBadRequest, InvalidCoordinatesMessage), [])
  {
  }
}
