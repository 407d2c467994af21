/**
 * What each tool checks before it talks to the provider, and the GET request it then
 * sends: the credential gate, the minimum query length, the clamping of `days` and the
 * query parameters of each endpoint.
 */
module Requests {
  import opened Wrappers
  import opened Decimal

  const KeyNotSetMessage := "WEATHERAPI_KEY environment variable not set"
  const QueryTooShortMessage := "Query must be at least 3 characters long"

  const MinQueryLength := 3
  const MinDays := 1
  const MaxDays := 10
  /** The value of `days` when the caller of get_forecast leaves it out. */
  const DefaultDays := 3

  /** One tool invocation with its arguments. */
  datatype Call =
    | CurrentWeather(location: string)
    | Forecast(location: string, days: int)
    | LocationSearch(query: string)
    | Astronomy(location: string, date: Option<string>)
    | AirQuality(location: string)

  /** A GET of `https://api.weatherapi.com/v1` + `path` with these query parameters, each sent as text. */
  datatype Request = Request(path: string, params: map<string, string>)

  /** Python truthiness of an optional string: present and not empty. */
  predicate Truthy(s: Option<string>) {
    s.Some? && s.value != ""
  }

  function Max(a: int, b: int): int { if a < b then b else a }
  function Min(a: int, b: int): int { if a < b then a else b }

  /** `max(1, min(10, days))`: out-of-range day counts are clamped, never rejected. */
  function ClampDays(days: int): (r: nat)
    ensures MinDays <= r <= MaxDays
    ensures MinDays <= days <= MaxDays ==> r == days
    ensures days < MinDays ==> r == MinDays
    ensures days > MaxDays ==> r == MaxDays
  {
    Max(MinDays, Min(MaxDays, days))
  }

  lemma ClampDaysIdempotent(days: int)
    ensures ClampDays(ClampDays(days)) == ClampDays(days)
  {
  }

  /** The parameters of `/current.json`, shared by get_current_weather and get_air_quality. */
  function CurrentParams(key: string, location: string): map<string, string> {
    map["key" := key, "q" := location, "aqi" := "yes"]
  }

  /** The forecast parameters, for a day count already clamped. */
  function ForecastParams(key: string, location: string, days: nat): map<string, string> {
    map["key" := key, "q" := location, "days" := DecimalString(days), "aqi" := "yes", "alerts" := "yes"]
  }

  function SearchParams(key: string, query: string): map<string, string> {
    map["key" := key, "q" := query]
  }

  /** The astronomy parameters: `dt` is added only when a non-empty date is given. */
  function AstronomyParams(key: string, location: string, date: Option<string>): map<string, string> {
    var params := map["key" := key, "q" := location];
    if Truthy(date) then params["dt" := date.value] else params
  }

  /**
   * The checks a tool makes before opening a connection, in the order it makes them, and
   * the request it then sends; a failed check gives the text of the error record.
   */
  function BuildRequest(call: Call, key: Option<string>): (r: Result<Request, string>)
    ensures r.Success? <==> Truthy(key) && !(call.LocationSearch? && |call.query| < MinQueryLength)
    ensures r.Failure? ==> r.error == (if Truthy(key) then QueryTooShortMessage else KeyNotSetMessage)
    ensures r.Success? ==>
      && "key" in r.value.params && r.value.params["key"] == key.value
      && "q" in r.value.params && r.value.params["q"] == Place(call)
  {
    if !Truthy(key) then Failure(KeyNotSetMessage)
    else
      match call
      case CurrentWeather(location) => Success(Request("/current.json", CurrentParams(key.value, location)))
      case Forecast(location, days) => Success(Request("/forecast.json", ForecastParams(key.value, location, ClampDays(days))))
      case LocationSearch(query) =>
        if |query| < MinQueryLength then Failure(QueryTooShortMessage)
        else Success(Request("/search.json", SearchParams(key.value, query)))
      case Astronomy(location, date) => Success(Request("/astronomy.json", AstronomyParams(key.value, location, date)))
      case AirQuality(location) => Success(Request("/current.json", CurrentParams(key.value, location)))
  }

  /** The location or query argument a call passes on as `q`. */
  function Place(call: Call): string {
    match call
    case CurrentWeather(location) => location
    case Forecast(location, _) => location
    case LocationSearch(query) => query
    case Astronomy(location, _) => location
    case AirQuality(location) => location
  }

  /** Without a non-empty credential every tool fails with the same message and builds no request. */
  lemma CredentialGate(call: Call, key: Option<string>)
    ensures !Truthy(key) <==> BuildRequest(call, key) == Failure(KeyNotSetMessage)
  {
  }

  /** Every request built carries the credential as `key` and the caller's place as `q`, unchanged. */
  lemma RequestCarriesKeyAndPlace(call: Call, key: Option<string>)
    requires BuildRequest(call, key).Success?
    ensures Truthy(key)
    ensures var params := BuildRequest(call, key).value.params;
      "key" in params && params["key"] == key.value && "q" in params && params["q"] == Place(call)
  {
  }

  /** Current weather and air quality send the identical request to `/current.json`. */
  lemma CurrentEndpointShared(location: string, key: Option<string>)
    ensures BuildRequest(AirQuality(location), key) == BuildRequest(CurrentWeather(location), key)
    ensures Truthy(key) ==>
      BuildRequest(CurrentWeather(location), key) ==
      Success(Request("/current.json", map["key" := key.value, "q" := location, "aqi" := "yes"]))
  {
  }

  /** The forecast request asks for the clamped day count, which lies in [1, 10], and nothing else varies. */
  lemma ForecastRequestDays(location: string, days: int, key: Option<string>)
    requires Truthy(key)
    ensures var r := BuildRequest(Forecast(location, days), key);
      && r.Success?
      && r.value.path == "/forecast.json"
      && r.value.params.Keys == {"key", "q", "days", "aqi", "alerts"}
      && r.value.params["aqi"] == "yes" && r.value.params["alerts"] == "yes"
      && ParseDecimal(r.value.params["days"]) == ClampDays(days)
      && MinDays <= ParseDecimal(r.value.params["days"]) <= MaxDays
      && (MinDays <= days <= MaxDays ==> ParseDecimal(r.value.params["days"]) == days)
  {
    ParseDecimalString(ClampDays(days));
  }

  /** A forecast call that leaves `days` out asks for three days. */
  lemma DefaultForecastDays(location: string, key: Option<string>)
    requires Truthy(key)
    ensures var r := BuildRequest(Forecast(location, DefaultDays), key);
      r.Success? && r.value.params["days"] == "3"
  {
  }

  /** With a credential, a search is refused before any request exactly when the query is shorter than 3; nothing is trimmed. */
  lemma SearchQueryLength(query: string, key: Option<string>)
    requires Truthy(key)
    ensures BuildRequest(LocationSearch(query), key).Failure? <==> |query| < MinQueryLength
    ensures |query| < MinQueryLength ==> BuildRequest(LocationSearch(query), key) == Failure(QueryTooShortMessage)
    ensures |query| >= MinQueryLength ==> BuildRequest(LocationSearch(query), key) == Success(Request("/search.json", map["key" := key.value, "q" := query]))
  {
  }

  /** "ab" is refused and "abc" proceeds; a leading or trailing space counts as a character. */
  lemma SearchQueryExamples(key: Option<string>)
    requires Truthy(key)
    ensures BuildRequest(LocationSearch("ab"), key) == Failure(QueryTooShortMessage)
    ensures BuildRequest(LocationSearch("abc"), key).Success?
    ensures BuildRequest(LocationSearch(" ab"), key).Success?
  {
  }

  /** The astronomy request has `dt` exactly when a non-empty date is given, and it is that date. */
  lemma AstronomyDateParam(location: string, date: Option<string>, key: Option<string>)
    requires Truthy(key)
    ensures var r := BuildRequest(Astronomy(location, date), key);
      && r.Success?
      && r.value.path == "/astronomy.json"
      && ("dt" in r.value.params <==> Truthy(date))
      && ("dt" in r.value.params ==> r.value.params["dt"] == date.value)
      && r.value.params.Keys - {"dt"} == {"key", "q"}
  {
  }
}
