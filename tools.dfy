/**
 * The five tools end to end: validate, build the request, hand it to the provider, classify
 * the reply and project it. The provider is a parameter `fetch`, the function from the request
 * sent to the outcome of the exchange; a tool that never applies it makes no network call.
 *
 * `Invoke` states what each tool returns. get_current_weather and get_air_quality are plain
 * expressions over the reply, so `Invoke` is their model; get_forecast, search_location and
 * get_astronomy build their results step by step, and the methods below do so too and are
 * proved to return what `Invoke` does.
 */
module Tools {
  import opened Wrappers
  import opened Decimal
  import opened Json
  import opened Requests
  import opened Responses
  import opened Projections

  /** The projection a tool applies to the decoded body of a successful reply. */
  function Project(call: Call, data: Json): (r: Result<map<string, Json>, Fault>)
    ensures r.Success? ==> r.value.Keys == RecordKeys(call)
    ensures !call.LocationSearch? && !HasKey(data, "location") ==> r.Failure?
  {
    match call
    case CurrentWeather(_) => ProjectCurrentWeather(data)
    case Forecast(_, _) => ProjectForecast(data)
    case LocationSearch(_) => ProjectSearch(data)
    case Astronomy(_, _) => ProjectAstronomy(data)
    case AirQuality(_) => ProjectAirQuality(data)
  }

  /** The `try` block and its two `except` clauses, once the request has been sent. */
  function Respond(call: Call, outcome: Upstream): (r: Response)
    ensures r.Record? <==> Receive(outcome).Success? && Project(call, Receive(outcome).value).Success?
    ensures r.Record? ==> r.fields == Project(call, Receive(outcome).value).value
    ensures r.ErrorRecord? && r.details.Some? <==> outcome.Reply? && !IsSuccessStatus(outcome.status)
    ensures outcome.Reply? && !IsSuccessStatus(outcome.status) ==>
      r == ErrorRecord(Literal(HttpErrorText(outcome.status)), Some(outcome.body))
    ensures outcome.Unreachable? ==> r == ErrorRecord(Exception(Transport(outcome.message)), None)
  {
    match Receive(outcome)
    case Failure(caught) => ErrorFor(caught)
    case Success(data) => Finish(Project(call, data))
  }

  /** What a tool returns for `call`, given the credential and the provider. */
  function Invoke(call: Call, key: Option<string>, fetch: Request -> Upstream): (r: Response)
    ensures !Truthy(key) ==> r == ErrorRecord(Literal(KeyNotSetMessage), None)
    ensures r.Record? ==> BuildRequest(call, key).Success? && r.fields.Keys == RecordKeys(call)
    ensures r.Record? ==> r == Respond(call, fetch(BuildRequest(call, key).value))
  {
    match BuildRequest(call, key)
    case Failure(message) => ErrorRecord(Literal(message), None)
    case Success(request) => Respond(call, fetch(request))
  }

  /** The top-level keys of each tool's success record. */
  function RecordKeys(call: Call): set<string> {
    match call
    case CurrentWeather(_) => {"location", "current"}
    case Forecast(_, _) => {"location", "forecast", "alerts"}
    case LocationSearch(_) => {"locations"}
    case Astronomy(_, _) => {"location", "astronomy"}
    case AirQuality(_) => {"location", "air_quality"}
  }

  // ---------------------------------------------------------------- the imperative tools

  /** get_forecast: clamp, request, then build the day list by appending in a loop. */
  method GetForecast(key: Option<string>, location: string, days: int, fetch: Request -> Upstream)
    returns (r: Response)
    ensures r == Invoke(Forecast(location, days), key, fetch)
  {
    if !Truthy(key) {
      return ErrorRecord(Literal(KeyNotSetMessage), None);
    }
    var clamped := ClampDays(days);
    var request := Request("/forecast.json", ForecastParams(key.value, location, clamped));
    var received := Receive(fetch(request));
    if received.Failure? {
      return ErrorFor(received.error);
    }
    var data := received.value;
    var container := ForecastDays(data);
    if container.Failure? {
      return ErrorRecord(Exception(container.error), None);
    }
    var items := Items(container.value);
    if items.Failure? {
      return ErrorRecord(Exception(items.error), None);
    }
    var forecastDays: seq<Json> := [];
    var i := 0;
    while i < |items.value|
      invariant 0 <= i <= |items.value|
      invariant Collect(items.value[..i], ProjectDay) == Success(forecastDays)
    {
      var day := ProjectDay(items.value[i]);
      if day.Failure? {
        CollectStopsAt(items.value, i, ProjectDay);
        return ErrorRecord(Exception(day.error), None);
      }
      assert items.value[..i + 1][..i] == items.value[..i];
      forecastDays := forecastDays + [day.value];
      i := i + 1;
    }
    assert items.value[..i] == items.value;
    var loc := Index(data, "location");
    if loc.Failure? {
      return ErrorRecord(Exception(loc.error), None);
    }
    var place := Pick(loc.value, LocationKeys);
    if place.Failure? {
      return ErrorRecord(Exception(place.error), None);
    }
    var alerts := Alerts(data);
    if alerts.Failure? {
      return ErrorRecord(Exception(alerts.error), None);
    }
    r := Record(map["location" := Obj(place.value), "forecast" := Arr(forecastDays), "alerts" := alerts.value]);
  }

  /** search_location: credential, then length, then build the hit list by appending in a loop. */
  method SearchLocation(key: Option<string>, query: string, fetch: Request -> Upstream)
    returns (r: Response)
    ensures r == Invoke(LocationSearch(query), key, fetch)
  {
    if !Truthy(key) {
      return ErrorRecord(Literal(KeyNotSetMessage), None);
    }
    if |query| < MinQueryLength {
      return ErrorRecord(Literal(QueryTooShortMessage), None);
    }
    var received := Receive(fetch(Request("/search.json", SearchParams(key.value, query))));
    if received.Failure? {
      return ErrorFor(received.error);
    }
    var items := Items(received.value);
    if items.Failure? {
      return ErrorRecord(Exception(items.error), None);
    }
    var locations: seq<Json> := [];
    var i := 0;
    while i < |items.value|
      invariant 0 <= i <= |items.value|
      invariant Collect(items.value[..i], ProjectMatch) == Success(locations)
    {
      var hit := ProjectMatch(items.value[i]);
      if hit.Failure? {
        CollectStopsAt(items.value, i, ProjectMatch);
        return ErrorRecord(Exception(hit.error), None);
      }
      assert items.value[..i + 1][..i] == items.value[..i];
      locations := locations + [hit.value];
      i := i + 1;
    }
    assert items.value[..i] == items.value;
    r := Record(map["locations" := Arr(locations)]);
  }

  /** get_astronomy: the parameter dict gains `dt` only when a non-empty date is given. */
  method GetAstronomy(key: Option<string>, location: string, date: Option<string>, fetch: Request -> Upstream)
    returns (r: Response)
    ensures r == Invoke(Astronomy(location, date), key, fetch)
  {
    if !Truthy(key) {
      return ErrorRecord(Literal(KeyNotSetMessage), None);
    }
    var params := map["key" := key.value, "q" := location];
    if date.Some? && date.value != "" {
      params := params["dt" := date.value];
    }
    var received := Receive(fetch(Request("/astronomy.json", params)));
    if received.Failure? {
      return ErrorFor(received.error);
    }
    r := Finish(ProjectAstronomy(received.value));
  }

  // ---------------------------------------------------------------- end-to-end properties

  /**
   * Without a non-empty credential every tool returns the credential error, and only then;
   * the provider is never consulted, so the result does not depend on it.
   */
  lemma CredentialGateEveryTool(call: Call, key: Option<string>, fetch: Request -> Upstream, other: Request -> Upstream)
    ensures Invoke(call, key, fetch) == ErrorRecord(Literal(KeyNotSetMessage), None) <==> !Truthy(key)
    ensures !Truthy(key) ==> Invoke(call, key, fetch) == Invoke(call, key, other)
  {
  }

  /**
   * With a credential, search_location returns the length error exactly when the query has
   * fewer than 3 characters, and then without consulting the provider.
   */
  lemma SearchQueryGate(query: string, key: Option<string>, fetch: Request -> Upstream, other: Request -> Upstream)
    requires Truthy(key)
    ensures Invoke(LocationSearch(query), key, fetch) == ErrorRecord(Literal(QueryTooShortMessage), None)
            <==> |query| < MinQueryLength
    ensures |query| < MinQueryLength ==>
      Invoke(LocationSearch(query), key, fetch) == Invoke(LocationSearch(query), key, other)
  {
  }

  /**
   * Once a request is sent, an HTTP status outside 2xx gives every tool the record
   * `{"error": "HTTP error: <status>", "details": <raw body>}`, whatever the body decodes to.
   */
  lemma HttpErrorEveryTool(call: Call, key: Option<string>, fetch: Request -> Upstream)
    requires BuildRequest(call, key).Success?
    requires fetch(BuildRequest(call, key).value).Reply?
    requires !IsSuccessStatus(fetch(BuildRequest(call, key).value).status)
    ensures var outcome := fetch(BuildRequest(call, key).value);
      Invoke(call, key, fetch) == ErrorRecord(Literal(HttpErrorText(outcome.status)), Some(outcome.body))
  {
  }

  /** A transport failure gives every tool the generic error record carrying the failure. */
  lemma TransportFailureEveryTool(call: Call, key: Option<string>, fetch: Request -> Upstream)
    requires BuildRequest(call, key).Success?
    requires fetch(BuildRequest(call, key).value).Unreachable?
    ensures Invoke(call, key, fetch) ==
      ErrorRecord(Exception(Transport(fetch(BuildRequest(call, key).value).message)), None)
  {
  }

  /**
   * A tool never returns a partly filled record: a success record has exactly the tool's
   * keys and is the projection of a successful, decoded reply to the request the tool built;
   * anything else is an error record.
   */
  lemma RecordIsComplete(call: Call, key: Option<string>, fetch: Request -> Upstream)
    ensures var r := Invoke(call, key, fetch);
      r.Record? ==>
        && BuildRequest(call, key).Success?
        && Receive(fetch(BuildRequest(call, key).value)).Success?
        && Project(call, Receive(fetch(BuildRequest(call, key).value)).value) == Success(r.fields)
        && r.fields.Keys == RecordKeys(call)
  {
  }

  /**
   * A successful reply whose `location` lacks `name` gives every tool that reads a location
   * the generic error record, never a record with the name left out.
   */
  lemma MissingLocationNameIsError(call: Call, key: Option<string>, fetch: Request -> Upstream, data: Json)
    requires !call.LocationSearch?
    requires BuildRequest(call, key).Success?
    requires Receive(fetch(BuildRequest(call, key).value)) == Success(data)
    requires HasKey(data, "location") && !HasKey(data.fields["location"], "name")
    ensures Invoke(call, key, fetch).ErrorRecord?
    ensures Invoke(call, key, fetch).error.Exception? && Invoke(call, key, fetch).details.None?
  {
  }
}
