# WeatherAPI gateway: a verified model of its request/response normalisation

The gateway offers five tools over the WeatherAPI.com HTTP API: `get_current_weather`,
`get_forecast`, `search_location`, `get_astronomy` and `get_air_quality`. Every tool takes
the same path. It checks the credential, and for a search the query length. It then builds
one GET request, sends it, classifies the reply (HTTP status error, transport failure, or
decoded JSON), and copies a fixed selection of the body's fields into its own record. When
any step fails, the tool returns an error record instead.

This project models that path with the network taken out. The credential is an
`Option<string>`. The provider is a function `fetch` from the request sent to the outcome of
the exchange. A decoded body is a small JSON datatype.

- `wrappers.dfy` — `Option` and `Result`.
- `decimal.dfy` — decimal rendering of numbers (the `days` parameter, the status in
  `"HTTP error: <status>"`) and its inverse.
- `json.dfy` — JSON values and the Python operations the tools apply to them: `x[key]`,
  `x.get(key, default)` and `for item in x`. They raise the same exception kinds Python does
  (`KeyError`, `TypeError`/`AttributeError`). It also holds the two generic shapes every
  projection is built from: a dict literal of copied fields (`Pick`) and a list grown by
  appending in a loop (`Collect`).
- `requests.dfy` — the checks made before any request, and each endpoint's path and
  parameters.
- `responses.dfy` — the upstream outcome, the two `except` clauses, and the returned dict.
- `projections.dfy` — the five projections, with lemmas on what each one keeps, what it
  defaults and when it fails.
- `tools.dfy` — `Invoke`, which states what each tool returns. It also holds
  `get_forecast`, `search_location` and `get_astronomy` as methods, because the source builds
  their results step by step (a loop, a dict it mutates). Each method is proved to return
  what `Invoke` states. Last come the end-to-end lemmas.

## Points of the code worth noting

- `search_location` compares `len(query)` with 3 without trimming, so `" ab"` proceeds.
- The forecast list has exactly as many entries as the upstream `forecastday` array. The
  code does not cut it to the requested day count.
- An error record has the keys `"error"` and, for HTTP status errors only, `"details"`. The
  status appears only inside the text `"HTTP error: <status>"`. There are no separate
  `message`, `status` or `body` keys.

## Model

| member | source | states |
|---|---|---|
| `Decimal.DecimalString` | weather_server.py:74 | the status is written as a non-empty run of decimal digits with no leading zero |
| `Decimal.ParseDecimalString` | weather_server.py:74 | reading a rendered number back gives the number |
| `Decimal.DecimalStringInjective` | weather_server.py:74 | different numbers are rendered as different texts |
| `Json.Index` | weather_server.py:48 | `x[key]` succeeds exactly when `x` is a dict holding `key`, and yields that entry; a non-dict raises the TypeError naming its type, a missing key the KeyError naming the key |
| `Json.Get` | weather_server.py:70 | `x.get(key, default)` succeeds exactly when `x` is a dict; it agrees with `x[key]` except where that raises a KeyError, and there yields the default |
| `Json.Items` | weather_server.py:113 | `for item in x` runs over a list's elements; an empty dict or string gives no iterations, a non-empty one the TypeError of indexing a string item, and a number, boolean or None a TypeError naming its type |
| `Json.Pick` | weather_server.py:47-54 | a dict literal `{k: x[k], ...}` succeeds exactly when `x` is a dict holding every key; it then holds exactly those entries, copied verbatim; otherwise the fault is the TypeError for a non-dict or the KeyError of the first missing key in evaluation order |
| `Json.Collect` | weather_server.py:112-138 | the list built by appending one projection per item exists exactly when every item projects; it then has one entry per item, in item order |
| `Json.CollectFirstFault` | weather_server.py:112-138 | when the loop fails, it fails with the exception of the first item that fails, with every earlier item projecting cleanly |
| `Json.CollectStopsAt` | weather_server.py:113-114 | an exception on item n, after items 0..n-1 succeeded, is the outcome of the whole loop |
| `Requests.BuildRequest` | weather_server.py:30-282 | a request is built exactly when the key is non-empty and, for a search, the query has at least 3 characters; otherwise the credential message (checked first) or the length message; every request carries the key as `key` and the caller's location or query as `q` |
| `Requests.ClampDays` | weather_server.py:95 | the day count sent always lies in [1, 10]; in-range values pass unchanged, lower ones become 1, higher ones 10 |
| `Requests.ClampDaysIdempotent` | weather_server.py:95 | clamping twice is clamping once |
| `Requests.CredentialGate` | weather_server.py:30-31 | no request is built, and the credential message is returned, exactly when the key is absent or empty |
| `Requests.RequestCarriesKeyAndPlace` | weather_server.py:37-41 | every request built carries the key as `key` and the caller's location or query unchanged as `q` |
| `Requests.CurrentEndpointShared` | weather_server.py:275-282 | get_air_quality sends the very request get_current_weather sends: `/current.json` with exactly `key`, the caller's location as `q`, and `aqi` = `"yes"` |
| `Requests.ForecastRequestDays` | weather_server.py:99-108 | the forecast request goes to `/forecast.json` with five parameters, `aqi` and `alerts` being `"yes"`; its `days` reads back as the clamped count, in [1, 10], unchanged when already in range |
| `Requests.DefaultForecastDays` | weather_server.py:80 | a forecast call with the default day count sends `days` as `"3"` |
| `Requests.SearchQueryLength` | weather_server.py:171-172 | with a key, a search is refused with the length message exactly when the query has fewer than 3 characters; otherwise it requests `/search.json` with `key` and `q` only |
| `Requests.SearchQueryExamples` | weather_server.py:171-172 | `"ab"` is refused; `"abc"` and `" ab"` proceed, since nothing is trimmed |
| `Requests.AstronomyDateParam` | weather_server.py:219-225 | the astronomy request has `dt` exactly when a non-empty date is given, `dt` is that date, and its only other keys are `key` and `q` |
| `Responses.Receive` | weather_server.py:43-44 | a reply yields its decoded body exactly when its status is 2xx and the body is JSON; a non-2xx status is the status error with that status and raw body, a lost exchange the transport exception |
| `Responses.ErrorFor` | weather_server.py:73-76 | both `except` clauses give an error record; it has details exactly for an HTTP status error, and those are the raw body; any other exception is carried as `str(e)` |
| `Responses.Finish` | weather_server.py:46-76 | the tool returns a record exactly when the projection succeeded, and that record is the projection; an exception raised while projecting gives `{"error": str(e)}` with no details |
| `Responses.HttpStatusMapping` | weather_server.py:73-74 | a non-2xx reply becomes `{"error": "HTTP error: <status>", "details": <raw body>}`, whatever the body decodes to, and the status can be read back from the text |
| `Responses.ErrorRecordsDistinguishStatus` | weather_server.py:73-76 | only an HTTP status error carries details, and two status errors give the same record only when status and body agree |
| `Responses.GenericFailures` | weather_server.py:75-76 | a transport failure, or a 2xx body that is not JSON, becomes `{"error": str(e)}` carrying that exception |
| `Projections.ProjectCurrentWeather` | weather_server.py:46-72 | a success record has just `location` and `current`, the location being the six location fields verbatim; a body without `location` is an error (whole characterisation in `CurrentWeatherProjection`) |
| `Projections.CurrentWeatherProjection` | weather_server.py:46-72 | the current-weather record exists exactly when every field it reads is present; it then has just `location` (six fields) and `current` (thirteen fields plus `condition` from `condition.text` and `air_quality`), all verbatim |
| `Projections.CurrentWeatherAirQualityOptional` | weather_server.py:70 | removing `current.air_quality` does not change whether the record is built, nor any entry but that one; the entry then becomes `{}`, and when present it is passed through verbatim |
| `Projections.ProjectDay` | weather_server.py:114-138 | one forecast entry has exactly `date`, `day` and `astro`, with the date and the five astro fields verbatim (whole characterisation in `DayProjection`) |
| `Projections.DayProjection` | weather_server.py:114-138 | a forecast day projects exactly when its date, day and astro fields are present, and is then those fields verbatim |
| `Projections.DaysCollect` | weather_server.py:113-138 | the day loop completes exactly when every upstream day is readable |
| `Projections.ForecastDays` | weather_server.py:113 | the loop's iterable exists exactly when the body has a `forecast` dict with a `forecastday` entry, and is that entry |
| `Projections.Alerts` | weather_server.py:149 | the alerts lookup succeeds exactly when the body is a dict whose `alerts`, if present, is a dict, and then yields the alert list or `[]` |
| `Projections.ProjectForecast` | weather_server.py:112-150 | a success record has just `location`, `forecast` and `alerts`, with the five location fields verbatim and the alert list or `[]` (whole characterisation in `ForecastProjection`) |
| `Projections.ForecastProjection` | weather_server.py:112-150 | the forecast record exists exactly when the day list is iterable, every day projects, the location fields are present and `alerts` is absent or a dict; it then has `location`, `forecast` (one entry per upstream day, in order) and `alerts` |
| `Projections.ForecastPreservesOrder` | weather_server.py:112-138 | an upstream `forecastday` array gives a forecast list of the same length whose i-th entry is the projection of the i-th day |
| `Projections.ForecastAlertsDefault` | weather_server.py:149 | a missing `alerts` or `alerts.alert` gives `[]`; a present one is passed through verbatim |
| `Projections.ProjectMatch` | weather_server.py:188-195 | a search hit projects exactly when it is a dict with all six fields, and is then those fields verbatim |
| `Projections.ProjectSearch` | weather_server.py:186-197 | a success record has just `locations`, a list with one entry per upstream item (whole characterisation in `SearchProjection`) |
| `Projections.SearchProjection` | weather_server.py:186-197 | the search record exists exactly when the body is iterable and every hit has its six fields; `locations` then lists every hit, in upstream order, none filtered |
| `Projections.ProjectAstronomy` | weather_server.py:236-252 | a success record has just `location` and `astronomy`, the location being five fields verbatim; a body without `location` is an error (whole characterisation in `AstronomyProjection`) |
| `Projections.AstronomyProjection` | weather_server.py:236-252 | the astronomy record exists exactly when its fields are present; it then holds five location fields (no local time) and the six `astronomy.astro` fields verbatim |
| `Projections.ProjectAirQuality` | weather_server.py:286-295 | a success record has just `location` and `air_quality`, the location being three names verbatim; a body without `current` is an error (whole characterisation in `AirQualityProjection`) |
| `Projections.AirQualityProjection` | weather_server.py:286-295 | the air-quality record needs only a `current` dict and three location names; `air_quality` is verbatim, or `{}` when missing |
| `Tools.Project` | weather_server.py:46-295 | each tool's projection, when it succeeds, has exactly that tool's top-level keys; every tool but search fails on a body without `location` |
| `Tools.Respond` | weather_server.py:34-76 | once the request is sent, the tool returns a record exactly when the reply decodes and projects, and that record is the projection; details appear exactly for a non-2xx reply, as the HTTP error record; a lost exchange gives the transport error |
| `Tools.Invoke` | weather_server.py:20-76 | a tool without a key returns the credential error; any record it returns comes from a request that was built, has exactly the tool's keys, and is the response to that request |
| `Tools.GetForecast` | weather_server.py:79-154 | the method (gate, clamp, request, appending loop, result dict) returns what `Invoke` states for get_forecast |
| `Tools.SearchLocation` | weather_server.py:157-201 | the method (gate, length check, request, appending loop) returns what `Invoke` states for search_location |
| `Tools.GetAstronomy` | weather_server.py:204-256 | the method (gate, parameter dict grown by `dt` when a date is given) returns what `Invoke` states for get_astronomy |
| `Tools.CredentialGateEveryTool` | weather_server.py:30-31 | every tool returns the credential error exactly when the key is absent or empty, and its result then does not depend on the provider at all |
| `Tools.SearchQueryGate` | weather_server.py:168-172 | with a key, search_location returns the length error exactly when the query is shorter than 3, and then without consulting the provider |
| `Tools.HttpErrorEveryTool` | weather_server.py:73-74 | for every tool, a sent request answered with a non-2xx status gives the HTTP error record with the raw body |
| `Tools.TransportFailureEveryTool` | weather_server.py:75-76 | for every tool, a sent request that got no reply gives the generic error record carrying the failure |
| `Tools.RecordIsComplete` | weather_server.py:46-76 | a success record has exactly the tool's keys and is the projection of a decoded 2xx reply to the request built; anything else is an error record |
| `Tools.MissingLocationNameIsError` | weather_server.py:48 | a reply whose `location` lacks `name` gives each location-reading tool the generic error record, never a partial record |

## Left out

- The HTTP client (`httpx.AsyncClient`, the async GET, `raise_for_status`, `response.json()`) is network I/O. It is replaced by the `Upstream` outcome: no reply, or a reply with its status, raw body and decoded body. Following httpx, every status outside 200-299 counts as an HTTP status error.
- Tool registration with FastMCP and `mcp.run()` are framework plumbing.
- Reading `WEATHERAPI_KEY` from the environment is replaced by the `key` parameter.
- The text of `str(e)` for a caught exception is library-defined. The error record keeps the exception itself (`Message.Exception(fault)`): the missing key of a KeyError, and the Python type involved in a TypeError or AttributeError.
- URL encoding of the query string is not modelled. Parameters are a map of texts, and `days` is its decimal text.
- The key order of the returned dicts is not modelled (Dafny maps are unordered). The order of list entries is modelled.
- Numbers in the body are opaque literal texts, passed through without arithmetic. Floating point is not modelled.
- Iterating a non-empty dict or string in the forecast or search loop: Python visits keys or characters, which are strings, and the loop body's first string index raises a TypeError. The model returns that TypeError directly and does not enumerate the keys.
- The default `days = 3` of get_forecast is supplied by the caller: `Requests.DefaultDays` names it, `Forecast(location, DefaultDays)` is the default call, and `Requests.DefaultForecastDays` shows it sends `days` as `"3"`.
- get_current_weather and get_air_quality are single expressions over the reply. They are modelled by `Tools.Invoke` and the projections, with no separate method.
- An exception raised outside the `try` blocks (while the HTTP client itself is being constructed) would escape the tool. It is not modelled.
- There is no shared state between invocations, so concurrency is not modelled.
