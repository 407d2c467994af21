/**
 * The normalisation each tool applies to the decoded body of a successful reply: a selection
 * of fields copied verbatim into the tool's own shape. Each projection performs the lookups
 * of its dict literals (and of its loop) in the order Python evaluates them, so a missing key
 * or a value of the wrong type yields the exception the tool would catch.
 */
module Projections {
  import opened Wrappers
  import opened Json

  const LocationKeys := ["name", "region", "country", "lat", "lon"]
  const CurrentLocationKeys := LocationKeys + ["localtime"]
  const AirQualityLocationKeys := ["name", "region", "country"]

  /** Fields of `current` read before and after `condition.text`. */
  const CurrentLeadKeys := ["temp_c", "temp_f"]
  const CurrentTailKeys := ["wind_kph", "wind_mph", "wind_dir", "pressure_mb", "precip_mm", "humidity",
                            "cloud", "feelslike_c", "feelslike_f", "vis_km", "uv"]

  /** Fields of a forecast day's `day` block read before and after `condition.text`. */
  const DayLeadKeys := ["maxtemp_c", "maxtemp_f", "mintemp_c", "mintemp_f", "avgtemp_c", "avgtemp_f"]
  const DayTailKeys := ["maxwind_kph", "totalprecip_mm", "avghumidity", "daily_chance_of_rain",
                        "daily_chance_of_snow", "uv"]

  const AstroKeys := ["sunrise", "sunset", "moonrise", "moonset", "moon_phase"]
  const AstronomyKeys := AstroKeys + ["moon_illumination"]
  const MatchKeys := ["name", "region", "country", "lat", "lon", "url"]

  /** `x.get(key, default)` for a dict `x`: the entry verbatim, or the default when it is absent. */
  function EntryOr(x: Json, key: string, default: Json): Json
    requires x.Obj?
  {
    if key in x.fields then x.fields[key] else default
  }

  // ---------------------------------------------------------------- get_current_weather

  /** The `location` and `current` blocks; `condition.text` is read between the lead and tail fields. */
  function ProjectCurrentWeather(data: Json): (r: Result<map<string, Json>, Fault>)
    ensures r.Success? ==> r.value.Keys == {"location", "current"}
    ensures r.Success? ==> HasKey(data, "location") && r.value["location"] == Obj(Restrict(data.fields["location"], CurrentLocationKeys))
    ensures !HasKey(data, "location") ==> r.Failure?
  {
    var loc :- Index(data, "location");
    var location :- Pick(loc, CurrentLocationKeys);
    var cur :- Index(data, "current");
    var lead :- Pick(cur, CurrentLeadKeys);
    var condition :- Index(cur, "condition");
    var text :- Index(condition, "text");
    var tail :- Pick(cur, CurrentTailKeys);
    // `cur` is a dict once its lead fields were read, so `cur.get` cannot raise here.
    var airQuality := EntryOr(cur, "air_quality", Obj(map[]));
    Success(map[
      "location" := Obj(location),
      "current" := Obj((lead + tail)["condition" := text]["air_quality" := airQuality])])
  }

  /** Every key the current-weather record reads is there. */
  predicate CurrentWeatherReadable(data: Json) {
    && HasKey(data, "location") && HasKeys(data.fields["location"], CurrentLocationKeys)
    && HasKey(data, "current") && HasKeys(data.fields["current"], CurrentLeadKeys + CurrentTailKeys + ["condition"])
    && HasKey(data.fields["current"].fields["condition"], "text")
  }

  lemma RestrictConcat(x: Json, a: seq<string>, b: seq<string>)
    ensures Restrict(x, a) + Restrict(x, b) == Restrict(x, a + b)
  {
  }

  /**
   * The current-weather projection succeeds exactly when every field it reads is present,
   * and then copies the six location fields and the thirteen plain current fields verbatim, with
   * `condition` taken from `condition.text`, and nothing else.
   */
  lemma CurrentWeatherProjection(data: Json)
    ensures ProjectCurrentWeather(data).Success? <==> CurrentWeatherReadable(data)
    ensures ProjectCurrentWeather(data).Success? ==>
      var r := ProjectCurrentWeather(data).value;
      var cur := data.fields["current"];
      && r.Keys == {"location", "current"}
      && r["location"] == Obj(Restrict(data.fields["location"], CurrentLocationKeys))
      && r["current"] == Obj(Restrict(cur, CurrentLeadKeys + CurrentTailKeys)
                               ["condition" := cur.fields["condition"].fields["text"]]
                               ["air_quality" := EntryOr(cur, "air_quality", Obj(map[]))])
  {
    if HasKey(data, "current") {
      RestrictConcat(data.fields["current"], CurrentLeadKeys, CurrentTailKeys);
    }
  }

  /**
   * A missing `current.air_quality` gives an empty dict, not an error: removing it changes
   * neither whether the projection succeeds nor anything but that one entry.
   */
  lemma CurrentWeatherAirQualityOptional(data: Json)
    requires HasKey(data, "current") && data.fields["current"].Obj?
    ensures var cur := data.fields["current"];
      var stripped := Obj(data.fields["current" := Obj(cur.fields - {"air_quality"})]);
      && (ProjectCurrentWeather(stripped).Success? <==> ProjectCurrentWeather(data).Success?)
      && (ProjectCurrentWeather(stripped).Success? ==>
            ProjectCurrentWeather(stripped).value["current"].fields["air_quality"] == Obj(map[])
            && ProjectCurrentWeather(data).value["current"].fields["air_quality"] == EntryOr(cur, "air_quality", Obj(map[]))
            && ProjectCurrentWeather(data).value["location"] == ProjectCurrentWeather(stripped).value["location"]
            && ProjectCurrentWeather(data).value["current"].fields - {"air_quality"}
               == ProjectCurrentWeather(stripped).value["current"].fields - {"air_quality"})
  {
    var cur := data.fields["current"];
    var stripped := Obj(data.fields["current" := Obj(cur.fields - {"air_quality"})]);
    CurrentWeatherProjection(data);
    CurrentWeatherProjection(stripped);
    var keys := CurrentLeadKeys + CurrentTailKeys;
    assert "air_quality" !in keys;
    assert Restrict(Obj(cur.fields - {"air_quality"}), keys) == Restrict(cur, keys);
  }

  // ---------------------------------------------------------------- get_forecast

  /** One entry of the forecast list: date, the day aggregate and the astro block. */
  function ProjectDay(day: Json): (r: Result<Json, Fault>)
    ensures r.Success? ==> r.value.Obj? && r.value.fields.Keys == {"date", "day", "astro"}
    ensures r.Success? ==> HasKey(day, "date") && r.value.fields["date"] == day.fields["date"]
    ensures r.Success? ==> HasKey(day, "astro") && r.value.fields["astro"] == Obj(Restrict(day.fields["astro"], AstroKeys))
  {
    var date :- Index(day, "date");
    var aggregate :- Index(day, "day");
    var lead :- Pick(aggregate, DayLeadKeys);
    var condition :- Index(aggregate, "condition");
    var text :- Index(condition, "text");
    var tail :- Pick(aggregate, DayTailKeys);
    var astro :- Index(day, "astro");
    var moon :- Pick(astro, AstroKeys);
    Success(Obj(map[
      "date" := date,
      "day" := Obj((lead + tail)["condition" := text]),
      "astro" := Obj(moon)]))
  }

  predicate DayReadable(day: Json) {
    && HasKey(day, "date")
    && HasKey(day, "day") && HasKeys(day.fields["day"], DayLeadKeys + DayTailKeys + ["condition"])
    && HasKey(day.fields["day"].fields["condition"], "text")
    && HasKey(day, "astro") && HasKeys(day.fields["astro"], AstroKeys)
  }

  /** A forecast day projects exactly when its fields are present, and copies them verbatim. */
  lemma DayProjection(day: Json)
    ensures ProjectDay(day).Success? <==> DayReadable(day)
    ensures ProjectDay(day).Success? ==>
      var aggregate := day.fields["day"];
      ProjectDay(day).value == Obj(map[
        "date" := day.fields["date"],
        "day" := Obj(Restrict(aggregate, DayLeadKeys + DayTailKeys)["condition" := aggregate.fields["condition"].fields["text"]]),
        "astro" := Obj(Restrict(day.fields["astro"], AstroKeys))])
  {
    if HasKey(day, "day") {
      RestrictConcat(day.fields["day"], DayLeadKeys, DayTailKeys);
    }
  }

  /** The `forecast.forecastday` value the loop iterates over. */
  function ForecastDays(data: Json): (r: Result<Json, Fault>)
    ensures r.Success? <==> HasKey(data, "forecast") && HasKey(data.fields["forecast"], "forecastday")
    ensures r.Success? ==> r.value == data.fields["forecast"].fields["forecastday"]
  {
    var forecast :- Index(data, "forecast");
    Index(forecast, "forecastday")
  }

  /** `data.get("alerts", {}).get("alert", [])`. */
  function Alerts(data: Json): (r: Result<Json, Fault>)
    ensures r.Success? <==> data.Obj? && AlertsReadable(data)
    ensures r.Success? ==> r.value == AlertsOrEmpty(data)
  {
    var block :- Get(data, "alerts", Obj(map[]));
    Get(block, "alert", Arr([]))
  }

  /** The loop over the forecast days runs first, then the dict literal of the result. */
  function ProjectForecast(data: Json): (r: Result<map<string, Json>, Fault>)
    ensures r.Success? ==> r.value.Keys == {"location", "forecast", "alerts"}
    ensures r.Success? ==> HasKey(data, "location") && r.value["location"] == Obj(Restrict(data.fields["location"], LocationKeys))
    ensures r.Success? ==> data.Obj? && AlertsReadable(data) && r.value["alerts"] == AlertsOrEmpty(data)
  {
    var container :- ForecastDays(data);
    var items :- Items(container);
    var days :- Collect(items, ProjectDay);
    var loc :- Index(data, "location");
    var location :- Pick(loc, LocationKeys);
    var alerts :- Alerts(data);
    Success(map["location" := Obj(location), "forecast" := Arr(days), "alerts" := alerts])
  }

  /** The alerts block reads cleanly: absent, or a dict (whose `alert` entry may be absent). */
  predicate AlertsReadable(data: Json)
    requires data.Obj?
  {
    "alerts" in data.fields ==> data.fields["alerts"].Obj?
  }

  /** The alert list: verbatim when present, empty when `alerts` or `alerts.alert` is missing. */
  function AlertsOrEmpty(data: Json): Json
    requires data.Obj? && AlertsReadable(data)
  {
    if "alerts" in data.fields then EntryOr(data.fields["alerts"], "alert", Arr([])) else Arr([])
  }

  /**
   * The forecast projection succeeds exactly when the day list can be iterated, every day
   * projects, the location fields are present and the alerts block is readable. The forecast
   * list then has one entry per upstream day, in upstream order, with no filtering.
   */
  lemma ForecastProjection(data: Json)
    ensures ProjectForecast(data).Success? <==>
      && ForecastDays(data).Success?
      && Items(ForecastDays(data).value).Success?
      && (forall day :: day in Items(ForecastDays(data).value).value ==> DayReadable(day))
      && HasKey(data, "location") && HasKeys(data.fields["location"], LocationKeys)
      && AlertsReadable(data)
    ensures ProjectForecast(data).Success? ==>
      var r := ProjectForecast(data).value;
      var items := Items(ForecastDays(data).value).value;
      && r.Keys == {"location", "forecast", "alerts"}
      && r["location"] == Obj(Restrict(data.fields["location"], LocationKeys))
      && r["forecast"].Arr? && |r["forecast"].items| == |items|
      && (forall i :: 0 <= i < |items| ==> r["forecast"].items[i] == ProjectDay(items[i]).value)
      && r["alerts"] == AlertsOrEmpty(data)
  {
    var container := ForecastDays(data);
    if container.Success? && Items(container.value).Success? {
      DaysCollect(Items(container.value).value);
    }
  }

  /** The day loop completes exactly when every day is readable. */
  lemma DaysCollect(items: seq<Json>)
    ensures Collect(items, ProjectDay).Success? <==> forall day :: day in items ==> DayReadable(day)
  {
    forall i | 0 <= i < |items| {
      DayProjection(items[i]);
    }
    if forall day :: day in items ==> DayReadable(day) {
      assert forall i :: 0 <= i < |items| ==> ProjectDay(items[i]).Success?;
    } else {
      var day :| day in items && !DayReadable(day);
      var i :| 0 <= i < |items| && items[i] == day;
      assert ProjectDay(items[i]).Failure?;
    }
  }

  /** An upstream day list given as a JSON array is carried over with its length and order. */
  lemma ForecastPreservesOrder(data: Json, days: seq<Json>)
    requires ForecastDays(data) == Success(Arr(days))
    requires ProjectForecast(data).Success?
    ensures var list := ProjectForecast(data).value["forecast"];
      && list.Arr? && |list.items| == |days|
      && forall i :: 0 <= i < |days| ==> list.items[i] == ProjectDay(days[i]).value && DayReadable(days[i])
  {
  }

  /** Missing `alerts` or `alerts.alert` gives an empty list; a present one is passed through verbatim. */
  lemma ForecastAlertsDefault(data: Json)
    requires ProjectForecast(data).Success?
    ensures data.Obj?
    ensures "alerts" !in data.fields ==> ProjectForecast(data).value["alerts"] == Arr([])
    ensures "alerts" in data.fields ==>
      && data.fields["alerts"].Obj?
      && ProjectForecast(data).value["alerts"] ==
           (if "alert" in data.fields["alerts"].fields then data.fields["alerts"].fields["alert"] else Arr([]))
  {
    ForecastProjection(data);
  }

  // ---------------------------------------------------------------- search_location

  /** One search hit: its six fields copied verbatim. */
  function ProjectMatch(hit: Json): (r: Result<Json, Fault>)
    ensures r.Success? <==> HasKeys(hit, MatchKeys)
    ensures r.Success? ==> r.value == Obj(Restrict(hit, MatchKeys))
  {
    var fields :- Pick(hit, MatchKeys);
    Success(Obj(fields))
  }

  /** The body is iterated as a whole, one entry per hit. */
  function ProjectSearch(data: Json): (r: Result<map<string, Json>, Fault>)
    ensures r.Success? ==> r.value.Keys == {"locations"}
    ensures r.Success? ==> Items(data).Success? && r.value["locations"].Arr? && |r.value["locations"].items| == |Items(data).value|
  {
    var items :- Items(data);
    var hits :- Collect(items, ProjectMatch);
    Success(map["locations" := Arr(hits)])
  }

  /**
   * The search projection succeeds exactly when the body can be iterated and every hit has
   * the six fields; the result then lists every hit, in upstream order, none filtered out.
   */
  lemma SearchProjection(data: Json)
    ensures ProjectSearch(data).Success? <==>
      Items(data).Success? && forall hit :: hit in Items(data).value ==> HasKeys(hit, MatchKeys)
    ensures ProjectSearch(data).Success? ==>
      var r := ProjectSearch(data).value;
      var items := Items(data).value;
      && r.Keys == {"locations"}
      && r["locations"].Arr? && |r["locations"].items| == |items|
      && forall i :: 0 <= i < |items| ==> r["locations"].items[i] == Obj(Restrict(items[i], MatchKeys))
  {
  }

  // ---------------------------------------------------------------- get_astronomy

  /** Five location fields (no local time) and the six `astronomy.astro` fields. */
  function ProjectAstronomy(data: Json): (r: Result<map<string, Json>, Fault>)
    ensures r.Success? ==> r.value.Keys == {"location", "astronomy"}
    ensures r.Success? ==> HasKey(data, "location") && r.value["location"] == Obj(Restrict(data.fields["location"], LocationKeys))
    ensures !HasKey(data, "location") ==> r.Failure?
  {
    var loc :- Index(data, "location");
    var location :- Pick(loc, LocationKeys);
    var astronomy :- Index(data, "astronomy");
    var astro :- Index(astronomy, "astro");
    var moon :- Pick(astro, AstronomyKeys);
    Success(map["location" := Obj(location), "astronomy" := Obj(moon)])
  }

  predicate AstronomyReadable(data: Json) {
    && HasKey(data, "location") && HasKeys(data.fields["location"], LocationKeys)
    && HasKey(data, "astronomy") && HasKey(data.fields["astronomy"], "astro")
    && HasKeys(data.fields["astronomy"].fields["astro"], AstronomyKeys)
  }

  /**
   * The astronomy projection succeeds exactly when its fields are present, and then holds the
   * five location fields (no local time) and the six `astronomy.astro` fields verbatim.
   */
  lemma AstronomyProjection(data: Json)
    ensures ProjectAstronomy(data).Success? <==> AstronomyReadable(data)
    ensures ProjectAstronomy(data).Success? ==>
      var r := ProjectAstronomy(data).value;
      && r.Keys == {"location", "astronomy"}
      && r["location"] == Obj(Restrict(data.fields["location"], LocationKeys))
      && r["astronomy"] == Obj(Restrict(data.fields["astronomy"].fields["astro"], AstronomyKeys))
      && "localtime" !in r["location"].fields
  {
  }

  // ---------------------------------------------------------------- get_air_quality

  /** `air_quality` is read before the location fields. */
  function ProjectAirQuality(data: Json): (r: Result<map<string, Json>, Fault>)
    ensures r.Success? ==> r.value.Keys == {"location", "air_quality"}
    ensures r.Success? ==> HasKey(data, "location") && r.value["location"] == Obj(Restrict(data.fields["location"], AirQualityLocationKeys))
    ensures !HasKey(data, "current") ==> r.Failure?
  {
    var cur :- Index(data, "current");
    var airQuality :- Get(cur, "air_quality", Obj(map[]));
    var loc :- Index(data, "location");
    var location :- Pick(loc, AirQualityLocationKeys);
    Success(map["location" := Obj(location), "air_quality" := airQuality])
  }

  /**
   * The air-quality projection needs only a `current` dict and the three location names; a
   * missing `air_quality` gives an empty dict, a present one is passed through verbatim.
   */
  lemma AirQualityProjection(data: Json)
    ensures ProjectAirQuality(data).Success? <==>
      HasKey(data, "current") && data.fields["current"].Obj?
      && HasKey(data, "location") && HasKeys(data.fields["location"], AirQualityLocationKeys)
    ensures ProjectAirQuality(data).Success? ==>
      var r := ProjectAirQuality(data).value;
      && r.Keys == {"location", "air_quality"}
      && r["location"] == Obj(Restrict(data.fields["location"], AirQualityLocationKeys))
      && r["air_quality"] == EntryOr(data.fields["current"], "air_quality", Obj(map[]))
      && ("air_quality" !in data.fields["current"].fields ==> r["air_quality"] == Obj(map[]))
  {
  }
}
