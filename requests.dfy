/** The pure half of each handler in handlers.py: check the arguments, then
    build the request handed to `fetch` — an endpoint and a parameter map. */
module ProviderRequests {
  import opened Results
  import DateValidation

  /** A parameter value: every flag is sent as text; `days` is sent as a number. */
  datatype Value = Text(s: string) | Number(n: int)

  type Params = map<string, Value>

  /** One call to the provider: the endpoint under `/v1/` and its query parameters. */
  datatype Request = Request(endpoint: string, params: Params)

  const QueryRequired := "query with location is required."
  const DaysOutOfRange := "'days' must be between 1 and 3."

  /** The forecast bound of the provider's free plan. */
  const MinForecastDays := 1
  const MaxForecastDays := 3

  /** Boolean flags go over the wire as the words `yes` and `no`. */
  function YesNo(b: bool): (v: Value)
    ensures v == Text("yes") || v == Text("no")
    ensures v == Text("yes") <==> b
  {
    Text(if b then "yes" else "no")
  }

  /** `get_current_weather`: `q`, and `aqi` from the air-quality flag. */
  function CurrentWeatherRequest(query: string, includeAirQuality: bool): (r: Result<Request>)
    ensures r.Err? <==> query == []
    ensures r.Err? ==> r.msg == QueryRequired
    ensures r.Ok? ==> r.value.endpoint == "current.json" && r.value.params.Keys == {"q", "aqi"}
    ensures r.Ok? ==> r.value.params["q"] == Text(query) && r.value.params["aqi"] == YesNo(includeAirQuality)
  {
    if query == [] then Err(QueryRequired)
    else Ok(Request("current.json", map["q" := Text(query), "aqi" := YesNo(includeAirQuality)]))
  }

  /** `get_weather_forecast`: the query is checked before the day count, and
      the day count must lie in 1..3 inclusive. */
  function ForecastRequest(query: string, days: int, includeAirQuality: bool, includeAlerts: bool): (r: Result<Request>)
    ensures query == [] ==> r == Err(QueryRequired)
    ensures query != [] ==> (r.Ok? <==> MinForecastDays <= days <= MaxForecastDays)
    ensures query != [] && r.Err? ==> r.msg == DaysOutOfRange
    ensures r.Ok? ==> r.value.endpoint == "forecast.json" && r.value.params.Keys == {"q", "days", "aqi", "alerts"}
    ensures r.Ok? ==> r.value.params["q"] == Text(query) && r.value.params["days"] == Number(days)
    ensures r.Ok? ==> r.value.params["aqi"] == YesNo(includeAirQuality) && r.value.params["alerts"] == YesNo(includeAlerts)
  {
    if query == [] then Err(QueryRequired)
    else if days < MinForecastDays || days > MaxForecastDays then Err(DaysOutOfRange)
    else Ok(Request("forecast.json", map[
      "q" := Text(query),
      "days" := Number(days),
      "aqi" := YesNo(includeAirQuality),
      "alerts" := YesNo(includeAlerts)]))
  }

  /** Shared by the two dated handlers: query check, then `validate_date`,
      then `q` and `dt` for the given endpoint. */
  function DatedRequest(endpoint: string, query: string, date: string): (r: Result<Request>)
    ensures query == [] ==> r == Err(QueryRequired)
    ensures query != [] ==> (r.Ok? <==> DateValidation.ValidateDate(date).Pass?)
    ensures query != [] && r.Err? ==> r.msg == DateValidation.ValidateDate(date).msg && Mentions(r.msg, date)
    ensures r.Ok? ==> r.value.endpoint == endpoint && r.value.params.Keys == {"q", "dt"}
    ensures r.Ok? ==> r.value.params["q"] == Text(query) && r.value.params["dt"] == Text(date)
  {
    if query == [] then Err(QueryRequired)
    else match DateValidation.ValidateDate(date)
      case Fail(msg) => Err(msg)
      case Pass => Ok(Request(endpoint, map["q" := Text(query), "dt" := Text(date)]))
  }

  /** `get_weather_history`. */
  function HistoryRequest(query: string, date: string): (r: Result<Request>)
    ensures r.Ok? <==> query != [] && DateValidation.ParseDate(date).Some?
    ensures query == [] ==> r == Err(QueryRequired)
    ensures query != [] && r.Err? ==> r.msg == DateValidation.InvalidDateMessage(date)
    ensures r.Ok? ==> r.value == Request("history.json", map["q" := Text(query), "dt" := Text(date)])
  {
    DatedRequest("history.json", query, date)
  }

  /** `get_astronomy_data`. */
  function AstronomyRequest(query: string, date: string): (r: Result<Request>)
    ensures r.Ok? <==> query != [] && DateValidation.ParseDate(date).Some?
    ensures query == [] ==> r == Err(QueryRequired)
    ensures query != [] && r.Err? ==> r.msg == DateValidation.InvalidDateMessage(date)
    ensures r.Ok? ==> r.value == Request("astronomy.json", map["q" := Text(query), "dt" := Text(date)])
  {
    DatedRequest("astronomy.json", query, date)
  }

  /** Shared by the handlers that send the query alone: `q` for the given endpoint. */
  function LocationRequest(endpoint: string, query: string): (r: Result<Request>)
    ensures r.Err? <==> query == []
    ensures r.Err? ==> r.msg == QueryRequired
    ensures r.Ok? ==> r.value.endpoint == endpoint && r.value.params.Keys == {"q"} && r.value.params["q"] == Text(query)
  {
    if query == [] then Err(QueryRequired)
    else Ok(Request(endpoint, map["q" := Text(query)]))
  }

  /** `get_weather_airquality`: the current-weather endpoint with `aqi` always `yes`. */
  function AirQualityRequest(query: string): (r: Result<Request>)
    ensures r.Err? <==> query == []
    ensures r.Err? ==> r.msg == QueryRequired
    ensures r.Ok? ==> r == CurrentWeatherRequest(query, true)
    ensures r.Ok? ==> r.value.params["aqi"] == Text("yes")
  {
    if query == [] then Err(QueryRequired)
    else Ok(Request("current.json", map["q" := Text(query), "aqi" := Text("yes")]))
  }

  /** `search_locations` (before its result is wrapped). */
  function SearchRequest(query: string): (r: Result<Request>)
    ensures r.Ok? <==> query != []
    ensures r.Err? ==> r.msg == QueryRequired
    ensures r.Ok? ==> r.value == Request("search.json", map["q" := Text(query)])
  {
    LocationRequest("search.json", query)
  }

  /** `get_timezone`. */
  function TimezoneRequest(query: string): (r: Result<Request>)
    ensures r.Ok? <==> query != []
    ensures r.Err? ==> r.msg == QueryRequired
    ensures r.Ok? ==> r.value == Request("timezone.json", map["q" := Text(query)])
  {
    LocationRequest("timezone.json", query)
  }

  /** `get_sport_events`. */
  function SportEventsRequest(query: string): (r: Result<Request>)
    ensures r.Ok? <==> query != []
    ensures r.Err? ==> r.msg == QueryRequired
    ensures r.Ok? ==> r.value == Request("sports.json", map["q" := Text(query)])
  {
    LocationRequest("sports.json", query)
  }

  /** The forecast bound at its edges: 1 and 3 pass, 0 and 4 fail. */
  lemma ForecastBoundEdges(query: string, aqi: bool, alerts: bool)
    requires query != []
    ensures ForecastRequest(query, 1, aqi, alerts).Ok? && ForecastRequest(query, 3, aqi, alerts).Ok?
    ensures ForecastRequest(query, 0, aqi, alerts) == Err(DaysOutOfRange)
    ensures ForecastRequest(query, 4, aqi, alerts) == Err(DaysOutOfRange)
  {
  }
}
