/** The eight handlers of handlers.py: each checks its arguments, builds one
    request and hands it to `fetch`. A handler that refuses its arguments never
    reaches `fetch`, so it sends nothing and never looks at the API key. */
module Handlers {
  import opened Results
  import DateValidation
  import opened ProviderRequests
  import opened Fetching

  /** The handler failed with `msg` without sending any request. */
  predicate Refused(r: Reply, msg: string)
  {
    r == Reply(Err(msg), [])
  }

  /** The handler sent exactly one request, to `endpoint`, carrying `params` and
      the key, and returned the provider's answer to it unchanged. */
  predicate Forwarded(r: Reply, apiKey: Option<string>, endpoint: string, params: Params, provider: Request -> Result<Json>)
  {
    !KeyMissing(apiKey)
    && r.sent == [Request(endpoint, WithKey(params, apiKey.value))]
    && r.result == provider(r.sent[0])
  }

  /** A handler body after its guards: an argument error is raised where it is
      found; a request goes to `fetch`. */
  function Dispatch(apiKey: Option<string>, plan: Result<Request>, provider: Request -> Result<Json>): (r: Reply)
    ensures plan.Err? ==> Refused(r, plan.msg)
    ensures plan.Ok? && KeyMissing(apiKey) ==> Refused(r, KeyNotSet)
    ensures plan.Ok? && !KeyMissing(apiKey) ==> Forwarded(r, apiKey, plan.value.endpoint, plan.value.params, provider)
  {
    match plan
    case Err(msg) => Reply(Err(msg), [])
    case Ok(req) => FetchSpec(apiKey, req, provider)
  }

  function GetCurrentWeather(apiKey: Option<string>, provider: Request -> Result<Json>,
                             query: string, includeAirQuality: bool): (r: Reply)
    ensures query == [] ==> Refused(r, QueryRequired)
    ensures query != [] && KeyMissing(apiKey) ==> Refused(r, KeyNotSet)
    ensures query != [] && !KeyMissing(apiKey) ==>
      Forwarded(r, apiKey, "current.json", map["q" := Text(query), "aqi" := YesNo(includeAirQuality)], provider)
  {
    Dispatch(apiKey, CurrentWeatherRequest(query, includeAirQuality), provider)
  }

  function GetWeatherForecast(apiKey: Option<string>, provider: Request -> Result<Json>,
                              query: string, days: int, includeAirQuality: bool, includeAlerts: bool): (r: Reply)
    ensures query == [] ==> Refused(r, QueryRequired)
    ensures query != [] && !(MinForecastDays <= days <= MaxForecastDays) ==> Refused(r, DaysOutOfRange)
    ensures query != [] && MinForecastDays <= days <= MaxForecastDays && KeyMissing(apiKey) ==> Refused(r, KeyNotSet)
    ensures query != [] && MinForecastDays <= days <= MaxForecastDays && !KeyMissing(apiKey) ==>
      Forwarded(r, apiKey, "forecast.json", map[
        "q" := Text(query),
        "days" := Number(days),
        "aqi" := YesNo(includeAirQuality),
        "alerts" := YesNo(includeAlerts)], provider)
  {
    Dispatch(apiKey, ForecastRequest(query, days, includeAirQuality, includeAlerts), provider)
  }

  function GetWeatherHistory(apiKey: Option<string>, provider: Request -> Result<Json>,
                             query: string, date: string): (r: Reply)
    ensures query == [] ==> Refused(r, QueryRequired)
    ensures query != [] && DateValidation.ParseDate(date).None? ==>
      Refused(r, DateValidation.InvalidDateMessage(date))
    ensures query != [] && DateValidation.ParseDate(date).Some? && KeyMissing(apiKey) ==> Refused(r, KeyNotSet)
    ensures query != [] && DateValidation.ParseDate(date).Some? && !KeyMissing(apiKey) ==>
      Forwarded(r, apiKey, "history.json", map["q" := Text(query), "dt" := Text(date)], provider)
  {
    Dispatch(apiKey, HistoryRequest(query, date), provider)
  }

  function GetWeatherAirQuality(apiKey: Option<string>, provider: Request -> Result<Json>,
                                query: string): (r: Reply)
    ensures query == [] ==> Refused(r, QueryRequired)
    ensures query != [] && KeyMissing(apiKey) ==> Refused(r, KeyNotSet)
    ensures query != [] && !KeyMissing(apiKey) ==>
      Forwarded(r, apiKey, "current.json", map["q" := Text(query), "aqi" := Text("yes")], provider)
  {
    Dispatch(apiKey, AirQualityRequest(query), provider)
  }

  function GetAstronomyData(apiKey: Option<string>, provider: Request -> Result<Json>,
                            query: string, date: string): (r: Reply)
    ensures query == [] ==> Refused(r, QueryRequired)
    ensures query != [] && DateValidation.ParseDate(date).None? ==>
      Refused(r, DateValidation.InvalidDateMessage(date))
    ensures query != [] && DateValidation.ParseDate(date).Some? && KeyMissing(apiKey) ==> Refused(r, KeyNotSet)
    ensures query != [] && DateValidation.ParseDate(date).Some? && !KeyMissing(apiKey) ==>
      Forwarded(r, apiKey, "astronomy.json", map["q" := Text(query), "dt" := Text(date)], provider)
  {
    Dispatch(apiKey, AstronomyRequest(query, date), provider)
  }

  /** `{"items": locations}`: a successful answer is wrapped under the one key
      `items`; an error passes through. */
  function ItemsEnvelope(answer: Result<Json>): (r: Result<Json>)
    ensures r.Ok? <==> answer.Ok?
    ensures r.Err? ==> r == answer
    ensures r.Ok? ==> r.value.Obj? && r.value.fields.Keys == {"items"} && r.value.fields["items"] == answer.value
  {
    match answer
    case Ok(locations) => Ok(Obj(map["items" := locations]))
    case Err(msg) => Err(msg)
  }

  function SearchLocations(apiKey: Option<string>, provider: Request -> Result<Json>,
                           query: string): (r: Reply)
    ensures query == [] ==> Refused(r, QueryRequired)
    ensures query != [] && KeyMissing(apiKey) ==> Refused(r, KeyNotSet)
    ensures query != [] && !KeyMissing(apiKey) ==>
      r.sent == [Request("search.json", WithKey(map["q" := Text(query)], apiKey.value))]
      && r.result == ItemsEnvelope(provider(r.sent[0]))
  {
    var fetched := Dispatch(apiKey, SearchRequest(query), provider);
    if fetched.sent == [] then fetched
    else Reply(ItemsEnvelope(fetched.result), fetched.sent)
  }

  function GetTimezone(apiKey: Option<string>, provider: Request -> Result<Json>,
                       query: string): (r: Reply)
    ensures query == [] ==> Refused(r, QueryRequired)
    ensures query != [] && KeyMissing(apiKey) ==> Refused(r, KeyNotSet)
    ensures query != [] && !KeyMissing(apiKey) ==>
      Forwarded(r, apiKey, "timezone.json", map["q" := Text(query)], provider)
  {
    Dispatch(apiKey, TimezoneRequest(query), provider)
  }

  function GetSportEvents(apiKey: Option<string>, provider: Request -> Result<Json>,
                          query: string): (r: Reply)
    ensures query == [] ==> Refused(r, QueryRequired)
    ensures query != [] && KeyMissing(apiKey) ==> Refused(r, KeyNotSet)
    ensures query != [] && !KeyMissing(apiKey) ==>
      Forwarded(r, apiKey, "sports.json", map["q" := Text(query)], provider)
  {
    Dispatch(apiKey, SportEventsRequest(query), provider)
  }

  // ---------------------------------------------------------------------
  // All handlers at once

  /** The arguments of one call to one handler. */
  datatype ToolCall =
    | CurrentWeather(query: string, includeAirQuality: bool)
    | Forecast(query: string, days: int, includeAirQuality: bool, includeAlerts: bool)
    | History(query: string, date: string)
    | AirQuality(query: string)
    | Astronomy(query: string, date: string)
    | Search(query: string)
    | Timezone(query: string)
    | SportEvents(query: string)

  /** The request a call would hand to `fetch`, or the argument error it raises. */
  function Plan(call: ToolCall): Result<Request>
  {
    match call
    case CurrentWeather(q, aqi) => CurrentWeatherRequest(q, aqi)
    case Forecast(q, days, aqi, alerts) => ForecastRequest(q, days, aqi, alerts)
    case History(q, date) => HistoryRequest(q, date)
    case AirQuality(q) => AirQualityRequest(q)
    case Astronomy(q, date) => AstronomyRequest(q, date)
    case Search(q) => SearchRequest(q)
    case Timezone(q) => TimezoneRequest(q)
    case SportEvents(q) => SportEventsRequest(q)
  }

  function Invoke(apiKey: Option<string>, provider: Request -> Result<Json>, call: ToolCall): Reply
  {
    match call
    case CurrentWeather(q, aqi) => GetCurrentWeather(apiKey, provider, q, aqi)
    case Forecast(q, days, aqi, alerts) => GetWeatherForecast(apiKey, provider, q, days, aqi, alerts)
    case History(q, date) => GetWeatherHistory(apiKey, provider, q, date)
    case AirQuality(q) => GetWeatherAirQuality(apiKey, provider, q)
    case Astronomy(q, date) => GetAstronomyData(apiKey, provider, q, date)
    case Search(q) => SearchLocations(apiKey, provider, q)
    case Timezone(q) => GetTimezone(apiKey, provider, q)
    case SportEvents(q) => GetSportEvents(apiKey, provider, q)
  }

  /** Every handler refuses an empty query first, whatever its other arguments
      and whether or not a key is set, and sends nothing. */
  lemma EmptyQueryRefusedFirst(apiKey: Option<string>, provider: Request -> Result<Json>, call: ToolCall)
    requires call.query == []
    ensures Refused(Invoke(apiKey, provider, call), QueryRequired)
  {
  }

  /** Argument errors are raised before the key is consulted: with invalid
      arguments the reply is the argument error, key or no key. */
  lemma ArgumentErrorsPrecedeKeyCheck(apiKey: Option<string>, provider: Request -> Result<Json>, call: ToolCall)
    requires Plan(call).Err?
    ensures Refused(Invoke(apiKey, provider, call), Plan(call).msg)
  {
  }

  /** A handler sends a request exactly when its arguments pass and a key is
      set, and then exactly one, with `q` equal to the query and the key added;
      its answer is returned unchanged, except that `search_locations` wraps it. */
  lemma OneRequestPerValidCall(apiKey: Option<string>, provider: Request -> Result<Json>, call: ToolCall)
    ensures var r := Invoke(apiKey, provider, call);
      (|r.sent| == 1 <==> Plan(call).Ok? && !KeyMissing(apiKey)) && |r.sent| <= 1
    ensures var r := Invoke(apiKey, provider, call);
      Plan(call).Ok? && !KeyMissing(apiKey) ==>
        r.sent == [Request(Plan(call).value.endpoint, WithKey(Plan(call).value.params, apiKey.value))]
        && r.sent[0].params["q"] == Text(call.query)
        && r.sent[0].params["key"] == Text(apiKey.value)
        && r.result == (if call.Search? then ItemsEnvelope(provider(r.sent[0])) else provider(r.sent[0]))
  {
    match call
    case Search(q) =>
    case _ =>
      if Plan(call).Ok? && !KeyMissing(apiKey) {
        assert Invoke(apiKey, provider, call) == Dispatch(apiKey, Plan(call), provider);
      }
  }

  /** The only flags are `aqi` and `alerts`, and they are only ever `yes` or `no`. */
  lemma FlagsSentAsYesNo(apiKey: Option<string>, provider: Request -> Result<Json>, call: ToolCall, flag: string)
    requires flag in {"aqi", "alerts"}
    requires |Invoke(apiKey, provider, call).sent| == 1
    requires flag in Invoke(apiKey, provider, call).sent[0].params
    ensures Invoke(apiKey, provider, call).sent[0].params[flag] in {Text("yes"), Text("no")}
  {
    OneRequestPerValidCall(apiKey, provider, call);
  }

  /** With no key, no handler ever sends a request. */
  lemma NoKeyNoRequest(apiKey: Option<string>, provider: Request -> Result<Json>, call: ToolCall)
    requires KeyMissing(apiKey)
    ensures Invoke(apiKey, provider, call).sent == []
    ensures Plan(call).Ok? ==> Refused(Invoke(apiKey, provider, call), KeyNotSet)
  {
    OneRequestPerValidCall(apiKey, provider, call);
  }

  /** A handler as it runs: the guards, then a fresh parameter dict that
      `fetch` fills in with the key before sending. Its answer is the one the
      handler functions above describe. */
  method Run(apiKey: Option<string>, provider: Request -> Result<Json>, call: ToolCall) returns (r: Result<Json>)
    ensures r == Invoke(apiKey, provider, call).result
  {
    var plan := Plan(call);
    if plan.Err? {
      ArgumentErrorsPrecedeKeyCheck(apiKey, provider, call);
      return Err(plan.msg);
    }
    var params := new ParamDict(plan.value.params);
    r := Fetch(apiKey, plan.value.endpoint, params, provider);
    if call.Search? {
      r := ItemsEnvelope(r);
    }
    OneRequestPerValidCall(apiKey, provider, call);
    if KeyMissing(apiKey) {
      NoKeyNoRequest(apiKey, provider, call);
    }
  }
}
