# Weather API tool handlers — a Dafny model

This project models the request layer of a small tool server that forwards
calls to the WeatherAPI.com HTTP service (`weather_api_mcp_server/handlers.py`).
Each of its eight handlers checks its arguments, builds one provider request
(an endpoint such as `forecast.json` and a map of query parameters) and hands
it to `fetch`. `fetch` refuses to run without an API key, writes the key into
the parameter map, and performs the HTTP call.

Modules, one per concern of that file:

- `Results` (`results.dfy`): `Option`, `Result` and `Outcome`; a failure carries
  the message the source puts into its `ValueError`.
- `DateValidation` (`dates.dfy`): `validate_date`, that is
  `datetime.strptime(s, "%Y-%m-%d")`. The model follows `strptime`'s two stages.
  First the format's regular expression must match the whole string. `%Y` is
  four digits. `%m` is `1[0-2]|0[1-9]|[1-9]`. `%d` is
  `3[01]|[12]\d|0[1-9]|[1-9]| [1-9]`. Then the fields must name a real day of
  the proleptic Gregorian calendar, in years 1 to 9999. The model keeps this
  lenient grammar: `2024-2-5` and `2024-02- 5` are accepted beside the ISO 8601
  form `2024-02-05`. The reference description of the accepted strings is
  `Format`: every padding of a date that the grammar admits.
- `ProviderRequests` (`requests.dfy`): the pure half of each handler. It
  checks the query and the handler's own argument, then builds the
  `(endpoint, parameters)` request. Flags are sent as the words `yes`/`no`.
- `Fetching` (`fetch.dfy`): the part of `fetch` before the network. A key that
  is unset or empty fails with "Weather API key not set." before any request.
  Otherwise `key` is written into the parameter map. `FetchSpec` states this
  as a function. The method `Fetch` does it in place on a `ParamDict` object,
  as the source does to the caller's `dict`.
- `Handlers` (`handlers.dfy`): the eight handlers as functions of the key, the
  provider and the arguments. `Run` executes one handler imperatively through
  `Fetch` and is proved to agree with them.

The API key is a parameter (`Option<string>`), not a process-wide global. The
HTTP exchange is a parameter too: `provider: Request -> Result<Json>` receives
the request exactly as sent, key included, and returns the decoded body or an
error message. Every handler returns a `Reply`: its result, plus the list of
requests it sent. "No request was made" is stated as `sent == []`.

Behaviour of the code that a reader might not expect:

- Dates: ISO 8601 (ISO 8601:2004, section 4.1.2.2) writes a calendar date as
  `YYYY-MM-DD` with every field zero-padded. The code uses `strptime`, which
  also accepts one-digit months and days and a space-padded day.
  `IsoDatesAccepted` shows every ISO 8601 date is accepted.
  `UnpaddedFormAccepted` and `SpacePaddedDayAccepted` show two accepted
  strings that are not ISO 8601 dates.
- API key: the key is checked only inside `fetch`. So an argument error is
  reported even when the key is missing (`ArgumentErrorsPrecedeKeyCheck`).
- Forecast length: `days` must lie in 1..3, with the message
  "'days' must be between 1 and 3.".

## Model

| member | source | states |
|---|---|---|
| `DateValidation.LexYear` | weather_api_mcp_server/handlers.py:14 | `%Y` matches exactly four ASCII digits; the year read is in 0..9999 |
| `DateValidation.LexMonth` | weather_api_mcp_server/handlers.py:14 | `%m` matches a one- or two-character month token; the month read is in 1..12 |
| `DateValidation.LexDay` | weather_api_mcp_server/handlers.py:14 | `%d` matches a one- or two-character day token (zero-, space- or un-padded); the day read is in 1..31 |
| `DateValidation.MonthLength` | weather_api_mcp_server/handlers.py:14 | the month field is one character when a hyphen follows it at position 1, else two when a hyphen is at position 2, else the string is refused |
| `DateValidation.Lex` | weather_api_mcp_server/handlers.py:14 | the whole string must match year, hyphen, month, hyphen, day; the fields read are in range |
| `DateValidation.IsLeapYear` | weather_api_mcp_server/handlers.py:14 | leap years are the years divisible by 4, except century years not divisible by 400 |
| `DateValidation.DaysInMonth` | weather_api_mcp_server/handlers.py:14 | February has 29 days in leap years and 28 otherwise; April, June, September and November have 30; the other months 31 |
| `DateValidation.YearLength` | weather_api_mcp_server/handlers.py:14 | the twelve month lengths add up to 366 in a leap year and 365 otherwise |
| `DateValidation.CenturyDivisibility` | weather_api_mcp_server/handlers.py:14 | every year divisible by 100 is divisible by 4, so the century clause of the leap-year rule only removes years |
| `DateValidation.IsGregorian` | weather_api_mcp_server/handlers.py:14 | a real day has a year in 1..9999, a month in 1..12 and a day within its month's length; 29 February exists exactly in leap years; 30 and 31 February and the 31st of April, June, September and November never exist; days 1..28 always exist, and so do all 30 days of April, June, September and November and all 31 days of the long months; every day within its month's length in years 1..9999 exists |
| `DateValidation.ParseDate` | weather_api_mcp_server/handlers.py:14 | `strptime` yields a date only when it is a real Gregorian day with year at least 1 |
| `DateValidation.InvalidDateMessage` | weather_api_mcp_server/handlers.py:16 | the message is `Invalid date: `, then the input verbatim, then `. Use YYYY-MM-DD.` |
| `DateValidation.ValidateDate` | weather_api_mcp_server/handlers.py:12-16 | passes exactly when `strptime` parses the string; a failure's message contains the input verbatim |
| `DateValidation.YearRoundTrip` | weather_api_mcp_server/handlers.py:14 | a four-digit year written out is read back unchanged |
| `DateValidation.MonthRoundTrip` | weather_api_mcp_server/handlers.py:14 | a month written with or without padding is read back unchanged |
| `DateValidation.DayRoundTrip` | weather_api_mcp_server/handlers.py:14 | a day written with any admitted padding is read back unchanged |
| `DateValidation.YearTextOfLexed` | weather_api_mcp_server/handlers.py:14 | an accepted year token is the four-digit text of the year it denotes |
| `DateValidation.MonthTextOfLexed` | weather_api_mcp_server/handlers.py:14 | an accepted month token is the text of its month, padded exactly when it has two characters |
| `DateValidation.DayTextOfLexed` | weather_api_mcp_server/handlers.py:14 | an accepted day token is the text of its day in the padding its first character shows |
| `DateValidation.LexFormat` | weather_api_mcp_server/handlers.py:14 | every admitted way of writing an in-range date is read back as that date |
| `DateValidation.LexedIsFormatted` | weather_api_mcp_server/handlers.py:14 | every string the grammar accepts is one admitted way of writing the date it reads |
| `DateValidation.ValidateDateAcceptsExactly` | weather_api_mcp_server/handlers.py:12-16 | `validate_date` passes if and only if the string writes out a real Gregorian date (year at least 1) in an admitted padding |
| `DateValidation.ParseFormat` | weather_api_mcp_server/handlers.py:14 | an accepted string denotes exactly the date it was written from |
| `DateValidation.IsoDatesAccepted` | weather_api_mcp_server/handlers.py:12-16 | the zero-padded ISO 8601 form of every real date passes |
| `DateValidation.NonexistentDayRejected` | weather_api_mcp_server/handlers.py:12-16 | a well-formed string naming a day that does not exist (or year 0) fails |
| `DateValidation.LeapDayAccepted` | weather_api_mcp_server/handlers.py:12-16 | `2024-02-29` passes |
| `DateValidation.NonLeapDayRejected` | weather_api_mcp_server/handlers.py:12-16 | `2023-02-29` fails with the message naming it |
| `DateValidation.ThirtiethOfFebruaryRejected` | weather_api_mcp_server/handlers.py:12-16 | `2024-02-30` fails |
| `DateValidation.CenturyNonLeapDayRejected` | weather_api_mcp_server/handlers.py:12-16 | `1900-02-29` fails: 1900 is not a leap year |
| `DateValidation.CenturyLeapDayAccepted` | weather_api_mcp_server/handlers.py:12-16 | `2000-02-29` passes: 2000 is a leap year |
| `DateValidation.YearZeroRejected` | weather_api_mcp_server/handlers.py:12-16 | `0000-01-01` matches the grammar but fails the calendar check |
| `DateValidation.MalformedRejected` | weather_api_mcp_server/handlers.py:12-16 | `02-29-2024` and a date with trailing text fail |
| `DateValidation.UnpaddedFormAccepted` | weather_api_mcp_server/handlers.py:12-16 | the non-ISO form `2024-2-5` passes |
| `DateValidation.SpacePaddedDayAccepted` | weather_api_mcp_server/handlers.py:12-16 | the non-ISO form `2024-02- 5` passes |
| `ProviderRequests.YesNo` | weather_api_mcp_server/handlers.py:46 | a flag is sent as `yes` exactly when true and as `no` otherwise, never anything else |
| `ProviderRequests.CurrentWeatherRequest` | weather_api_mcp_server/handlers.py:42-47 | fails with the query message iff the query is empty; else `current.json` with exactly `q` = query and `aqi` from the flag |
| `ProviderRequests.ForecastRequest` | weather_api_mcp_server/handlers.py:50-69 | query checked first; then succeeds iff 1 <= days <= 3; else the days message; `forecast.json` with exactly `q`, `days`, `aqi`, `alerts` |
| `ProviderRequests.ForecastBoundEdges` | weather_api_mcp_server/handlers.py:59-60 | days 1 and 3 are accepted; 0 and 4 are refused with the days message |
| `ProviderRequests.DatedRequest` | weather_api_mcp_server/handlers.py:72-76 | query checked first; then succeeds iff `validate_date` passes, failing with its message (which names the date); exactly `q` and `dt` |
| `ProviderRequests.HistoryRequest` | weather_api_mcp_server/handlers.py:72-76 | succeeds iff the query is non-empty and the date parses; else the query message, or the date message naming the date; on success `history.json` with exactly `q` = query and `dt` = date |
| `ProviderRequests.AirQualityRequest` | weather_api_mcp_server/handlers.py:79-82 | fails iff the query is empty; else the current-weather request with `aqi` always `yes` |
| `ProviderRequests.AstronomyRequest` | weather_api_mcp_server/handlers.py:85-89 | succeeds iff the query is non-empty and the date parses; else the query message, or the date message naming the date; on success `astronomy.json` with exactly `q` = query and `dt` = date |
| `ProviderRequests.LocationRequest` | weather_api_mcp_server/handlers.py:92-108 | fails with the query message iff the query is empty; else exactly `q` = query |
| `ProviderRequests.SearchRequest` | weather_api_mcp_server/handlers.py:92-95 | succeeds iff the query is non-empty, else fails with the query message; on success `search.json` with exactly `q` = query |
| `ProviderRequests.TimezoneRequest` | weather_api_mcp_server/handlers.py:99-102 | succeeds iff the query is non-empty, else fails with the query message; on success `timezone.json` with exactly `q` = query |
| `ProviderRequests.SportEventsRequest` | weather_api_mcp_server/handlers.py:105-108 | succeeds iff the query is non-empty, else fails with the query message; on success `sports.json` with exactly `q` = query |
| `Fetching.KeyMissing` | weather_api_mcp_server/handlers.py:20 | a key is missing exactly when it is unset or the empty string: every non-empty key is usable |
| `Fetching.ParamDict.constructor` | weather_api_mcp_server/handlers.py:19-23 | the dict object that `fetch` receives and updates starts out holding the handler's map literal |
| `Fetching.WithKey` | weather_api_mcp_server/handlers.py:23 | `key` is set to the API key; every other entry is unchanged and no other key appears |
| `Fetching.FetchSpec` | weather_api_mcp_server/handlers.py:19-23 | an unset or empty key fails before any request; otherwise exactly one request carrying the key is sent and its answer returned |
| `Fetching.Fetch` | weather_api_mcp_server/handlers.py:19-23 | the caller's own map gains `key` and nothing else, or is untouched when the key is missing; the result agrees with `FetchSpec` |
| `Fetching.SentRequestExtendsParams` | weather_api_mcp_server/handlers.py:23 | the request sent is the handler's map plus `key`, nothing removed |
| `Handlers.Dispatch` | weather_api_mcp_server/handlers.py:42-108 | an argument error is returned with no request; a valid request goes through the key check to one forwarded request |
| `Handlers.GetCurrentWeather` | weather_api_mcp_server/handlers.py:42-47 | empty query refused first; then the key check; else one `current.json` request with `q`, `aqi` and the key |
| `Handlers.GetWeatherForecast` | weather_api_mcp_server/handlers.py:50-69 | empty query, then days outside 1..3, then missing key refused without a request; else one `forecast.json` request |
| `Handlers.GetWeatherHistory` | weather_api_mcp_server/handlers.py:72-76 | empty query, then an invalid date (message naming it), then missing key refused; else one `history.json` request with `q`, `dt` |
| `Handlers.GetWeatherAirQuality` | weather_api_mcp_server/handlers.py:79-82 | empty query, then missing key refused; else one `current.json` request with `aqi` = `yes` |
| `Handlers.GetAstronomyData` | weather_api_mcp_server/handlers.py:85-89 | empty query, then an invalid date, then missing key refused; else one `astronomy.json` request with `q`, `dt` |
| `Handlers.ItemsEnvelope` | weather_api_mcp_server/handlers.py:96 | a successful answer becomes an object whose only key is `items`, holding the answer unchanged; errors pass through |
| `Handlers.SearchLocations` | weather_api_mcp_server/handlers.py:92-96 | empty query, then missing key refused; else one `search.json` request and the answer wrapped under `items` |
| `Handlers.GetTimezone` | weather_api_mcp_server/handlers.py:99-102 | empty query, then missing key refused; else one `timezone.json` request with `q` and the key |
| `Handlers.GetSportEvents` | weather_api_mcp_server/handlers.py:105-108 | empty query, then missing key refused; else one `sports.json` request with `q` and the key |
| `Handlers.EmptyQueryRefusedFirst` | weather_api_mcp_server/handlers.py:42-108 | every handler refuses an empty query with the query message and sends nothing, whatever its other arguments and key |
| `Handlers.ArgumentErrorsPrecedeKeyCheck` | weather_api_mcp_server/handlers.py:42-108 | an argument error is returned even when the key is missing, and nothing is sent |
| `Handlers.OneRequestPerValidCall` | weather_api_mcp_server/handlers.py:42-108 | at most one request; one exactly when the arguments pass and a key is set; it carries `q` = query and the key; the answer is returned unchanged except for the `items` wrap of search |
| `Handlers.FlagsSentAsYesNo` | weather_api_mcp_server/handlers.py:42-82 | `aqi` and `alerts`, whenever sent, are `yes` or `no` |
| `Handlers.NoKeyNoRequest` | weather_api_mcp_server/handlers.py:19-21 | with no key no handler sends a request; valid arguments then fail with the key message |
| `Handlers.Run` | weather_api_mcp_server/handlers.py:42-108 | running a handler imperatively, with `fetch` updating a fresh parameter map in place, returns what the handler functions state |

## Left out

- The HTTP exchange in `fetch` (URL building, the `httpx` client, status-code check, JSON decoding, error re-wrapping) is network I/O. It is the opaque `provider` argument, whose answer or error message is passed on unchanged.
- Reading the key from the environment (`load_dotenv`, `os.getenv`) is process configuration. The key is an explicit `Option<string>` argument.
- `async`/`await` is left out: the handlers are sequential functions.
- The `TOOL_FUNCTIONS` name table has no behaviour and is not modelled. It maps `get_weather` to the forecast handler and does not list `get_current_weather`. `ToolCall` covers all eight handlers.
- Default argument values (`include_air_quality=False`, `days=1`, `include_alerts=False`) are not modelled: every argument is passed explicitly.
- Python's `\d` in `strptime` also matches non-ASCII decimal digits; the date model accepts ASCII digits only.
- Arguments of the wrong Python type (a `None` query, a non-integer `days`) are excluded by the types: the query is a string and `days` an integer.
- Historical-range aggregation, future forecasts and marine weather are not part of this model: no code for them exists in the modelled file.
- main.py and weather_api_mcp_server/__main__.py only re-export names and start the server, which is not part of this model.
