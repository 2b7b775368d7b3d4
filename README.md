# Hong Kong weather MCP server: report rendering and input gate

The server exposes one tool, `get_weather(dataType, lang)`, over the Hong
Kong Observatory open-data API. The tool checks the data type against six
tags (`flw`, `fnd`, `rhrread`, `warnsum`, `warningInfo`, `swt`) and the
language against three codes (`en`, `tc`, `sc`). For a valid pair it builds
the request URL and fetches the JSON document. It then hands the document
to `formatting_weather`, which picks one of six renderers and turns the
document into report text.

This project models the part that is not I/O:

- the gate;
- the URL;
- the answer for a failed fetch;
- the dispatcher;
- every renderer.

The fetch result is an input, and a Python exception is an explicit
`Err` value.

Modules:

- `Text` (`text.dfy`): Python's `str.join` and `str.split` for one
  character. It proves that splitting undoes joining, which the layout
  lemmas below rest on.
- `PyJson` (`pyjson.dfy`): the decoded JSON value, with objects kept as
  ordered key/value lists, and the Python operations the renderers apply to
  it, each with the exception it raises. The operations are `d.get`,
  `d[k]`, `x[0]`, `len`, `in`, iteration, `items()`, truthiness, `str()`
  and `repr()`. `MapAll` stands for a loop or generator that renders each
  item in turn and stops at the first exception.
- `Renderers` (`renderers.dfy`):
  - `format_warnings`, `format_warnings_summary`,
    `extract_temperature_data` and `extract_rainfall_data` build a list in
    a loop. Each is a `method` with a `while` loop, proved equal to a
    report function.
  - `extract_humidity_data`, `extract_uv_index` and
    `current_weather_process` are functions.
- `Weather` (`weather.dfy`): the `flw`, `fnd` and `swt` branches,
  `formatting_weather`, the URL, and `get_weather`.

## Model

| member | source | states |
|---|---|---|
| Renderers.WarningName | weather.py:40-55 | A code renders exactly when it is one of the twelve table codes, to that code's name; any other string raises KeyError with that code |
| Renderers.FormatWarnings | weather.py:35-62 | The loop's result is exactly the warningInfo report: "No active warnings" for falsy details, else the details rendered in order and joined by a blank line, or the first exception raised |
| Renderers.NoActiveWarnings | weather.py:36-37 | Absent or falsy `details` gives "No active warnings" for a dict document; a non-dict raises AttributeError |
| Renderers.RenderWarningShape | weather.py:55-60 | A complete detail renders. It starts with the table name. The " (" of the subtype suffix follows the name exactly when the subtype is truthy. With a subtype the text is name, " (", subtype, ")", " - ", update time, ": ", then the contents joined by single spaces; without one the parenthesised part is absent |
| Renderers.UnknownCodeFails | weather.py:54-55 | One detail with a code outside the table makes the whole report fail, and is never skipped; if every earlier detail rendered, the error is that code's KeyError (TypeError if the code is unhashable) |
| Renderers.WarningsLayout | weather.py:60-62 | Split at line breaks, the report is the details' texts in order, with one empty line between neighbours |
| Renderers.WarningsExample | weather.py:54-62 | A WRAIN detail renders as "Rainstorm Warning Signal - t1: Heavy rain." |
| Renderers.FormatWarningsSummary | weather.py:64-74 | The loop's result is exactly the summary report: "No warning issued." for an empty mapping, else one line per entry, or AttributeError for an entry whose info is not a dict |
| Renderers.SummaryLineDefaults | weather.py:70-73 | Every info dict renders. Each of name, action code and issue time shows its value when the key is present and "Unknown" when it is absent; an info dict with none of them gives "Unknown (code) - Action: Unknown, Issued at: Unknown" |
| Renderers.SummaryLayout | weather.py:64-74 | An empty mapping gives exactly "No warning issued."; otherwise the report splits into exactly one line per key, in mapping order, each with its defaults |
| Renderers.SummaryNeedsObjects | weather.py:69-72 | One entry whose info is not a dict makes the summary raise AttributeError |
| Renderers.SummaryExample | weather.py:64-74 | A one-entry mapping gives "Tropical Cyclone Warning (TC1) - Action: ISSUE, Issued at: 10:00" |
| Renderers.ExtractTemperatureData | weather.py:76-84 | The loop's result is exactly the temperature report: header, then the readings joined by line breaks; UnboundLocalError without a `temperature` key |
| Renderers.TemperatureMissing | weather.py:77-84 | A dict document without `temperature` raises UnboundLocalError for `temp` |
| Renderers.TemperatureLayout | weather.py:78-83 | Complete readings split into one line per reading, in order, and the header is glued to the first line with no separator |
| Renderers.ExtractRainfallData | weather.py:86-94 | The loop's result is exactly the rainfall report: "Rainfall data:\n " followed by the segments run together; UnboundLocalError without a `rainfall` key |
| Renderers.MaintenanceFlag | weather.py:92-93 | A segment ends in " Under maintenance" exactly when the reading's `main` is "TRUE", and otherwise ends in "maintenance:False" |
| Renderers.RainfallMissing | weather.py:87-94 | A dict document without `rainfall` raises UnboundLocalError for `rain_location` |
| Renderers.RainfallSegments | weather.py:91-94 | When every reading renders, the report is the header followed by the segments in reading order with nothing between them |
| Renderers.HumidityUnavailable | weather.py:97-98 | For a dict document, the fixed "Humidty data not available" is the answer exactly when `humidity` is absent or its `data` is falsy |
| Renderers.HumidityEmptyExample | weather.py:97-98 | An empty reading list gives the not-available text even when a record time is present |
| Renderers.HumidityFirstReadingOnly | weather.py:100-102 | The humidity text depends only on the first reading and the record time |
| Renderers.UvIndexMissing | weather.py:105-109 | A dict document without `uvindex` raises TypeError: the 11-character default text is not shorter than 1, so it is indexed with `'data'` |
| Renderers.UvIndexEmpty | weather.py:105-107 | For a dict document, "No UV index" is the answer exactly when `uvindex` is present and has length zero |
| Renderers.CurrentWeatherSections | weather.py:115-118 | The current-conditions report renders exactly when all four extractions do, and is then temperature, rainfall, humidity and UV, joined by line breaks; a failing temperature extraction's exception is the report's |
| Renderers.CurrentWeatherNeedsTemperatureAndUv | weather.py:76-118 | A dict document lacking `temperature` or `uvindex` never renders |
| Weather.FlwLayout | weather.py:124-133 | A dict renders as exactly nine lines. The first is empty, then come the seven labelled fields in order with their defaults, then a line of eight spaces of indentation |
| Weather.FlwDefault | weather.py:125-131 | An absent field is shown with its default text, including "Unkown" for `tcInfo` |
| Weather.FlwTotal | weather.py:124-133 | The flw branch renders exactly for a dict and raises AttributeError otherwise |
| Weather.ForecastMissing | weather.py:135 | A dict document without `weatherForecast` raises KeyError |
| Weather.ForecastLayout | weather.py:136-141 | When every day renders, the report splits into exactly one line per day, in order |
| Weather.ForecastLineExample | weather.py:137-138 | A complete day renders as "Monday (20240101): Sunny, 15-22            C": the line continuation leaves twelve spaces before the unit |
| Weather.FndExample | weather.py:134-141 | A one-day forecast is that day's line alone |
| Weather.SwtMissing | weather.py:149 | A dict document without `swt` raises KeyError |
| Weather.TipDefaults | weather.py:151 | Every tip dict renders; the update time and description show their values when present and "time unknown" / "no description" when absent, so an empty tip gives "time unknown: no description" |
| Weather.TipsLayout | weather.py:148-154 | A list of tip dicts renders as exactly one line per tip, in order, with "time unknown" and "no description" standing for absent fields |
| Weather.DispatchCovers | weather.py:121-154 | The dispatcher returns `None` exactly for a tag outside the six accepted tags |
| Weather.UrlRoundTrip | weather.py:211 | The parameters read back from a built URL are the tag and language it was built from, so the URL determines the pair |
| Weather.InvalidRejected | weather.py:205-209 | Nothing is requested exactly when the tag or the language is outside its set, and then the reply is the fixed invalid-input message whatever the fetch would give |
| Weather.ValidRequested | weather.py:208-218 | A valid pair requests exactly `HKO_API_BASE?dataType=tag&lang=lang`, and the pair can be read back from that URL. A failed fetch or a body of JSON `null` is answered with "Data is None"; any other document gets the dispatcher's answer |
| Weather.NeverNone | weather.py:205-218 | The tool never returns `None`: the dispatcher's fall-through cannot be reached through it |
| Renderers.RenderWarning | weather.py:54-60 | One detail's text; its properties are stated by RenderWarningShape, WarningText and UnknownCodeFails |
| Renderers.WarningsReport | weather.py:35-62 | The warningInfo report; FormatWarnings, NoActiveWarnings, WarningsLayout and UnknownCodeFails state its properties |
| Renderers.SummaryLine | weather.py:69-73 | One summary line; SummaryLineDefaults and SummaryNeedsObjects state its properties |
| Renderers.SummaryReport | weather.py:64-74 | The warnsum report; FormatWarningsSummary, SummaryLayout and SummaryExample state its properties |
| Renderers.TemperatureLine | weather.py:81-82 | One temperature reading's line; TemperatureLayout states that complete readings give one line each, in order, with the header glued to the first |
| Renderers.TemperatureReport | weather.py:76-84 | The temperature text; ExtractTemperatureData, TemperatureMissing and TemperatureLayout state its properties |
| Renderers.RainfallLine | weather.py:91-93 | One rainfall segment; MaintenanceFlag states how it ends |
| Renderers.RainfallReport | weather.py:86-94 | The rainfall text; ExtractRainfallData, RainfallMissing and RainfallSegments state its properties |
| Renderers.ExtractHumidityData | weather.py:96-102 | The humidity text; HumidityUnavailable, HumidityEmptyExample and HumidityFirstReadingOnly state its properties |
| Renderers.ExtractUvIndex | weather.py:104-112 | The UV text; UvIndexMissing and UvIndexEmpty state its properties |
| Renderers.CurrentWeatherProcess | weather.py:115-118 | The rhrread report; CurrentWeatherSections and CurrentWeatherNeedsTemperatureAndUv state its properties |
| Weather.FlwReport | weather.py:124-133 | The flw report; FlwLayout, FlwDefault and FlwTotal state its properties |
| Weather.ForecastLine | weather.py:137-138 | One forecast day's line; ForecastLineExample states its layout |
| Weather.FndReport | weather.py:134-141 | The fnd report; ForecastMissing, ForecastLayout and FndExample state its properties |
| Weather.TipLine | weather.py:151 | One tip's line; TipDefaults states its "time unknown" and "no description" defaults and TipsLayout the one-line-per-tip layout |
| Weather.SwtReport | weather.py:148-154 | The swt report; SwtMissing and TipsLayout state its properties |
| Weather.FormattingWeather | weather.py:121-154 | The dispatcher; DispatchCovers and NeverNone state its properties |
| Weather.GetWeather | weather.py:160-218 | The tool; InvalidRejected, ValidRequested and NeverNone state its properties |

## Left out

- `make_hko_weather_request` (weather.py:14-33), the HTTP fetch with its
  headers, timeout and exception handling. Its result is the `response`
  parameter of `GetWeather`, with `None` for every failed request. A body
  that decodes to JSON `null` is `Some(JNull)` and is answered as Python's
  `None` is.
- The FastMCP server object, tool registration, `main`, logging setup and
  the stdio transport. This is framework plumbing with no functional
  contract.
- The `print` diagnostics. They are side effects only.
- The docstring of `get_weather`. It is documentation, not behaviour.
- JSON decoding:
  - A document is already a decoded value.
  - An object's members are kept in order, and a key looks up its first
    binding; what Python's decoder does with duplicate keys is not
    modelled.
  - A number is kept as the text Python's `str()` gives for it, so numeric
    formatting is not modelled. Zero-valued numbers that are falsy are
    recognised by that text.
- `repr()` is modelled with single quotes and no escaping; Python switches
  quotes and escapes characters in some strings.
- The order in which Python lists a set in the invalid-input message
  depends on string hashing, which changes between interpreter runs. The
  model takes the two listing orders as parameters of `GetWeather`, and
  they must enumerate the two sets.
- Python's unhashable-key TypeError is modelled only for list and dict
  codes in the warning table. Numbers, booleans and null are hashable and
  raise KeyError.
- Asynchronous execution of the tool is not modelled; the model is one
  call at a time.

Behaviour of weather.py that the model keeps although it looks
accidental:

- The fnd line has twelve spaces before the unit, left by the line
  continuation at weather.py:137-138.
- A missing `uvindex` raises TypeError rather than giving "No UV index".
- The temperature header is glued to the first reading.
- Rainfall segments are joined with nothing between them.
- The program's spellings "Humidty" and "Unkown" are kept.
