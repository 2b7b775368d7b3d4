/** The dispatcher `formatting_weather` of weather.py, its three inline
    branches (flw, fnd, swt), and the input gate of the `get_weather` tool:
    tag and language validation, the request URL, and the answer for a
    missing document. The fetch itself is an input. */
module Weather {
  import opened Text
  import opened PyJson
  import opened Renderers

  // ---------------------------------------------------------------------
  // flw: local weather forecast
  // ---------------------------------------------------------------------

  /** The seven forecast fields in the order the report shows them: the
      label, the document key, and the text shown when the key is absent
      (the "Unkown" spelling is the program's). */
  const FlwFields: seq<(string, string, string)> := [
    ("General Situation", "generalSituation", "Unknown"),
    ("tcInfo", "tcInfo", "Unkown"),
    ("fireDangerWarning", "fireDangerWarning", "No fire Danger"),
    ("forecastPeriod", "forecastPeriod", "Forecast Period not provided"),
    ("forecastDesc", "forecastDesc", "No forecast description available"),
    ("outlook", "outlook", "No outlook available"),
    ("updateTime", "updateTime", "No update time available")
  ]

  /** The indentation the triple-quoted template puts in front of each line. */
  const Indent := "        "

  /** The line for field `k`: indented label, then the value or its default. */
  function FlwLine(data: Json, k: nat): string
    requires data.JObj? && k < |FlwFields|
  {
    Indent + FlwFields[k].0 + ": " + StrOr(data, FlwFields[k].1, FlwFields[k].2)
  }

  /** The lines of the flw template: an empty first line (the template opens
      with a line break), the seven field lines, and a last line holding only
      the indentation before the closing quotes. */
  function FlwLines(data: Json): seq<string>
    requires data.JObj?
  {
    [""] + seq(|FlwFields|, k requires 0 <= k < |FlwFields| => FlwLine(data, k)) + [Indent]
  }

  /** The flw branch: only a dict has `get`. */
  function FlwReport(data: Json): Result<string> {
    match data
    case JObj(_) => Ok(Join("\n", FlwLines(data)))
    case _ => Err(AttributeError)
  }

  /** For a dict whose shown values hold no line break, the report has
      exactly nine lines: empty, the seven fields in order with their
      defaults, and the trailing indentation. */
  lemma FlwLayout(data: Json)
    requires data.JObj?
    requires forall k :: 0 <= k < |FlwFields| ==> '\n' !in StrOr(data, FlwFields[k].1, FlwFields[k].2)
    ensures FlwReport(data).Ok?
    ensures var lines := Split('\n', FlwReport(data).value);
            |lines| == 9 && lines[0] == "" && lines[8] == Indent &&
            forall k :: 0 <= k < 7 ==>
              lines[k + 1] == Indent + FlwFields[k].0 + ": " + StrOr(data, FlwFields[k].1, FlwFields[k].2)
  {
    var lines := FlwLines(data);
    forall i | 0 <= i < |lines| ensures '\n' !in lines[i] {
      if 1 <= i <= 7 {
        assert lines[i] == FlwLine(data, i - 1);
        FlwLabelClean(i - 1);
      }
    }
    SplitJoin('\n', lines);
  }

  /** No label of the template holds a line break. */
  lemma FlwLabelClean(k: nat)
    requires k < |FlwFields|
    ensures '\n' !in Indent + FlwFields[k].0 + ": "
  {
  }

  /** A field the document lacks is shown with its default text. */
  lemma FlwDefault(data: Json, k: nat)
    requires data.JObj? && k < |FlwFields| && !Has(data, FlwFields[k].1)
    ensures FlwLine(data, k) == Indent + FlwFields[k].0 + ": " + FlwFields[k].2
  {
  }

  /** A document that is not a dict raises AttributeError, and a dict always
      renders. */
  lemma FlwTotal(data: Json)
    ensures FlwReport(data).Ok? <==> data.JObj?
    ensures !data.JObj? ==> FlwReport(data) == Err(AttributeError)
  {
  }

  // ---------------------------------------------------------------------
  // fnd: nine-day forecast
  // ---------------------------------------------------------------------

  /** The gap the backslash line continuation in weather.py leaves between the
      maximum temperature and its unit: the next line's twelve spaces of
      indentation. */
  const ContinuationGap := "            "

  /** One forecast day, reading its fields in the order the template names
      them. The unit is read from the same `forecastMaxtemp` object. */
  function ForecastLine(day: Json): Result<string> {
    var week :- Index(day, "week");
    var date :- Index(day, "forecastDate");
    var weather :- Index(day, "forecastWeather");
    var minTemp :- Index(day, "forecastMintemp");
    var minValue :- Index(minTemp, "value");
    var maxTemp :- Index(day, "forecastMaxtemp");
    var maxValue :- Index(maxTemp, "value");
    var unit :- Index(maxTemp, "unit");
    Ok(Str(week) + " (" + Str(date) + "): " + Str(weather) + ", " + Str(minValue) + "-" + Str(maxValue)
       + ContinuationGap + Str(unit))
  }

  /** The fnd branch: one line per forecast day, joined by line breaks. */
  function FndReport(data: Json): Result<string> {
    var days :- Index(data, "weatherForecast");
    var items :- Iterate(days);
    var lines :- MapAll(ForecastLine, items);
    Ok(Join("\n", lines))
  }

  /** Without `weatherForecast` a dict document raises KeyError. */
  lemma ForecastMissing(data: Json)
    requires data.JObj? && !Has(data, "weatherForecast")
    ensures FndReport(data) == Err(KeyError(JStr("weatherForecast")))
  {
  }

  /** When every day renders and no line holds a line break, the report has
      exactly one line per day, in order. */
  lemma ForecastLayout(data: Json)
    requires Has(data, "weatherForecast") && At(data, "weatherForecast").JArr?
    requires var ds := At(data, "weatherForecast").items;
             |ds| > 0 &&
             forall i :: 0 <= i < |ds| ==> ForecastLine(ds[i]).Ok? && '\n' !in ForecastLine(ds[i]).value
    ensures FndReport(data).Ok?
    ensures var ds := At(data, "weatherForecast").items;
            var lines := Split('\n', FndReport(data).value);
            |lines| == |ds| && forall i :: 0 <= i < |ds| ==> lines[i] == ForecastLine(ds[i]).value
  {
    var ds := At(data, "weatherForecast").items;
    MapAllOk(ForecastLine, ds);
    SplitJoin('\n', MapAll(ForecastLine, ds).value);
  }

  /** The forecast object used by the examples below, one member at a time. */
  function ExampleDay(): Json {
    JObj([("week", JStr("Monday"))] + ExampleDayRest())
  }

  function ExampleDayRest(): seq<(string, Json)> {
    [("forecastDate", JStr("20240101"))] + ([("forecastWeather", JStr("Sunny"))] +
      ([("forecastMintemp", JObj([("value", JNum("15")), ("unit", JStr("C"))]))] +
       [("forecastMaxtemp", JObj([("value", JNum("22")), ("unit", JStr("C"))]))]))
  }

  /** A day with all fields present renders with the unit separated from
      the maximum by the continuation's twelve spaces. */
  lemma ForecastLineExample()
    ensures ForecastLine(ExampleDay()) == Ok("Monday (20240101): Sunny, 15-22            C")
  {
    ExampleDayFields();
    ForecastLineFields(ExampleDay(), JStr("Monday"), JStr("20240101"), JStr("Sunny"),
                       JObj([("value", JNum("15")), ("unit", JStr("C"))]),
                       JObj([("value", JNum("22")), ("unit", JStr("C"))]),
                       JNum("15"), JNum("22"), JStr("C"));
    FndExampleText();
  }

  /** A day whose fields are all present renders from those fields. */
  lemma ForecastLineFields(day: Json, week: Json, date: Json, weather: Json, minTemp: Json, maxTemp: Json,
                           minValue: Json, maxValue: Json, unit: Json)
    requires Index(day, "week") == Ok(week) && Index(day, "forecastDate") == Ok(date)
    requires Index(day, "forecastWeather") == Ok(weather)
    requires Index(day, "forecastMintemp") == Ok(minTemp) && Index(day, "forecastMaxtemp") == Ok(maxTemp)
    requires Index(minTemp, "value") == Ok(minValue)
    requires Index(maxTemp, "value") == Ok(maxValue) && Index(maxTemp, "unit") == Ok(unit)
    ensures ForecastLine(day) ==
              Ok(Str(week) + " (" + Str(date) + "): " + Str(weather) + ", " + Str(minValue)
                 + "-" + Str(maxValue) + ContinuationGap + Str(unit))
  {
  }

  lemma ExampleDayFields()
    ensures Index(ExampleDay(), "week") == Ok(JStr("Monday"))
    ensures Index(ExampleDay(), "forecastDate") == Ok(JStr("20240101"))
    ensures Index(ExampleDay(), "forecastWeather") == Ok(JStr("Sunny"))
    ensures Index(ExampleDay(), "forecastMintemp") == Ok(JObj([("value", JNum("15")), ("unit", JStr("C"))]))
    ensures Index(ExampleDay(), "forecastMaxtemp") == Ok(JObj([("value", JNum("22")), ("unit", JStr("C"))]))
    ensures Index(JObj([("value", JNum("15")), ("unit", JStr("C"))]), "value") == Ok(JNum("15"))
    ensures Index(JObj([("value", JNum("22")), ("unit", JStr("C"))]), "value") == Ok(JNum("22"))
    ensures Index(JObj([("value", JNum("22")), ("unit", JStr("C"))]), "unit") == Ok(JStr("C"))
  {
    var lo := JObj([("value", JNum("15")), ("unit", JStr("C"))]);
    var hi := JObj([("value", JNum("22")), ("unit", JStr("C"))]);
    var f4 := [("forecastMaxtemp", hi)];
    var f3 := [("forecastMintemp", lo)] + f4;
    var f2 := [("forecastWeather", JStr("Sunny"))] + f3;
    var f1 := [("forecastDate", JStr("20240101"))] + f2;
    ForecastKeysDistinct();
    LookupCons(("week", JStr("Monday")), f1);
    LookupCons(("forecastDate", JStr("20240101")), f2);
    LookupCons(("forecastWeather", JStr("Sunny")), f3);
    LookupCons(("forecastMintemp", lo), f4);
    LookupCons(("forecastMaxtemp", hi), []);
    LookupFirst(hi.fields, "value", 0);
    LookupFirst(hi.fields, "unit", 1);
    LookupFirst(lo.fields, "value", 0);
  }

  // Only splits the key comparisons out of ExampleDayFields's proof.
  lemma ForecastKeysDistinct()
    ensures "forecastWeather" != "forecastMintemp" && "forecastWeather" != "forecastMaxtemp"
    ensures "forecastMintemp" != "forecastMaxtemp"
  {
    assert "forecastWeather"[8] == 'W' && "forecastMintemp"[8] == 'M';
    assert "forecastMintemp"[9] == 'i' && "forecastMaxtemp"[9] == 'a';
  }

  /** A one-day forecast is that day's line alone. */
  lemma FndExample()
    ensures FndReport(JObj([("weatherForecast", JArr([ExampleDay()]))]))
              == Ok("Monday (20240101): Sunny, 15-22            C")
  {
    ForecastLineExample();
    MapAllSingle(ForecastLine, ExampleDay());
  }

  // Only splits the literal concatenation out of ForecastLineExample's proof.
  lemma FndExampleText()
    ensures Str(JStr("Monday")) + " (" + Str(JStr("20240101")) + "): " + Str(JStr("Sunny")) + ", " + Str(JNum("15"))
              + "-" + Str(JNum("22")) + ContinuationGap + Str(JStr("C"))
            == "Monday (20240101): Sunny, 15-22            C"
  {
    assert Str(JStr("Monday")) == "Monday" && Str(JStr("20240101")) == "20240101" && Str(JStr("Sunny")) == "Sunny";
    assert Str(JNum("15")) == "15" && Str(JNum("22")) == "22" && Str(JStr("C")) == "C";
    assert "Monday" + " (" == "Monday (";
    assert "Monday (" + "20240101" == "Monday (20240101";
    assert "Monday (20240101" + "): " == "Monday (20240101): ";
    assert "Monday (20240101): " + "Sunny" == "Monday (20240101): Sunny";
    assert "Monday (20240101): Sunny" + ", " == "Monday (20240101): Sunny, ";
    assert "Monday (20240101): Sunny, " + "15" == "Monday (20240101): Sunny, 15";
    assert "Monday (20240101): Sunny, 15" + "-" == "Monday (20240101): Sunny, 15-";
    assert "Monday (20240101): Sunny, 15-" + "22" == "Monday (20240101): Sunny, 15-22";
    assert "Monday (20240101): Sunny, 15-22" + ContinuationGap == "Monday (20240101): Sunny, 15-22            ";
  }

  // ---------------------------------------------------------------------
  // swt: special weather tips
  // ---------------------------------------------------------------------

  /** One tip: its update time and description, each with a default; a tip
      that is not a dict has no `get`. */
  function TipLine(tip: Json): Result<string> {
    match tip
    case JObj(_) => Ok(StrOr(tip, "updateTime", "time unknown") + ": " + StrOr(tip, "desc", "no description"))
    case _ => Err(AttributeError)
  }

  /** The swt branch: one line per tip, joined by line breaks. */
  function SwtReport(data: Json): Result<string> {
    var tipList :- Index(data, "swt");
    var tips :- Iterate(tipList);
    var lines :- MapAll(TipLine, tips);
    Ok(Join("\n", lines))
  }

  /** Without `swt` a dict document raises KeyError. */
  lemma SwtMissing(data: Json)
    requires data.JObj? && !Has(data, "swt")
    ensures SwtReport(data) == Err(KeyError(JStr("swt")))
  {
  }

  /** The line for a tip object, with "time unknown" and "no description"
      standing for absent fields. */
  function ExpectedTipLine(tip: Json): string
    requires tip.JObj?
  {
    (if Has(tip, "updateTime") then Str(At(tip, "updateTime")) else "time unknown") + ": "
      + (if Has(tip, "desc") then Str(At(tip, "desc")) else "no description")
  }

  /** Every tip object renders: the update time and the description show
      their values when present, "time unknown" and "no description" when
      absent, so an empty tip gives "time unknown: no description". */
  lemma TipDefaults(tip: Json)
    requires tip.JObj?
    ensures TipLine(tip) == Ok(ExpectedTipLine(tip))
    ensures !Has(tip, "updateTime") && !Has(tip, "desc") ==>
              TipLine(tip) == Ok("time unknown: no description")
  {
    assert StrOr(tip, "updateTime", "time unknown")
           == if Has(tip, "updateTime") then Str(At(tip, "updateTime")) else "time unknown";
    assert StrOr(tip, "desc", "no description")
           == if Has(tip, "desc") then Str(At(tip, "desc")) else "no description";
    if !Has(tip, "updateTime") && !Has(tip, "desc") {
      assert "time unknown" + ": " + "no description" == "time unknown: no description";
    }
  }

  /** A list of tip objects whose lines hold no line break renders as exactly
      one line per tip, in order, each with its defaults. */
  lemma {:induction false} TipsLayout(data: Json)
    requires Has(data, "swt") && At(data, "swt").JArr?
    requires var ts := At(data, "swt").items;
             |ts| > 0 && forall i :: 0 <= i < |ts| ==> ts[i].JObj? && '\n' !in ExpectedTipLine(ts[i])
    ensures SwtReport(data).Ok?
    ensures var ts := At(data, "swt").items;
            var lines := Split('\n', SwtReport(data).value);
            |lines| == |ts| && forall i :: 0 <= i < |ts| ==> lines[i] == ExpectedTipLine(ts[i])
  {
    var ts := At(data, "swt").items;
    forall i | 0 <= i < |ts| ensures TipLine(ts[i]) == Ok(ExpectedTipLine(ts[i])) {
      TipDefaults(ts[i]);
    }
    MapAllOk(TipLine, ts);
    SplitJoin('\n', MapAll(TipLine, ts).value);
  }

  // ---------------------------------------------------------------------
  // formatting_weather
  // ---------------------------------------------------------------------

  /** A report that succeeded, as a returned string. */
  function Returned(r: Result<string>): (o: Result<Option<string>>)
    ensures o.Ok? <==> r.Ok?
    ensures r.Ok? ==> o == Ok(Some(r.value))
    ensures r.Err? ==> o == Err(r.error)
  {
    match r
    case Ok(s) => Ok(Some(s))
    case Err(e) => Err(e)
  }

  /** The dispatcher: the branch for the tag, or `None` when no branch
      matches. */
  function FormattingWeather(data: Json, dataType: string): Result<Option<string>> {
    if dataType == "flw" then Returned(FlwReport(data))
    else if dataType == "fnd" then Returned(FndReport(data))
    else if dataType == "rhrread" then Returned(CurrentWeatherProcess(data))
    else if dataType == "warnsum" then Returned(SummaryReport(data))
    else if dataType == "warningInfo" then Returned(WarningsReport(data))
    else if dataType == "swt" then Returned(SwtReport(data))
    else Ok(None)
  }

  /** The six data types the tool accepts. */
  const DataTypes: set<string> := {"flw", "fnd", "rhrread", "warnsum", "warningInfo", "swt"}

  /** The three languages the tool accepts. */
  const Langs: set<string> := {"en", "tc", "sc"}

  /** The dispatcher falls through to `None` exactly for a tag outside the
      accepted set. */
  lemma DispatchCovers(data: Json, dataType: string)
    ensures FormattingWeather(data, dataType) == Ok(None) <==> dataType !in DataTypes
  {
    if dataType in DataTypes {
      var r := if dataType == "flw" then FlwReport(data)
        else if dataType == "fnd" then FndReport(data)
        else if dataType == "rhrread" then CurrentWeatherProcess(data)
        else if dataType == "warnsum" then SummaryReport(data)
        else if dataType == "warningInfo" then WarningsReport(data)
        else SwtReport(data);
      assert FormattingWeather(data, dataType) == Returned(r);
    }
  }

  // ---------------------------------------------------------------------
  // get_weather
  // ---------------------------------------------------------------------

  /** The Hong Kong Observatory open-data endpoint. */
  const HkoApiBase := "https://data.weather.gov.hk/weatherAPI/opendata/weather.php"

  /** The request URL for a tag and a language. */
  function Url(dataType: string, lang: string): string {
    HkoApiBase + "?dataType=" + dataType + "&lang=" + lang
  }

  /** The two query parameters of a URL built by `Url`, or `None` for any
      other text. */
  function ParseUrl(url: string): Option<(string, string)> {
    var head := HkoApiBase + "?dataType=";
    if |url| < |head| || url[..|head|] != head then None
    else
      var pieces := Split('&', url[|head|..]);
      if |pieces| != 2 || |pieces[1]| < 5 || pieces[1][..5] != "lang=" then None
      else Some((pieces[0], pieces[1][5..]))
  }

  /** The URL carries the tag and the language back out, so distinct valid
      requests go to distinct URLs. */
  lemma UrlRoundTrip(dataType: string, lang: string)
    requires '&' !in dataType && '&' !in lang
    ensures ParseUrl(Url(dataType, lang)) == Some((dataType, lang))
  {
    var head := HkoApiBase + "?dataType=";
    var url := Url(dataType, lang);
    var query := "lang=" + lang;
    assert url == head + (dataType + "&" + query);
    assert url[..|head|] == head;
    assert url[|head|..] == Join("&", [dataType, query]);
    assert '&' !in query;
    SplitJoin('&', [dataType, query]);
    assert query[..5] == "lang=";
    assert query[5..] == lang;
  }

  /** No accepted tag or language holds `&`. */
  lemma AcceptedHaveNoAmpersand(dataType: string, lang: string)
    requires dataType in DataTypes && lang in Langs
    ensures '&' !in dataType && '&' !in lang
  {
  }

  /** Python's `repr` of a set of strings, given the order it lists them in. */
  function SetRepr(order: seq<string>): string {
    "{" + Join(", ", seq(|order|, i requires 0 <= i < |order| => Quote(order[i]))) + "}"
  }

  /** `order` lists the members of `s`, each once. */
  predicate Enumerates(order: seq<string>, s: set<string>) {
    (forall i :: 0 <= i < |order| ==> order[i] in s) &&
    (forall x :: x in s ==> x in order) &&
    (forall i, j :: 0 <= i < j < |order| ==> order[i] != order[j])
  }

  /** The answer to an invalid tag or language; the two orders are how the
      running interpreter happens to list the two sets. */
  function InvalidMessage(tagOrder: seq<string>, langOrder: seq<string>): string {
    "Invalid dataType or lang. Use dataType in " + SetRepr(tagOrder) + " and " + SetRepr(langOrder)
  }

  /** What one call to the tool does: the URL it requests, if any, and what
      it returns or raises. */
  datatype Call = Call(request: Option<string>, reply: Result<Option<string>>)

  /** The `get_weather` tool. `response` is what the fetch of the request
      URL gives (`None` for any failed request); it is only looked at when a
      request is made. A body that decodes to JSON `null` is Python's `None`
      too, so it is answered like a failed request. */
  function GetWeather(dataType: string, lang: string, tagOrder: seq<string>, langOrder: seq<string>,
                      response: Option<Json>): Call
    requires Enumerates(tagOrder, DataTypes) && Enumerates(langOrder, Langs)
  {
    if dataType !in DataTypes || lang !in Langs then
      Call(None, Ok(Some(InvalidMessage(tagOrder, langOrder))))
    else
      var url := Url(dataType, lang);
      match response
      case None => Call(Some(url), Ok(Some("Data is None")))
      case Some(data) =>
        if data == JNull then Call(Some(url), Ok(Some("Data is None")))
        else Call(Some(url), FormattingWeather(data, dataType))
  }

  /** An invalid tag or language is answered with the fixed message and
      nothing is requested, whatever the fetch would have given. */
  lemma InvalidRejected(dataType: string, lang: string, tagOrder: seq<string>, langOrder: seq<string>,
                        response: Option<Json>)
    requires Enumerates(tagOrder, DataTypes) && Enumerates(langOrder, Langs)
    ensures var c := GetWeather(dataType, lang, tagOrder, langOrder, response);
            c.request.None? <==> dataType !in DataTypes || lang !in Langs
    ensures dataType !in DataTypes || lang !in Langs ==>
              GetWeather(dataType, lang, tagOrder, langOrder, response).reply
                == Ok(Some(InvalidMessage(tagOrder, langOrder)))
  {
  }

  /** A valid pair requests exactly the URL for the pair, from which the
      pair can be read back; a missing or `null` document is answered with
      "Data is None", and any other document with the dispatcher's answer. */
  lemma ValidRequested(dataType: string, lang: string, tagOrder: seq<string>, langOrder: seq<string>,
                       response: Option<Json>)
    requires Enumerates(tagOrder, DataTypes) && Enumerates(langOrder, Langs)
    requires dataType in DataTypes && lang in Langs
    ensures var c := GetWeather(dataType, lang, tagOrder, langOrder, response);
            c.request == Some(Url(dataType, lang)) &&
            ParseUrl(c.request.value) == Some((dataType, lang)) &&
            (response.None? || response == Some(JNull) ==> c.reply == Ok(Some("Data is None"))) &&
            (response.Some? && response.value != JNull ==>
               c.reply == FormattingWeather(response.value, dataType))
  {
    AcceptedHaveNoAmpersand(dataType, lang);
    UrlRoundTrip(dataType, lang);
  }

  /** The tool never returns `None`: every accepted tag has a branch, so the
      dispatcher's fall-through cannot be reached through the tool. */
  lemma NeverNone(dataType: string, lang: string, tagOrder: seq<string>, langOrder: seq<string>,
                  response: Option<Json>)
    requires Enumerates(tagOrder, DataTypes) && Enumerates(langOrder, Langs)
    ensures GetWeather(dataType, lang, tagOrder, langOrder, response).reply != Ok(None)
  {
    if dataType in DataTypes && lang in Langs && response.Some? && response.value != JNull {
      DispatchCovers(response.value, dataType);
    }
  }
}
