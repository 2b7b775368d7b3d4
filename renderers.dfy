/** The report renderers of weather.py: each takes the decoded document and
    gives the report text or the exception Python would raise. The four that
    build a list in a loop are methods proved equal to a report function;
    the dispatcher in module Weather uses the report functions. */
module Renderers {
  import opened Text
  import opened PyJson

  // ---------------------------------------------------------------------
  // format_warnings (warningInfo)
  // ---------------------------------------------------------------------

  /** The twelve warning-statement codes and the names shown for them. */
  const WarningNames: map<string, string> := map[
    "WFIRE" := "Fire Danger Warning",
    "WFROST" := "Frost Warning",
    "WHOT" := "Hot Weather Warning",
    "WCOLD" := "Cold Weather Warning",
    "WMSGNL" := "Strong Monsoon Signal",
    "WTCPRE8" := "Pre-no.8 Special Announcement",
    "WRAIN" := "Rainstorm Warning Signal",
    "WFNTSA" := "Special Announcement on Flooding in the northern New Territories",
    "WL" := "Landslip Warning",
    "WTCSGNL" := "Tropical Cyclone Warning Signal",
    "WTMW" := "Tsunami Warning",
    "WTS" := "Thunderstorm Warning"
  ]

  /** Looking a code up in the name table: a list or dict key is unhashable; any other
      key outside the table is missing. */
  function WarningName(key: Json): (r: Result<string>)
    ensures r.Ok? <==> key.JStr? && key.s in WarningNames
    ensures r.Ok? ==> r.value == WarningNames[key.s]
    ensures key.JStr? && key.s !in WarningNames ==> r == Err(KeyError(key))
  {
    match key
    case JStr(c) => if c in WarningNames then Ok(WarningNames[c]) else Err(KeyError(key))
    case JArr(_) => Err(TypeError)
    case JObj(_) => Err(TypeError)
    case _ => Err(KeyError(key))
  }

  /** The subtype suffix: the subtype in parentheses after a space when it
      is truthy, nothing otherwise. */
  function Suffix(sub: Json): string {
    if Truthy(sub) then " (" + Str(sub) + ")" else ""
  }

  /** One detail record: name, optional subtype, update time, contents. Once
      the code has been read the record is a dict, so reading its subtype
      cannot fail. */
  function RenderWarning(warning: Json): Result<string> {
    var code :- Index(warning, "warningStatementCode");
    var name :- WarningName(code);
    var subtype := Suffix(Lookup(warning.fields, "subtype").GetOr(JNull));
    var time :- Index(warning, "updateTime");
    var contents :- Index(warning, "contents");
    var content :- SpaceJoin(contents);
    Ok(name + subtype + " - " + Str(time) + ": " + content)
  }

  /** The warningInfo report: "No active warnings" unless `details` is
      truthy, else the rendered details separated by blank lines. */
  function WarningsReport(data: Json): Result<string> {
    var details :- Get(data, "details", JNull);
    if !Truthy(details) then Ok("No active warnings")
    else
      var warnings :- Iterate(details);
      var lines :- MapAll(RenderWarning, warnings);
      Ok(Join("\n\n", lines))
  }

  /** format_warnings, appending one rendered detail per turn. */
  method FormatWarnings(data: Json) returns (r: Result<string>)
    ensures r == WarningsReport(data)
  {
    var details :- Get(data, "details", JNull);
    if !Truthy(details) {
      return Ok("No active warnings");
    }
    var warnings: seq<string> := [];
    var items :- Iterate(details);
    var i := 0;
    while i < |items|
      invariant 0 <= i <= |items|
      invariant MapAll(RenderWarning, items[..i]) == Ok(warnings)
    {
      var warning := items[i];
      MapAllStep(RenderWarning, items, i);
      var codeKey :- Index(warning, "warningStatementCode");
      var code :- WarningName(codeKey);
      var sub := Lookup(warning.fields, "subtype").GetOr(JNull);
      var subtype := "";
      if Truthy(sub) {
        subtype := " (" + Str(sub) + ")";
      }
      var time :- Index(warning, "updateTime");
      var contents :- Index(warning, "contents");
      var content :- SpaceJoin(contents);
      warnings := warnings + [code + subtype + " - " + Str(time) + ": " + content];
      i := i + 1;
    }
    assert items[..i] == items;
    return Ok(Join("\n\n", warnings));
  }

  /** The subtype of a record, or None when it has none. */
  function SubtypeOf(warning: Json): Json
    requires warning.JObj?
  {
    Lookup(warning.fields, "subtype").GetOr(JNull)
  }

  /** A detail with a known code, an update time and a list of strings as
      contents renders; the name is the table's, the contents are joined
      with single spaces, and the subtype appears in parentheses exactly
      when it is truthy. */
  lemma RenderWarningShape(warning: Json)
    requires Has(warning, "warningStatementCode") && Has(warning, "updateTime") && Has(warning, "contents")
    requires At(warning, "warningStatementCode").JStr? && At(warning, "warningStatementCode").s in WarningNames
    requires At(warning, "contents").JArr?
    requires forall i :: 0 <= i < |At(warning, "contents").items| ==> At(warning, "contents").items[i].JStr?
    ensures RenderWarning(warning).Ok?
    ensures var name := WarningNames[At(warning, "warningStatementCode").s];
            var s := RenderWarning(warning).value;
            |s| >= |name| + 2 &&
            s[..|name|] == name &&
            (s[|name|..|name| + 2] == " (" <==> Truthy(SubtypeOf(warning))) &&
            (Truthy(SubtypeOf(warning)) ==>
               s == name + " (" + Str(SubtypeOf(warning)) + ")" + " - " + Str(At(warning, "updateTime")) + ": "
                      + Join(" ", AllStrings(At(warning, "contents").items).value)) &&
            (!Truthy(SubtypeOf(warning)) ==>
               s == name + " - " + Str(At(warning, "updateTime")) + ": "
                      + Join(" ", AllStrings(At(warning, "contents").items).value))
  {
    WarningText(warning);
    var name := WarningNames[At(warning, "warningStatementCode").s];
    var time := Str(At(warning, "updateTime"));
    var content := Join(" ", AllStrings(At(warning, "contents").items).value);
    SuffixMarker(name, SubtypeOf(warning), time, content);
    if Truthy(SubtypeOf(warning)) {
      SuffixText(name, SubtypeOf(warning), time, content);
    }
  }

  lemma WarningText(warning: Json)
    requires Has(warning, "warningStatementCode") && Has(warning, "updateTime") && Has(warning, "contents")
    requires At(warning, "warningStatementCode").JStr? && At(warning, "warningStatementCode").s in WarningNames
    requires At(warning, "contents").JArr?
    requires forall i :: 0 <= i < |At(warning, "contents").items| ==> At(warning, "contents").items[i].JStr?
    ensures RenderWarning(warning) ==
              Ok(WarningNames[At(warning, "warningStatementCode").s] + Suffix(SubtypeOf(warning)) + " - "
                 + Str(At(warning, "updateTime")) + ": " + Join(" ", AllStrings(At(warning, "contents").items).value))
  {
    var code := At(warning, "warningStatementCode");
    var contents := At(warning, "contents");
    assert Index(warning, "warningStatementCode") == Ok(code);
    assert WarningName(code) == Ok(WarningNames[code.s]);
    assert Index(warning, "updateTime") == Ok(At(warning, "updateTime"));
    assert Index(warning, "contents") == Ok(contents);
    assert SpaceJoin(contents) == Ok(Join(" ", AllStrings(contents.items).value));
  }

  /** Right after the name comes " (" exactly when there is a subtype. */
  lemma SuffixMarker(name: string, sub: Json, time: string, content: string)
    ensures var s := name + Suffix(sub) + " - " + time + ": " + content;
            |s| >= |name| + 2 && s[..|name|] == name &&
            (s[|name|..|name| + 2] == " (" <==> Truthy(sub)) &&
            (!Truthy(sub) ==> s == name + " - " + time + ": " + content)
  {
    var sfx := Suffix(sub);
    var tail := " - " + time + ": " + content;
    var s := name + sfx + " - " + time + ": " + content;
    assert s == name + sfx + tail;
    assert tail[..2] == " -";
    assert s[..|name|] == name;
    if Truthy(sub) {
      assert sfx[..2] == " (";
      assert s[|name|..|name| + 2] == sfx[..2];
    } else {
      assert sfx == "";
      assert s == name + tail;
      assert s[|name|..|name| + 2] == tail[..2];
    }
  }

  /** With a subtype, the suffix is the subtype's text in parentheses. */
  lemma SuffixText(name: string, sub: Json, time: string, content: string)
    requires Truthy(sub)
    ensures name + Suffix(sub) + " - " + time + ": " + content
              == name + " (" + Str(sub) + ")" + " - " + time + ": " + content
  {
    assert name + Suffix(sub) == name + " (" + Str(sub) + ")";
  }

  /** A dict document whose `details` is absent or falsy (null, an empty
      list, an empty text, zero) has no active warnings; any other document
      raises AttributeError at the first lookup. */
  lemma NoActiveWarnings(data: Json)
    requires !Has(data, "details") || !Truthy(At(data, "details"))
    ensures data.JObj? ==> WarningsReport(data) == Ok("No active warnings")
    ensures !data.JObj? ==> WarningsReport(data) == Err(AttributeError)
  {
  }

  /** Any detail whose code is outside the table makes the whole report
      fail; if every earlier detail rendered, the exception is the
      KeyError (or, for an unhashable code, TypeError) of that code. */
  lemma UnknownCodeFails(data: Json, k: nat)
    requires Has(data, "details") && At(data, "details").JArr?
    requires k < |At(data, "details").items|
    requires Has(At(data, "details").items[k], "warningStatementCode")
    requires var code := At(At(data, "details").items[k], "warningStatementCode");
             !(code.JStr? && code.s in WarningNames)
    ensures WarningsReport(data).Err?
    ensures var items := At(data, "details").items;
            (forall i :: 0 <= i < k ==> RenderWarning(items[i]).Ok?) ==>
              WarningsReport(data) == Err(WarningName(At(items[k], "warningStatementCode")).error)
  {
    var items := At(data, "details").items;
    assert Truthy(At(data, "details"));
    MapAllOk(RenderWarning, items);
    if forall i :: 0 <= i < k ==> RenderWarning(items[i]).Ok? {
      MapAllErr(RenderWarning, items, k);
    }
  }

  /** With every detail rendered and no line break inside a rendering,
      taking the report apart at line breaks gives one rendering per detail,
      in order, with an empty line between neighbours. */
  lemma WarningsLayout(data: Json)
    requires Has(data, "details") && At(data, "details").JArr? && |At(data, "details").items| > 0
    requires forall i :: 0 <= i < |At(data, "details").items| ==>
               RenderWarning(At(data, "details").items[i]).Ok? &&
               '\n' !in RenderWarning(At(data, "details").items[i]).value
    ensures WarningsReport(data).Ok?
    ensures var items := At(data, "details").items;
            Split('\n', WarningsReport(data).value) ==
              Spaced(seq(|items|, i requires 0 <= i < |items| => RenderWarning(items[i]).value))
  {
    var items := At(data, "details").items;
    MapAllOk(RenderWarning, items);
    var lines := MapAll(RenderWarning, items).value;
    assert lines == seq(|items|, i requires 0 <= i < |items| => RenderWarning(items[i]).value);
    assert Truthy(At(data, "details"));
    SplitJoinDoubled('\n', lines);
  }

  /** The detail renderer on a Rainstorm warning record. */
  lemma WarningsExample()
    ensures WarningsReport(JObj([("details", JArr([JObj([
              ("warningStatementCode", JStr("WRAIN")),
              ("updateTime", JStr("t1")),
              ("contents", JArr([JStr("Heavy rain.")]))])]))]))
            == Ok("Rainstorm Warning Signal - t1: Heavy rain.")
  {
    var contents := JArr([JStr("Heavy rain.")]);
    var w := JObj([("warningStatementCode", JStr("WRAIN")), ("updateTime", JStr("t1")), ("contents", contents)]);
    LookupFirst(w.fields, "warningStatementCode", 0);
    LookupFirst(w.fields, "updateTime", 1);
    LookupFirst(w.fields, "contents", 2);
    assert Lookup(w.fields, "subtype") == None;
    RenderWarningShape(w);
    var parts := AllStrings(contents.items);
    assert parts.Some? && |parts.value| == 1 && parts.value[0] == "Heavy rain.";
    assert parts.value == ["Heavy rain."];
    assert RenderWarning(w) == Ok("Rainstorm Warning Signal" + " - " + "t1" + ": " + "Heavy rain.");
    WarningsExampleText();
    MapAllSingle(RenderWarning, w);
  }

  // Only splits the literal concatenation out of WarningsExample's proof.
  lemma WarningsExampleText()
    ensures "Rainstorm Warning Signal" + " - " + "t1" + ": " + "Heavy rain."
            == "Rainstorm Warning Signal - t1: Heavy rain."
  {
    assert "Rainstorm Warning Signal" + " - " == "Rainstorm Warning Signal - ";
    assert "Rainstorm Warning Signal - " + "t1" == "Rainstorm Warning Signal - t1";
    assert "Rainstorm Warning Signal - t1" + ": " == "Rainstorm Warning Signal - t1: ";
  }

  // ---------------------------------------------------------------------
  // format_warnings_summary (warnsum)
  // ---------------------------------------------------------------------

  /** One summary line for one `(code, info)` pair of the mapping. */
  function SummaryLine(entry: (string, Json)): Result<string> {
    var (code, info) := entry;
    if !info.JObj? then Err(AttributeError)  // `.get` on a non-dict
    else
      var name := StrOr(info, "name", "Unknown");
      var action := StrOr(info, "actionCode", "Unknown");
      var issueTime := StrOr(info, "issueTime", "Unknown");
      Ok(name + " (" + code + ") - Action: " + action + ", Issued at: " + issueTime)
  }

  /** The warnsum report: "No warning issued." for an empty mapping, else
      one line per entry. */
  function SummaryReport(data: Json): Result<string> {
    var entries :- Items(data);
    if |entries| == 0 then Ok("No warning issued.")
    else
      var lines :- MapAll(SummaryLine, entries);
      Ok(Join("\n", lines))
  }

  /** format_warnings_summary, appending one line per entry. */
  method FormatWarningsSummary(warningsData: Json) returns (r: Result<string>)
    ensures r == SummaryReport(warningsData)
  {
    var finalWarningList: seq<string> := [];
    var entries :- Items(warningsData);
    if |entries| == 0 {
      return Ok("No warning issued.");
    }
    var i := 0;
    while i < |entries|
      invariant 0 <= i <= |entries|
      invariant MapAll(SummaryLine, entries[..i]) == Ok(finalWarningList)
    {
      var (warningCode, warningInfo) := entries[i];
      MapAllStep(SummaryLine, entries, i);
      if !warningInfo.JObj? {
        return Err(AttributeError);
      }
      var warningName := StrOr(warningInfo, "name", "Unknown");
      var action := StrOr(warningInfo, "actionCode", "Unknown");
      var issueTime := StrOr(warningInfo, "issueTime", "Unknown");
      finalWarningList := finalWarningList +
        [warningName + " (" + warningCode + ") - Action: " + action + ", Issued at: " + issueTime];
      i := i + 1;
    }
    assert entries[..i] == entries;
    return Ok(Join("\n", finalWarningList));
  }

  /** What the summary shows for field `key` of an info object: the field's
      text when it is present, "Unknown" when it is absent. */
  function FieldOrUnknown(info: Json, key: string): string
    requires info.JObj?
  {
    if Has(info, key) then Str(At(info, key)) else "Unknown"
  }

  /** The line the summary shows for code `code` with info object `info`. */
  function ExpectedSummaryLine(code: string, info: Json): string
    requires info.JObj?
  {
    FieldOrUnknown(info, "name") + " (" + code + ") - Action: " + FieldOrUnknown(info, "actionCode")
      + ", Issued at: " + FieldOrUnknown(info, "issueTime")
  }

  /** Every info object renders: each of the three fields shows its text
      when present and "Unknown" when absent, so an info object with none
      of them renders as "Unknown (code) - Action: Unknown, Issued at:
      Unknown". */
  lemma SummaryLineDefaults(code: string, info: Json)
    requires info.JObj?
    ensures SummaryLine((code, info)) == Ok(ExpectedSummaryLine(code, info))
    ensures !Has(info, "name") && !Has(info, "actionCode") && !Has(info, "issueTime") ==>
              SummaryLine((code, info)) == Ok("Unknown (" + code + ") - Action: Unknown, Issued at: Unknown")
  {
    assert StrOr(info, "name", "Unknown") == FieldOrUnknown(info, "name");
    assert StrOr(info, "actionCode", "Unknown") == FieldOrUnknown(info, "actionCode");
    assert StrOr(info, "issueTime", "Unknown") == FieldOrUnknown(info, "issueTime");
    if !Has(info, "name") && !Has(info, "actionCode") && !Has(info, "issueTime") {
      UnknownLine(code);
    }
  }

  /** The line for an info object without any of the three fields; this
      only splits the literal concatenation out of SummaryLineDefaults. */
  lemma UnknownLine(code: string)
    ensures "Unknown" + " (" + code + ") - Action: " + "Unknown" + ", Issued at: " + "Unknown"
              == "Unknown (" + code + ") - Action: Unknown, Issued at: Unknown"
  {
    var tail := ") - Action: " + "Unknown" + ", Issued at: " + "Unknown";
    assert tail == ") - Action: Unknown, Issued at: Unknown";
    assert "Unknown" + " (" == "Unknown (";
  }

  /** The summary of a mapping whose entries are all objects: exactly
      "No warning issued." when the mapping is empty; otherwise, when no
      line holds a line break, splitting it at line breaks gives exactly one
      line per entry, in mapping order. */
  lemma {:induction false} SummaryLayout(data: Json)
    requires data.JObj?
    requires forall i :: 0 <= i < |data.fields| ==> data.fields[i].1.JObj?
    requires forall i :: 0 <= i < |data.fields| ==>
               '\n' !in ExpectedSummaryLine(data.fields[i].0, data.fields[i].1)
    ensures SummaryReport(data).Ok?
    ensures |data.fields| == 0 ==> SummaryReport(data).value == "No warning issued."
    ensures |data.fields| > 0 ==>
              var lines := Split('\n', SummaryReport(data).value);
              |lines| == |data.fields| &&
              forall i :: 0 <= i < |lines| ==> lines[i] == ExpectedSummaryLine(data.fields[i].0, data.fields[i].1)
  {
    var fs := data.fields;
    if |fs| > 0 {
      forall i | 0 <= i < |fs| ensures SummaryLine(fs[i]) == Ok(ExpectedSummaryLine(fs[i].0, fs[i].1)) {
        SummaryLineDefaults(fs[i].0, fs[i].1);
      }
      MapAllOk(SummaryLine, fs);
      var lines := MapAll(SummaryLine, fs).value;
      SplitJoin('\n', lines);
    }
  }

  /** An entry whose info is not an object raises AttributeError, unless an
      earlier entry already did. */
  lemma SummaryNeedsObjects(data: Json, k: nat)
    requires data.JObj? && k < |data.fields|
    requires !data.fields[k].1.JObj?
    ensures SummaryReport(data) == Err(AttributeError)
  {
    var fs := data.fields;
    MapAllOk(SummaryLine, fs);
    var first :| 0 <= first < |fs| && SummaryLine(fs[first]).Err? &&
                 forall i :: 0 <= i < first ==> SummaryLine(fs[i]).Ok?
      by { FirstFailure(fs, k); }
    MapAllErr(SummaryLine, fs, first);
  }

  /** Some entry is the first one whose line cannot be rendered. */
  lemma {:induction false} FirstFailure(fs: seq<(string, Json)>, k: nat)
    requires k < |fs| && SummaryLine(fs[k]).Err?
    ensures exists first :: 0 <= first <= k && SummaryLine(fs[first]).Err? &&
              forall i :: 0 <= i < first ==> SummaryLine(fs[i]).Ok?
  {
    if exists j :: 0 <= j < k && SummaryLine(fs[j]).Err? {
      var j :| 0 <= j < k && SummaryLine(fs[j]).Err?;
      FirstFailure(fs, j);
    } else {
      assert forall i :: 0 <= i < k ==> SummaryLine(fs[i]).Ok?;
    }
  }

  /** The summary renderer on one tropical cyclone entry. */
  lemma SummaryExample()
    ensures SummaryReport(JObj([("TC1", JObj([
              ("name", JStr("Tropical Cyclone Warning")),
              ("actionCode", JStr("ISSUE")),
              ("issueTime", JStr("10:00"))]))]))
            == Ok("Tropical Cyclone Warning (TC1) - Action: ISSUE, Issued at: 10:00")
  {
    var info := JObj([
      ("name", JStr("Tropical Cyclone Warning")),
      ("actionCode", JStr("ISSUE")),
      ("issueTime", JStr("10:00"))]);
    var name := StrOr(info, "name", "Unknown");
    var action := StrOr(info, "actionCode", "Unknown");
    var issued := StrOr(info, "issueTime", "Unknown");
    assert name == "Tropical Cyclone Warning" by { LookupFirst(info.fields, "name", 0); }
    assert action == "ISSUE" by { LookupFirst(info.fields, "actionCode", 1); }
    assert issued == "10:00" by { LookupFirst(info.fields, "issueTime", 2); }
    assert SummaryLine(("TC1", info)) == Ok(name + " (" + "TC1" + ") - Action: " + action + ", Issued at: " + issued);
    SummaryExampleText();
    MapAllSingle(SummaryLine, ("TC1", info));
  }

  // Only splits the literal concatenation out of SummaryExample's proof.
  lemma SummaryExampleText()
    ensures "Tropical Cyclone Warning" + " (" + "TC1" + ") - Action: " + "ISSUE" + ", Issued at: " + "10:00"
            == "Tropical Cyclone Warning (TC1) - Action: ISSUE, Issued at: 10:00"
  {
    assert "Tropical Cyclone Warning" + " (" == "Tropical Cyclone Warning (";
    assert "Tropical Cyclone Warning (" + "TC1" == "Tropical Cyclone Warning (TC1";
    assert "Tropical Cyclone Warning (TC1" + ") - Action: " == "Tropical Cyclone Warning (TC1) - Action: ";
    assert "Tropical Cyclone Warning (TC1) - Action: " + "ISSUE" == "Tropical Cyclone Warning (TC1) - Action: ISSUE";
    assert "Tropical Cyclone Warning (TC1) - Action: ISSUE" + ", Issued at: "
        == "Tropical Cyclone Warning (TC1) - Action: ISSUE, Issued at: ";
  }

  // ---------------------------------------------------------------------
  // extract_temperature_data
  // ---------------------------------------------------------------------

  /** One temperature reading: `place: value°unit`. */
  function TemperatureLine(temp: Json): Result<string> {
    var place :- Index(temp, "place");
    var value :- Index(temp, "value");
    var unit :- Index(temp, "unit");
    Ok(Str(place) + ": " + Str(value) + "°" + Str(unit))
  }

  /** The header, glued to the first reading, and the readings one per line;
      without a `temperature` key the result variable is never bound. */
  function TemperatureReport(data: Json): Result<string> {
    var present :- Contains("temperature", data);
    if !present then Err(UnboundLocalError("temp"))
    else
      var temperature :- Index(data, "temperature");
      var temperatures :- Index(temperature, "data");
      var recordTime :- Index(temperature, "recordTime");
      var readings :- Iterate(temperatures);
      var lines :- MapAll(TemperatureLine, readings);
      Ok(TemperatureHeader(recordTime) + Join("\n", lines))
  }

  function TemperatureHeader(recordTime: Json): string {
    "Temperature readings (recorded at " + Str(recordTime) + "):"
  }

  /** extract_temperature_data, appending one reading per turn. */
  method ExtractTemperatureData(data: Json) returns (r: Result<string>)
    ensures r == TemperatureReport(data)
  {
    var present :- Contains("temperature", data);
    if !present {
      return Err(UnboundLocalError("temp"));
    }
    var temperature :- Index(data, "temperature");
    var temperatures :- Index(temperature, "data");
    var recordTime :- Index(temperature, "recordTime");
    var locationTemp: seq<string> := [];
    var readings :- Iterate(temperatures);
    var i := 0;
    while i < |readings|
      invariant 0 <= i <= |readings|
      invariant MapAll(TemperatureLine, readings[..i]) == Ok(locationTemp)
    {
      var temp := readings[i];
      MapAllStep(TemperatureLine, readings, i);
      var place :- Index(temp, "place");
      var value :- Index(temp, "value");
      var unit :- Index(temp, "unit");
      locationTemp := locationTemp + [Str(place) + ": " + Str(value) + "°" + Str(unit)];
      i := i + 1;
    }
    assert readings[..i] == readings;
    return Ok("Temperature readings (recorded at " + Str(recordTime) + "):" + Join("\n", locationTemp));
  }

  /** A reading object with its three fields. */
  predicate IsReading(temp: Json) {
    Has(temp, "place") && Has(temp, "value") && Has(temp, "unit")
  }

  /** The text shown for one reading. */
  function ExpectedTemperatureLine(temp: Json): string
    requires IsReading(temp)
  {
    Str(At(temp, "place")) + ": " + Str(At(temp, "value")) + "°" + Str(At(temp, "unit"))
  }

  lemma ReadingLine(temp: Json)
    requires IsReading(temp)
    ensures TemperatureLine(temp) == Ok(ExpectedTemperatureLine(temp))
  {
  }

  /** A document without a `temperature` key cannot be rendered. */
  lemma TemperatureMissing(data: Json)
    requires data.JObj? && !Has(data, "temperature")
    ensures TemperatureReport(data) == Err(UnboundLocalError("temp"))
  {
  }

  /** The texts shown for a list of complete readings, in order. */
  function ExpectedTemperatureLines(rs: seq<Json>): (lines: seq<string>)
    requires forall i :: 0 <= i < |rs| ==> IsReading(rs[i])
  {
    seq(|rs|, i requires 0 <= i < |rs| => ExpectedTemperatureLine(rs[i]))
  }

  /** For a non-empty list of complete readings without line breaks, the
      report splits into one line per reading, in order, the first of them
      carrying the header in front. */
  lemma TemperatureLayout(data: Json)
    requires Has(data, "temperature") && Has(At(data, "temperature"), "data")
    requires Has(At(data, "temperature"), "recordTime")
    requires '\n' !in TemperatureHeader(At(At(data, "temperature"), "recordTime"))
    requires At(At(data, "temperature"), "data").JArr?
    requires var rs := At(At(data, "temperature"), "data").items;
             |rs| > 0 && forall i :: 0 <= i < |rs| ==> IsReading(rs[i]) && '\n' !in ExpectedTemperatureLine(rs[i])
    ensures TemperatureReport(data).Ok?
    ensures var rs := At(At(data, "temperature"), "data").items;
            Split('\n', TemperatureReport(data).value) ==
              [TemperatureHeader(At(At(data, "temperature"), "recordTime")) + ExpectedTemperatureLine(rs[0])]
              + ExpectedTemperatureLines(rs[1..])
  {
    var rs := At(At(data, "temperature"), "data").items;
    var header := TemperatureHeader(At(At(data, "temperature"), "recordTime"));
    var lines := ExpectedTemperatureLines(rs);
    TemperatureReadings(data);
    SplitJoinAfter('\n', header, lines);
    ExpectedLinesTail(rs);
  }

  lemma ExpectedLinesTail(rs: seq<Json>)
    requires |rs| > 0 && forall i :: 0 <= i < |rs| ==> IsReading(rs[i])
    ensures ExpectedTemperatureLines(rs)[1..] == ExpectedTemperatureLines(rs[1..])
  {
    var a := ExpectedTemperatureLines(rs)[1..];
    var b := ExpectedTemperatureLines(rs[1..]);
    assert |a| == |b|;
    forall i | 0 <= i < |a| ensures a[i] == b[i] {
      assert rs[1..][i] == rs[i + 1];
    }
  }

  /** With complete readings, the report is the header followed by the
      readings' lines joined by line breaks. */
  lemma TemperatureReadings(data: Json)
    requires Has(data, "temperature") && Has(At(data, "temperature"), "data")
    requires Has(At(data, "temperature"), "recordTime")
    requires At(At(data, "temperature"), "data").JArr?
    requires var rs := At(At(data, "temperature"), "data").items;
             forall i :: 0 <= i < |rs| ==> IsReading(rs[i])
    ensures var rs := At(At(data, "temperature"), "data").items;
            TemperatureReport(data) ==
              Ok(TemperatureHeader(At(At(data, "temperature"), "recordTime")) + Join("\n", ExpectedTemperatureLines(rs)))
  {
    var rs := At(At(data, "temperature"), "data").items;
    forall i | 0 <= i < |rs| ensures TemperatureLine(rs[i]) == Ok(ExpectedTemperatureLine(rs[i])) {
      ReadingLine(rs[i]);
    }
    MapAllOk(TemperatureLine, rs);
    assert MapAll(TemperatureLine, rs).value == ExpectedTemperatureLines(rs);
  }

  // ---------------------------------------------------------------------
  // extract_rainfall_data
  // ---------------------------------------------------------------------

  /** The maintenance text: " Under maintenance" when `main` is "TRUE". */
  function Maintenance(main: Json): string {
    if main == JStr("TRUE") then " Under maintenance" else "False"
  }

  /** One rainfall segment: `place: maxunit maintenance:flag`. */
  function RainfallLine(rain: Json): Result<string> {
    var main :- Get(rain, "main", JNull);
    var maintenance := Maintenance(main);
    var place :- Index(rain, "place");
    var max :- Index(rain, "max");
    var unit :- Index(rain, "unit");
    Ok(Str(place) + ": " + Str(max) + Str(unit) + " maintenance:" + maintenance)
  }

  /** The segments follow the header with nothing between them; without a
      `rainfall` key the list of segments is never bound. */
  function RainfallReport(data: Json): Result<string> {
    var present :- Contains("rainfall", data);
    if !present then Err(UnboundLocalError("rain_location"))
    else
      var rainfallInfo :- Index(data, "rainfall");
      var rainfallData :- Index(rainfallInfo, "data");
      var readings :- Iterate(rainfallData);
      var segments :- MapAll(RainfallLine, readings);
      Ok("Rainfall data:\n " + Join("", segments))
  }

  /** extract_rainfall_data, appending one segment per turn. */
  method ExtractRainfallData(data: Json) returns (r: Result<string>)
    ensures r == RainfallReport(data)
  {
    var present :- Contains("rainfall", data);
    if !present {
      return Err(UnboundLocalError("rain_location"));
    }
    var rainfallInfo :- Index(data, "rainfall");
    var rainfallData :- Index(rainfallInfo, "data");
    var rainLocation: seq<string> := [];
    var readings :- Iterate(rainfallData);
    var i := 0;
    while i < |readings|
      invariant 0 <= i <= |readings|
      invariant MapAll(RainfallLine, readings[..i]) == Ok(rainLocation)
    {
      var rain := readings[i];
      MapAllStep(RainfallLine, readings, i);
      var main :- Get(rain, "main", JNull);
      var maintenance := if main == JStr("TRUE") then " Under maintenance" else "False";
      var place :- Index(rain, "place");
      var max :- Index(rain, "max");
      var unit :- Index(rain, "unit");
      rainLocation := rainLocation + [Str(place) + ": " + Str(max) + Str(unit) + " maintenance:" + maintenance];
      i := i + 1;
    }
    assert readings[..i] == readings;
    return Ok("Rainfall data:\n " + Join("", rainLocation));
  }

  /** A rendered segment ends in " Under maintenance" exactly when the
      reading's `main` is the string "TRUE", and in "maintenance:False"
      otherwise. */
  lemma MaintenanceFlag(rain: Json, s: string)
    requires RainfallLine(rain) == Ok(s)
    ensures rain.JObj?
    ensures var marked := Lookup(rain.fields, "main") == Some(JStr("TRUE"));
            |s| >= 18 &&
            (s[|s| - 18..] == " Under maintenance" <==> marked) &&
            (!marked ==> s[|s| - 17..] == "maintenance:False")
  {
    var main := Lookup(rain.fields, "main").GetOr(JNull);
    var head := Str(At(rain, "place")) + ": " + Str(At(rain, "max")) + Str(At(rain, "unit"));
    assert s == head + " maintenance:" + Maintenance(main);
    MaintenanceTail(head, main);
  }

  lemma MaintenanceTail(head: string, main: Json)
    ensures var s := head + " maintenance:" + Maintenance(main);
            |s| >= 18 &&
            (s[|s| - 18..] == " Under maintenance" <==> main == JStr("TRUE")) &&
            (main != JStr("TRUE") ==> s[|s| - 17..] == "maintenance:False")
  {
    if main == JStr("TRUE") {
      MaintenanceUnder(head);
    } else {
      MaintenanceFalse(head);
    }
  }

  /** The segment ending for a reading under maintenance. */
  lemma MaintenanceUnder(head: string)
    ensures var s := head + " maintenance:" + " Under maintenance";
            |s| >= 18 && s[|s| - 18..] == " Under maintenance"
  {
    EndsWith(head + " maintenance:", " Under maintenance", 18);
  }

  /** The segment ending for any other reading. */
  lemma MaintenanceFalse(head: string)
    ensures var s := head + " maintenance:" + "False";
            |s| >= 18 && s[|s| - 18..] != " Under maintenance" && s[|s| - 17..] == "maintenance:False"
  {
    var flag := " maintenance:False";
    FalseFlag();
    EndsWith(head, flag, 18);
    EndsWith(head, flag, 17);
  }

  /** The text after the word `maintenance` for a reading not under
      maintenance, and how it differs from the other ending; this only
      splits the literal facts out of MaintenanceFalse. */
  lemma FalseFlag()
    ensures " maintenance:" + "False" == " maintenance:False"
    ensures |" maintenance:False"| == 18 && |" Under maintenance"| == 18
    ensures " maintenance:False"[18 - 18..] != " Under maintenance"
    ensures " maintenance:False"[18 - 17..] == "maintenance:False"
  {
    assert " maintenance:False"[1] != " Under maintenance"[1];
  }

  /** A document without a `rainfall` key cannot be rendered. */
  lemma RainfallMissing(data: Json)
    requires data.JObj? && !Has(data, "rainfall")
    ensures RainfallReport(data) == Err(UnboundLocalError("rain_location"))
  {
  }

  /** With every segment rendered, the report is the header followed by the
      segments in reading order, run together. */
  lemma RainfallSegments(data: Json)
    requires Has(data, "rainfall") && Has(At(data, "rainfall"), "data")
    requires At(At(data, "rainfall"), "data").JArr?
    requires var rs := At(At(data, "rainfall"), "data").items;
             forall i :: 0 <= i < |rs| ==> RainfallLine(rs[i]).Ok?
    ensures var rs := At(At(data, "rainfall"), "data").items;
            RainfallReport(data) ==
              Ok("Rainfall data:\n " + Join("", seq(|rs|, i requires 0 <= i < |rs| => RainfallLine(rs[i]).value)))
  {
    var rs := At(At(data, "rainfall"), "data").items;
    MapAllOk(RainfallLine, rs);
    assert MapAll(RainfallLine, rs).value == seq(|rs|, i requires 0 <= i < |rs| => RainfallLine(rs[i]).value);
  }

  // ---------------------------------------------------------------------
  // extract_humidity_data
  // ---------------------------------------------------------------------

  const NoHumidity := "Humidty data not available"

  /** Only the first humidity reading is shown, with the record time. */
  function ExtractHumidityData(data: Json): Result<string> {
    var present :- Contains("humidity", data);
    if !present then Ok(NoHumidity)
    else
      var humidity :- Get(data, "humidity", JObj([]));
      var readings :- Get(humidity, "data", JNull);
      if !Truthy(readings) then Ok(NoHumidity)
      else
        var humidityInfo :- First(readings);
        var recordTime :- Index(humidity, "recordTime");
        var value :- Index(humidityInfo, "value");
        var unit :- Index(humidityInfo, "unit");
        var place :- Index(humidityInfo, "place");
        Ok("Humidity: " + Str(value) + " " + Str(unit) + " at " + Str(place) + " Recorded at: " + Str(recordTime))
  }

  /** The document has no humidity readings: `humidity` is absent, or it is
      a dict whose `data` is absent or falsy. */
  predicate NoHumidityReadings(data: Json)
    requires data.JObj?
  {
    !Has(data, "humidity") ||
    (At(data, "humidity").JObj? && !Truthy(Lookup(At(data, "humidity").fields, "data").GetOr(JNull)))
  }

  /** For a dict document, the fixed not-available text is the answer
      exactly when the document has no humidity readings, whatever its
      record time. */
  lemma HumidityUnavailable(data: Json)
    requires data.JObj?
    ensures ExtractHumidityData(data) == Ok(NoHumidity) <==> NoHumidityReadings(data)
  {
  }

  /** The not-available text for an empty reading list. */
  lemma HumidityEmptyExample()
    ensures ExtractHumidityData(JObj([("humidity", JObj([("data", JArr([])), ("recordTime", JStr("t"))]))]))
            == Ok(NoHumidity)
  {
  }

  /** Two documents whose humidity lists start with the same reading and
      carry the same record time get the same humidity text: the other
      readings are never looked at. */
  lemma HumidityFirstReadingOnly(d1: Json, d2: Json)
    requires Has(d1, "humidity") && Has(d2, "humidity")
    requires Has(At(d1, "humidity"), "data") && Has(At(d2, "humidity"), "data")
    requires At(At(d1, "humidity"), "data").JArr? && At(At(d2, "humidity"), "data").JArr?
    requires |At(At(d1, "humidity"), "data").items| > 0 && |At(At(d2, "humidity"), "data").items| > 0
    requires At(At(d1, "humidity"), "data").items[0] == At(At(d2, "humidity"), "data").items[0]
    requires Lookup(At(d1, "humidity").fields, "recordTime") == Lookup(At(d2, "humidity").fields, "recordTime")
    ensures ExtractHumidityData(d1) == ExtractHumidityData(d2)
  {
  }

  // ---------------------------------------------------------------------
  // extract_uv_index
  // ---------------------------------------------------------------------

  /** `uvindex` defaults to the 11-character text "No uv index", which is
      not shorter than 1, so a missing key ends in indexing a string. */
  function ExtractUvIndex(data: Json): Result<string> {
    var uvinfo :- Get(data, "uvindex", JStr("No uv index"));
    var size :- Len(uvinfo);
    if size < 1 then Ok("No UV index")
    else
      var uvList :- Index(uvinfo, "data");
      var uvData :- First(uvList);
      var recordDesc :- Index(uvinfo, "recordDesc");
      var value :- Index(uvData, "value");
      var desc :- Index(uvData, "desc");
      var place :- Index(uvData, "place");
      Ok("UV Index: " + Str(value) + " (" + Str(desc) + ") at " + Str(place) + " \n        Record description: " + Str(recordDesc))
  }

  /** A dict document without `uvindex` raises TypeError. */
  lemma UvIndexMissing(data: Json)
    requires data.JObj? && !Has(data, "uvindex")
    ensures ExtractUvIndex(data) == Err(TypeError)
  {
  }

  /** For a dict document, "No UV index" is the answer exactly when
      `uvindex` is present and has length zero. */
  lemma UvIndexEmpty(data: Json)
    requires data.JObj?
    ensures ExtractUvIndex(data) == Ok("No UV index") <==> Has(data, "uvindex") && Len(At(data, "uvindex")) == Ok(0)
  {
  }

  // ---------------------------------------------------------------------
  // current_weather_process (rhrread)
  // ---------------------------------------------------------------------

  /** The four extractions, in order, one per line. */
  function CurrentWeatherProcess(data: Json): Result<string> {
    var temperature :- TemperatureReport(data);
    var rainfall :- RainfallReport(data);
    var humidity :- ExtractHumidityData(data);
    var uv :- ExtractUvIndex(data);
    Ok(Join("\n", [temperature, rainfall, humidity, uv]))
  }

  /** The current-conditions report is rendered exactly when all four
      extractions are, and is then the four texts in fixed order, separated
      by line breaks; otherwise it raises the first extraction's exception. */
  lemma CurrentWeatherSections(data: Json)
    ensures CurrentWeatherProcess(data).Ok? <==>
              TemperatureReport(data).Ok? && RainfallReport(data).Ok? &&
              ExtractHumidityData(data).Ok? && ExtractUvIndex(data).Ok?
    ensures CurrentWeatherProcess(data).Ok? ==>
              CurrentWeatherProcess(data).value ==
                TemperatureReport(data).value + "\n" + RainfallReport(data).value + "\n" +
                ExtractHumidityData(data).value + "\n" + ExtractUvIndex(data).value
    ensures TemperatureReport(data).Err? ==> CurrentWeatherProcess(data) == Err(TemperatureReport(data).error)
  {
    var t, r, h, u := TemperatureReport(data), RainfallReport(data), ExtractHumidityData(data), ExtractUvIndex(data);
    if t.Ok? && r.Ok? && h.Ok? && u.Ok? {
      assert CurrentWeatherProcess(data) == Ok(Join("\n", [t.value, r.value, h.value, u.value]));
      JoinFour("\n", t.value, r.value, h.value, u.value);
    }
  }

  lemma JoinFour(sep: string, a: string, b: string, c: string, d: string)
    ensures Join(sep, [a, b, c, d]) == a + sep + b + sep + c + sep + d
  {
    JoinCons(sep, c, [d]);
    assert [b, c, d][1..] == [c, d];
    JoinCons(sep, b, [c, d]);
    assert [a, b, c, d][1..] == [b, c, d];
    JoinCons(sep, a, [b, c, d]);
  }

  /** A dict document lacking `temperature` cannot be rendered at all, and
      neither can one lacking `uvindex`. */
  lemma CurrentWeatherNeedsTemperatureAndUv(data: Json)
    requires data.JObj? && (!Has(data, "temperature") || !Has(data, "uvindex"))
    ensures CurrentWeatherProcess(data).Err?
  {
    if Has(data, "temperature") {
      UvIndexMissing(data);
    }
  }
}
