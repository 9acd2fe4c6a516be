/** The fallback formatter of the chat service (`formatToolResults` in
    backend/src/services/chat.service.ts): renders the last tool result as
    text when the model produced no narration. It dispatches on the shape
    of the output object and on the tool name. */
module Formatter {
  import opened Wrappers
  import opened Js
  import opened Text
  import opened ToolService

  /** One entry of the service's `toolResults` list */
  datatype ToolResult = ToolResult(toolName: string, output: Value)

  /** The formatter either returns text or throws */
  datatype Formatted = Rendered(text: string) | Threw(error: Thrown)

  const NoResults := "No results to format"
  const Unformattable := "Unable to format response"
  const NoFormatterPrefix := "Unable to format response for tool: "
  const PdfIntro := "Here's what I found in the PDF:\n\n"
  const PdfApology := "Sorry, I couldn't read the PDF: "
  const PreviewLength := 1500
  const Ellipsis := "..."
  const Celsius := "\U{B0}C"
  const Fahrenheit := "\U{B0}F"
  const DefaultWindUnit := "km/h"

  /** The TypeError raised by calling `.substring` on a non-string */
  const SubstringTypeError := ErrorValue("output.content?.substring is not a function")

  /** `output` after the `JSON.parse` step: a string is replaced by what it
      parses to, None when parsing throws; any other value is kept */
  function Parsed(output: Value, host: Host): Option<Value> {
    if output.Str? then host.parseJson(output.s) else Some(output)
  }

  /** What the formatter finds once the output is parsed */
  datatype Inspected =
    | Unparseable            // JSON.parse threw
    | Falsy                  // null, undefined, false, 0 or ""
    | Primitive(value: Value)  // a truthy non-object: the debug log's `in` test throws on it
    | Object(value: Value)     // a non-null object: the tool-specific branches apply

  /** Lines 117-139: parsing, the debug log's `'temperature' in output`,
      and the object test, in that order */
  function Inspect(output: Value, host: Host): (r: Inspected)
    ensures output.Str? ==> (r.Unparseable? <==> host.parseJson(output.s).None?)
    ensures output.Str? && host.parseJson(output.s).Some? ==>
      r == (var p := host.parseJson(output.s).value;
            if !Truthy(p) then Falsy else if IsObject(p) then Object(p) else Primitive(p))
    ensures !output.Str? ==>
      r == (if !Truthy(output) then Falsy else if IsObject(output) then Object(output) else Primitive(output))
    ensures r.Object? ==> IsObject(r.value)
    ensures r.Primitive? ==> Truthy(r.value) && !IsObject(r.value)
  {
    match Parsed(output, host)
    case None => Unparseable
    case Some(v) =>
      if !Truthy(v) then Falsy
      else if IsObject(v) then Object(v)
      else Primitive(v)
  }

  /** The TypeError `'temperature' in v` raises for a primitive `v` */
  function InOperatorTypeError(v: Value, host: Host): Thrown {
    ErrorValue("Cannot use 'in' operator to search for 'temperature' in " + Render(v, host))
  }

  /** `'error' in output && output.error` */
  predicate HasError(v: Value) {
    Has(v, "error") && Truthy(Get(v, "error"))
  }

  /** The temperature unit symbol: Fahrenheit only for the exact string `fahrenheit` */
  function TemperatureSymbol(v: Value): (sym: string)
    ensures sym == Fahrenheit <==> Get(Get(v, "units"), "temperature") == Str("fahrenheit")
    ensures sym == Fahrenheit || sym == Celsius
  {
    if Get(Get(v, "units"), "temperature") == Str("fahrenheit") then Fahrenheit else Celsius
  }

  /** `output.units?.wind_speed || 'km/h'`, interpolated */
  function WindUnit(v: Value, host: Host): (unit: string)
    ensures !Truthy(Get(Get(v, "units"), "wind_speed")) ==> unit == DefaultWindUnit
    ensures Truthy(Get(Get(v, "units"), "wind_speed")) ==> unit == Render(Get(Get(v, "units"), "wind_speed"), host)
  {
    var w := Get(Get(v, "units"), "wind_speed");
    if Truthy(w) then Render(w, host) else DefaultWindUnit
  }

  /** A template literal over `values` that reads `text` once every value
      is converted: the first value that cannot be converted throws instead */
  function Interpolated(values: seq<Value>, text: string): (r: Formatted)
    ensures r.Rendered? <==> AllConvertible(values)
    ensures AllConvertible(values) ==> r == Rendered(text)
    ensures !AllConvertible(values) ==> r == Threw(ConversionTypeError)
  {
    if AllConvertible(values) then Rendered(text) else Threw(ConversionTypeError)
  }

  /** The values the weather text interpolates (the wind unit only when it
      is truthy, but a falsy value always converts) */
  function WeatherFields(v: Value): seq<Value> {
    [Get(v, "location"), Get(v, "temperature"), Get(v, "feels_like"), Get(v, "humidity"),
     Get(v, "precipitation"), Get(v, "wind_speed"), Get(Get(v, "units"), "wind_speed")]
  }

  /** The values the currency text converts, `Number(output.converted)` included */
  function CurrencyFields(v: Value): seq<Value> {
    [Get(v, "amount"), Get(v, "from"), Get(v, "converted"), Get(v, "to"), Get(v, "rate")]
  }

  /** Whether a tool-specific branch takes an object reported under `name`:
      weather needs a temperature key, currency a converted key, and readPDF
      either a truthy success with content or a falsy success with an error key */
  predicate Dispatched(name: string, v: Value) {
    (name == WeatherName && Has(v, "temperature"))
    || (name == CurrencyName && Has(v, "converted"))
    || (name == PdfName && ((Truthy(Get(v, "success")) && Has(v, "content"))
                            || (!Truthy(Get(v, "success")) && Has(v, "error"))))
  }

  function WeatherText(v: Value, host: Host): string {
    var sym := TemperatureSymbol(v);
    "The weather in " + Render(Get(v, "location"), host) + ":\n\n"
    + "Temperature: " + Render(Get(v, "temperature"), host) + sym + "\n"
    + "Feels like: " + Render(Get(v, "feels_like"), host) + sym + "\n"
    + "Humidity: " + Render(Get(v, "humidity"), host) + "%\n"
    + "Precipitation: " + Render(Get(v, "precipitation"), host) + "mm\n"
    + "Wind speed: " + Render(Get(v, "wind_speed"), host) + " " + WindUnit(v, host)
  }

  function CurrencyText(v: Value, host: Host): string {
    Render(Get(v, "amount"), host) + " " + Render(Get(v, "from"), host) + " equals "
    + Fixed2(Get(v, "converted"), host) + " " + Render(Get(v, "to"), host) + "\n"
    + "Exchange rate: " + Render(Get(v, "rate"), host)
  }

  /** `output.content?.substring(0, 1500) || ''` followed by the ellipsis,
      which is appended whatever the length of the content */
  function PdfPreview(v: Value): (r: Formatted)
    ensures Get(v, "content").Str? ==>
      r == Rendered(PdfIntro + Take(Get(v, "content").s, PreviewLength) + Ellipsis)
    ensures Get(v, "content").Undefined? || Get(v, "content").Null? ==> r == Rendered(PdfIntro + Ellipsis)
    ensures r.Rendered? ==> |r.text| <= |PdfIntro| + PreviewLength + |Ellipsis|
    ensures r.Threw? <==> !(Get(v, "content").Str? || Get(v, "content").Undefined? || Get(v, "content").Null?)
    ensures r.Threw? ==> r.error == SubstringTypeError
  {
    match Get(v, "content")
    case Str(s) => Rendered(PdfIntro + Take(s, PreviewLength) + Ellipsis)
    case Undefined => Rendered(PdfIntro + Ellipsis)
    case Null => Rendered(PdfIntro + Ellipsis)
    case _ => Threw(SubstringTypeError)
  }

  /** Lines 141-179: the branches taken once the output is known to be a
      non-null object `v` reported under `name` */
  function FormatObject(name: string, v: Value, host: Host): (r: Formatted)
    // a truthy error field wins over every tool-specific branch
    ensures HasError(v) ==> r == Interpolated([Get(v, "error")], "Error: " + Render(Get(v, "error"), host))
    // the tool-specific branches, each selected by its guard
    ensures !HasError(v) && name == WeatherName && Has(v, "temperature") ==>
      r == Interpolated(WeatherFields(v), WeatherText(v, host))
    ensures !HasError(v) && name == CurrencyName && Has(v, "converted") ==>
      r == Interpolated(CurrencyFields(v), CurrencyText(v, host))
    ensures !HasError(v) && name == PdfName && Truthy(Get(v, "success")) && Has(v, "content") ==>
      r == PdfPreview(v)
    ensures !HasError(v) && name == PdfName && !Truthy(Get(v, "success")) && Has(v, "error") ==>
      r == Rendered(PdfApology + Render(Get(v, "error"), host))
    // no branch takes the object: the sentinel
    ensures !HasError(v) && !Dispatched(name, v) ==> r == Rendered(NoFormatterPrefix + name)
    // a conversion, or `.substring` on non-string PDF content, is all that can throw
    ensures r.Threw? ==> r.error == ConversionTypeError || (name == PdfName && r.error == SubstringTypeError)
  {
    if HasError(v) then Interpolated([Get(v, "error")], "Error: " + Render(Get(v, "error"), host))
    else if name == WeatherName && Has(v, "temperature") then Interpolated(WeatherFields(v), WeatherText(v, host))
    else if name == CurrencyName && Has(v, "converted") then Interpolated(CurrencyFields(v), CurrencyText(v, host))
    else if name == PdfName && Truthy(Get(v, "success")) && Has(v, "content") then PdfPreview(v)
    else if name == PdfName && !Truthy(Get(v, "success")) && Has(v, "error") then
      // the error is falsy here, hence a primitive, so this conversion cannot throw
      Rendered(PdfApology + Render(Get(v, "error"), host))
    else Rendered(NoFormatterPrefix + name)
  }

  /** The formatting of one tool result (lines 114-179 of the service) */
  function FormatResult(result: ToolResult, host: Host): (r: Formatted)
    // unparseable or falsy output
    ensures var i := Inspect(result.output, host);
      i.Unparseable? || i.Falsy? ==> r == Rendered(Unformattable)
    // a truthy primitive makes the debug log's `in` test throw
    ensures var i := Inspect(result.output, host);
      i.Primitive? ==> r == Threw(InOperatorTypeError(i.value, host))
    // a truthy error field wins over every tool-specific branch
    ensures var i := Inspect(result.output, host);
      i.Object? && HasError(i.value) ==>
        r == Interpolated([Get(i.value, "error")], "Error: " + Render(Get(i.value, "error"), host))
    // the tool-specific branches, each selected by its guard
    ensures var i := Inspect(result.output, host);
      i.Object? && !HasError(i.value) && result.toolName == WeatherName && Has(i.value, "temperature") ==>
        r == Interpolated(WeatherFields(i.value), WeatherText(i.value, host))
    ensures var i := Inspect(result.output, host);
      i.Object? && !HasError(i.value) && result.toolName == CurrencyName && Has(i.value, "converted") ==>
        r == Interpolated(CurrencyFields(i.value), CurrencyText(i.value, host))
    ensures var i := Inspect(result.output, host);
      i.Object? && !HasError(i.value) && result.toolName == PdfName
      && Truthy(Get(i.value, "success")) && Has(i.value, "content") ==>
        r == PdfPreview(i.value)
    ensures var i := Inspect(result.output, host);
      i.Object? && !HasError(i.value) && result.toolName == PdfName
      && !Truthy(Get(i.value, "success")) && Has(i.value, "error") ==>
        r == Rendered(PdfApology + Render(Get(i.value, "error"), host))
    // no branch takes the object: the sentinel
    ensures var i := Inspect(result.output, host);
      i.Object? && !HasError(i.value) && !Dispatched(result.toolName, i.value) ==>
        r == Rendered(NoFormatterPrefix + result.toolName)
    // names outside the registry only ever get an error line or the sentinel
    ensures var i := Inspect(result.output, host);
      result.toolName !in GetAllTools() && i.Object? && !HasError(i.value) ==>
        r == Rendered(NoFormatterPrefix + result.toolName)
    // the three exceptions: the `in` test on a primitive, a conversion of an
    // object with its own `toString`, and `.substring` on non-string PDF content
    ensures r.Threw? ==>
      Inspect(result.output, host).Primitive? || r.error == ConversionTypeError
      || (result.toolName == PdfName && r.error == SubstringTypeError)
  {
    match Inspect(result.output, host)
    case Unparseable => Rendered(Unformattable)
    case Falsy => Rendered(Unformattable)
    case Primitive(p) => Threw(InOperatorTypeError(p, host))
    case Object(v) =>
      assert result.toolName !in GetAllTools() ==> !Dispatched(result.toolName, v);
      FormatObject(result.toolName, v, host)
  }

  /** `formatToolResults(results)`: only the last result is ever rendered */
  function FormatToolResults(results: seq<ToolResult>, host: Host): (r: Formatted)
    ensures |results| == 0 ==> r == Rendered(NoResults)
    ensures |results| > 0 ==> r == FormatResult(results[|results| - 1], host)
  {
    if |results| == 0 then Rendered(NoResults)
    else FormatResult(results[|results| - 1], host)
  }

  /** Whatever came before the last result is ignored */
  lemma OnlyLastResultMatters(earlier: seq<ToolResult>, last: ToolResult, host: Host)
    ensures FormatToolResults(earlier + [last], host) == FormatToolResults([last], host)
  {
  }

  /** A truthy `error` field yields exactly "Error: " followed by it, for every
      tool name, and `success: false` without one is not treated as an error */
  lemma {:induction false} ErrorLineForEveryTool(name: string, message: string, host: Host)
    requires message != ""
    ensures FormatResult(ToolResult(name, Obj(map["success" := Bool(false), "error" := Str(message)])), host)
            == Rendered("Error: " + message)
    ensures FormatResult(ToolResult(name, Obj(map["success" := Bool(false)])), host)
            == Rendered(NoFormatterPrefix + name)
  {
    var failed := Obj(map["success" := Bool(false), "error" := Str(message)]);
    assert Inspect(failed, host) == Object(failed) && HasError(failed);
    assert Convertible([Get(failed, "error")][0]);
    var bare := Obj(map["success" := Bool(false)]);
    assert Inspect(bare, host) == Object(bare) && !HasError(bare) && !Dispatched(name, bare);
  }

  /** The apology line is reached for a readPDF object whose error field is
      present but falsy and whose success flag is falsy; a truthy error
      field has already produced the error line by then */
  lemma {:induction false} PdfApologyForFalsyError(v: Value, host: Host)
    requires IsObject(v)
    requires Has(v, "error") && !Truthy(Get(v, "error")) && !Truthy(Get(v, "success"))
    ensures FormatResult(ToolResult(PdfName, v), host) == Rendered(PdfApology + Render(Get(v, "error"), host))
    ensures FormatResult(ToolResult(PdfName, Obj(map["success" := Bool(false), "error" := Null])), host)
            == Rendered(PdfApology + "null")
  {
    assert Inspect(v, host) == Object(v);
    var w := Obj(map["success" := Bool(false), "error" := Null]);
    assert Inspect(w, host) == Object(w) && !HasError(w);
  }

  /** A truthy primitive output, bare or as the JSON text of one, crashes
      the formatter under every tool name; a falsy one is merely unformattable */
  lemma {:induction false} PrimitiveOutputThrows(name: string, json: string, host: Host)
    requires host.parseJson(json) == Some(Bool(true))
    ensures FormatResult(ToolResult(name, Num(5.0)), host) == Threw(InOperatorTypeError(Num(5.0), host))
    ensures FormatResult(ToolResult(name, Str(json)), host) == Threw(InOperatorTypeError(Bool(true), host))
    ensures FormatResult(ToolResult(name, Num(0.0)), host) == Rendered(Unformattable)
  {
    assert Inspect(Str(json), host) == Primitive(Bool(true));
  }

  /** A readPDF result whose content is not a string crashes the formatter */
  lemma NonStringContentThrows(host: Host)
    ensures FormatResult(ToolResult(PdfName, Obj(map["success" := Bool(true), "content" := Num(1.0)])), host)
            == Threw(SubstringTypeError)
  {
  }

  /** An object with its own `toString` field, as `JSON.parse('{"toString":1}')`
      makes, cannot be interpolated: as the error field it crashes the
      formatter under every tool name */
  lemma {:induction false} OwnToStringThrows(name: string, json: string, host: Host)
    requires host.parseJson(json) == Some(Obj(map["error" := Obj(map["toString" := Num(1.0)])]))
    ensures FormatResult(ToolResult(name, Str(json)), host) == Threw(ConversionTypeError)
  {
    var bad := Obj(map["toString" := Num(1.0)]);
    var v := Obj(map["error" := bad]);
    assert Inspect(Str(json), host) == Object(v);
    assert HasError(v);
    assert [Get(v, "error")][0] == bad && !Convertible(bad);
  }

  /** The same holds for any field the weather text shows, also when the
      object sits inside an array, which converts through `join` */
  lemma {:induction false} OwnToStringInWeatherThrows(host: Host)
    ensures FormatResult(ToolResult(WeatherName, Obj(map["temperature" := Num(1.0),
              "location" := Arr([Str("a"), Obj(map["toString" := Null])])])), host)
            == Threw(ConversionTypeError)
  {
    var loc := Arr([Str("a"), Obj(map["toString" := Null])]);
    var v := Obj(map["temperature" := Num(1.0), "location" := loc]);
    assert Inspect(v, host) == Object(v);
    assert !HasError(v) && Has(v, "temperature");
    assert !Convertible(loc.items[1]);
    assert WeatherFields(v)[0] == loc && !Convertible(loc);
  }

  /** Each registered tool needs its key: weather a temperature, currency a
      converted amount, readPDF content after a truthy success. Without it
      the object falls through to the sentinel even under the right name */
  lemma {:induction false} MissingKeyFallsThrough(host: Host)
    ensures FormatResult(ToolResult(WeatherName, Obj(map["foo" := Num(1.0)])), host)
            == Rendered(NoFormatterPrefix + WeatherName)
    ensures FormatResult(ToolResult(CurrencyName, Obj(map["amount" := Num(1.0)])), host)
            == Rendered(NoFormatterPrefix + CurrencyName)
    ensures FormatResult(ToolResult(PdfName, Obj(map["success" := Bool(true)])), host)
            == Rendered(NoFormatterPrefix + PdfName)
  {
    var weather := Obj(map["foo" := Num(1.0)]);
    assert Inspect(weather, host) == Object(weather) && !Dispatched(WeatherName, weather);
    var currency := Obj(map["amount" := Num(1.0)]);
    assert Inspect(currency, host) == Object(currency) && !Dispatched(CurrencyName, currency);
    var pdf := Obj(map["success" := Bool(true)]);
    assert Inspect(pdf, host) == Object(pdf) && !Dispatched(PdfName, pdf);
  }
}
