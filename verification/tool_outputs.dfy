/** The shapes the three tools return (the weather, currency and PDF tools under backend/src/tools), as a tagged
    variant, together with their encoding as the plain objects the formatter
    receives. `Describe` renders the typed variant directly; the formatter's
    shape-sniffing is proved to agree with it on every such output. */
module ToolOutputs {
  import opened Wrappers
  import opened Js
  import opened Text
  import opened ToolService
  import opened Formatter

  datatype Scale = CelsiusScale | FahrenheitScale

  datatype WeatherReport = WeatherReport(
    location: string, latitude: real, longitude: real,
    temperature: real, feelsLike: real, humidity: real,
    precipitation: real, windSpeed: real, scale: Scale, time: string)

  datatype Conversion = Conversion(
    source: string, target: string, rate: real, amount: real, converted: real, date: string)

  datatype Extraction = Extraction(content: string, pages: real, query: string)

  /** What one tool call returns; a failure is tagged with the tool it came from */
  datatype ToolOutput =
    | WeatherOk(report: WeatherReport)
    | CurrencyOk(conversion: Conversion)
    | PdfOk(extraction: Extraction)
    | Failed(kind: ToolKind, error: string)

  function KindOf(o: ToolOutput): ToolKind {
    match o
    case WeatherOk(_) => WeatherKind
    case CurrencyOk(_) => CurrencyKind
    case PdfOk(_) => PdfKind
    case Failed(kind, _) => kind
  }

  /** Every failure message a tool produces is non-empty */
  predicate WellFormed(o: ToolOutput) {
    o.Failed? ==> o.error != ""
  }

  function ScaleName(scale: Scale): string {
    match scale
    case CelsiusScale => "celsius"
    case FahrenheitScale => "fahrenheit"
  }

  /** The object the weather tool returns for a report */
  function WeatherObject(w: WeatherReport): (v: Value)
    ensures v.Obj?
    ensures v.fields.Keys == {"location", "coordinates", "temperature", "feels_like", "humidity",
                              "precipitation", "wind_speed", "units", "timestamp"}
    ensures Get(Get(v, "units"), "temperature") == Str(ScaleName(w.scale))
    ensures Get(Get(v, "units"), "wind_speed") == Str("km/h")
  {
    Obj(map[
      "location" := Str(w.location),
      "coordinates" := Obj(map["latitude" := Num(w.latitude), "longitude" := Num(w.longitude)]),
      "temperature" := Num(w.temperature),
      "feels_like" := Num(w.feelsLike),
      "humidity" := Num(w.humidity),
      "precipitation" := Num(w.precipitation),
      "wind_speed" := Num(w.windSpeed),
      "units" := Obj(map["temperature" := Str(ScaleName(w.scale)),
                         "wind_speed" := Str("km/h"),
                         "precipitation" := Str("mm")]),
      "timestamp" := Str(w.time)])
  }

  /** The object the currency tool returns for a conversion */
  function CurrencyObject(c: Conversion): (v: Value)
    ensures v.Obj?
    ensures v.fields.Keys == {"from", "to", "rate", "amount", "converted", "timestamp"}
    ensures Get(v, "converted") == Num(c.converted)
  {
    Obj(map[
      "from" := Str(c.source), "to" := Str(c.target), "rate" := Num(c.rate),
      "amount" := Num(c.amount), "converted" := Num(c.converted), "timestamp" := Str(c.date)])
  }

  /** The object the PDF tool returns for an extraction */
  function PdfObject(d: Extraction): (v: Value)
    ensures v.Obj?
    ensures v.fields.Keys == {"success", "content", "pages", "query"}
    ensures Get(v, "success") == Bool(true) && Get(v, "content") == Str(d.content)
  {
    Obj(map["success" := Bool(true), "content" := Str(d.content),
            "pages" := Num(d.pages), "query" := Str(d.query)])
  }

  /** The object a tool returns on failure: the PDF tool adds `success: false` */
  function FailureObject(kind: ToolKind, error: string): (v: Value)
    ensures v.Obj?
    ensures v.fields.Keys == if kind == PdfKind then {"success", "error"} else {"error"}
    ensures Get(v, "error") == Str(error)
    ensures kind == PdfKind ==> Get(v, "success") == Bool(false)
  {
    if kind == PdfKind then Obj(map["success" := Bool(false), "error" := Str(error)])
    else Obj(map["error" := Str(error)])
  }

  /** The object a tool's `execute` resolves to */
  function Encode(o: ToolOutput): (v: Value)
    ensures v.Obj?
    ensures !Has(v, "output")
  {
    match o
    case WeatherOk(w) => WeatherObject(w)
    case CurrencyOk(c) => CurrencyObject(c)
    case PdfOk(d) => PdfObject(d)
    case Failed(kind, e) => FailureObject(kind, e)
  }

  function Symbol(scale: Scale): string {
    match scale
    case CelsiusScale => Celsius
    case FahrenheitScale => Fahrenheit
  }

  /** The fallback text for a typed output, written against the variant
      instead of probing fields */
  function Describe(o: ToolOutput, host: Host): string {
    match o
    case WeatherOk(w) =>
      var sym := Symbol(w.scale);
      var show := host.showNumber;
      "The weather in " + w.location + ":\n\n"
      + "Temperature: " + show(w.temperature) + sym + "\n"
      + "Feels like: " + show(w.feelsLike) + sym + "\n"
      + "Humidity: " + show(w.humidity) + "%\n"
      + "Precipitation: " + show(w.precipitation) + "mm\n"
      + "Wind speed: " + show(w.windSpeed) + " km/h"
    case CurrencyOk(c) =>
      host.showNumber(c.amount) + " " + c.source + " equals "
      + host.toFixed2(c.converted) + " " + c.target + "\n"
      + "Exchange rate: " + host.showNumber(c.rate)
    case PdfOk(d) =>
      PdfIntro + Take(d.content, PreviewLength) + Ellipsis
    case Failed(_, e) =>
      "Error: " + e
  }

  /** The weather object's fields all convert, and its text is the typed description */
  lemma WeatherTextAgrees(w: WeatherReport, host: Host)
    ensures AllConvertible(WeatherFields(WeatherObject(w)))
    ensures WeatherText(WeatherObject(w), host) == Describe(WeatherOk(w), host)
  {
    var v := WeatherObject(w);
    var units := Get(v, "units");
    assert units == Obj(map["temperature" := Str(ScaleName(w.scale)), "wind_speed" := Str("km/h"), "precipitation" := Str("mm")]);
    assert TemperatureSymbol(v) == Symbol(w.scale);
    assert WindUnit(v, host) == "km/h";
    assert WeatherFields(v) == [Str(w.location), Num(w.temperature), Num(w.feelsLike), Num(w.humidity),
                                Num(w.precipitation), Num(w.windSpeed), Str("km/h")];
  }

  lemma {:induction false} WeatherAgrees(w: WeatherReport, host: Host)
    ensures FormatResult(ToolResult(WeatherName, Encode(WeatherOk(w))), host) == Rendered(Describe(WeatherOk(w), host))
  {
    var v := Encode(WeatherOk(w));
    assert Inspect(v, host) == Object(v);
    assert !HasError(v) && Has(v, "temperature");
    WeatherTextAgrees(w, host);
  }

  lemma CurrencyAgrees(c: Conversion, host: Host)
    ensures FormatResult(ToolResult(CurrencyName, Encode(CurrencyOk(c))), host) == Rendered(Describe(CurrencyOk(c), host))
  {
  }

  lemma PdfAgrees(d: Extraction, host: Host)
    ensures FormatResult(ToolResult(PdfName, Encode(PdfOk(d))), host) == Rendered(Describe(PdfOk(d), host))
  {
  }

  /** A failure reads "Error: …" whichever name it is reported under */
  lemma FailureIgnoresToolName(kind: ToolKind, error: string, name: string, host: Host)
    requires error != ""
    ensures FormatResult(ToolResult(name, Encode(Failed(kind, error))), host) == Rendered("Error: " + error)
  {
  }

  /** On every output a tool actually produces, reported under that tool's
      name, the formatter renders exactly the typed description and never throws */
  lemma {:induction false} FormatterAgreesWithTypedOutputs(o: ToolOutput, host: Host)
    requires WellFormed(o)
    ensures FormatResult(ToolResult(NameOf(KindOf(o)), Encode(o)), host) == Rendered(Describe(o, host))
  {
    match o
    case WeatherOk(w) => WeatherAgrees(w, host);
    case CurrencyOk(c) => CurrencyAgrees(c, host);
    case PdfOk(d) => PdfAgrees(d, host);
    case Failed(kind, e) => FailureIgnoresToolName(kind, e, NameOf(kind), host);
  }

  /** A weather report reported under another tool's name falls through to the sentinel */
  lemma {:induction false} WrongNameFallsThrough(w: WeatherReport, host: Host)
    ensures FormatResult(ToolResult(CurrencyName, Encode(WeatherOk(w))), host)
            == Rendered(NoFormatterPrefix + CurrencyName)
  {
    var v := Encode(WeatherOk(w));
    assert Inspect(v, host) == Object(v);
    assert !HasError(v) && !Has(v, "converted");
  }

  /** Worked example: 100 USD to EUR. The text carries no timestamp. */
  lemma CurrencyExample(host: Host)
    requires host.showNumber(100.0) == "100" && host.showNumber(0.91234) == "0.91234"
    requires host.toFixed2(91.234) == "91.23"
    ensures FormatResult(ToolResult(CurrencyName,
              Encode(CurrencyOk(Conversion("USD", "EUR", 0.91234, 100.0, 91.234, "2024-01-01")))), host)
            == Rendered("100" + " " + "USD" + " equals " + "91.23" + " " + "EUR" + "\n"
                        + "Exchange rate: " + "0.91234")
  {
  }

  /** Worked example: 15 degrees Celsius in London with 10 km/h wind */
  lemma WeatherExample(host: Host)
    requires host.showNumber(15.0) == "15" && host.showNumber(13.0) == "13"
    requires host.showNumber(60.0) == "60" && host.showNumber(0.0) == "0" && host.showNumber(10.0) == "10"
    ensures FormatResult(ToolResult(WeatherName,
              Encode(WeatherOk(WeatherReport("London, GB", 51.5, -0.13, 15.0, 13.0, 60.0, 0.0, 10.0, CelsiusScale, "t")))), host)
            == Rendered("The weather in " + "London, GB" + ":\n\n"
                        + "Temperature: " + "15" + Celsius + "\n"
                        + "Feels like: " + "13" + Celsius + "\n"
                        + "Humidity: " + "60" + "%\n"
                        + "Precipitation: " + "0" + "mm\n"
                        + "Wind speed: " + "10" + " km/h")
  {
    WeatherAgrees(WeatherReport("London, GB", 51.5, -0.13, 15.0, 13.0, 60.0, 0.0, 10.0, CelsiusScale, "t"), host);
  }
}
