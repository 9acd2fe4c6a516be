/** The tool registry of backend/src/services/tool.service.ts: a fixed map
    from tool name to tool. The tools' implementations (network and file
    access) are not part of this model; a tool is its kind and the
    description the model runtime is shown. */
module ToolService {

  datatype ToolKind = WeatherKind | CurrencyKind | PdfKind

  datatype Tool = Tool(kind: ToolKind, description: string)

  const WeatherName := "getWeather"
  const CurrencyName := "getCurrency"
  const PdfName := "readPDF"

  /** The name a tool is registered under */
  function NameOf(kind: ToolKind): string {
    match kind
    case WeatherKind => WeatherName
    case CurrencyKind => CurrencyName
    case PdfKind => PdfName
  }

  const WeatherTool := Tool(WeatherKind, "Get current weather information for a specific location")
  const CurrencyTool := Tool(CurrencyKind, "Get current exchange rate between two currencies. Use 3-letter currency codes like USD, EUR, BRL, GBP, JPY.")
  const PdfTool := Tool(PdfKind, "Read and extract text from PDF files to answer questions about their content. Use when user has uploaded a PDF or asks about PDF content. The filePath parameter should be the server path where the PDF is stored.")

  /** `getAllTools()`: exactly three entries, each tool under its own name.
      Being a function of no arguments, every call yields the same map. */
  function GetAllTools(): (tools: map<string, Tool>)
    ensures tools.Keys == {WeatherName, CurrencyName, PdfName}
    ensures forall name :: name in tools ==> NameOf(tools[name].kind) == name
  {
    map[WeatherName := WeatherTool, CurrencyName := CurrencyTool, PdfName := PdfTool]
  }

  /** What `tools[name]` yields on the object literal `getAllTools()` returns */
  datatype Lookup =
    | Found(tool: Tool)          // an own entry of the registry
    | Inherited(member: string)  // a member of Object.prototype, not a tool
    | Absent                     // undefined

  /** Property names every plain object inherits from Object.prototype */
  const ObjectPrototypeMembers: set<string> :=
    {"constructor", "hasOwnProperty", "isPrototypeOf", "propertyIsEnumerable",
     "toLocaleString", "toString", "valueOf", "__proto__", "__defineGetter__",
     "__defineSetter__", "__lookupGetter__", "__lookupSetter__"}

  /** `getTool(name)`: the registry entry under `name`; a name that is neither
      a tool nor an inherited member yields undefined */
  function GetTool(name: string): (r: Lookup)
    ensures r.Found? <==> name in GetAllTools()
    ensures r.Found? ==> r.tool == GetAllTools()[name]
    ensures r.Absent? <==> name !in GetAllTools() && name !in ObjectPrototypeMembers
  {
    var tools := GetAllTools();
    if name in tools then Found(tools[name])
    else if name in ObjectPrototypeMembers then Inherited(name)
    else Absent
  }

  /** Looking a kind up by its name finds the tool of that kind, and the
      three names are distinct */
  lemma LookupByName(kind: ToolKind, other: ToolKind)
    ensures GetTool(NameOf(kind)).Found?
    ensures GetTool(NameOf(kind)).tool.kind == kind
    ensures NameOf(kind) == NameOf(other) ==> kind == other
  {
  }
}
