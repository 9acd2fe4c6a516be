# Chat request pipeline: a Dafny model

This project models the backend request pipeline of an AI chat assistant.
A user's message goes through these steps:

- it is classified by keyword to decide whether the language model must
  call a tool (weather lookup, currency conversion, PDF reading);
- it is annotated with an in-band `[SYSTEM: …]` directive;
- the model's event stream is consumed, and narrated text is forwarded to
  the HTTP response as it arrives;
- when the model produced tool results but no text, the last result is
  rendered by a deterministic fallback formatter.

The HTTP controller validates the request and wires the service's callbacks
to the response. It reports errors differently depending on whether output
has already been sent.

Modules (one per component, plus `Wrappers`, which only holds the
`Option` type):

- `Text`: ASCII case folding, substring search with a proved
  specification, and prefix and join helpers.
- `Js`: the JavaScript values a tool may return. It covers truthiness,
  property access, the `in` test, template-literal interpolation and
  `Number(x)`. Library behaviour is taken as given through a `Host`
  record: `JSON.parse`, number-to-text rendering and `toFixed(2)`.
- `ToolService`: the fixed three-entry tool registry and its lookup.
- `Intent`: `detectIntent` and `prepareMessage`. The directive is an
  explicit `Annotation` value, rendered in one place and read back by
  `ReadDirective`.
- `Formatter`: `formatToolResults`, with the source's dispatch order.
- `ToolOutputs`: the output shapes of the three tools as a tagged variant.
  `Encode` turns them into the plain objects the tools return. `Describe`
  is a reference rendering over the variant, and the formatter's
  field-probing is proved to agree with it.
- `ChatService`: the `streamText` arguments and the `for await` loop,
  modelled as a left fold over a finite sequence of stream parts. Also the
  completion logic: the fallback chunk and exactly one `onComplete`. The
  model runtime is a function parameter from the call to the stream of
  parts it returns.
- `ChatController`: `handleChat`, as a method that returns the log of
  calls made on the Express response.

Behaviours of the code worth knowing. The model follows the code in each
of them:

- Currency detection has no digit requirement. Any of
  convert/currency/euro/dollar forces a tool call
  (`Intent.CurrencyWordWithoutDigit`).
- Tool results are not filtered by tool name. Every `tool-result` part is
  appended (`ChatService.ResultsUnfiltered`).
- The error branch tests a truthy `error` field. `success: false` without
  one is not treated as an error (`Formatter.ErrorLineForEveryTool`).
- The currency text carries no timestamp.
- The PDF preview ends in `...` whatever the length of the content.
- The formatter can throw, in three ways:
  - The debug log evaluates `'temperature' in output` before the object
    test. A truthy output that is not an object therefore raises a
    TypeError instead of yielding "Unable to format response". Examples are
    the number 5, or a string that parses to `true`
    (`Formatter.PrimitiveOutputThrows`). Only an unparseable string or a
    falsy value reaches the "Unable to format response" line.
  - For `readPDF` with a truthy `success` and a `content` that is neither a
    string nor nullish, `.substring` is not a function
    (`Formatter.NonStringContentThrows`).
  - A template literal or `Number(...)` cannot convert an object that has
    its own `toString` field, as `JSON.parse('{"toString":1}')` produces.
    The field is not callable, and the inherited `valueOf` returns the
    object itself. The same holds for an array that contains such an
    object. Every interpolated field can trigger this: the error line,
    the weather and currency fields (`Js.Convertible`,
    `Formatter.OwnToStringThrows`,
    `Formatter.OwnToStringInWeatherThrows`).

  In every case nothing has been written yet. The exception propagates
  through `processMessage`, and the controller answers with status 500
  (`ChatService.PrimitiveResultRaises`,
  `ChatController.PrimitiveOutputAnswers500`). The formatter never throws
  on the outputs the tools themselves produce
  (`ToolOutputs.FormatterAgreesWithTypedOutputs`).
- When processing fails after output has started, the controller writes
  nothing more, and it also never calls `res.end()`: the response is left
  open (`ChatController.HandleChat`).
- `getTool` indexes a plain object. Names of `Object.prototype` members
  such as `toString` or `__proto__` therefore yield the inherited member,
  not undefined (`ToolService.GetTool`).

Keyword tests are JavaScript regular expressions with the `i` flag and
without `u`. For ASCII keywords, such a test is exactly ASCII case folding
followed by substring search: a non-ASCII character never folds onto an
ASCII letter under that flag. The model is therefore exact here, not an
approximation.

Strings are sequences of Dafny characters, which are Unicode scalar values.
JavaScript counts UTF-16 code units instead. `Take(s, 1500)` is therefore
`substring(0, 1500)` only for text without characters beyond U+FFFF; see
"Left out".

`ToolService.GetAllTools` is a function of no arguments. Repeated calls
therefore yield the same name→tool map by construction.

## Model

| member | source | states |
|---|---|---|
| ToolService.GetAllTools | backend/src/services/tool.service.ts:6-12 | the registry has exactly the keys getWeather, getCurrency, readPDF, and each tool sits under its own name |
| ToolService.GetTool | backend/src/services/tool.service.ts:14-17 | a registered name yields the same entry as the registry map; any other name yields undefined unless it is an inherited Object.prototype member |
| ToolService.LookupByName | backend/src/services/tool.service.ts:14-17 | looking up a tool kind's name finds the tool of that kind, and the three names are distinct |
| Intent.PrepareMessage | backend/src/services/chat.service.ts:65-79 | the message is always a prefix of the prompt; the prompt equals the message exactly when no directive is chosen |
| Intent.InstructionRoundTrip | backend/src/services/chat.service.ts:69-77 | every instruction text, including the PDF path it embeds, is read back as the annotation it came from |
| Intent.DirectiveRoundTrip | backend/src/services/chat.service.ts:70-76 | every directive, including the PDF path it embeds, can be read back from its rendered text |
| Intent.PrepareMessageRoundTrip | backend/src/services/chat.service.ts:65-79 | the prompt is the message followed by the chosen directive, which can be recovered from the prompt; an empty suffix means no directive |
| Intent.PromptRewrittenIffRequired | backend/src/services/chat.service.ts:65-88 | prepareMessage leaves the message unchanged exactly when detectIntent returns auto; otherwise the prompt continues with "\n\n[SYSTEM: " |
| Intent.AnnotationPriority | backend/src/services/chat.service.ts:66-77 | weather wins over currency, currency over PDF; the PDF directive embeds the upload path |
| Intent.DetectIntentMeaning | backend/src/services/chat.service.ts:81-88 | required exactly when a PDF is attached or one of the seven keywords occurs in the case-folded message |
| Intent.CaseBlind | backend/src/services/chat.service.ts:66-84 | neither the tool choice nor the directive depends on letter case: two messages equal after ASCII case folding get the same choice and the same directive |
| Intent.CaseInsensitive | backend/src/services/chat.service.ts:66-84 | upper-casing the message changes neither the tool choice nor the directive |
| Intent.CurrencyWordWithoutDigit | backend/src/services/chat.service.ts:67-84 | a currency word with no digit still forces a tool call and gets the currency directive |
| Intent.Greeting | backend/src/services/chat.service.ts:75-88 | a message with no keyword and an empty upload path is left unchanged and the choice is auto |
| Formatter.Inspect | backend/src/services/chat.service.ts:116-139 | a string output is passed to JSON.parse, and only a parse failure makes it unparseable; any other output is taken as it is; the value is then sorted into falsy, truthy non-object, or object (an array or a plain object) |
| Formatter.TemperatureSymbol | backend/src/services/chat.service.ts:148 | the unit is °F exactly when units.temperature is the string fahrenheit, and °C otherwise |
| Formatter.WindUnit | backend/src/services/chat.service.ts:155 | a truthy units.wind_speed is interpolated as it is; a missing or falsy one falls back to km/h |
| Formatter.PdfPreview | backend/src/services/chat.service.ts:169-172 | string content shows its first 1500 characters followed by "..."; undefined or null content shows only the intro and "..."; the text is bounded; it throws the substring TypeError exactly for non-string, non-nullish content |
| Formatter.Interpolated | backend/src/services/chat.service.ts:143-164 | a template literal yields its text exactly when every interpolated value converts, and otherwise throws the conversion TypeError |
| Formatter.FormatObject | backend/src/services/chat.service.ts:141-179 | on an object: a truthy error field gives the error line; each tool branch is taken under its guard (weather with temperature, currency with converted, readPDF with success and content, or without success and with an error key); every other object gets the sentinel; only a conversion or the PDF substring can throw |
| Formatter.FormatResult | backend/src/services/chat.service.ts:114-179 | an unparseable string or a falsy output gives "Unable to format response"; a truthy non-object output throws the `in` operator's TypeError; on an object a truthy error field gives "Error: " + error for every tool; getWeather with a temperature key gives the weather text, getCurrency with a converted key the currency text, readPDF with a truthy success and content the preview, readPDF with a falsy success and an error key the apology; every other object gets the sentinel; an interpolated object with its own toString throws the conversion TypeError; the `in` TypeError, the conversion TypeError and the substring TypeError are the only exceptions |
| Formatter.OwnToStringThrows | backend/src/services/chat.service.ts:141-144 | a parsed output whose error field is an object with its own toString throws the conversion TypeError under every tool name |
| Formatter.OwnToStringInWeatherThrows | backend/src/services/chat.service.ts:146-156 | a weather field holding an array that contains an object with its own toString throws the conversion TypeError |
| Formatter.MissingKeyFallsThrough | backend/src/services/chat.service.ts:146-179 | getWeather without temperature, getCurrency without converted, and readPDF with success but no content all reach the sentinel |
| Formatter.PrimitiveOutputThrows | backend/src/services/chat.service.ts:116-139 | the number 5, or a string that parses to true, throws; the number 0 gives "Unable to format response" |
| Formatter.FormatToolResults | backend/src/services/chat.service.ts:103-112 | an empty list gives "No results to format"; otherwise the result is the formatting of the last element |
| Formatter.OnlyLastResultMatters | backend/src/services/chat.service.ts:103-114 | results before the last one never affect the output |
| Formatter.ErrorLineForEveryTool | backend/src/services/chat.service.ts:141-144 | {success:false, error:e} with non-empty e renders exactly "Error: " + e under every name; {success:false} alone reaches the sentinel |
| Formatter.PdfApologyForFalsyError | backend/src/services/chat.service.ts:173-175 | the apology line is produced for readPDF outputs whose error field is present but falsy and whose success is falsy |
| Formatter.NonStringContentThrows | backend/src/services/chat.service.ts:169-172 | a readPDF result with numeric content throws a TypeError |
| ToolOutputs.WeatherObject | backend/src/tools/weather.tool.ts:41-58 | a weather report is an object with exactly the nine fields the tool returns, with the scale's name and km/h under units |
| ToolOutputs.CurrencyObject | backend/src/tools/currency.tool.ts:40-47 | a conversion is an object with exactly from, to, rate, amount, converted and timestamp |
| ToolOutputs.PdfObject | backend/src/tools/pdf.tool.ts:74-79 | an extraction is an object with exactly success (true), content, pages and query |
| ToolOutputs.FailureObject | backend/src/tools/pdf.tool.ts:82-85 | a failure carries its message under error; only the PDF tool adds success: false (the weather and currency tools return error alone, weather.tool.ts:60-62, currency.tool.ts:49-51) |
| ToolOutputs.Encode | backend/src/tools/currency.tool.ts:40-51 | every tool output, from any of the three tools (weather.tool.ts:41-62, pdf.tool.ts:24-85), is a plain object with no output field |
| ToolOutputs.WeatherTextAgrees | backend/src/services/chat.service.ts:146-157 | every field the weather text shows converts, and the text equals the typed description |
| ToolOutputs.WeatherAgrees | backend/src/services/chat.service.ts:146-157 | a weather report renders as the typed description, with the scale's symbol and km/h wind |
| ToolOutputs.CurrencyAgrees | backend/src/services/chat.service.ts:159-166 | a conversion renders as amount, source, converted to two places, target and rate, with no timestamp |
| ToolOutputs.PdfAgrees | backend/src/services/chat.service.ts:168-172 | an extraction renders its first 1500 characters followed by "..." |
| ToolOutputs.FailureIgnoresToolName | backend/src/services/chat.service.ts:141-144 | a tool failure renders as "Error: " + message whatever name it is reported under |
| ToolOutputs.FormatterAgreesWithTypedOutputs | backend/src/services/chat.service.ts:141-176 | on every output the tools produce, under the tool's own name, the field-probing formatter equals the typed reference rendering and never throws |
| ToolOutputs.WrongNameFallsThrough | backend/src/services/chat.service.ts:146-179 | a weather payload reported as getCurrency reaches the sentinel |
| ToolOutputs.CurrencyExample | backend/src/services/chat.service.ts:159-166 | 100 USD to EUR at 0.91234 reads "100 USD equals 91.23 EUR" then the rate |
| ToolOutputs.WeatherExample | backend/src/services/chat.service.ts:146-157 | 15 degrees Celsius in London reads "Temperature: 15°C" … "Wind speed: 10 km/h" |
| ChatService.InvocationConsistent | backend/src/services/chat.service.ts:23-34 | the model is forced to use a tool exactly when its prompt differs from the message; the prompt starts with the message; all three tools are offered |
| ChatService.Unwrap | backend/src/services/chat.service.ts:49 | the stored output is never falsy |
| ChatService.UnwrapToolOutput | backend/src/services/chat.service.ts:47-53 | a tool output is stored unchanged whether it arrives bare or wrapped in an output field; a missing output becomes {} |
| ChatService.DemuxSummary | backend/src/services/chat.service.ts:37-55 | the loop writes exactly the text-delta texts in arrival order; hasText holds iff some text arrived; every tool result is collected |
| ChatService.ResultsUnfiltered | backend/src/services/chat.service.ts:46-54 | a tool result is appended whatever its name, and it writes nothing |
| ChatService.Consume | backend/src/services/chat.service.ts:36-62 | a normal run makes only onChunk calls and then exactly one onComplete; a failing run never completes; the texts are forwarded first, in order |
| ChatService.ProcessMessage | backend/src/services/chat.service.ts:20-63 | the same completion guarantees for the whole call against any model runtime |
| ChatService.NarrationSuppressesFallback | backend/src/services/chat.service.ts:57-62 | with any narrated text the formatter is never consulted: the texts, then onComplete |
| ChatService.FallbackRendersLastResult | backend/src/services/chat.service.ts:57-62 | with no text and some results there is exactly one chunk, the formatted last result, before onComplete (or the formatter's exception) |
| ChatService.SilentCompletion | backend/src/services/chat.service.ts:57-62 | with neither text nor results nothing is written and onComplete is still called once |
| ChatService.PrimitiveResultRaises | backend/src/services/chat.service.ts:57-62 | with no text and a truthy non-object last result nothing is written, onComplete is never called and the TypeError propagates |
| ChatService.NumberOutputRaises | backend/src/services/chat.service.ts:40-62 | a stream holding only a tool result with the number 5 raises the TypeError and writes nothing |
| ChatService.FailurePropagates | backend/src/services/chat.service.ts:40-55 | a stream failure keeps what was forwarded, skips onComplete and propagates |
| ChatService.ToolOutputShownWhenSilent | backend/src/services/chat.service.ts:40-62 | a silent stream whose last part is a tool's wrapped output shows exactly that tool's typed description |
| ChatController.StreamEffects | backend/src/controllers/chat.controller.ts:19-28 | the three text/plain headers come first, then each chunk becomes one res.write and each completion one res.end, in order; the headers count as sent exactly when some effect was replayed |
| ChatController.HandleChat | backend/src/controllers/chat.controller.ts:7-39 | an empty or absent message gives 400 with the JSON error and the service is not invoked; otherwise the headers come first and each chunk becomes one write and completion one end; a failure before any output gives 500 with the error JSON; a failure after output adds nothing |
| ChatController.PrimitiveOutputAnswers500 | backend/src/controllers/chat.controller.ts:23-37 | when the model's only part is a tool result with the number 5, the response gets the headers and then status 500 with the TypeError's message |

## Left out

- The language model call itself (`streamText`, the model configuration): the
  model runtime is a parameter from the call to a finite stream of parts.
- The tool implementations (network, file system, pdf-parse, floating-point
  conversion): only their output shapes are modelled, in `ToolOutputs`.
- `JSON.parse`, number rendering in template literals, `toFixed(2)` and `Number(s)`
  on strings: taken as given through `Js.Host`. NaN and infinities are not values of the model.
- Console logging, async/await scheduling and Express internals beyond the order of
  calls on the response and `headersSent`. Express's own Content-Type defaulting
  inside `res.json` is not modelled.
- The exact texts of the engine's TypeError messages are illustrative: for a
  non-string PDF content, for the `in` test on a primitive, and for an object
  that cannot be converted to a primitive. The model
  renders the operand with the template-literal rendering.
- The `!lastResult` guard in `formatToolResults` cannot fire (entries are always objects) and has no counterpart.
- Cancellation when the client disconnects: the source has no handling for it.
- Multer upload handling: the controller's input is the stored path of the uploaded
  file and the message.
- ChatController.HandleChat: the message is deliberately limited to absent or a
  string, which is what a multipart form field gives. The JSON body parser
  (backend/src/server.ts:15) can also deliver a number, boolean, object or array.
  `!message` then follows truthiness, and `processMessage` receives a non-string.
  That case is not modelled.
- Formatter.PdfPreview: the preview length counts Unicode scalar values, while
  JavaScript's `substring(0, 1500)` counts UTF-16 code units. The two differ
  only for content with characters beyond U+FFFF. Such content is cut later
  here, and JavaScript may cut a surrogate pair in half.
- ToolOutputs.PdfAgrees: the same counting difference as for `Formatter.PdfPreview`.
- The frontend, server bootstrap and route wiring: UI and I/O only.
