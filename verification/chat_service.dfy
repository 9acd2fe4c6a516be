/** `processMessage` of backend/src/services/chat.service.ts: builds the
    model call, consumes the model's event stream, forwards narrated text
    as it arrives, and falls back to the formatter when the model produced
    tool results but no text. The model runtime is a parameter: a function
    from the call the service makes to the stream of parts it answers with. */
module ChatService {
  import opened Wrappers
  import opened Js
  import opened ToolService
  import opened Intent
  import opened Formatter
  import opened ToolOutputs

  /** The service's view of a request */
  datatype ChatRequest = ChatRequest(message: string, pdfPath: Option<string>)

  /** The call the service makes to the model runtime */
  datatype Invocation = Invocation(
    system: string,
    userMessage: string,
    tools: map<string, Tool>,
    temperature: real,
    toolChoice: ToolChoice)

  /** One part of the model's full stream */
  datatype Part =
    | TextDelta(text: string)
    | ToolCall(toolName: string)
    | ToolResultPart(toolName: string, output: Value)
    | OtherPart(kind: string)  // any other part type; the loop ignores it

  /** The parts delivered in arrival order, and what iterating raised after
      the last of them, if anything (a failure to open the stream is a
      failure after no parts) */
  datatype Stream = Stream(parts: seq<Part>, failure: Option<Thrown>)

  /** A call the service makes to its caller's callbacks */
  datatype Effect = Chunk(text: string) | Complete

  /** What one `processMessage` call does: the callbacks in order, then
      either a normal return or the value it throws */
  datatype Run = Run(effects: seq<Effect>, raised: Option<Thrown>)

  const SystemPrompt := "You are a helpful AI assistant with access to real-time tools.\n\n"
    + "RULES:\n1. Use tools when instructed by [SYSTEM: ...] messages\n"
    + "2. After using tools, explain results in natural language\n"
    + "3. For general questions, respond directly\n\nBe concise and helpful."

  const SamplingTemperature: real := 0.1

  /** The arguments of the `streamText` call */
  function Invoke(req: ChatRequest): Invocation {
    Invocation(
      SystemPrompt,
      PrepareMessage(req.message, req.pdfPath),
      GetAllTools(),
      SamplingTemperature,
      DetectIntent(req.message, HasPdf(req.pdfPath)))
  }

  /** The model is forced to call a tool exactly when its prompt carries a
      directive, and the prompt always starts with the user's message */
  lemma InvocationConsistent(req: ChatRequest)
    ensures Invoke(req).toolChoice == Required <==> Invoke(req).userMessage != req.message
    ensures req.message <= Invoke(req).userMessage
    ensures Invoke(req).tools.Keys == {WeatherName, CurrencyName, PdfName}
  {
  }

  /** `chunk.output?.output || chunk.output || {}`: never falsy */
  function Unwrap(output: Value): (r: Value)
    ensures Truthy(r)
  {
    var inner := Get(output, "output");
    if Truthy(inner) then inner
    else if Truthy(output) then output
    else Obj(map[])
  }

  /** A tool's output reaches the result list unchanged, whether the runtime
      hands it over bare or wrapped in an `output` field; a missing output
      becomes the empty object */
  lemma UnwrapToolOutput(o: ToolOutput)
    ensures Unwrap(Encode(o)) == Encode(o)
    ensures Unwrap(Obj(map["output" := Encode(o)])) == Encode(o)
    ensures Unwrap(Undefined) == Obj(map[])
  {
  }

  /** The variables the loop keeps */
  datatype LoopState = LoopState(hasText: bool, toolResults: seq<ToolResult>, written: seq<string>)

  const Start := LoopState(false, [], [])

  /** One iteration of the `for await` loop */
  function Step(st: LoopState, part: Part): LoopState {
    match part
    case TextDelta(t) => st.(hasText := true, written := st.written + [t])
    case ToolCall(_) => st
    case ToolResultPart(name, output) => st.(toolResults := st.toolResults + [ToolResult(name, Unwrap(output))])
    case OtherPart(_) => st
  }

  /** The whole loop: `Step` folded over the parts in arrival order */
  function Demux(parts: seq<Part>): LoopState
    decreases |parts|
  {
    if |parts| == 0 then Start else Step(Demux(parts[..|parts| - 1]), parts[|parts| - 1])
  }

  /** Reference definitions, by recursion from the front: the text of the
      text parts, and every tool result under its own name whatever the name */
  function TextsOf(parts: seq<Part>): seq<string>
    decreases |parts|
  {
    if |parts| == 0 then []
    else (if parts[0].TextDelta? then [parts[0].text] else []) + TextsOf(parts[1..])
  }

  function ResultsOf(parts: seq<Part>): seq<ToolResult>
    decreases |parts|
  {
    if |parts| == 0 then []
    else (if parts[0].ToolResultPart? then [ToolResult(parts[0].toolName, Unwrap(parts[0].output))] else [])
         + ResultsOf(parts[1..])
  }

  predicate AnyText(parts: seq<Part>) {
    exists i :: 0 <= i < |parts| && parts[i].TextDelta?
  }

  lemma {:induction false} TextsOfAppend(a: seq<Part>, b: seq<Part>)
    ensures TextsOf(a + b) == TextsOf(a) + TextsOf(b)
    decreases |a|
  {
    if |a| > 0 {
      assert (a + b)[1..] == a[1..] + b;
      TextsOfAppend(a[1..], b);
    } else {
      assert a + b == b;
    }
  }

  lemma {:induction false} ResultsOfAppend(a: seq<Part>, b: seq<Part>)
    ensures ResultsOf(a + b) == ResultsOf(a) + ResultsOf(b)
    decreases |a|
  {
    if |a| > 0 {
      assert (a + b)[1..] == a[1..] + b;
      ResultsOfAppend(a[1..], b);
    } else {
      assert a + b == b;
    }
  }

  /** The loop writes exactly the text parts' texts, in arrival order, sets
      `hasText` exactly when some text part arrived, and collects every tool
      result with no filter on its name */
  lemma {:induction false} DemuxSummary(parts: seq<Part>)
    ensures Demux(parts) == LoopState(AnyText(parts), ResultsOf(parts), TextsOf(parts))
    decreases |parts|
  {
    if |parts| > 0 {
      var init, last := parts[..|parts| - 1], parts[|parts| - 1];
      assert parts == init + [last];
      DemuxSummary(init);
      TextsOfAppend(init, [last]);
      ResultsOfAppend(init, [last]);
      assert TextsOf([last]) == (if last.TextDelta? then [last.text] else []);
      assert ResultsOf([last]) == (if last.ToolResultPart? then [ToolResult(last.toolName, Unwrap(last.output))] else []);
      if last.TextDelta? {
        assert AnyText(parts);
      } else {
        if AnyText(parts) {
          var i :| 0 <= i < |parts| && parts[i].TextDelta?;
          assert init[i].TextDelta?;
        }
        if AnyText(init) {
          var i :| 0 <= i < |init| && init[i].TextDelta?;
          assert parts[i].TextDelta?;
        }
      }
    }
  }

  /** A tool result is appended whatever name it carries */
  lemma ResultsUnfiltered(parts: seq<Part>, name: string, output: Value)
    ensures Demux(parts + [ToolResultPart(name, output)]).toolResults
            == Demux(parts).toolResults + [ToolResult(name, Unwrap(output))]
    ensures Demux(parts + [ToolResultPart(name, output)]).written == Demux(parts).written
  {
  }

  function Chunks(texts: seq<string>): (effects: seq<Effect>)
    ensures |effects| == |texts|
    ensures forall i :: 0 <= i < |texts| ==> effects[i] == Chunk(texts[i])
  {
    seq(|texts|, i requires 0 <= i < |texts| => Chunk(texts[i]))
  }

  /** Only chunks, then exactly one completion as the very last call */
  predicate CompletesOnce(effects: seq<Effect>) {
    && |effects| > 0
    && effects[|effects| - 1] == Complete
    && forall i :: 0 <= i < |effects| - 1 ==> effects[i].Chunk?
  }

  /** Only chunks: the completion callback is never reached */
  predicate NeverCompletes(effects: seq<Effect>) {
    forall i :: 0 <= i < |effects| ==> effects[i].Chunk?
  }

  /** Everything `processMessage` does once the stream is open */
  function Consume(stream: Stream, host: Host): (run: Run)
    ensures run.raised.None? ==> CompletesOnce(run.effects)
    ensures run.raised.Some? ==> NeverCompletes(run.effects)
    ensures Chunks(TextsOf(stream.parts)) <= run.effects
  {
    var st := Demux(stream.parts);
    DemuxSummary(stream.parts);
    var live := Chunks(st.written);
    if stream.failure.Some? then Run(live, stream.failure)
    else if !st.hasText && |st.toolResults| > 0 then
      match FormatToolResults(st.toolResults, host)
      case Rendered(text) => Run(live + [Chunk(text), Complete], None)
      case Threw(e) => Run(live, Some(e))
    else Run(live + [Complete], None)
  }

  /** `processMessage(request)` against a model runtime */
  function ProcessMessage(req: ChatRequest, model: Invocation -> Stream, host: Host): (run: Run)
    ensures run.raised.None? ==> CompletesOnce(run.effects)
    ensures run.raised.Some? ==> NeverCompletes(run.effects)
    ensures Chunks(TextsOf(model(Invoke(req)).parts)) <= run.effects
  {
    Consume(model(Invoke(req)), host)
  }

  /** Narration wins: once any text arrived the formatter is never consulted,
      and the output is the texts in order followed by the completion */
  lemma {:induction false} NarrationSuppressesFallback(stream: Stream, host: Host)
    requires stream.failure.None? && AnyText(stream.parts)
    ensures Consume(stream, host) == Run(Chunks(TextsOf(stream.parts)) + [Complete], None)
  {
    DemuxSummary(stream.parts);
  }

  /** No text but some results: exactly one extra chunk, the rendering of the
      last result, then the completion (or the formatter's exception) */
  lemma {:induction false} FallbackRendersLastResult(stream: Stream, host: Host)
    requires stream.failure.None? && !AnyText(stream.parts) && |ResultsOf(stream.parts)| > 0
    ensures var last := ResultsOf(stream.parts)[|ResultsOf(stream.parts)| - 1];
      Consume(stream, host) ==
        match FormatResult(last, host)
        case Rendered(text) => Run([Chunk(text), Complete], None)
        case Threw(e) => Run([], Some(e))
  {
    DemuxSummary(stream.parts);
    assert TextsOf(stream.parts) == [] by {
      NoTextNoTexts(stream.parts);
    }
  }

  /** No text, and the last result is a truthy number, string or boolean:
      the debug log's `in` test throws before the formatter returns, so
      nothing is written, the completion is never called and the TypeError
      propagates */
  lemma {:induction false} PrimitiveResultRaises(stream: Stream, host: Host)
    requires stream.failure.None? && !AnyText(stream.parts) && |ResultsOf(stream.parts)| > 0
    requires Inspect(ResultsOf(stream.parts)[|ResultsOf(stream.parts)| - 1].output, host).Primitive?
    ensures var last := ResultsOf(stream.parts)[|ResultsOf(stream.parts)| - 1];
      Consume(stream, host) == Run([], Some(InOperatorTypeError(Inspect(last.output, host).value, host)))
  {
    FallbackRendersLastResult(stream, host);
  }

  /** The shortest such stream: one tool result whose output is the number 5 */
  lemma {:induction false} NumberOutputRaises(name: string, host: Host)
    ensures Consume(Stream([ToolResultPart(name, Num(5.0))], None), host)
            == Run([], Some(InOperatorTypeError(Num(5.0), host)))
  {
    var parts := [ToolResultPart(name, Num(5.0))];
    assert ResultsOf(parts) == [ToolResult(name, Num(5.0))] by {
      assert parts[1..] == [];
    }
    assert !AnyText(parts) by {
      forall i | 0 <= i < |parts|
        ensures !parts[i].TextDelta?
      {
      }
    }
    assert Inspect(Num(5.0), host) == Primitive(Num(5.0));
    PrimitiveResultRaises(Stream(parts, None), host);
  }

  lemma {:induction false} NoTextNoTexts(parts: seq<Part>)
    requires !AnyText(parts)
    ensures TextsOf(parts) == []
    decreases |parts|
  {
    if |parts| > 0 {
      assert !parts[0].TextDelta?;
      forall i | 0 <= i < |parts[1..]|
        ensures !parts[1..][i].TextDelta?
      {
        assert parts[1..][i] == parts[i + 1];
      }
      NoTextNoTexts(parts[1..]);
    }
  }

  /** Neither text nor results: nothing is written, the completion still happens */
  lemma {:induction false} SilentCompletion(stream: Stream, host: Host)
    requires stream.failure.None? && !AnyText(stream.parts) && ResultsOf(stream.parts) == []
    ensures Consume(stream, host) == Run([Complete], None)
  {
    DemuxSummary(stream.parts);
    NoTextNoTexts(stream.parts);
  }

  /** A failing stream: what was forwarded stays forwarded, the completion is
      never called and the failure propagates */
  lemma {:induction false} FailurePropagates(stream: Stream, host: Host)
    requires stream.failure.Some?
    ensures Consume(stream, host) == Run(Chunks(TextsOf(stream.parts)), stream.failure)
  {
    DemuxSummary(stream.parts);
  }

  /** End to end: a tool's own output as the last part of a stream without
      narration is shown exactly as the typed description */
  lemma {:induction false} ToolOutputShownWhenSilent(earlier: seq<Part>, o: ToolOutput, host: Host)
    requires WellFormed(o) && !AnyText(earlier)
    ensures var parts := earlier + [ToolResultPart(NameOf(KindOf(o)), Obj(map["output" := Encode(o)]))];
      Consume(Stream(parts, None), host) == Run([Chunk(Describe(o, host)), Complete], None)
  {
    var last := ToolResultPart(NameOf(KindOf(o)), Obj(map["output" := Encode(o)]));
    var parts := earlier + [last];
    ResultsOfAppend(earlier, [last]);
    assert ResultsOf([last]) == [ToolResult(NameOf(KindOf(o)), Unwrap(Obj(map["output" := Encode(o)])))];
    UnwrapToolOutput(o);
    forall i | 0 <= i < |parts|
      ensures !parts[i].TextDelta?
    {
      if i < |earlier| {
        assert parts[i] == earlier[i];
      }
    }
    FallbackRendersLastResult(Stream(parts, None), host);
    FormatterAgreesWithTypedOutputs(o, host);
  }
}
