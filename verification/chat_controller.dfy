/** `handleChat` of backend/src/controllers/chat.controller.ts. The Express
    response is modelled as the log of calls made on it; whether headers
    have been sent is read off that log, as Express sets `headersSent` on
    the first write, end or JSON body. */
module ChatController {
  import opened Wrappers
  import opened Js
  import opened ToolService
  import opened Formatter
  import opened ChatService

  /** The parts of the HTTP request the controller reads: the `message` form
      field (absent or a string) and the stored path of an uploaded PDF */
  datatype HttpRequest = HttpRequest(message: Option<string>, pdfPath: Option<string>)

  /** One call on the Express response */
  datatype ResCall =
    | SetHeader(name: string, value: string)
    | Status(code: int)
    | Json(body: Value)
    | Write(chunk: string)
    | End

  /** Calls after which the headers are on the wire */
  predicate Sends(c: ResCall) {
    c.Json? || c.Write? || c.End?
  }

  predicate HeadersSent(log: seq<ResCall>) {
    exists i :: 0 <= i < |log| && Sends(log[i])
  }

  const StreamHeaders: seq<ResCall> := [
    SetHeader("Content-Type", "text/plain; charset=utf-8"),
    SetHeader("Cache-Control", "no-cache"),
    SetHeader("Connection", "keep-alive")]

  const MessageRequired := Obj(map["error" := Str("Message is required")])

  /** The JSON body of the 500 response */
  function ErrorBody(e: Thrown): Value {
    Obj(map["error" := Str("Internal server error"),
            "message" := Str(if e.ErrorValue? then e.message else "Unknown")])
  }

  /** `!message` on the form field */
  predicate MissingMessage(req: HttpRequest) {
    req.message.None? || req.message.value == ""
  }

  /** The callbacks wired to the response: `onChunk` writes, `onComplete` ends */
  function Replay(effects: seq<Effect>): seq<ResCall> {
    seq(|effects|, i requires 0 <= i < |effects| =>
          if effects[i].Chunk? then Write(effects[i].text) else End)
  }

  /** What the service does for a request with a message */
  function ServiceRun(req: HttpRequest, model: Invocation -> Stream, host: Host): Run
    requires !MissingMessage(req)
  {
    ProcessMessage(ChatRequest(req.message.value, req.pdfPath), model, host)
  }

  /** The streaming part of `handleChat`: the three headers, then one
      `res.write` per chunk and one `res.end` per completion, in order. The
      headers count as sent from the first call on. */
  method StreamEffects(effects: seq<Effect>) returns (log: seq<ResCall>)
    ensures log == StreamHeaders + Replay(effects)
    ensures HeadersSent(log) <==> |effects| > 0
  {
    log := StreamHeaders;
    var i := 0;
    while i < |effects|
      invariant 0 <= i <= |effects|
      invariant log == StreamHeaders + Replay(effects[..i])
      invariant HeadersSent(log) <==> i > 0
    {
      var call := match effects[i]
        case Chunk(t) => Write(t)
        case Complete => End;
      assert Replay(effects[..i + 1]) == Replay(effects[..i]) + [call];
      log := log + [call];
      assert Sends(log[|log| - 1]);
      i := i + 1;
    }
    assert effects[..i] == effects;
  }

  /** `handleChat(req, res)`: returns the calls made on the response and
      whether the service was invoked */
  method HandleChat(req: HttpRequest, model: Invocation -> Stream, host: Host)
    returns (log: seq<ResCall>, invoked: bool)
    ensures invoked <==> !MissingMessage(req)
    ensures !invoked ==> log == [Status(400), Json(MessageRequired)]
    ensures invoked ==> StreamHeaders <= log
    ensures invoked && ServiceRun(req, model, host).raised.None? ==>
      log == StreamHeaders + Replay(ServiceRun(req, model, host).effects)
    ensures invoked && ServiceRun(req, model, host).raised.Some? && ServiceRun(req, model, host).effects == [] ==>
      log == StreamHeaders + [Status(500), Json(ErrorBody(ServiceRun(req, model, host).raised.value))]
    ensures invoked && ServiceRun(req, model, host).raised.Some? && ServiceRun(req, model, host).effects != [] ==>
      log == StreamHeaders + Replay(ServiceRun(req, model, host).effects)
  {
    if req.message.None? || req.message.value == "" {
      return [Status(400), Json(MessageRequired)], false;
    }
    invoked := true;
    var run := ServiceRun(req, model, host);
    log := StreamEffects(run.effects);
    if run.raised.Some? && !HeadersSent(log) {
      log := log + [Status(500), Json(ErrorBody(run.raised.value))];
    }
  }

  /** A model whose stream is just one tool result with the number 5 as its
      output: nothing was sent when the formatter's debug log throws, so the
      request ends in status 500 with the TypeError's message */
  method PrimitiveOutputAnswers500(req: HttpRequest, host: Host) returns (log: seq<ResCall>)
    requires !MissingMessage(req)
    ensures log == StreamHeaders + [Status(500), Json(ErrorBody(InOperatorTypeError(Num(5.0), host)))]
  {
    var model := (inv: Invocation) => Stream([ToolResultPart(WeatherName, Num(5.0))], None);
    NumberOutputRaises(WeatherName, host);
    var invoked;
    log, invoked := HandleChat(req, model, host);
  }
}
