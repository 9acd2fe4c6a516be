/** Intent detection and prompt annotation of the chat service
    (`detectIntent` and `prepareMessage` in
    backend/src/services/chat.service.ts). Both are keyword tests on the
    user's message; `prepareMessage` appends an in-band `[SYSTEM: …]`
    directive, and `detectIntent` decides whether the model must call a tool. */
module Intent {
  import opened Wrappers
  import opened Text

  /** The `toolChoice` handed to the model runtime */
  datatype ToolChoice = Auto | Required

  /** The directive appended to a prompt, in priority order */
  datatype Annotation = WeatherQuery | CurrencyQuery | PdfAt(path: string)

  const WeatherWords: seq<string> := ["weather", "temperature", "clima"]
  const CurrencyWords: seq<string> := ["convert", "currency", "euro", "dollar"]

  /** `/w1|w2|…/i.test(message)` for lower-case ASCII keywords `words` */
  predicate MentionsAny(message: string, words: seq<string>) {
    exists k :: 0 <= k < |words| && Contains(Lower(message), words[k])
  }

  /** `/weather|temperature|clima/i.test(message)` */
  predicate MentionsWeather(message: string) {
    MentionsAny(message, WeatherWords)
  }

  /** `/convert|currency|euro|dollar/i.test(message)` */
  predicate MentionsCurrency(message: string) {
    MentionsAny(message, CurrencyWords)
  }

  /** `!!pdfPath`: an uploaded file whose path is a non-empty string */
  predicate HasPdf(pdfPath: Option<string>) {
    pdfPath.Some? && pdfPath.value != ""
  }

  /** `detectIntent(message, hasPdf)` */
  function DetectIntent(message: string, hasPdf: bool): ToolChoice {
    if MentionsWeather(message) || MentionsCurrency(message) || hasPdf then Required else Auto
  }

  /** The directive `prepareMessage` picks: weather before currency before PDF */
  function Annotate(message: string, pdfPath: Option<string>): Option<Annotation> {
    if MentionsWeather(message) then Some(WeatherQuery)
    else if MentionsCurrency(message) then Some(CurrencyQuery)
    else if HasPdf(pdfPath) then Some(PdfAt(pdfPath.value))
    else None
  }

  const Separator := "\n\n"
  const Open := "[SYSTEM: "
  const Close := "]"
  const PdfLead := "PDF at "
  const PdfTrail := ". Use readPDF tool."

  /** What a directive asks of the model */
  function Instruction(a: Annotation): string {
    match a
    case WeatherQuery => "Weather query. Use getWeather tool."
    case CurrencyQuery => "Currency query. Use getCurrency tool."
    case PdfAt(path) => PdfLead + path + PdfTrail
  }

  /** The one place the directive text is written down */
  function Directive(a: Annotation): string {
    Open + Instruction(a) + Close
  }

  /** `prepareMessage(message, pdfPath)`: the user turn sent to the model.
      The message is always kept intact at the front. */
  function PrepareMessage(message: string, pdfPath: Option<string>): (prompt: string)
    ensures message <= prompt
    ensures Annotate(message, pdfPath).None? <==> prompt == message
  {
    match Annotate(message, pdfPath)
    case None => message
    case Some(a) => message + Separator + Directive(a)
  }

  /** Reads an instruction back: the inverse of `Instruction` */
  function ReadInstruction(text: string): Option<Annotation> {
    if text == Instruction(WeatherQuery) then Some(WeatherQuery)
    else if text == Instruction(CurrencyQuery) then Some(CurrencyQuery)
    else if |PdfLead| + |PdfTrail| <= |text|
         && text[..|PdfLead|] == PdfLead
         && text[|text| - |PdfTrail|..] == PdfTrail
    then Some(PdfAt(text[|PdfLead|..|text| - |PdfTrail|]))
    else None
  }

  /** Reads back the directive from the part of a prompt after the message:
      the inverse of the rendering in `PrepareMessage` */
  function ReadDirective(suffix: string): Option<Annotation> {
    var head := Separator + Open;
    if |head| + |Close| <= |suffix|
       && suffix[..|head|] == head
       && suffix[|suffix| - |Close|..] == Close
    then ReadInstruction(suffix[|head|..|suffix| - |Close|])
    else None
  }

  /** Every instruction, including the PDF path it embeds, can be read back */
  lemma {:induction false} InstructionRoundTrip(a: Annotation)
    ensures ReadInstruction(Instruction(a)) == Some(a)
  {
    var text := Instruction(a);
    assert Instruction(WeatherQuery)[0] == 'W';
    assert Instruction(CurrencyQuery)[0] == 'C';
    match a
    case WeatherQuery =>
    case CurrencyQuery =>
    case PdfAt(path) =>
      assert text[0] == 'P';
      assert text[..|PdfLead|] == PdfLead;
      assert text[|text| - |PdfTrail|..] == PdfTrail;
      assert text[|PdfLead|..|text| - |PdfTrail|] == path;
  }

  /** Every directive can be read back from the rendered text */
  lemma {:induction false} DirectiveRoundTrip(a: Annotation)
    ensures ReadDirective(Separator + Directive(a)) == Some(a)
  {
    var text := Instruction(a);
    var s := Separator + Directive(a);
    assert s == (Separator + Open) + text + Close;
    assert s[..|Separator + Open|] == Separator + Open;
    assert s[|s| - |Close|..] == Close;
    assert s[|Separator + Open|..|s| - |Close|] == text;
    InstructionRoundTrip(a);
  }

  /** The prompt is the message followed by the chosen directive, if any,
      and that directive can be recovered from the prompt */
  lemma {:induction false} PrepareMessageRoundTrip(message: string, pdfPath: Option<string>)
    ensures var prompt := PrepareMessage(message, pdfPath);
      && prompt[..|message|] == message
      && (Annotate(message, pdfPath).None? <==> prompt[|message|..] == "")
      && (Annotate(message, pdfPath).Some? ==> ReadDirective(prompt[|message|..]) == Annotate(message, pdfPath))
  {
    var prompt := PrepareMessage(message, pdfPath);
    match Annotate(message, pdfPath)
    case None =>
    case Some(a) =>
      assert prompt[|message|..] == Separator + Directive(a);
      DirectiveRoundTrip(a);
  }

  /** The prompt is rewritten exactly when a tool call is forced */
  lemma PromptRewrittenIffRequired(message: string, pdfPath: Option<string>)
    ensures PrepareMessage(message, pdfPath) == message <==> DetectIntent(message, HasPdf(pdfPath)) == Auto
    ensures PrepareMessage(message, pdfPath) != message ==>
      PrepareMessage(message, pdfPath)[..|message| + |Separator + Open|] == message + Separator + Open
  {
  }

  /** At most one directive, chosen by the fixed priority weather, currency, PDF;
      the PDF directive carries the upload path */
  lemma AnnotationPriority(message: string, pdfPath: Option<string>)
    ensures MentionsWeather(message) ==> Annotate(message, pdfPath) == Some(WeatherQuery)
    ensures !MentionsWeather(message) && MentionsCurrency(message) ==> Annotate(message, pdfPath) == Some(CurrencyQuery)
    ensures !MentionsWeather(message) && !MentionsCurrency(message) && HasPdf(pdfPath) ==>
      PrepareMessage(message, pdfPath) == message + Separator + Open + PdfLead + pdfPath.value + PdfTrail + Close
  {
  }

  /** `detectIntent` forces a tool call exactly when some keyword occurs in the
      folded message or a PDF is attached */
  lemma DetectIntentMeaning(message: string, hasPdf: bool)
    ensures DetectIntent(message, hasPdf) == Required <==>
      hasPdf || exists w, i :: w in WeatherWords + CurrencyWords && OccursAt(Lower(message), w, i)
  {
  }

  /** Neither decision depends on the case the message is written in: two
      messages that agree once case-folded get the same choice and directive */
  lemma CaseBlind(m1: string, m2: string, pdfPath: Option<string>)
    requires Lower(m1) == Lower(m2)
    ensures DetectIntent(m1, HasPdf(pdfPath)) == DetectIntent(m2, HasPdf(pdfPath))
    ensures Annotate(m1, pdfPath) == Annotate(m2, pdfPath)
  {
  }

  /** In particular, shouting the message changes nothing */
  lemma {:induction false} CaseInsensitive(message: string, pdfPath: Option<string>)
    ensures DetectIntent(Upper(message), HasPdf(pdfPath)) == DetectIntent(message, HasPdf(pdfPath))
    ensures Annotate(Upper(message), pdfPath) == Annotate(message, pdfPath)
  {
    LowerOfUpper(message);
    CaseBlind(Upper(message), message, pdfPath);
  }

  /** A currency word alone forces a tool call: no digit is needed */
  lemma CurrencyWordWithoutDigit()
    ensures DetectIntent("Euro?", false) == Required
    ensures PrepareMessage("Euro?", None) == "Euro?" + Separator + Directive(CurrencyQuery)
  {
    var m := "Euro?";
    assert Lower(m) == "euro?";
    assert OccursAt(Lower(m), "euro", 0);
    assert CurrencyWords[2] == "euro";
    assert !Contains("euro?", "clima") by {
      assert "euro?"[0] != "clima"[0];
      assert !Contains("uro?", "clima");
    }
    assert !MentionsWeather(m);
  }

  /** A short greeting leaves the message untouched and the choice to the model */
  lemma Greeting()
    ensures DetectIntent("Hi", false) == Auto
    ensures PrepareMessage("Hi", Some("")) == "Hi"
  {
  }
}
