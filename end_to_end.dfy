/**
 * The form and the handler put together: the payload the form posts becomes
 * the handler's request body, and the handler's response reaches the form
 * through the HTTP client, which resolves a 2xx status and rejects any other
 * (its default status check), handing over the response data either way.
 */
module EndToEnd {
  import opened Wrappers
  import opened JsString
  import opened TranslateRoute
  import opened ChatBot

  /** The request body the posted payload parses to on the server. */
  function RequestBody(p: ChatBot.Payload): Body {
    Object(map[
      InputLanguageKey := Str(p.inputLanguage),
      OutputLanguageKey := Str(p.outputLanguage),
      InputKey := Str(p.input)])
  }

  /** The JSON data of a handler response as the client sees it. */
  function DataOf(b: ResponseBody): Data {
    match b
    case Translation(t) => JsonObject(map[TranslationKey := t])
    case Error(e) => JsonObject(map[ErrorKey := e])
    case Message(m) => JsonObject(map[MessageKey := m])
  }

  /** How the HTTP client ends a request the handler answered. */
  function Deliver(r: Response): RequestOutcome {
    if 200 <= r.status < 300 then Resolved(r.status, DataOf(r.body))
    else Rejected(Some(DataOf(r.body)))
  }

  /** What the form ends up showing for a payload, given what the provider
      does. */
  function Shown(p: ChatBot.Payload, provider: ProviderOutcome): RequestOutcome {
    Deliver(Handle(RequestBody(p), provider).response)
  }

  /** A posted payload passes the handler's guards exactly when none of its
      three strings is empty. */
  lemma PayloadAccepted(p: ChatBot.Payload)
    ensures AllAccepted(RequestBody(p)) <==> p.inputLanguage != "" && p.outputLanguage != "" && p.input != ""
  {
  }

  /** A payload with an empty string is answered 400 and the form shows the
      handler's message for the first empty field; nothing is stored. */
  lemma EmptyFieldShowsValidationMessage(p: ChatBot.Payload, provider: ProviderOutcome)
    requires p.inputLanguage == "" || p.outputLanguage == "" || p.input == ""
    ensures var o := Shown(p, provider);
      && !Succeeds(o)
      && ShownTranslation(o) == ""
      && ShownError(o) == (if p.inputLanguage == "" then InvalidInputLanguage
                           else if p.outputLanguage == "" then InvalidOutputLanguage
                           else InvalidInput)
  {
    var body := RequestBody(p);
    var message := if p.inputLanguage == "" then InvalidInputLanguage
                   else if p.outputLanguage == "" then InvalidOutputLanguage
                   else InvalidInput;
    if p.inputLanguage == "" {
      InputLanguageCheckedFirst(body, provider);
    } else if p.outputLanguage == "" {
      OutputLanguageCheckedSecond(body, provider);
    } else {
      InputCheckedThird(body, provider);
    }
    assert Handle(body, provider).response == Response(400, Error(message));
    assert Shown(p, provider) == Rejected(Some(JsonObject(map[ErrorKey := message])));
  }

  /** String content from the provider is shown trimmed and stored. */
  lemma ContentIsShown(p: ChatBot.Payload, text: string)
    requires p.inputLanguage != "" && p.outputLanguage != "" && p.input != ""
    ensures var o := Shown(p, Content(text));
      && Succeeds(o) && ShownTranslation(o) == Trim(text) && ShownError(o) == ""
  {
    ContentIsTranslated(RequestBody(p), text);
  }

  /** Content that is missing or not a string shows the handler's 500
      `error`. */
  lemma MissingContentIsShown(p: ChatBot.Payload, provider: ProviderOutcome)
    requires p.inputLanguage != "" && p.outputLanguage != "" && p.input != ""
    requires provider.NoResponse? || provider.NonStringContent?
    ensures ShownError(Shown(p, provider)) == NoValidTranslation
  {
  }

  /** A provider that throws makes the handler answer 500 with a `message`,
      which the rejected request never shows: the form shows the fallback. */
  lemma ProviderFailureShowsFallback(p: ChatBot.Payload, detail: string)
    requires p.inputLanguage != "" && p.outputLanguage != "" && p.input != ""
    ensures Handle(RequestBody(p), Throws(detail)).response.body == Message(CouldNotProcess)
    ensures ShownError(Shown(p, Throws(detail))) == Fallback
  {
  }

  /** English "Hello" to Urdu with the provider answering "ہیلو": the form
      takes the success branch and shows "ہیلو". */
  lemma TranslateHello()
    ensures var o := Shown(ChatBot.Payload("en", "ur", "Hello"), Content("ہیلو"));
      Succeeds(o) && ShownTranslation(o) == "ہیلو"
  {
    var hello := "ہیلو";
    assert !IsWhitespace(hello[0]) && !IsWhitespace(hello[|hello| - 1]);
    assert [] + hello + [] == hello;
    TrimUnique([], hello, []);
    assert Trim(hello) == hello;
    ContentIsShown(ChatBot.Payload("en", "ur", "Hello"), hello);
  }

  /** An empty input language: the form shows the handler's message. */
  lemma EmptyInputLanguage(provider: ProviderOutcome)
    ensures ShownError(Shown(ChatBot.Payload("", "ur", "Hello"), provider))
      == "Invalid or missing 'input_language' parameter."
  {
    EmptyFieldShowsValidationMessage(ChatBot.Payload("", "ur", "Hello"), provider);
  }

  /** The same scenario run through the form: a fresh form (English to
      Urdu), the text "Hello", a submit whose request ends as the handler
      answers, and a storage write that succeeds.  The form shows "ہیلو",
      no error, and stores it as the only history entry, whatever was
      stored before. */
  method SubmitHello(stored: Option<seq<HistoryEntry>>, timestamp: string) returns (form: Form)
    ensures form.translatedText == "ہیلو" && form.error == ""
    ensures form.storedHistory == Some([HistoryEntry("ہیلو", timestamp)])
  {
    form := new Form(stored);
    form.inputText := "Hello";
    assert form.CurrentPayload() == ChatBot.Payload("en", "ur", "Hello");
    var outcome := Shown(form.CurrentPayload(), Content("ہیلو"));
    TranslateHello();
    var payload := form.Submit(outcome, timestamp, false);
  }
}
