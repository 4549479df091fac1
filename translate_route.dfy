/**
 * The `POST /api/translate` handler: three guards on the request body, the
 * call to the text-generation provider with the trimmed fields, and the
 * mapping of the provider's outcome (or of any thrown error) to one of three
 * JSON response shapes with a fixed status code.
 *
 * The provider is not modelled; it appears as the outcome it produces.  The
 * handler's result records, besides the response, the prompt fields the
 * provider was given, if it was called at all.
 */
module TranslateRoute {
  import opened Wrappers
  import opened JsString

  /** A property value of the parsed request body: a JSON string, or any
      other JSON value (number, boolean, null, array, object). */
  datatype Field = Str(s: string) | NonString

  /** What `await request.json()` produced.  A body that does not parse makes
      it throw.  Reading a property of `null` throws too; reading one of any
      other non-object value (a number, a string, an array) gives
      `undefined`, as for an object without that key. */
  datatype Body =
    | Unparsable
    | NullBody
    | Primitive
    | Object(fields: map<string, Field>)

  /** What the provider call (`chain.invoke`) does: it throws (the error
      detail is logged and nothing else), returns nothing, returns a message
      whose `content` is not a string, or returns string content. */
  datatype ProviderOutcome =
    | Throws(detail: string)
    | NoResponse
    | NonStringContent
    | Content(text: string)

  /** The three response shapes, told apart by their single key. */
  datatype ResponseBody =
    | Translation(translation: string)
    | Error(error: string)
    | Message(message: string)

  datatype Response = Response(status: int, body: ResponseBody)

  /** The variables the prompt template is rendered with. */
  datatype Prompt = Prompt(inputLanguage: string, outputLanguage: string, input: string)

  /** The response, and the prompt the provider was invoked with (`None`
      when it was not invoked). */
  datatype Handled = Handled(response: Response, sent: Option<Prompt>)

  const InputLanguageKey := "input_language"
  const OutputLanguageKey := "output_language"
  const InputKey := "input"

  /** The body keys in the order the handler validates them. */
  const Keys: seq<string> := [InputLanguageKey, OutputLanguageKey, InputKey]

  const InvalidInputLanguage := "Invalid or missing 'input_language' parameter."
  const InvalidOutputLanguage := "Invalid or missing 'output_language' parameter."
  const InvalidInput := "Invalid or missing 'input' text to translate."
  const NoValidTranslation := "Failed to retrieve a valid translation."
  const CouldNotProcess := "Could not process the translation request."

  /** The 400 message for each key of `Keys`, index for index. */
  const InvalidMessages: seq<string> := [InvalidInputLanguage, InvalidOutputLanguage, InvalidInput]

  /** `body[key]` for a body whose property access does not throw;
      `None` stands for `undefined`. */
  function Lookup(body: Body, key: string): Option<Field>
    requires body.Primitive? || body.Object?
  {
    if body.Object? && key in body.fields then Some(body.fields[key]) else None
  }

  /** The guard `!v || typeof v !== "string"` fails: `v` is a non-empty
      string. */
  predicate Accepted(v: Option<Field>) {
    v.Some? && v.value.Str? && Truthy(v.value.s)
  }

  /** The text of an accepted field. */
  function Text(v: Option<Field>): (s: string)
    requires Accepted(v)
    ensures s != ""
  {
    v.value.s
  }

  /** The catch-all response of the `catch` block. */
  const InternalError := Response(500, Message(CouldNotProcess))

  function BadRequest(message: string): Response {
    Response(400, Error(message))
  }

  /** Maps what the provider did to the response sent back. */
  function Respond(outcome: ProviderOutcome): (r: Response)
    ensures r.status == 200 <==> outcome.Content?
    ensures outcome.Content? ==> r.body == Translation(Trim(outcome.text))
    ensures (outcome.NoResponse? || outcome.NonStringContent?) ==> r == Response(500, Error(NoValidTranslation))
    ensures outcome.Throws? ==> r == InternalError
  {
    match outcome
    case Throws(_) => InternalError
    case NoResponse => Response(500, Error(NoValidTranslation))
    case NonStringContent => Response(500, Error(NoValidTranslation))
    case Content(text) => Response(200, Translation(Trim(text)))
  }

  /** The handler.  `provider` is what the provider does if it is called;
      it is consulted only once all three fields are accepted. */
  function Handle(body: Body, provider: ProviderOutcome): (h: Handled)
    ensures Consistent(h.response)
    ensures h.sent.Some? <==> AllAccepted(body)
    ensures h.response.status == 400 <==> (body.Primitive? || body.Object?) && !AllAccepted(body)
  {
    // `request.json()` throws on a malformed body, and reading a property of
    // `null` throws: both land in the `catch` block.
    if body.Unparsable? || body.NullBody? then
      Handled(InternalError, None)
    else
      var inputLanguage := Lookup(body, InputLanguageKey);
      var outputLanguage := Lookup(body, OutputLanguageKey);
      var input := Lookup(body, InputKey);
      if !Accepted(inputLanguage) then
        Handled(BadRequest(InvalidInputLanguage), None)
      else if !Accepted(outputLanguage) then
        Handled(BadRequest(InvalidOutputLanguage), None)
      else if !Accepted(input) then
        Handled(BadRequest(InvalidInput), None)
      else
        var prompt := Prompt(Trim(Text(inputLanguage)), Trim(Text(outputLanguage)), Trim(Text(input)));
        Handled(Respond(provider), Some(prompt))
  }

  /** All three keys hold an accepted value. */
  predicate AllAccepted(body: Body) {
    && (body.Primitive? || body.Object?)
    && Accepted(Lookup(body, InputLanguageKey))
    && Accepted(Lookup(body, OutputLanguageKey))
    && Accepted(Lookup(body, InputKey))
  }

  /** Status and body shape agree: 400 only with `error`, 200 only with
      `translation`, 500 with `error` or `message`, and no other status. */
  predicate Consistent(r: Response) {
    match r.body
    case Translation(_) => r.status == 200
    case Error(_) => r.status == 400 || r.status == 500
    case Message(_) => r.status == 500
  }

  /** The index, in validation order, of the first key whose value is
      rejected; `|Keys|` when there is none.  A reference definition of the
      guard chain, by scanning `Keys`. */
  function FirstRejected(body: Body, from: nat): (k: nat)
    requires body.Primitive? || body.Object?
    requires from <= |Keys|
    ensures from <= k <= |Keys|
    ensures forall j :: from <= j < k ==> Accepted(Lookup(body, Keys[j]))
    ensures k < |Keys| ==> !Accepted(Lookup(body, Keys[k]))
    decreases |Keys| - from
  {
    if from == |Keys| || !Accepted(Lookup(body, Keys[from])) then from
    else FirstRejected(body, from + 1)
  }

  // Properties of the handler

  /** The handler rejects with 400 exactly when the scan of `Keys` finds a
      rejected value, and its message names the first such key. */
  lemma {:induction false} BadRequestNamesFirstRejected(body: Body, provider: ProviderOutcome)
    requires body.Primitive? || body.Object?
    ensures var k := FirstRejected(body, 0);
      && (Handle(body, provider).response.status == 400 <==> k < |Keys|)
      && (k < |Keys| ==> Handle(body, provider) == Handled(BadRequest(InvalidMessages[k]), None))
  {
    var k := FirstRejected(body, 0);
    if k == 1 {
      assert Accepted(Lookup(body, Keys[0]));
    } else if k == 2 {
      assert Accepted(Lookup(body, Keys[0])) && Accepted(Lookup(body, Keys[1]));
    } else if k == 3 {
      assert Accepted(Lookup(body, Keys[0])) && Accepted(Lookup(body, Keys[1])) && Accepted(Lookup(body, Keys[2]));
    }
  }

  /** A missing, non-string or empty `input_language` is rejected with its
      own message, whatever the other two keys hold, and the provider is not
      called. */
  lemma InputLanguageCheckedFirst(body: Body, provider: ProviderOutcome)
    requires body.Primitive? || body.Object?
    requires !Accepted(Lookup(body, InputLanguageKey))
    ensures Handle(body, provider) == Handled(Response(400, Error(InvalidInputLanguage)), None)
  {
  }

  /** `output_language` is judged only once `input_language` is accepted. */
  lemma OutputLanguageCheckedSecond(body: Body, provider: ProviderOutcome)
    requires body.Primitive? || body.Object?
    requires Accepted(Lookup(body, InputLanguageKey))
    requires !Accepted(Lookup(body, OutputLanguageKey))
    ensures Handle(body, provider) == Handled(Response(400, Error(InvalidOutputLanguage)), None)
  {
  }

  /** `input` is judged only once both languages are accepted. */
  lemma InputCheckedThird(body: Body, provider: ProviderOutcome)
    requires body.Primitive? || body.Object?
    requires Accepted(Lookup(body, InputLanguageKey))
    requires Accepted(Lookup(body, OutputLanguageKey))
    requires !Accepted(Lookup(body, InputKey))
    ensures Handle(body, provider) == Handled(Response(400, Error(InvalidInput)), None)
  {
  }

  /** Once all three keys are accepted the provider is called once, with
      each value trimmed; nothing it is given has white space at either end,
      and a value that is white space only passed the guard yet reaches the
      provider as "". */
  lemma ProviderSeesTrimmedFields(body: Body, provider: ProviderOutcome)
    requires AllAccepted(body)
    ensures var h := Handle(body, provider);
      var inputLanguage := Text(Lookup(body, InputLanguageKey));
      var outputLanguage := Text(Lookup(body, OutputLanguageKey));
      var input := Text(Lookup(body, InputKey));
      && h.sent == Some(Prompt(Trim(inputLanguage), Trim(outputLanguage), Trim(input)))
      && Trimmed(h.sent.value.inputLanguage) && Trimmed(h.sent.value.outputLanguage) && Trimmed(h.sent.value.input)
      && (h.sent.value.inputLanguage == "" <==> AllWhitespace(inputLanguage))
      && (h.sent.value.outputLanguage == "" <==> AllWhitespace(outputLanguage))
      && (h.sent.value.input == "" <==> AllWhitespace(input))
  {
    TrimEmptyIff(Text(Lookup(body, InputLanguageKey)));
    TrimEmptyIff(Text(Lookup(body, OutputLanguageKey)));
    TrimEmptyIff(Text(Lookup(body, InputKey)));
  }

  /** Whether and with what the provider is called does not depend on what
      it would do; when it is not called, its outcome cannot affect the
      response. */
  lemma ProviderOutcomeOnlyMattersWhenCalled(body: Body, p1: ProviderOutcome, p2: ProviderOutcome)
    ensures Handle(body, p1).sent == Handle(body, p2).sent
    ensures Handle(body, p1).sent.None? ==> Handle(body, p1) == Handle(body, p2)
  {
  }

  /** String content `t` from the provider gives 200 with the trimmed `t`,
      which trimming again would not change. */
  lemma ContentIsTranslated(body: Body, text: string)
    requires AllAccepted(body)
    ensures var r := Handle(body, Content(text)).response;
      && r == Response(200, Translation(Trim(text)))
      && Trim(r.body.translation) == r.body.translation
  {
    var r := Handle(body, Content(text)).response;
    assert r == Respond(Content(text));
    TrimIdempotent(text);
  }

  /** No response, or content that is not a string, gives 500 with the fixed
      `error`. */
  lemma MissingContentIsServerError(body: Body, provider: ProviderOutcome)
    requires AllAccepted(body)
    requires provider.NoResponse? || provider.NonStringContent?
    ensures Handle(body, provider).response == Response(500, Error(NoValidTranslation))
  {
  }

  /** A provider that throws gives 500 with the fixed `message`: the error's
      detail never reaches the response. */
  lemma ThrownErrorIsHidden(body: Body, d1: string, d2: string)
    requires AllAccepted(body)
    ensures Handle(body, Throws(d1)).response == Response(500, Message(CouldNotProcess))
    ensures Handle(body, Throws(d1)) == Handle(body, Throws(d2))
  {
  }

  /** A body that does not parse, or parses to `null`, ends in the `catch`
      block before any guard runs. */
  lemma UnreadableBodyIsInternalError(body: Body, provider: ProviderOutcome)
    requires body.Unparsable? || body.NullBody?
    ensures Handle(body, provider) == Handled(Response(500, Message(CouldNotProcess)), None)
  {
  }

  /** Every `message` response is the catch-all, and every 500 `error` is
      the provider-format failure: the two 500 shapes never mix up. */
  lemma ServerErrorShapes(body: Body, provider: ProviderOutcome)
    ensures var r := Handle(body, provider).response;
      && (r.body.Message? <==> r == InternalError)
      && (r.status == 500 && r.body.Error? <==> r == Response(500, Error(NoValidTranslation)))
      && (r.body.Message? ==> (body.Unparsable? || body.NullBody? || provider.Throws?))
  {
  }
}
