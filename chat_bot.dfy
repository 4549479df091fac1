/**
 * The translation form's submit handler: it clears the previous result,
 * raises the loading flag, posts the selected languages and the raw text,
 * and then shows either the translation (storing it, with its timestamp, as
 * the one-entry translation history) or an error string, before lowering the
 * loading flag.
 *
 * The HTTP request is not modelled; its outcome is an input.  So is the
 * timestamp.  The browser's `translationHistory` storage slot is a field.
 */
module ChatBot {
  import opened Wrappers
  import opened JsString

  /** A choice in a language picker: a code and its display name. */
  datatype LanguageOption = LanguageOption(value: string, displayLabel: string)

  /** One stored translation. */
  datatype HistoryEntry = HistoryEntry(translation: string, timestamp: string)

  /** The JSON payload posted to the translation endpoint. */
  datatype Payload = Payload(inputLanguage: string, outputLanguage: string, input: string)

  /** `response.data` as the HTTP client hands it over: a JSON object with
      string-valued keys, or anything else (a string, a number, `null`). */
  datatype Data = JsonObject(fields: map<string, string>) | NotAnObject

  /** How the request ended: resolved with a status and data, or rejected,
      with the server's response data when there was a response at all. */
  datatype RequestOutcome =
    | Resolved(status: int, data: Data)
    | Rejected(response: Option<Data>)

  const TranslationKey := "translation"
  const ErrorKey := "error"
  const MessageKey := "message"
  const Fallback := "An unexpected error occurred."

  /** `option?.value || ''`: the selected code, "" when nothing is selected. */
  function SelectedValue(option: Option<LanguageOption>): string {
    if option.Some? && Truthy(option.value.value) then option.value.value else ""
  }

  /** The success branch is taken: status 200 and a `translation` key.
      (The `in` test on data that is not an object throws instead.) */
  predicate Succeeds(outcome: RequestOutcome) {
    && outcome.Resolved?
    && outcome.status == 200
    && outcome.data.JsonObject?
    && TranslationKey in outcome.data.fields
  }

  /** The translated text shown once the request has completed. */
  function ShownTranslation(outcome: RequestOutcome): string {
    if Succeeds(outcome) then outcome.data.fields[TranslationKey] else ""
  }

  /** The error shown once the request has completed.  Resolved: "" on
      success, else the `error` key, else the `message` key, else the
      fallback; data that is not an object makes the `in` test throw, and
      the thrown `TypeError` carries no response, so the fallback.  Rejected:
      the response's `error` if it is truthy, else the fallback. */
  function ShownError(outcome: RequestOutcome): string {
    match outcome
    case Resolved(status, data) =>
      if !data.JsonObject? then Fallback
      else if Succeeds(outcome) then ""
      else if ErrorKey in data.fields then data.fields[ErrorKey]
      else if MessageKey in data.fields then data.fields[MessageKey]
      else Fallback
    case Rejected(response) =>
      if response.Some? && response.value.JsonObject? && ErrorKey in response.value.fields
        && Truthy(response.value.fields[ErrorKey])
      then response.value.fields[ErrorKey]
      else Fallback
  }

  /** The error shown once the request has completed, when the storage
      write of the success branch may throw (quota exceeded, storage
      disabled).  That exception carries no response either, so the catch
      shows the fallback, after the translation has already been set. */
  function ErrorAfterSubmit(outcome: RequestOutcome, storageWriteFails: bool): string {
    if Succeeds(outcome) && storageWriteFails then Fallback else ShownError(outcome)
  }

  /** The success branch gets as far as writing the history. */
  predicate StoresHistory(outcome: RequestOutcome, storageWriteFails: bool) {
    Succeeds(outcome) && !storageWriteFails
  }

  /** The translation form's state. */
  class Form {
    var inputLanguage: Option<LanguageOption>
    var outputLanguage: Option<LanguageOption>
    var inputText: string
    var translatedText: string
    var loading: bool
    var error: string
    /** The browser storage slot `translationHistory`; `None` while unset. */
    var storedHistory: Option<seq<HistoryEntry>>

    /** The form as first rendered: English to Urdu, everything else empty;
        the storage slot holds whatever an earlier session left there. */
    constructor (stored: Option<seq<HistoryEntry>>)
      ensures inputLanguage == Some(LanguageOption("en", "English"))
      ensures outputLanguage == Some(LanguageOption("ur", "Urdu"))
      ensures inputText == "" && translatedText == "" && error == "" && !loading
      ensures storedHistory == stored
      ensures Settled()
    {
      inputLanguage := Some(LanguageOption("en", "English"));
      outputLanguage := Some(LanguageOption("ur", "Urdu"));
      inputText := "";
      translatedText := "";
      loading := false;
      error := "";
      storedHistory := stored;
    }

    /** No request in flight, and never an error and a translation shown at
        the same time. */
    predicate Settled()
      reads this
    {
      !loading && !(Truthy(error) && Truthy(translatedText))
    }

    /** The payload the current selections and text would post: "" for an
        unselected language, the text exactly as typed. */
    function CurrentPayload(): (p: Payload)
      reads this
      ensures p.input == inputText
      ensures inputLanguage.None? ==> p.inputLanguage == ""
      ensures outputLanguage.None? ==> p.outputLanguage == ""
      ensures inputLanguage.Some? ==> p.inputLanguage == inputLanguage.value.value
      ensures outputLanguage.Some? ==> p.outputLanguage == outputLanguage.value.value
    {
      Payload(SelectedValue(inputLanguage), SelectedValue(outputLanguage), inputText)
    }

    /** What happens before the request is sent: loading on, error and
        translation cleared, and the payload built from the inputs. */
    method BeginSubmit() returns (payload: Payload)
      modifies this`loading, this`error, this`translatedText
      ensures loading && error == "" && translatedText == ""
      ensures payload == CurrentPayload()
    {
      loading := true;
      error := "";
      translatedText := "";
      payload := Payload(SelectedValue(inputLanguage), SelectedValue(outputLanguage), inputText);
    }

    /** What happens once the request has completed: the outcome is shown,
        the history is overwritten on success only (unless the storage write
        throws), and loading goes off.  `storageWriteFails` says whether the
        browser refuses the write. */
    method FinishSubmit(outcome: RequestOutcome, timestamp: string, storageWriteFails: bool)
      requires loading && error == "" && translatedText == ""
      modifies this`loading, this`error, this`translatedText, this`storedHistory
      ensures translatedText == ShownTranslation(outcome)
      ensures error == ErrorAfterSubmit(outcome, storageWriteFails)
      ensures storedHistory ==
        if StoresHistory(outcome, storageWriteFails) then Some([HistoryEntry(translatedText, timestamp)])
        else old(storedHistory)
      ensures !loading
      ensures !(Succeeds(outcome) && storageWriteFails) ==> Settled()
    {
      match outcome {
        case Resolved(status, data) =>
          if !data.JsonObject? {
            // the `in` operator throws on a non-object; the catch finds no response
            error := Fallback;
          } else if status == 200 && TranslationKey in data.fields {
            translatedText := data.fields[TranslationKey];
            var entry := HistoryEntry(data.fields[TranslationKey], timestamp);
            if storageWriteFails {
              // the write throws; the catch finds no response
              error := Fallback;
            } else {
              storedHistory := Some([entry]);
            }
          } else if ErrorKey in data.fields {
            error := data.fields[ErrorKey];
          } else if MessageKey in data.fields {
            error := data.fields[MessageKey];
          } else {
            error := Fallback;
          }
        case Rejected(response) =>
          var reported := "";
          if response.Some? && response.value.JsonObject? && ErrorKey in response.value.fields {
            reported := response.value.fields[ErrorKey];
          }
          error := if Truthy(reported) then reported else Fallback;
      }
      loading := false;
      SettledAfterCompletion(outcome);
    }

    /** The whole submit handler: it posts the payload built from the inputs
        as they were and leaves the inputs as they are. */
    method Submit(outcome: RequestOutcome, timestamp: string, storageWriteFails: bool) returns (payload: Payload)
      modifies this`loading, this`error, this`translatedText, this`storedHistory
      ensures payload == old(CurrentPayload())
      ensures inputLanguage == old(inputLanguage) && outputLanguage == old(outputLanguage)
      ensures inputText == old(inputText)
      ensures translatedText == ShownTranslation(outcome)
      ensures error == ErrorAfterSubmit(outcome, storageWriteFails)
      ensures storedHistory ==
        if StoresHistory(outcome, storageWriteFails) then Some([HistoryEntry(translatedText, timestamp)])
        else old(storedHistory)
      ensures !loading
      ensures !(Succeeds(outcome) && storageWriteFails) ==> Settled()
    {
      payload := BeginSubmit();
      FinishSubmit(outcome, timestamp, storageWriteFails);
    }
  }

  // Properties of the outcome handling

  /** An error and a translation are never both shown, and a successful
      outcome shows no error. */
  lemma SettledAfterCompletion(outcome: RequestOutcome)
    ensures !(Truthy(ShownError(outcome)) && Truthy(ShownTranslation(outcome)))
    ensures Succeeds(outcome) ==> ShownError(outcome) == ""
    ensures !Succeeds(outcome) ==> ShownTranslation(outcome) == ""
  {
  }

  /** When the storage write of the success branch throws, the form shows
      the translation and the fallback error at the same time, and the
      stored history is left as it was: the one path on which an error and
      a non-empty translation are both shown. */
  lemma StorageFailureShowsBoth(outcome: RequestOutcome)
    requires Succeeds(outcome)
    ensures ErrorAfterSubmit(outcome, true) == Fallback
    ensures ShownTranslation(outcome) == outcome.data.fields[TranslationKey]
    ensures !StoresHistory(outcome, true)
    ensures Truthy(ErrorAfterSubmit(outcome, true))
  {
  }

  /** Only that path shows both: with the write succeeding, or on any
      outcome other than success, at most one of the two is shown. */
  lemma AtMostOneShownUnlessStorageFails(outcome: RequestOutcome, storageWriteFails: bool)
    requires !(Succeeds(outcome) && storageWriteFails)
    ensures !(Truthy(ErrorAfterSubmit(outcome, storageWriteFails)) && Truthy(ShownTranslation(outcome)))
  {
    SettledAfterCompletion(outcome);
  }

  /** On a resolved request that is not a success, the `error` key wins over
      the `message` key. */
  lemma ErrorKeyBeforeMessage(status: int, fields: map<string, string>)
    requires !(status == 200 && TranslationKey in fields)
    requires ErrorKey in fields
    ensures ShownError(Resolved(status, JsonObject(fields))) == fields[ErrorKey]
  {
  }

  /** With no `error` key, the `message` key is shown. */
  lemma MessageWhenNoErrorKey(status: int, fields: map<string, string>)
    requires !(status == 200 && TranslationKey in fields)
    requires ErrorKey !in fields && MessageKey in fields
    ensures ShownError(Resolved(status, JsonObject(fields))) == fields[MessageKey]
  {
  }

  /** With neither key, or data that is not an object, the fallback. */
  lemma FallbackWhenNeitherKey(status: int, data: Data)
    requires data.JsonObject? ==> !(status == 200 && TranslationKey in data.fields)
    requires data.JsonObject? ==> ErrorKey !in data.fields && MessageKey !in data.fields
    ensures ShownError(Resolved(status, data)) == Fallback
  {
  }

  /** A rejected request shows the response's `error` when it is a
      non-empty string and the fallback otherwise, so it always shows
      something; a `message` key in the response is never shown. */
  lemma RejectionShowsOnlyError(response: Option<Data>, fields: map<string, string>, message: string)
    ensures Truthy(ShownError(Rejected(response)))
    ensures response == Some(JsonObject(fields)) && ErrorKey in fields && Truthy(fields[ErrorKey])
      ==> ShownError(Rejected(response)) == fields[ErrorKey]
    ensures !(response.Some? && response.value.JsonObject? && ErrorKey in response.value.fields
              && Truthy(response.value.fields[ErrorKey]))
      ==> ShownError(Rejected(response)) == Fallback
    ensures ShownError(Rejected(Some(JsonObject(fields[MessageKey := message]))))
      == ShownError(Rejected(Some(JsonObject(fields))))
  {
    var withMessage := fields[MessageKey := message];
    assert ErrorKey in withMessage <==> ErrorKey in fields;
    assert ErrorKey in fields ==> withMessage[ErrorKey] == fields[ErrorKey];
  }
}
