# Translator-AI: the translation endpoint and the submit handler, in Dafny

Translator-AI is a small web application. A browser form collects an input language, an output language and a text. It posts them to `POST /api/translate`. That endpoint validates the three fields, trims them, and hands them to a hosted text-generation model as the variables of a fixed two-turn prompt. It maps what the model returns, or any error thrown on the way, to one of three JSON response shapes. The form then shows the translation, or an error string. On success it stores the translation with a timestamp as a one-entry history in browser storage.

The model has five modules:

- `JsString` (`js_string.dfy`): JavaScript's `String.prototype.trim` over ECMAScript's white-space and line-terminator code points, and string truthiness. Lemmas prove that `Trim` cuts only white space from the two ends, that its result is the unique such string (`TrimUnique`), and that trimming is idempotent.
- `TranslateRoute` (`translate_route.dfy`): the endpoint as a pure function `Handle(body, provider)`. `body` is the parsed request body, with parse failure and `null` as their own cases. `provider` is what the model call does: it throws, returns nothing, returns non-string content, or returns string content. The result is the response together with the prompt variables the provider was called with (`None` when it was not called).
- `ChatBot` (`chat_bot.dfy`): the form as a class `Form` whose fields are the component's state plus the `translationHistory` storage slot. `BeginSubmit`, `FinishSubmit` and `Submit` perform the submit handler's state changes. Their postconditions tie the new state to pure functions of the request outcome (`ShownTranslation`, `ShownError`, `ErrorAfterSubmit`). A flag says whether the browser's storage write succeeds.
- `EndToEnd` (`end_to_end.dfy`): the two sides put together. The posted payload becomes the handler's request body. The handler's response comes back through the HTTP client's default status rule: 2xx resolves, anything else rejects with the response data.
- `Wrappers` (`wrappers.dfy`): `Option`.

Behaviour of the code worth knowing, which the model states as written:

- A provider failure is answered with 500 and `{message: "Could not process the translation request."}`. The form reads only `error` from a rejected request, so it shows `"An unexpected error occurred."`, not that message (`EndToEnd.ProviderFailureShowsFallback`). The form's `message` branch is reached only when a request resolves with such a body.
- The handler's guards reject an empty string as well as a missing or non-string value.
- The form's success branch needs status 200 as well as a `translation` key.
- The success branch sets the translated text before it writes the history to browser storage. If that write throws (quota exceeded, storage disabled), the catch shows the fallback error too. The form then shows a translation and an error at the same time, and the stored history stays as it was (`ChatBot.StorageFailureShowsBoth`). On every other path at most one of the two is shown.

## Model

| member | source | states |
|---|---|---|
| JsString.TrimStart | src/app/api/translate/route.ts:70-72 | the result is no longer than the input and does not start with white space |
| JsString.TrimStartEncloses | src/app/api/translate/route.ts:70-72 | the result of `TrimStart` is the input's suffix after a prefix of white space only |
| JsString.TrimEnd | src/app/api/translate/route.ts:70-72 | the result is no longer than the input and does not end with white space |
| JsString.TrimEndEncloses | src/app/api/translate/route.ts:70-72 | the result of `TrimEnd` is the input's prefix before a suffix of white space only |
| JsString.Trim | src/app/api/translate/route.ts:70-72 | the result is no longer than the input and has no white space at either end |
| JsString.TrimEncloses | src/app/api/translate/route.ts:70-72 | the result of `Trim` sits inside the input with only white space before and after it |
| JsString.TrimEmptyIff | src/app/api/translate/route.ts:70-72 | `Trim` returns "" exactly when the input is all white space |
| JsString.TrimUnique | src/app/api/translate/route.ts:77 | for any white-space prefix and suffix around a string without white space at its ends, trimming the whole returns exactly that string |
| JsString.TrimIdempotent | src/app/api/translate/route.ts:77 | trimming a trimmed string changes nothing |
| TranslateRoute.Respond | src/app/api/translate/route.ts:75-87 | string content gives 200 with the trimmed content; no response or non-string content gives 500 with the fixed `error`; a throw gives the catch-all 500 `message` |
| TranslateRoute.Handle | src/app/api/translate/route.ts:27-89 | status and body shape always agree; the provider is called (once) exactly when all three fields are non-empty strings; the status is 400 exactly when the body was read and some field is rejected |
| TranslateRoute.FirstRejected | src/app/api/translate/route.ts:38-54 | a scan of the keys in validation order returns the first key whose value is rejected, with every earlier key accepted |
| TranslateRoute.BadRequestNamesFirstRejected | src/app/api/translate/route.ts:38-54 | the handler answers 400 exactly when the scan finds a rejected key, with that key's message and no provider call |
| TranslateRoute.InputLanguageCheckedFirst | src/app/api/translate/route.ts:39-42 | a missing, non-string or empty `input_language` gives 400 with its message, whatever the other keys hold |
| TranslateRoute.OutputLanguageCheckedSecond | src/app/api/translate/route.ts:44-48 | with `input_language` accepted, a rejected `output_language` gives 400 with its message, whatever `input` holds |
| TranslateRoute.InputCheckedThird | src/app/api/translate/route.ts:50-54 | with both languages accepted, a rejected `input` gives 400 with its message |
| TranslateRoute.ProviderSeesTrimmedFields | src/app/api/translate/route.ts:69-73 | an accepted body calls the provider with the three values trimmed; each is trimmed, and a white-space-only value reaches it as "" |
| TranslateRoute.ProviderOutcomeOnlyMattersWhenCalled | src/app/api/translate/route.ts:69-73 | whether and with what the provider is called does not depend on its outcome; when it is not called its outcome cannot change the response |
| TranslateRoute.ContentIsTranslated | src/app/api/translate/route.ts:76-78 | string content T gives exactly 200 with `translation` = trim(T), which is itself trimmed |
| TranslateRoute.MissingContentIsServerError | src/app/api/translate/route.ts:79-82 | no response or non-string content gives exactly 500 with `error` "Failed to retrieve a valid translation." |
| TranslateRoute.ThrownErrorIsHidden | src/app/api/translate/route.ts:84-87 | a provider throw gives exactly 500 with `message` "Could not process the translation request.", the same response whatever the error's detail |
| TranslateRoute.UnreadableBodyIsInternalError | src/app/api/translate/route.ts:30-35 | a body that does not parse or parses to null gives the catch-all 500 `message` without calling the provider |
| TranslateRoute.ServerErrorShapes | src/app/api/translate/route.ts:79-87 | a `message` body is always the catch-all and comes only from an unreadable body or a throw; a 500 `error` is always the provider-format message |
| ChatBot.Form.constructor | src/components/ChatBot/index.tsx:50-61 | the form starts with English and Urdu selected, empty text, translation and error, and loading off |
| ChatBot.Form.CurrentPayload | src/components/ChatBot/index.tsx:73-77 | the payload sends "" for an unselected language, the selected code otherwise, and the input text unmodified |
| ChatBot.Form.BeginSubmit | src/components/ChatBot/index.tsx:67-77 | before any outcome is handled, loading is on, error and translated text are cleared, and the payload is built from the inputs |
| ChatBot.Form.FinishSubmit | src/components/ChatBot/index.tsx:88-113 | the shown translation and error are those of the outcome; a storage write that throws on the success branch adds the fallback error; the history becomes the single entry (translation, timestamp) on a success whose write succeeds and is unchanged otherwise; loading is off; error and translation are not both non-empty except on the failed-write path |
| ChatBot.Form.Submit | src/components/ChatBot/index.tsx:65-114 | the whole handler: posts the payload of the inputs as they were, leaves the inputs unchanged, and ends as `FinishSubmit` says |
| ChatBot.SettledAfterCompletion | src/components/ChatBot/index.tsx:89-110 | with the storage write succeeding, no outcome shows both an error and a translation; success shows no error, anything else shows no translation |
| ChatBot.StorageFailureShowsBoth | src/components/ChatBot/index.tsx:89-110 | on a success whose storage write throws, the fallback error is shown beside the translation and nothing is stored |
| ChatBot.AtMostOneShownUnlessStorageFails | src/components/ChatBot/index.tsx:89-110 | on every other path, an error and a non-empty translation are never both shown |
| ChatBot.ErrorKeyBeforeMessage | src/components/ChatBot/index.tsx:101-102 | on a resolved non-success, an `error` key is shown even when `message` is present |
| ChatBot.MessageWhenNoErrorKey | src/components/ChatBot/index.tsx:103-104 | with no `error` key, the `message` key is shown |
| ChatBot.FallbackWhenNeitherKey | src/components/ChatBot/index.tsx:105-107 | with neither key, or data that is not an object, the fallback string is shown |
| ChatBot.RejectionShowsOnlyError | src/components/ChatBot/index.tsx:108-110 | a rejected request always shows a non-empty error: the response's `error` when truthy, else exactly "An unexpected error occurred." (no response, non-object data, no `error` key, or an empty one); adding or changing a `message` key never changes it |
| EndToEnd.PayloadAccepted | src/components/ChatBot/index.tsx:73-77 | a posted payload passes the endpoint's guards exactly when none of its three strings is empty |
| EndToEnd.EmptyFieldShowsValidationMessage | src/components/ChatBot/index.tsx:108-110 | a payload with an empty string shows the endpoint's 400 message for the first empty field, and no translation is shown or stored |
| EndToEnd.ContentIsShown | src/components/ChatBot/index.tsx:89-90 | provider content T is shown as trim(T) and takes the success branch |
| EndToEnd.MissingContentIsShown | src/components/ChatBot/index.tsx:108-110 | missing or non-string provider content shows "Failed to retrieve a valid translation." |
| EndToEnd.ProviderFailureShowsFallback | src/components/ChatBot/index.tsx:108-110 | a provider throw is answered with the catch-all `message`, and the form shows the fallback, not that message |
| EndToEnd.TranslateHello | src/components/ChatBot/index.tsx:89-100 | en to ur of "Hello" with content "ہیلو" takes the success branch and shows "ہیلو" |
| EndToEnd.SubmitHello | src/components/ChatBot/index.tsx:65-114 | submitting "Hello" from a fresh form, with the provider answering "ہیلو" and the write succeeding, shows "ہیلو", no error, and stores exactly `[("ہیلو", timestamp)]` |
| EndToEnd.EmptyInputLanguage | src/app/api/translate/route.ts:39-42 | an empty input language shows "Invalid or missing 'input_language' parameter." |

## Left out

- The model call itself (client configuration, prompt template rendering, `chain.invoke`): a foreign library and network I/O. The provider is its outcome, and the prompt is the three trimmed variables it is rendered with.
- HTTP plumbing (`request.json()`, `NextResponse.json`, axios): the parsed body and the request outcome are inputs. `EndToEnd.Deliver` assumes axios's default status rule.
- Logging (`console.error`) and the clock: the timestamp is a parameter of `Submit`.
- JSON encoding of the stored history: the storage slot holds the decoded list.
- JavaScript strings are sequences of UTF-16 code units; the model's strings are sequences of Unicode scalar values, so a lone surrogate (`\uD800` in a JSON body) cannot be represented. Nothing modelled depends on it: trim strips only code points of the Basic Multilingual Plane and no length is used.
- Non-string values under the client's response keys: the client's response data maps keys to strings.
- Rendering, the select styles, the character counter, `handleCopy`, the dark-mode toggle, the page layout and the type declarations: UI and browser APIs with no logic to state.
- Concurrent submissions and React state batching: UI scheduling; each submit runs to completion in the model.
