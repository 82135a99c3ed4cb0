# Results page of the summarize/translate extension, modelled in Dafny

The results page shows a generated response and lets the user keep the
conversation going. Its script, `extension/results.js`, holds four small pieces
of logic among the DOM glue:

- the **copy** handler, which builds a plain-text transcript of the seed response and every turn;
- the **request builder** inside the send handler, which lays out the `contents` list sent to the API;
- the **answer classifier**, which turns the API response into the answer text (or throws);
- the **conversation history**, an append-only list of turns guarded against blank questions;

plus the fallback to the default language model at page load.

Modules, one per piece:

- `Text`: `StripTrailingNewlines` (the replacement of `/\n+$/` by "") and `Trim` (`String.prototype.trim`).
- `Turns`: the `Turn` record and the `SeedResult` restored from session storage. The seed request is kept opaque, as a type parameter.
- `Transcript`: the transcript as a function, `BuildTranscript` as the loop the handler runs, and lemmas about its shape.
- `Request`: the `contents` list as a function, `BuildRequestContents` as the loop that pushes into it, and lemmas about its length, positions and role alternation.
- `Classifier`: the response record. Only the fields the handler reads are modelled. An absent or null object field is `None`. A string field is a `JsString`: undefined, null, or a string. `Classify` picks the branch and `Render` writes the answer text. Localized strings are a `Messages` parameter. A property access that would throw a `TypeError` becomes an explicit `TypeError` outcome. This covers:
  - a success without `candidates`, which throws at line 71 after line 68 compares `undefined` with "STOP";
  - an empty `candidates` list, which throws at line 68;
  - empty content parts (line 74);
  - a failure without an `error` object (line 81).
- `Settings`: the initial language model. The selector's options come from a template loaded by `utils.js` and are a parameter. Assigning a value that is not among the options makes the selector read back "". This applies both to the restored model and to the fallback assignment.
- `Conversation`: class `Session`, holding the seed result and the turns, with the copy and send handlers as methods. The response of the API call is a parameter of `Ask`.

## Model

| member | source | states |
|---|---|---|
| `Text.StripTrailingNewlines` | extension/results.js:9-13 | the result is a prefix of the input that does not end in a line feed, and everything removed is line feeds |
| `Text.StripTrailingNewlinesUnique` | extension/results.js:9-13 | those three facts determine the stripped string: any prefix that has them is it |
| `Text.StripTrailingNewlinesIdempotent` | extension/results.js:9-13 | stripping twice equals stripping once |
| `Text.Trim` | extension/results.js:27 | the trimmed question is a slice of the input, surrounded only by white space, and does not start or end with white space; it is empty exactly when the input is all white space |
| `Text.TrimIdempotent` | extension/results.js:27 | trimming a trimmed question changes nothing |
| `Text.TrimmedNeedsNoStrip` | extension/results.js:12 | a trimmed question has no trailing line feed, so the copy handler's strip leaves it as it is |
| `Transcript.TranscriptShape` | extension/results.js:9-14 | the transcript starts with the stripped seed response and a blank line, and it always ends in "\n\n" |
| `Transcript.TranscriptAppend` | extension/results.js:11-14 | one more turn adds its stripped question + "\n\n" + its stripped answer + "\n\n" at the end |
| `Transcript.TranscriptExtends` | extension/results.js:11-14 | the transcript of a conversation is a prefix of the transcript of any longer conversation |
| `Transcript.Pieces` | extension/results.js:9-14 | the pieces of the transcript in order: the seed response first, then question and answer of turn k at 2k+1 and 2k+2 |
| `Transcript.TranscriptIsJoinedPieces` | extension/results.js:9-14 | the transcript is the concatenation, in that order, of every piece stripped of its trailing line feeds and followed by "\n\n" |
| `Transcript.BuildTranscript` | extension/results.js:8-14 | the accumulating loop of the copy handler computes exactly the transcript |
| `Request.HistoryAt` | extension/results.js:49-52 | the messages for earlier turns number 2 per turn: turn k's question as a user message at 2k and its answer as a model message at 2k+1 |
| `Request.RequestContentsShape` | extension/results.js:44-55 | `contents` has 2·\|turns\|+3 elements: the seed request, then the seed response as a model message, then each turn's question (user) at 2k+2 and answer (model) at 2k+3, and the new question (user) last |
| `Request.RolesAlternate` | extension/results.js:46-55 | from index 1 on every element is a message, the roles alternate model, user, model, …, and the last is user |
| `Request.BuildRequestContents` | extension/results.js:44-55 | the pushing loop builds exactly that `contents` list |
| `Classifier.Classify` | extension/results.js:63-82 | the decision, first match wins. A failed response yields an HTTP error, or throws when it has no `error` object. A successful response never yields an HTTP error |
| `Classifier.Render` | extension/results.js:66-81 | an error's text starts with "Error: " and the status and ends with the provider's message. A block's text starts with the localized explanation and ends with the quoted reason. The exact text of every branch is stated on `Classifier.Answer` and `Classifier.BlockedResponse` |
| `Classifier.Answer` | extension/results.js:63-82 | a failed response with an `error` object yields exactly "Error: " + status + "\n\n" + the printed message, whatever else the body holds. A success with a non-empty block reason yields exactly the prompt-blocked text + " Reason: " + the reason, whatever `candidates` holds. Otherwise, a first candidate that finished with "STOP" yields exactly the text of its content's first part, or exactly the unexpected-response text when it has no content |
| `Classifier.FailedResponseIgnoresRest` | extension/results.js:79-82 | a failed response's answer depends only on its status and its `error` field |
| `Classifier.BlockedPromptWins` | extension/results.js:63-67 | a success with a (non-empty) block reason is classified as a blocked prompt quoting that reason, whatever `candidates` holds |
| `Classifier.BlockedResponse` | extension/results.js:68-71 | otherwise a first candidate whose finish reason is not "STOP" yields the response-blocked text and that reason, printed "undefined" when absent and "null" when null |
| `Classifier.GeneratedExactly` | extension/results.js:72-74 | generated text is the answer exactly when nothing was blocked, the first candidate finished with "STOP" and its content's first part holds that text |
| `Classifier.UnexpectedExactly` | extension/results.js:72-78 | the unexpected-response text is the answer exactly when nothing was blocked, the first candidate finished with "STOP" and it has no content |
| `Classifier.FaultsExactly` | extension/results.js:63-82 | the classifier throws exactly on these inputs: a success with no block reason and missing or empty `candidates`; a stopped candidate whose content has no parts; a failure without `error` |
| `Classifier.MissingCandidatesThrows` | extension/results.js:68-71 | a success with no block reason and no `candidates` throws when line 71 reads `candidates[0]` |
| `Settings.InitialModel` | extension/results.js:150-156 | the initial model is one of the selector's options, or "" when neither the stored model nor "1.5-flash" is one. It is the stored model whenever that model can be selected. Otherwise it is "1.5-flash" if that is an option and "" if not, because the fallback assignment also reads back "" |
| `Conversation.Session.constructor` | extension/results.js:5-6 | the page starts with the restored result and an empty conversation |
| `Conversation.Session.Copy` | extension/results.js:8-14 | the copy handler returns the transcript of the seed response and all turns, that is, their pieces joined in order. Each recorded question goes in verbatim, followed by a blank line |
| `Conversation.Session.PrepareRequest` | extension/results.js:27-55 | a question that is blank once trimmed builds no request; any other builds the `contents` list ending with the trimmed question |
| `Conversation.Session.Submit` | extension/results.js:127 | a blank question leaves the turns unchanged; any other appends exactly one turn (trimmed question, answer), the earlier turns unchanged, and every recorded question stays trimmed and non-empty |
| `Conversation.Session.Ask` | extension/results.js:24-127 | the send handler ignores a blank question. Otherwise it sends the `contents` list for the trimmed question. On a throwing response it leaves the turns unchanged. Otherwise it appends the classified answer as one new turn |
| `Conversation.CopyAfterSubmit` | extension/results.js:12-14 | after a turn is recorded, the transcript grows by the question as it was recorded, "\n\n", the stripped answer and "\n\n" |

## Left out

- DOM reads and writes are not modelled: element creation, styling, scrolling, enabling and disabling of controls, and clearing the input. They are UI state. One consequence is not shown: when the classifier throws, the controls stay disabled.
- The clipboard write, the "copied" status message and its timer, and the periodic loading message are not modelled. They are browser side effects.
- `chrome.storage` and `chrome.i18n` are platform I/O. The stored model, the restored seed result and the localized strings are parameters instead. The API key read at line 59 and the model id from line 26 go only to the API call, which is not modelled, so `Session.Ask` records neither. The bidi direction and the `data-i18n` labelling of page load are not modelled.
- A missing seed result is not modelled: the stored result is assumed present. If the session key is absent, `result` is "" and `result.responseContent` is undefined. Nothing throws at page load, and the request then carries an undefined seed response. The first throw comes from the `.replace` call at line 9, when the copy button is pressed.
- `marked.parse`, `DOMPurify.sanitize` and the `textContent`→`innerHTML` escaping are not modelled. They are third-party libraries and browser serialization.
- `generateContent`, `getModelId`, `adjustLayoutForScreenSize`, `loadTemplate` and `displayLoadingMessage` are not modelled. They live in `utils.js`, which is not part of this model. The response, including the transport-failure result built there, is a parameter of `Session.Ask`. Its `status` is taken as the text the template literal prints.
- The asynchronous interleaving of handlers, and its serialization by disabled buttons, are not modelled. That is concurrency through UI state.
- `Text.Trim`: only the ASCII white space characters, no-break space, line separator, paragraph separator and byte order mark count as white space. The other Unicode space separators that JavaScript's `trim` also removes are not included.
- Response fields are modelled only one level deep. A JSON `null` is represented only for the string fields `finishReason`, `blockReason` and `error.message`. For the object-valued fields a null behaves exactly like an absent field in every access the handler makes. A `candidates[0]` that is `null`, a `content.parts` or `text` that is missing or not a string, and a `body` that is not an object are not represented.
- Transcript and request messages use `string` values only. `Show` prints an absent finish reason or error message as "undefined" and a null one as "null", as a template literal does. Other non-string values are not represented.
