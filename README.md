# Truvium chat client: conversation controller and webhook gateway

A Dafny model of the two pieces of sequential logic in the Truvium chat client:

- **The conversation controller** of `App.tsx` (module `App`, class
  `App.ChatController`): the message log, the input field, the reply
  suggestions and the typing indicator, and the steps that change them. These
  steps are the send guard, the user turn (which clears every earlier `isLast`
  flag), the `isLast` effect that flags the tail, the agent reply and the
  system error notice, the suggestion context, the voice-transcript append,
  logout, and the mapping from the identity provider's user to the app's user.
  The asynchronous `handleSend` is split into `BeginSend` (the guard and the
  user turn, up to the webhook call) and the two ways the call can settle:
  `CompleteWithReply` and `CompleteWithError`. The `isLast` effect, which React
  runs after every change of the log's length, is its own step,
  `SyncLastFlag`. The closure's view of the log, which `generateSuggestions`
  receives, travels in `PendingSend.snapshot`.
- **The webhook gateway** of `services/webhookService.ts` (module `Webhook`):
  the request payload and the normalisation of the workflow's reply. An
  object's first truthy `output`, `text`, `message` or `response` wins. An
  array is replaced by its first element (an empty array gives `""`). A bare
  string goes back through `JSON.parse`. A reply without a JSON content-type
  is returned as text. JSON values are the datatype `Json.Json` (integer
  numbers only), and JavaScript truthiness is `Json.Truthy`.

Supporting modules: `Types` (the records of `types.ts`), `JsString` (the
JavaScript string operations `trim`, `indexOf`, `split(c)[0]` and `endsWith`)
and `Wrappers` (`Option`, `Result`).

Parameters stand in for everything outside the program: the `fetch` exchange
(`Request -> Exchange`), `JSON.parse` (`string -> Option<Json>`, where `None`
means it throws), `JSON.stringify`, uuid values (fresh ids, which the
controller's methods require to be new to the log), the clock (`now`, the ISO
timestamp text), the speech-recognition event and the outcome of the
suggestion request.

Behaviour of the code worth knowing, which the model follows:

- The code does not keep at most one message flagged `isLast`: the agent and
  system appends do not clear earlier flags, and the effect rewrites only
  when the tail is unflagged. `App.ExchangeLeavesTwoFlags` steps one exchange
  and shows the user turn and the reply both flagged. What the model proves
  instead is that the tail is flagged after the effect, after each reply and
  after logout, and that no user turn ever follows a flagged message
  (`ChatController.Valid`).
- An object's first *truthy* field (not merely a present one) is returned, so
  `{"output": "", "text": "x"}` gives `"x"`. The result need not be a string
  either: `{"output": 5}` gives `5`.
- Only the send button looks at `isTyping`; the Enter key calls `handleSend`
  directly, so a second send is not refused while one is pending and
  `BeginSend` does not look at `isTyping`.
- A reply `["Hello"]` makes the call fail: the element goes through
  `JSON.parse`, which rejects plain text (`Webhook.PlainStringInArrayFails`).

## Model

| member | source | states |
|---|---|---|
| `JsString.TrimStart` | App.tsx:108 | the result is the suffix of the input from its first non-whitespace character; everything dropped is whitespace |
| `JsString.TrimEnd` | App.tsx:108 | the result is the prefix of the input up to its last non-whitespace character; everything dropped is whitespace |
| `JsString.TrimEmptyIff` | App.tsx:108 | `s.trim()` is empty exactly when every character of `s` is JavaScript whitespace |
| `JsString.IndexOfFrom` | services/webhookService.ts:34 | `indexOf` returns the first index at or after the start where the pattern occurs, or -1 exactly when it occurs nowhere there |
| `JsString.IndexOfFoundIff` | services/webhookService.ts:34 | `indexOf(pat) !== -1` exactly when `pat` occurs in the string |
| `JsString.PrefixBefore` | App.tsx:46 | `split('@')[0]` is a prefix of the string, contains no `@`, and is followed by `@` or the end |
| `Webhook.PayloadRoundTrip` | services/webhookService.ts:11-18 | the JSON body decodes back to exactly the payload built |
| `Webhook.BuildRequest` | services/webhookService.ts:11-26 | the request is a POST with content-type `application/json` whose body carries message, sessionId, email, name and timestamp unchanged and source `web-chat-interface` |
| `Webhook.SendCarriesArguments` | services/webhookService.ts:10-30 | the posted body carries the caller's arguments; a failed fetch or a non-ok status makes the call fail with that error |
| `Webhook.FailedExchangeIsError` | services/webhookService.ts:28-30 | a rejected fetch or a non-ok status is an error carrying the status text, whatever the headers and body are |
| `Webhook.IsJsonContentType` | services/webhookService.ts:33-34 | the JSON branch is taken exactly when a content-type header is present and contains `application/json` |
| `Webhook.JsonBranchDecodes` | services/webhookService.ts:33-35 | with a JSON content-type the body is parsed and the parsed value normalised; a body that is not JSON text is an error |
| `Webhook.FromWorkingValue` | services/webhookService.ts:48-52 | the working value fails to normalise exactly when it is a string that is not JSON text, and then with a parse error carrying that string |
| `Webhook.NestedArraySerialised` | services/webhookService.ts:39-49 | an array at element 0 is an object to `typeof`, has none of the four fields, and so comes back serialised |
| `Webhook.NormaliseData` | services/webhookService.ts:37-52 | a non-array reply is decoded as its own working value, an array by its element 0 (`Webhook.OnlyFirstElementMatters`) and `[]` gives `""`; decoding fails only with a parse error of a string `JSON.parse` rejects |
| `Webhook.NormaliseResponse` | services/webhookService.ts:28-55 | a result is produced only for an ok response; the body-not-JSON error arises exactly for an ok JSON-typed response whose body does not parse; parse errors arise only inside the JSON branch |
| `Webhook.SendMessageToWebhook` | services/webhookService.ts:4-61 | a rejected fetch of the built request fails with the transport error; a result is produced only when that fetch got an ok response, and what it is is stated by `Webhook.SendOkResponse` |
| `Webhook.SendOkResponse` | services/webhookService.ts:28-55 | an ok response to the posted request yields its body text when the content-type is absent or not JSON, the normalised parsed body when it is JSON and parses, and the body-not-JSON error when it does not parse |
| `Webhook.TextReplyVerbatim` | services/webhookService.ts:53-55 | an ok reply outside the JSON branch is returned as its body text, unchanged |
| `Webhook.EmptyArrayGivesEmptyString` | services/webhookService.ts:39-45 | a top-level empty array gives `""` |
| `Webhook.OnlyFirstElementMatters` | services/webhookService.ts:39-45 | a non-empty array is decoded from element 0 alone; later elements never change the result |
| `Webhook.FirstTruthyOrPicks` | services/webhookService.ts:49 | the `||` chain returns the first truthy field, skipping absent and falsy ones |
| `Webhook.FirstTruthyOrFallsBack` | services/webhookService.ts:49 | with no truthy field the `||` chain returns its last operand |
| `Webhook.ObjectPicksFirstTruthyField` | services/webhookService.ts:48-50 | an object yields its first truthy field in the order output, text, message, response |
| `Webhook.ObjectFallsBackToSerialisation` | services/webhookService.ts:48-50 | an object with none of those fields truthy yields its serialisation |
| `Webhook.ScalarGoesThroughParse` | services/webhookService.ts:52 | a string working value is decoded by `JSON.parse` or the call fails; null, booleans and numbers come back as themselves |
| `Webhook.ReplyExamples` | services/webhookService.ts:37-50 | `{"output":"Hi there"}` gives "Hi there", `[{"text":"Hello"}]` gives "Hello", `[]` gives "", `{"output":5}` gives 5, `{"output":"","text":"x"}` gives "x" |
| `Webhook.PlainStringInArrayFails` | services/webhookService.ts:39-52 | `["Hello"]` fails with a parse error when "Hello" is not JSON |
| `App.DisplayName` | App.tsx:46 | the name is never empty: the full name if non-empty, else the non-empty email part before the first `@`, else "User" |
| `App.AvatarName` | App.tsx:49 | the text interpolated from the full name or else the email: the display name when a full name is set, else the whole email, else the text "undefined" |
| `App.MapSessionToUser` | App.tsx:42-51 | id kept, email defaults to "", name is the display name (never empty), role "Employee", status online, avatar URL is the service base, the avatar text and the colour parameters |
| `App.ClearFlags` | App.tsx:119 | same messages in the same order, none flagged |
| `App.FlagTail` | App.tsx:92-95 | same messages in the same order, exactly the final one flagged |
| `App.UserAppendClearsFlags` | App.tsx:118-121 | after a user append every earlier message is unflagged and otherwise unchanged, the new turn is last, and no user turn follows a flag |
| `App.UserTurnKeepsLogWellFormed` | App.tsx:118-121 | a user turn with a fresh id keeps the log non-empty, its ids distinct and no user turn after a flag |
| `App.FlagTailKeepsLogWellFormed` | App.tsx:92-101 | the effect's rewrite keeps the log well formed |
| `App.ReplyKeepsLogWellFormed` | App.tsx:149 | appending an agent or system turn with a fresh id keeps the log well formed |
| `App.FreshIdSurvivesFlags` | App.tsx:92-95 | rewriting the flags never changes an id |
| `App.FormatAll` | App.tsx:190 | one line per message, in order, each `sender: text` |
| `App.HistoryLines` | App.tsx:190 | the last min(5, n) messages, oldest first, each rendered as `sender: text` |
| `App.ContextWindow` | App.tsx:190 | `slice(-5)`: the last min(5, n) messages of the history, in order |
| `App.SuggestionContext` | App.tsx:151 | the suggestion window is the last min(3, n) messages of the log before the send, then the user turn, then the reply |
| `App.FinalText` | App.tsx:229-233 | the transcripts of the final results in order; a list with no final result gives the empty text |
| `App.FinalTextConcat` | App.tsx:229-233 | the final transcript of a result list is the concatenation of those of its parts |
| `App.FinalTextIgnoresInterim` | App.tsx:229-233 | only results marked final contribute to the transcript |
| `App.FinalTranscript` | App.tsx:228-233 | the loop yields the final transcripts from `resultIndex` on, in order |
| `App.AppendTranscript` | App.tsx:234-238 | the input keeps its text, the transcript ends the result, and one space is put between them exactly when the input is non-empty and does not end in a space |
| `App.CanSend` | App.tsx:108 | the negation of the guard that returns early on blank input or no signed-in user; its meaning is stated by `App.SendGuardIff` |
| `App.SendGuardIff` | App.tsx:108 | a send goes ahead exactly when a user is signed in and the input has a non-whitespace character |
| `App.ChatController.constructor` | App.tsx:20-33 | the log starts as the flagged greeting; empty input and suggestions; not typing; nobody signed in |
| `App.ChatController.OnAuthStateChange` | App.tsx:62-68 | a session maps to its app user; no session signs the user out |
| `App.ChatController.SetInput` | App.tsx:405 | the input becomes the typed text |
| `App.ChatController.PickSuggestion` | App.tsx:366 | the input becomes the chosen suggestion |
| `App.ChatController.BeginSend` | App.tsx:107-138 | a rejected send changes nothing; an accepted one clears all flags, appends one unflagged user turn with the untrimmed input, empties input and suggestions, sets typing, and calls the webhook with the input, session id, email and name |
| `App.ChatController.SyncLastFlag` | App.tsx:90-104 | the tail ends flagged; the log is rewritten (exactly the tail flagged, entries kept) only when the tail was unflagged |
| `App.ChatController.CompleteWithReply` | App.tsx:140-151 | one flagged agent turn with the reply is appended, earlier messages untouched, typing stops; the suggestion context is taken from the pre-send log plus the two new turns |
| `App.ChatController.CompleteWithError` | App.tsx:153-164 | one flagged system turn with the fixed connection notice is appended, earlier messages untouched, typing stops |
| `App.ChatController.ReceiveSuggestions` | App.tsx:191-195 | replies replace the suggestions; a rejection leaves them, and the log is never touched. A failed suggestion request arrives as an empty reply list, which clears them |
| `App.ChatController.Logout` | App.tsx:250-260 | the log becomes the single flagged greeting and the input is cleared; suggestions stay |
| `App.ChatController.OnSpeechResult` | App.tsx:227-240 | a non-empty final transcript is appended with the spacer rule; otherwise the input is unchanged |
| `App.ExchangeFlagPattern` | App.tsx:90-104 | after a user append, the effect and a flagged reply, exactly the user turn and the reply are flagged, whatever the log was |
| `App.ExchangeLeavesTwoFlags` | App.tsx:118-149 | one exchange stepped as React runs it (send, effect, reply, effect) leaves exactly the user turn and the agent reply flagged |

## Left out

- Session lookup on start and the auth subscription (`App.tsx:53-71`), apart from the callback's body (`OnAuthStateChange`): they are calls into the identity service. The sign-in form (`components/AuthScreen.tsx`) is not part of this model.
- `services/geminiService.ts` and `handleRefine` (`App.tsx:174-185`): they call a generative-text service. The suggestion request's outcome is a parameter of `ReceiveSuggestions`. Its "at most three" bound is not modelled, because the service returns whatever `JSON.parse` gives. The service catches its own failures and returns `[]` (`services/geminiService.ts:41-44`), so `generateSuggestions`' catch (`App.tsx:193-195`, the `None` case of `ReceiveSuggestions`) is not reached in practice: a failed request arrives as `Some([])` and clears the suggestions.
- `fetch`, `response.json()`, `response.text()`, `uuidv4` and `Date` become parameters. The model assumes a uuid is never already in the log.
- Asynchronous interleaving: the steps are separate methods and may be called in any order. Stale closures and overlapping suggestion or refine results are not modelled beyond the `snapshot` that a send carries.
- The typewriter reveal, scrolling, textarea resizing, speech-recognition setup (`toggleVoiceInput` apart from `onresult`), markdown rendering, and the presentational components and constants: they are timing and presentation, not data rules.
- App.ChatController.CompleteWithReply: takes the reply as a string. The source stores whatever the webhook call resolves with in `text`, including a non-string such as `5`.
- Webhook.ScalarGoesThroughParse: JSON numbers are integers only, so fractions, exponents and their text round trip through `JSON.parse` are not modelled.
- JavaScript strings are sequences of UTF-16 code units; the model uses characters. A `full_name` that is not a string is not modelled.
- Property lookup on objects reads only the object's own fields. None of `output`, `text`, `message` or `response` is inherited by JSON objects or arrays, so this changes nothing.
