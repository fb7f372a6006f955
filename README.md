# A chat turn with a sensitive-data gate, modelled in Dafny

This project models one chat turn of anything-llm, as changed to stop messages
that carry sensitive data until the user decides what to do. Three parts carry the logic.

- **The redaction scanner** (`checkForSensitiveData`). Five regular
  expressions look for a labelled ID, an email address, a phone number, a
  card-like digit run and an SSN-like digit run. The flag is true when any of the
  five matches the message. The redacted message comes from five global
  replacements applied in series, ID → email → phone → card → SSN. Each pattern
  is written out as first-order functions. These try the alternatives in the order
  a backtracking ECMAScript matcher does, `\b` included. A global replace is a
  leftmost, non-overlapping scan (`Scanner.ReplaceFrom`).
- **The server turn** (`streamChatWithWorkspace`). It is an imperative method with
  early returns, in the source's stage order: command dispatch, moderation, the
  sensitive-data gate and the empty-corpus exit of query mode. Then come pinned
  plus vector retrieval, the retrieval-failure abort and the zero-sources exit of query
  mode. Last come the completion (one piece or streamed), persistence and the
  finalize event. Each collaborator is replaced by the value it returns, collected in `Stream.Collaborators`.
  The response channel is the sequence of events the method writes. The
  collaborator calls are recorded in order. The events keep the source's key
  quirks: `abort`, `textResponse` and `sensitiveDataDetected` carry the turn id
  under `id`, while `textResponseChunk` and `finalizeResponseStream` carry it under
  `uuid`. The one-piece chunk has `error: false`.
- **The client transcript** (`handleChat`, `chatPrompt`). `ChatClient.ChatWindow`
  holds the `_chatHistory` array as a sequence field. Push and assignment at an
  index both update it in place. The two React setters are fields that keep the
  last value passed. `ChatClient.Apply` is the transcript after one event, and
  the lemmas in `ChatClientFacts` state what each event type does to it.
  `EndToEnd` feeds the server's events to the client. Because the server writes
  `id` where the client reads `uuid`, an early-exit entry has no uuid.

Files: `wire.dfy` (the event record both sides share), `scanner.dfy`,
`scanner_facts.dfy` and `scanner_spans.dfy` (the patterns and their proofs),
`sensitive_data_handler.dfy` (the function the server calls), `stream.dfy` and `stream_facts.dfy`, `chat_client.dfy` and
`chat_client_facts.dfy`, and `end_to_end.dfy`.

The model follows the source:

- Redaction runs the five replacements in series, each on the output of the previous one. The patterns are not applied independently to the original text. The flag is still tested on the original message.
- A rejected wait for the user's choice, such as the 20-second timeout, writes no abort event. The turn's promise rejects after the `sensitiveDataDetected` event (`Stream.Outcome.Rejected`).
- Only the exact choice `"abort"` ends the turn. Any other value goes on with the redacted message. The abort text keeps the source's spelling "sensitve".
- The early-exit events carry the turn id under `id`, not under the key the client reads.

## Model

| member | source | states |
|---|---|---|
| `Scanner.IdMatchAt` | server/utils/helpers/sensitiveDataHandler.js:7 | an ID match ends after its label; the label holds no digit and no `*`; the captured run is all digits |
| `Scanner.EmailMatchAt` | server/utils/helpers/sensitiveDataHandler.js:8 | an email match is non-empty, stays in the message and takes no `*`; its two-way tie to the pattern is `ScannerSpans.EmailMatchAtIffSpan` |
| `Scanner.PhoneMatchAt` | server/utils/helpers/sensitiveDataHandler.js:9 | a phone match is non-empty, stays in the message, takes no `*` and holds a digit |
| `Scanner.CardMatchAt` | server/utils/helpers/sensitiveDataHandler.js:10 | a card match is non-empty, stays in the message, takes no `*` and holds a digit; its two-way tie to the pattern is `ScannerSpans.CardMatchAtIffSpan` |
| `Scanner.SsnMatchAt` | server/utils/helpers/sensitiveDataHandler.js:11 | an SSN match is non-empty, stays in the message, takes no `*` and holds a digit; its two-way tie to the pattern is `ScannerSpans.SsnMatchAtIffSpan` |
| `Scanner.MatchAt` | server/utils/helpers/sensitiveDataHandler.js:7-11 | a match of any category is non-empty and stays in the message; it never spans a `*`; phone, card and SSN matches hold a digit |
| `Scanner.Search` | server/utils/helpers/sensitiveDataHandler.js:15-19 | `test` finds the leftmost match start; with no result, no position matches |
| `Scanner.IndexOf` | server/utils/helpers/sensitiveDataHandler.js:24 | `indexOf` returns an occurrence at or after the start, or -1 when there is none |
| `Scanner.Stars` | server/utils/helpers/sensitiveDataHandler.js:24 | `'*'.repeat(n)` is n stars |
| `ScannerFacts.IdMatchAtIffSpan` | server/utils/helpers/sensitiveDataHandler.js:7 | the ID matcher finds exactly the spans the pattern describes: `\b`, I/D in either case, optional white space, a colon, white space, then digits up to `\b` (both directions) |
| `ScannerFacts.IdMaskKeepsLabel` | server/utils/helpers/sensitiveDataHandler.js:24 | the ID callback keeps the label, spaces and colon, and turns the digits into as many stars |
| `ScannerFacts.IdPassMasksDigitsOnly` | server/utils/helpers/sensitiveDataHandler.js:23-24 | the ID pass keeps the length; every character stays, or a digit becomes `*` |
| `ScannerFacts.IdPassKeepsLength` | server/utils/helpers/sensitiveDataHandler.js:24 | the ID pass preserves the message length |
| `Scanner.NoMatchFixed` | server/utils/helpers/sensitiveDataHandler.js:23-28 | a replace scan that finds no match from a position on copies the rest of the text |
| `Scanner.Pass` | server/utils/helpers/sensitiveDataHandler.js:23-28 | one `.replace` of the chain: when the pattern does not match, the text comes back unchanged |
| `ScannerFacts.NoMatchBetween` | server/utils/helpers/sensitiveDataHandler.js:23-28 | positions where no match starts are copied unchanged |
| `ScannerFacts.FoundIffSomeCategoryMatches` | server/utils/helpers/sensitiveDataHandler.js:15-19 | the flag is true exactly when a match of some category starts somewhere in the original message |
| `ScannerFacts.NotFoundUnchanged` | server/utils/helpers/sensitiveDataHandler.js:15-28 | with the flag false, the redacted message equals the message |
| `ScannerFacts.DigitFreeFixed` | server/utils/helpers/sensitiveDataHandler.js:26-28 | text without digits passes the phone, card and SSN passes unchanged |
| `ScannerFacts.MasksSurviveDigitPasses` | server/utils/helpers/sensitiveDataHandler.js:24-28 | the star runs and the email, phone, card and SSN masks hold no digit, so each of them, taken on its own, passes the phone, card and SSN passes unchanged |
| `ScannerFacts.MasksAreStarFenced` | server/utils/helpers/sensitiveDataHandler.js:24-28 | every mask and every star run begins and ends with `*` and holds no digit |
| `ScannerFacts.MaskOutOfReach` | server/utils/helpers/sensitiveDataHandler.js:24-28 | inside a longer message, a phone, card or SSN match found at any position ends at or before a star-fenced mask or starts at or after its end; it never overlaps the mask |
| `ScannerStars.ReplacementHasStar` | server/utils/helpers/sensitiveDataHandler.js:24-28 | every replacement text holds at least one `*` |
| `ScannerStars.PassAddsStars` | server/utils/helpers/sensitiveDataHandler.js:23-28 | a pass never removes a `*` and adds at least one when it replaces something |
| `ScannerStars.FoundIffChanged` | server/utils/helpers/sensitiveDataHandler.js:15-28 | the redacted message differs from the message exactly when the flag is true |
| `SensitiveDataHandler.CheckForSensitiveData` | server/utils/helpers/sensitiveDataHandler.js:2-33 | the returned record's redacted message differs from the message exactly when its flag is true |
| `ScannerSpans.EmailMatchAtSound` | server/utils/helpers/sensitiveDataHandler.js:8 | every email match is a span the pattern admits: `\b`, one or more local-part characters, `@`, one or more domain characters, `.`, two or more top-level characters, `\b` |
| `ScannerSpans.EmailMatchAtComplete` | server/utils/helpers/sensitiveDataHandler.js:8 | every span the email pattern admits is found: the matcher matches where it starts |
| `ScannerSpans.EmailMatchAtIffSpan` | server/utils/helpers/sensitiveDataHandler.js:8 | the email matcher matches at a position exactly when some span the pattern admits starts there (both directions) |
| `ScannerSpans.PhoneLineSound` | server/utils/helpers/sensitiveDataHandler.js:9 | the end of a phone match after the exchange group is four digits, then nothing or spaces, `x` and one or more digits, then `\b` |
| `ScannerSpans.CardMatchAtSound` | server/utils/helpers/sensitiveDataHandler.js:10 | every card match starts with a digit at `\b`, holds only digits, spaces and `-`, holds 13 to 16 digits and ends at `\b` |
| `ScannerSpans.CardMatchAtComplete` | server/utils/helpers/sensitiveDataHandler.js:10 | every span the card pattern admits is found: the matcher matches where it starts |
| `ScannerSpans.CardMatchAtIffSpan` | server/utils/helpers/sensitiveDataHandler.js:10 | the card matcher matches at a position exactly when some span the pattern admits starts there (both directions) |
| `ScannerSpans.SsnMatchAtSound` | server/utils/helpers/sensitiveDataHandler.js:11 | every SSN match is two or three digits, an optional `-`, two digits, an optional `-`, four digits, with `\b` at both ends |
| `ScannerSpans.SsnMatchAtComplete` | server/utils/helpers/sensitiveDataHandler.js:11 | every span the SSN pattern admits is found: the matcher matches where it starts |
| `ScannerSpans.SsnMatchAtIffSpan` | server/utils/helpers/sensitiveDataHandler.js:11 | the SSN matcher matches at a position exactly when some span the pattern admits starts there (both directions) |
| `ScannerSpans.SpanFlagged` | server/utils/helpers/sensitiveDataHandler.js:7-19 | a labelled ID, an email address, a card number or an SSN anywhere in the message makes `checkForSensitiveData` report it |
| `ScannerExample.EmailExample` | server/utils/helpers/sensitiveDataHandler.js:8-25 | "my email is a@b.com" is flagged and becomes "my email is *********@****.***" |
| `Stream.StreamChatWithWorkspace` | server/utils/chats/stream.js:61-289 | the events, calls and outcome satisfy `Turn`. A command writes only its handler's result. An unsafe verdict writes one abort naming the reasons. A rejected wait ends the turn with only the `sensitiveDataDetected` event written and the outcome `Rejected`. The choice `"abort"` adds one abort with the sensitive-data error text. Past the gate the rest of the turn is what `Respond` describes for the redacted message. Only a completed turn persists |
| `Stream.Gate` | server/utils/chats/stream.js:102-131 | the verdict on the original message decides the gate: the `sensitiveDataDetected` event and the wait happen exactly when something was found. The turn goes on unless the wait was rejected or the choice is exactly `"abort"`. Going on, the working message is the redacted text |
| `Stream.TurnPastGate` | server/utils/chats/stream.js:128-288 | a turn past the gate is the gate's prelude followed by the post-gate traces. A prelude without a persisted chat plus a trace without one has none |
| `StreamFacts.SensitiveEventComesFirst` | server/utils/chats/stream.js:102-131 | when data is found and moderation passed, the first event is `sensitiveDataDetected` with the redacted text, and the calls begin with isSafe and the wait |
| `Stream.Answer` | server/utils/chats/stream.js:135-288 | after the gate: the query-mode empty-corpus exit, retrieval calls, the search-error abort, the zero-sources exit. On completion the events are one closed chunk plus finalize, or the streamed events plus finalize. The full call trace ends with the persisted record (working message, answer, pinned-then-vector sources, mode) |
| `Stream.PushPinned` | server/utils/chats/stream.js:170-186 | the forEach pushes each document's text and its source in document order |
| `Stream.MessageLimit` | server/utils/chats/stream.js:135 | `openAiHistory || 20`: null and 0 give 20, any other value is kept |
| `Stream.Head` | server/utils/chats/stream.js:181 | `slice(0, n)` is the prefix of length min(n, length) |
| `StreamFacts.JoinNamesEveryPart` | server/utils/chats/stream.js:94-96 | `join(", ")` contains every part |
| `StreamFacts.ModerationErrorNamesEveryReason` | server/utils/chats/stream.js:86-98 | the moderation abort's error text names every reason |
| `StreamFacts.PinnedInOrder` | server/utils/chats/stream.js:176-185 | one source and one context text per pinned document, in order |
| `StreamFacts.PinnedSourceText` | server/utils/chats/stream.js:179-183 | a pinned source's text is the first 1000 characters (or all of a shorter text) followed by "...continued on in source document..." |
| `StreamFacts.SourcesOrder` | server/utils/chats/stream.js:216-217 | the answer's sources are the pinned ones first, then the vector ones |
| `StreamFacts.PinnedDocsAvoidNoSourcesExit` | server/utils/chats/stream.js:216-232 | with a pinned document, query mode never takes the zero-sources exit |
| `StreamFacts.SearchOnlyWithEmbeddings` | server/utils/chats/stream.js:188-201 | the similarity search runs exactly when the corpus check passed and the count is not 0, and it runs on the working message |
| `StreamFacts.QueryModeAlwaysSearches` | server/utils/chats/stream.js:141-201 | in query mode a turn that reaches retrieval always searches |
| `StreamFacts.TurnEndsClosed` | server/utils/chats/stream.js:141-288 | past the gate the last event is closed: one id-keyed event on an early exit, the finalize event with the chat id otherwise |
| `StreamFacts.PersistsWorkingMessage` | server/utils/chats/stream.js:273-279 | the completion path stores exactly one chat, the last call, with the working message as prompt |
| `StreamFacts.WorkingIsRedacted` | server/utils/chats/stream.js:102-131 | the working message is the redacted text, and it differs from the message exactly when data was found |
| `ChatClient.FirstMatch` | frontend/src/utils/chat/index.js:76 | `findIndex`: -1 exactly when no entry has the uuid, otherwise the first entry that has it |
| `ChatClient.FindIndex` | frontend/src/utils/chat/index.js:105 | the scan from the front returns the first index with the uuid, or -1 |
| `ChatClient.Apply` | frontend/src/utils/chat/index.js:23-164 | no event removes an entry: the transcript grows by at most one entry, an appended entry follows the old ones unchanged, and an event that does not append rewrites at most one entry |
| `ChatClient.ChatWindow.constructor` | frontend/src/utils/chat/index.js:5-11 | the window starts from the caller's history and setter values |
| `ChatClient.ChatWindow.HandleChat` | frontend/src/utils/chat/index.js:5-131 | `_chatHistory` becomes `Apply` of the old history, and each setter holds the value it was last given |
| `ChatClient.ChatPrompt` | frontend/src/utils/chat/index.js:184-189 | the workspace prompt when present (even an empty one), the default prompt when the workspace or its prompt is null or absent |
| `ChatClientFacts.AbortAppendsClosedEntry` | frontend/src/utils/chat/index.js:23-47 | abort: one closed, non-animated, non-pending entry holding `textResponse` is pushed, shown after `remHistory`, loading false |
| `ChatClientFacts.TextResponseAppendsEntry` | frontend/src/utils/chat/index.js:48-74 | textResponse: one entry with closed = close, animate = !close, pending false and the event's chatId |
| `ChatClientFacts.ChunkExtendsFirstMatch` | frontend/src/utils/chat/index.js:76-89 | a chunk for a known uuid updates only the first matching entry. Text is appended; sources, error and chatId are overwritten; closed = close and animate = !close; length unchanged |
| `ChatClientFacts.ChunkForUnknownUuidAppends` | frontend/src/utils/chat/index.js:90-102 | a chunk for an unknown uuid pushes one entry seeded with its text |
| `ChatClientFacts.FinalizeStampsChatId` | frontend/src/utils/chat/index.js:104-115 | finalize changes only the chatId of the first matching entry; loading false |
| `ChatClientFacts.FinalizeForUnknownUuidKeepsHistory` | frontend/src/utils/chat/index.js:104-115 | finalize for an unknown uuid leaves the history as it was; loading false |
| `ChatClientFacts.StopGenerationSettlesLast` | frontend/src/utils/chat/index.js:116-131 | stopGeneration keeps the last entry's uuid, content, role and chatId, and sets sources [], closed, error null, animate false, pending false |
| `ChatClientFacts.StopGenerationOnEmptyHistory` | frontend/src/utils/chat/index.js:116-131 | on an empty history the elements stay as they were |
| `ChatClientFacts.SensitiveEventOnlyStopsSpinner` | frontend/src/utils/chat/index.js:132-136 | sensitiveDataDetected leaves the history alone and sets loading false |
| `ChatClientFacts.OtherEventsIgnored` | frontend/src/utils/chat/index.js:23-164 | an event of any other type changes nothing |
| `ChatClientFacts.ChunksBuildOneEntry` | frontend/src/utils/chat/index.js:75-103 | chunks for a uuid with no entry yet leave exactly one entry for it, after the old ones; its text is the deltas in order, and it is closed as the last chunk says |
| `EndToEnd.EarlyExitEntriesHaveNoUuid` | frontend/src/utils/chat/index.js:12-74 | a server abort or no-information event becomes an entry with no uuid, so a later lookup by the turn id does not find it |
| `EndToEnd.NonStreamingTurnAddsOneEntry` | frontend/src/utils/chat/index.js:75-115 | the one-piece chunk plus finalize add exactly one closed entry with the full text, the sources and the chat id, and loading ends false |

## Left out

- waitForUserChoice, userChoiceEmitter and handleUserChoiceRoute are an event-emitter rendezvous with a timer and an HTTP route. Only their outcome is modelled, a choice string or a rejected wait, as a `Stream.Choice` input. The commented-out earlier versions are dead code.
- The collaborators are out: the LLM connector (isSafe, compressMessages, getChatCompletion, streamGetChatCompletion, handleStream, token limits, temperature), the vector database, DocumentManager, WorkspaceChats.new, grepCommand, VALID_COMMANDS and recentChatHistory. Their code is not part of this model, so each one's result is an input. A collaborator that throws is not modelled.
- The events handleStream writes on the streaming path are an input sequence (`Collaborators.streamed`), and its returned text is an input.
- The turn id from uuidv4() is a parameter.
- writeResponseChunk's framing and transport are out; writing is appending to the event sequence. Winston and console logging are out.
- The system prompt comes from the server's chatPrompt in server/utils/chats/index.js, which is not part of this model. The compression call is recorded with its user prompt and context texts only. The workspace slug, thread, user and temperature are not recorded.
- frontend/src/utils/chat/sensitiveDataHandler.js is a modal dialog and is not part of this model. Of the sensitiveDataDetected branch of handleChat, only `setLoadingResponse(false)` is modelled. The dialog and sendUserChoiceToBackend (a `fetch`) are not.
- `Stream.PinnedSource` keeps a document's other keys as one `meta` value. A `text` key among them would override the built text, and that is not modelled.
- Strings are sequences of characters. `slice`, `length` and the regular expressions work on UTF-16 code units, which differ only for characters outside the Basic Multilingual Plane.
- An absent key and a `null` value are both None. So the model does not tell an entry without a uuid from one with `uuid: null`. The source's `findIndex` with `===` matches an event with no uuid only against entries without one, and an event with `uuid: null` only against entries holding `null`. `ChatClient.FirstMatch` compares None with None, so either event finds the first entry of either kind. Nor does it tell an abort entry without `chatId` from one with `chatId: null`, or an absent `sources` (which defaults to []) from a null one. An absent `close` reads as false, which gives the same `closed` value as the source only in truthiness. A chunk whose `textResponse` is absent would append "undefined" in the source; the model appends "null".
- ChatClient.JsText: a chunk's text is joined to the entry's content by JavaScript's `+`. When both are null that gives the number 0, and an absent operand with a null one gives NaN; a later chunk then appends to "0" or "NaN". The model always joins strings, with "null" for each null operand, so `ChatClient.Extended`, `ChatClientFacts.ChunkExtendsFirstMatch` and `ChatClientFacts.ChunksBuildOneEntry` state string concatenation there. Content is kept as an optional string rather than as a JavaScript value.
- ChatClient.ChatWindow.HandleChat: on an empty history, stopGeneration in the source also sets a stray "-1" property on the array. The model keeps only the elements, which are what the copy handed to setChatHistory carries.
- The spread `[..._chatHistory]` given to setChatHistory is a copy. In the model it is the same sequence value, so later aliasing of that copy is not modelled.
- The claim that after redaction no email-pattern match is left in the output is not proved. No email match can hold a `*`, so none crosses a mask; what is left unproved is that the text beside a mask, as the later passes leave it, holds no new match.
- That repeated calls give identical results with no regex state carried over holds because `SensitiveDataHandler.CheckForSensitiveData` is a function. It gets no lemma of its own.
- Scanner.PhoneMatchAt: only the end of its match (`ScannerSpans.PhoneLineSound`) is tied to the pattern's parts. The optional `+` and country code, the area code, the exchange and the separators before the line number carry only the shape contract every match has (non-empty, no `*`, holds a digit). `PhoneLineSound` is soundness only: no lemma shows that a phone number the pattern admits is found, so the flag is not proved to catch every phone number. Following the six nested backtracking searches down to the line number puts each proof step over the solver's resource limit.
- SensitiveDataHandler.CheckForSensitiveData: its own contract states the changed-exactly-when-flagged fact. That the flag is raised exactly when some pattern matches somewhere is `ScannerFacts.FoundIffSomeCategoryMatches`, kept as a lemma because an existential on the function would weigh on every proof about the server turn.
