# InsightFlow chat client and answer prompt, modelled in Dafny

InsightFlow is a conversational search assistant. The browser page sends a query to a
streaming backend. The backend sends back typed events: `checkpoint`, `content`, `search_start`,
`search_results`, `search_error` and `end`. The page folds these events into the conversation it
renders. A separate answer route composes the prompt handed to the language model from the query,
the search results and the chat history.

The project models two pieces:

- **The chat page's stream reducer** (`frontend/app/page.tsx`):
  - the submit handler: the blank-input test, the id rule, the user message and the assistant
    placeholder, the stream address, and the setup-error path;
  - the `onmessage` dispatch over decoded events;
  - the `onerror` handler and the `end` listener;
  - three display conditions: whether the stage indicators show, whether the "Thinking…" dots
    show, and which source links are listed.
- **Prompt composition** (`frontend/app/api/answer/route.ts`): the results block, the
  conversation block and the prompt template.

Modules:

- `Wrappers` — `Option`.
- `Text` — JavaScript's `trim` with its full white-space set, `Array.prototype.join`, and decimal
  numerals.
- `Conversation` — `Message` and `SearchInfo`, the greeting, the id rule, the
  `{ ...msg, ...patch }` merge and the `prev.map(msg => msg.id === id ? … : msg)` update, and the
  display predicates.
- `SearchProgress` — how each search event rebuilds the `searchData` projection from the
  previous one.
- `Stream` — the same transitions as pure functions over a `ChatState` value:
  - `ChatState` holds the messages, the stored `checkpointId`, and the newest session's
    `streamedContent`, `searchData`, `aiResponseId` and whether its transport is closed;
  - `Submit`, `Step` (one decoded frame), `TransportError` and `Close`;
  - `Run`: the transport delivers frames in arrival order and delivers nothing once closed;
  - the properties, proved as lemmas.
- `Page` — class `ChatPage`, whose fields are that state. Its methods perform the transitions in
  place, and each method's postcondition equates its new state with the matching `Stream`
  function of the old state.
- `Scenarios` — whole sessions, frame by frame: search then answer, a malformed frame
  mid-stream, transport errors, and the checkpoint round trip.
- `AnswerPrompt` — `contextBlock`, `convoBlock` and `prompt`.

In these places the code does something a reader might not expect, and the model follows the code:

- Stages are appended with no de-duplication, so two `search_results` frames give two
  'reading' tags (`Stream.ResultsReplaceUrls`).
- `search_results` drops an earlier search error instead of keeping it.
- The address is built from the untrimmed input. Only the blank test trims.
- `end` clears `isLoading` only when a search projection exists (`Stream.LoadingClears`).

When opening the transport throws, the apology message is appended with id `newMessageId + 1`.
The placeholder already has that id, so the list then holds two messages with the same id
(`Stream.SetupFailureDuplicatesId`). The model keeps this behaviour.

## Model

| member | source | states |
|---|---|---|
| Text.TrimStartRemovesBlankPrefix | frontend/app/page.tsx:40 | leading trim removes exactly a blank prefix; the rest does not start with white space |
| Text.TrimEndRemovesBlankSuffix | frontend/app/page.tsx:40 | trailing trim removes exactly a blank suffix; the rest does not end with white space |
| Text.TrimEmptyIffBlank | frontend/app/page.tsx:40 | `input.trim()` is falsy exactly when every character is ECMAScript white space or a line terminator |
| Text.Numeral | frontend/app/api/answer/route.ts:26 | the rendered number is a non-empty run of decimal digits with no leading zero |
| Text.ParseNumeral | frontend/app/api/answer/route.ts:26 | reading the rendered numeral back gives the number: the entry label is exactly `i + 1` |
| Conversation.MaxId | frontend/app/page.tsx:41 | `Math.max` over the ids is an upper bound of every id and is attained by some message |
| Conversation.NextId | frontend/app/page.tsx:41 | the new id is 1 for an empty list, otherwise one above the largest id, so it is above every id in use |
| Conversation.Merge | frontend/app/page.tsx:95 | the merged message keeps id and author, stops loading, and takes each patched field from the patch and every other field from the message |
| Conversation.UpdateById | frontend/app/page.tsx:92-97 | the update keeps the length, merges every message with the id and only those, and is a no-op when the id is absent |
| Conversation.ShownSources | frontend/app/page.tsx:307 | at most five links, an in-order prefix of the urls, all of them when there are five or fewer |
| Stream.UpdateTwice | frontend/app/page.tsx:107-113 | two updates of the same id equal one update whose fields come from the later patch where it sets them |
| Stream.StepOnlyTouchesResponse | frontend/app/page.tsx:83-170 | one frame changes no message but those with the session's `aiResponseId`, and keeps every id and author |
| Stream.RunOnlyTouchesResponse | frontend/app/page.tsx:83-170 | the same for any sequence of frames; with no message of that id the list is unchanged |
| Stream.RunKeepsIdsUnique | frontend/app/page.tsx:83-170 | unique message ids stay unique through any sequence of frames |
| Stream.RunAppend | frontend/app/page.tsx:83 | delivering `a` then `b` is delivering `a + b`: frames fold in arrival order |
| Stream.ClosedIsFinal | frontend/app/page.tsx:165 | once closed, the transport delivers nothing, and closing or erroring leaves it closed |
| Stream.CloseIdempotent | frontend/app/page.tsx:186-188 | closing again after `close()`, after `end` or after an error changes nothing |
| Stream.ContentStep | frontend/app/page.tsx:90-98 | a content frame appends its fragment to the buffer and puts the whole buffer in the response message, clearing its loading flag |
| Stream.ContentRun | frontend/app/page.tsx:90-98 | after any run of content frames the buffer is the old buffer followed by the fragments in order; the response shows it and stops loading; nothing else changes |
| Stream.ContentIsConcatenation | frontend/app/page.tsx:80-98 | in a fresh session the response content is exactly the in-order concatenation of the fragments, and loading is off |
| Stream.NoiseIsIgnored | frontend/app/page.tsx:84-169 | removing malformed, unknown-type and undecodable-urls frames from a run does not change its outcome |
| Stream.NoiseChangesNothing | frontend/app/page.tsx:115-134 | such a frame leaves messages, buffer, projection, token and transport as they were |
| Stream.SearchStartResets | frontend/app/page.tsx:100-106 | `search_start` sets the projection to exactly stage 'searching', its query and no urls, whatever came before |
| Stream.SearchResultsAppendsReading | frontend/app/page.tsx:115-123 | `search_results` appends one 'reading' tag to the previous stages, keeps the query (empty with no prior search), replaces the urls and drops the error |
| Stream.SearchErrorAppendsError | frontend/app/page.tsx:135-142 | `search_error` appends one 'error' tag, keeps the query, empties the urls and records the error |
| Stream.EndAppendsWriting | frontend/app/page.tsx:151-164 | `end` after a search shows the projection with one 'writing' tag appended on the response message |
| Stream.StagesOnlyGrow | frontend/app/page.tsx:115-164 | without a new `search_start` the earlier stages stay a prefix of the stages and the query stays |
| Stream.ResultsReplaceUrls | frontend/app/page.tsx:117-121 | two `search_results` frames leave exactly the second url list and two 'reading' tags |
| Stream.LoadingClears | frontend/app/page.tsx:151-164 | the response stops loading on content and search frames, and on `end` exactly when a search happened; without a search `end` leaves the messages untouched |
| Stream.TransportErrorOutcome | frontend/app/page.tsx:172-184 | an error always closes; it writes the apology and clears loading on the response exactly when nothing has streamed, and otherwise keeps the partial answer |
| Stream.CheckpointIsLatest | frontend/app/page.tsx:87-89 | after frames without `end`, the stored token is the last checkpoint frame's, or the earlier token when there was none |
| Stream.RequestUrlParts | frontend/app/page.tsx:74-77 | the address has a `?` exactly when a truthy token is stored; it splits at that `?` into the endpoint plus the encoded input and `checkpoint_id=` plus the encoded token |
| Stream.SubmitOutcome | frontend/app/page.tsx:40-72 | blank input changes nothing; otherwise the old messages are kept as a prefix, followed by the user message with the next id and the loading placeholder with the id after it, and a fresh open session is addressed to the placeholder |
| Stream.SubmitKeepsIdsUnique | frontend/app/page.tsx:41-72 | a successful submission keeps ids unique, and the placeholder is then the only message with the session's id |
| Stream.SetupFailureDuplicatesId | frontend/app/page.tsx:189-200 | on the setup-error path the apology repeats the placeholder's id, so ids are no longer unique |
| Stream.PlaceholderShowsThinking | frontend/app/page.tsx:251 | right after a submission the placeholder shows the "Thinking…" dots and no stage indicators |
| Stream.FrameEndsThinking | frontend/app/page.tsx:238-251 | after a content or search frame the response no longer shows the dots; after a search frame it shows the stage indicators of the session's projection |
| Page.ChatPage.constructor | frontend/app/page.tsx:22-31 | the page starts with only the greeting, no token and no open session |
| Page.ChatPage.Submit | frontend/app/page.tsx:38-79 | the new state is the submission transition of the old one, and the returned address is absent for blank input and otherwise built from the input and the stored token |
| Page.ChatPage.Step | frontend/app/page.tsx:83-170 | the new state is the frame transition of the old one |
| Page.ChatPage.OnTransportError | frontend/app/page.tsx:172-184 | the new state is the transport-error transition of the old one |
| Page.ChatPage.OnEndEvent | frontend/app/page.tsx:186-188 | the new state is the old one with the transport closed |
| Scenarios.SearchThenAnswerFrom | frontend/app/page.tsx:100-165 | search start, two result urls, "The " and "answer.", then `end`: content "The answer.", stages searching, reading, writing, query and urls kept, loading off, closed |
| Scenarios.SearchThenAnswer | frontend/app/page.tsx:38-165 | the same frames right after a submission land on the placeholder, which has the next id plus one |
| Scenarios.MalformedFrameMidStream | frontend/app/page.tsx:84-169 | a malformed frame between two content frames is dropped and both fragments still apply |
| Scenarios.ErrorBeforeContent | frontend/app/page.tsx:172-184 | an error before any content shows the apology, stops loading and closes |
| Scenarios.ErrorAfterPartialContent | frontend/app/page.tsx:172-184 | an error after a fragment keeps that partial answer |
| Scenarios.CheckpointRoundTrip | frontend/app/page.tsx:74-89 | with no token the first address has no `checkpoint_id`; a checkpoint frame stores the token and the next address carries it |
| AnswerPrompt.Numbered | frontend/app/api/answer/route.ts:24-26 | entry `i` is result `i` rendered with number `first + i`, one entry per result |
| AnswerPrompt.Lines | frontend/app/api/answer/route.ts:32 | line `i` is turn `i` rendered as `ROLE: content`, one line per turn |
| AnswerPrompt.ContextFallback | frontend/app/api/answer/route.ts:22-28 | the results block is the fallback text exactly when the results are missing or empty |
| AnswerPrompt.ContextListsFirstFive | frontend/app/api/answer/route.ts:22-27 | with results, the block is the first `min(5, n)` of them in input order, numbered from 1 and separated by blank lines |
| AnswerPrompt.ConversationIsLastEight | frontend/app/api/answer/route.ts:30-33 | with a history, the conversation text is its last `min(8, n)` turns in order, one `ROLE: content` line each |
| AnswerPrompt.ConversationFallback | frontend/app/api/answer/route.ts:30-43 | the conversation text is "N/A" exactly when the history is missing or empty |
| AnswerPrompt.PromptLayout | frontend/app/api/answer/route.ts:35-46 | the prompt is exactly the preamble, then the conversation, query and web results each after its header, then the closing instruction, in that order, with nothing else between them |

## Left out

- The EventSource transport and `JSON.parse` are not modelled. Frames arrive already decoded as
  `Stream.Event`. A frame that is not JSON is `Malformed`, and a string url list that fails its
  second decode is `SearchResultsBadUrls`.
- React's `setState` scheduling is not modelled. Every updater is applied at once, in arrival
  order, and the `useEffect` auto-scroll is UI.
- Rendering is out of scope: JSX, styling, `Dots`, `CheckIcon`, the input box and the
  `setCurrentMessage("")` that clears it.
- The query row and the per-stage badges of `SearchStages` are not modelled. Only the three
  display conditions above are.
- `encodeURIComponent` is a library call and is a function parameter `encode`. Whether opening
  the transport (or encoding a lone surrogate) throws is the boolean parameter `setupFails`.
- Fields the server leaves out are not modelled, because the model's event fields are always
  present. For example, a `content` frame without `content` appends the text "undefined", and
  `urls` may not be an array.
- The constant `type: 'message'` field of a message is not modelled. An absent `isLoading` is
  `false`.
- `role.toUpperCase()` is modelled for the two declared roles only.
- `query` is modelled as a string. A non-string JSON value is not.
- Submitting again while a session is open is not modelled. Such overlapping sessions are
  asynchronous callbacks with no policy in the code. `ChatState` keeps only the newest session's
  variables.
- Stream.TransportError, Page.ChatPage.OnTransportError: these also apply to a closed session,
  a state the page never reaches there, since `onerror` does not fire after `close()`. On a
  closed session they keep it closed and may write the apology.
- The `generateText` call and the `NextResponse` reply of the answer route are foreign LLM and
  HTTP calls.
- `frontend/app/api/search/route.ts` and `server/model.py` are not part of this model. They are
  a web-search fetch with a mock list, and LangGraph/LLM wiring.
- Scenarios.SearchThenAnswerFrom, Scenarios.MalformedFrameMidStream: these apply `Step` frame by
  frame rather than `Run` over the literal list of frames. The list form equals it only while no
  frame before the last closes the transport, and none of these frames does.
