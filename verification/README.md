# NSFC Pilot — session lifecycle and turn-taking, modelled in Dafny

NSFC Pilot is a small browser application. The user enters an API key, pastes or
uploads reference papers, and then holds one conversation with a remote
"senior reviewer" persona about those papers. This project models the part of
it that is a state machine:

- the session engine (`services/geminiService.ts`): the two module-level slots,
  the client `ai` and the active `chatSession`, and `initializeGemini`,
  `startChatSession` and `sendChatMessage`;
- the application shell (`App.tsx`): the phase SETUP → INGEST → ANALYSIS, the
  transcript `messages`, the in-flight flag `isProcessing`, the key submit, the
  start of an analysis, the reset, and the context string compiled from the papers;
- turn-taking on the chat screen (`components/ChatScreen.tsx`, `handleSend`);
- the paper list of the ingest screen (`components/IngestScreen.tsx`);
- the key guard of the setup screen (`components/SetupScreen.tsx`), with
  JavaScript's `String.prototype.trim`, which every input guard uses.

Files and modules, one per source file, plus shared helpers and the scenarios:

| file | module | models |
|---|---|---|
| wrappers.dfy | Wrappers | `Option` (a missing `response.text`) and `Result` (return or throw) |
| types.dfy | Types | `MessageRole`, `Message`, `PaperData`, `AppState` |
| strings.dfy | Strings | where the pieces of a concatenation stand (used by the context and the envelope proofs) |
| text.dfy | Text | `trim` and the whitespace it strips |
| context_compiler.dfy | ContextCompiler | the context string of `App.tsx` line 26 |
| gemini_service.dfy | Gemini | the slots and the three service operations; the seeding envelope; the text fallbacks |
| app.dfy | Application | class `App`: phase, transcript, in-flight flag |
| chat_screen.dfy | Conversation | class `ChatScreen`: input, `isTyping`, the two steps of a send |
| ingest_screen.dfy | Ingest | class `IngestScreen`: papers, paste fields, upload, removal, analyze |
| setup_screen.dfy | Setup | the key guard |
| scenarios.dfy | Scenarios | whole runs through the engine and the screens |

How the remote service is modelled. The SDK client and each chat are objects
(`Client`, `ChatSession`), so "a new session" is a freshly allocated object
and "the same session" is object identity. A `ChatSession` records in
`requests` every message issued on it, in order, so the contracts can say
which session a send reached. The reply of a remote call is a parameter of the
operation that awaits it: `Responded(text)`, where the text may be missing, or
`Rejected(reason)`, which the engine rethrows.

How the asynchronous handlers are modelled. An engine call runs synchronously
up to its first `await`: `startChatSession` checks `ai`, installs the new
session and issues the seeding message; `sendChatMessage` checks the slot and
issues the message. The service models that part as `IssueStart` and
`IssueSend`, which return a `Call` (`Issued`, or `Refused` with the error the
guard throws). `StartSettled` and `SendSettled` give what the awaited call then
evaluates to once the reply is known. `handleStartAnalysis` and `handleSend`
each become the click step (`BeginStartAnalysis`, `BeginSend`), which runs the
engine call up to its `await`, and a completion step that receives the reply
(`CompleteStartAnalysis`, `CompleteSend`) and only maps it to the transcript.
A method runs both in a row (`HandleStartAnalysis`, `HandleSend`). So while a
start is outstanding, the slot already holds its new, seeded session. The
outstanding call is held in a field (`pendingStart`, `pendingSend`). Each class's `Valid()` says that the flag (`isProcessing`,
`isTyping`) is up exactly while one call is outstanding. `BeginSend` refuses to
issue a send while one is outstanding, so there is at most one send in flight.

Four behaviours of the code worth knowing:

- a start whose seeding message is rejected leaves its new session installed in
  `chatSession` (the session is installed before the message is sent, and the
  catch only rethrows);
- `handleReset` clears the transcript and sets INGEST but leaves the session
  slot as it is, so a direct `sendChatMessage` after a reset still reaches the
  old session (`Scenarios.ResetKeepsSession`). The application itself never
  issues one: after a reset the chat screen is not rendered (App.tsx:66-72),
  ANALYSIS comes back only through a start, and a start replaces the slot
  before it sends anything (services/geminiService.ts:16);
- the paper list is state of the ingest screen itself, so it starts empty each
  time that screen is mounted; the shell does not keep it across a reset;
- a start replaces a missing or empty reply text by
  "Error: No response text generated.", a send replaces it by "" (`||` on the
  empty string); `Gemini.FallbackAsymmetry` states when the two agree.

## Model

| member | source | states |
|---|---|---|
| Text.LeadingBlanks | components/SetupScreen.tsx:13 | the count of leading characters `trim` drops: all of them are whitespace and the next character, if any, is not |
| Text.TrailingBlanks | components/SetupScreen.tsx:13 | the count of trailing characters `trim` drops: all of them are whitespace and the character before them, if any, is not |
| Text.TrimSlice | components/SetupScreen.tsx:13 | `trim` returns a slice of its input with only whitespace outside it, and a non-empty slice starts and ends with a non-whitespace character |
| Text.TrimEnds | components/SetupScreen.tsx:13 | a trimmed string is empty or starts and ends with a non-whitespace character |
| Text.BlankIffAllWhitespace | components/ChatScreen.tsx:27 | a string trims to "" exactly when every character of it is whitespace (the guards of all three screens) |
| Text.TrimIdempotent | components/SetupScreen.tsx:13 | trimming a trimmed string changes nothing |
| Setup.HandleSubmit | components/SetupScreen.tsx:11-14 | a key is handed on exactly when it has a non-whitespace character; what is handed on is `key.trim()`, is non-empty, has no leading or trailing whitespace, and trims to itself |
| ContextCompiler.Blocks | App.tsx:26 | the map gives one block per paper, in order, each the paper's title/content/separator block |
| ContextCompiler.JoinConcat | App.tsx:26 | joining two non-empty lists is joining their joins with the separator between |
| ContextCompiler.PartStartNext | App.tsx:26 | each joined part begins one part and one separator after the previous one |
| ContextCompiler.JoinFirst | App.tsx:26 | a join starts with its first part, and with more than one part is the first part, the separator and the join of the rest |
| ContextCompiler.JoinPartAt | App.tsx:26 | in a join, each part stands verbatim at its offset |
| ContextCompiler.JoinPartStep | App.tsx:26 | a part that stands at its offset in the join of the tail stands at its shifted offset in the whole join |
| ContextCompiler.JoinSeparatorAt | App.tsx:26 | between each part and the next the join holds exactly the separator |
| ContextCompiler.JoinLength | App.tsx:26 | a join is as long as all its parts plus one separator between each two neighbours |
| ContextCompiler.CompileEmpty | App.tsx:26 | an empty paper list compiles to "" |
| ContextCompiler.CompileSnoc | App.tsx:26 | appending a paper appends "\n" and its block to the context (just its block for the first paper) |
| ContextCompiler.BlockOfA | App.tsx:26 | the block of a paper titled "A" with content "x" is exactly `"Title: A\nContent:\nx\n---"` |
| ContextCompiler.BlockOfB | App.tsx:26 | the block of a paper titled "B" with content "y" is exactly `"Title: B\nContent:\ny\n---"` |
| ContextCompiler.CompileTwoPapers | App.tsx:26 | `[A/x, B/y]` compiles to exactly `"Title: A\nContent:\nx\n---\nTitle: B\nContent:\ny\n---"` |
| ContextCompiler.BlockFields | App.tsx:26 | a block shows, in order, the "Title: " label, the title, the "\nContent:\n" label, the content and the "\n---" separator |
| ContextCompiler.PaperAt | App.tsx:26 | every paper's block stands at its offset in the context: the "Title: " label, the title, the "\nContent:\n" label, the content and "\n---", verbatim |
| ContextCompiler.NextBlockAt | App.tsx:26 | the blocks follow in list order, each next one beginning right after the previous block and one "\n" |
| ContextCompiler.CompileLength | App.tsx:26 | the context is as long as its blocks plus one "\n" between each two neighbours, so with PaperAt and NextBlockAt nothing else stands in it |
| Gemini.GeminiService.constructor | services/geminiService.ts:4-5 | at module load both slots are empty |
| Gemini.GeminiService.InitializeGemini | services/geminiService.ts:7-9 | a client built for the key is installed in `ai`; if the constructor throws nothing changes; the session slot is not touched |
| Gemini.GeminiService.IssueStart | services/geminiService.ts:11-25 | before the first `await`: without a client, the call is refused with "Gemini API not initialized" and nothing changes; otherwise a new session (with the client, the persona and the model) is installed and exactly the seeding message is issued on it |
| Gemini.StartSettled | services/geminiService.ts:24-42 | an awaited start succeeds exactly when it was issued and the reply is a response, with the start's text; a refused call fails with its guard's error, a rejection is rethrown unchanged |
| Gemini.GeminiService.StartChatSession | services/geminiService.ts:11-43 | without a client: fails with "Gemini API not initialized" and changes nothing; otherwise installs a new session (with the client, the persona and the model) before sending, issues exactly the seeding message on it, returns the reply's text or the fixed fallback, and on a rejection rethrows it with the new session left installed |
| Gemini.GeminiService.IssueSend | services/geminiService.ts:45-51 | before the first `await`: without a session, the call is refused with "Chat session not started"; otherwise the message is issued unchanged on the current session; the slot is never reassigned |
| Gemini.SendSettled | services/geminiService.ts:48-56 | an awaited send succeeds exactly when it was issued and the reply is a response, with the send's text; a refused call fails with its guard's error, a rejection is rethrown unchanged |
| Gemini.GeminiService.SendChatMessage | services/geminiService.ts:45-57 | without a session: fails with "Chat session not started"; otherwise issues the message unchanged on the current session only and returns its text or ""; the slot keeps the same session on success and on failure |
| Gemini.ChatSession.SendMessage | services/geminiService.ts:49-51 | a message issued on a session is recorded after the earlier ones on that session |
| Strings.WrapSlices | services/geminiService.ts:26-35 | a string wrapped in a prefix and a suffix gives back the prefix, the body and the suffix as its slices |
| Strings.UnwrapSlices | services/geminiService.ts:26-35 | a string that starts with the prefix and ends with the suffix, with room for both, is the prefix, its middle and the suffix |
| Strings.FivePiecesAt | App.tsx:26 | five strings concatenated inside a larger string stand each at its own offset |
| Gemini.SeededContext | services/geminiService.ts:26-35 | whatever it extracts from a message is the context that message seeds |
| Gemini.SeedRoundTrip | services/geminiService.ts:26-35 | the seeding message gives back exactly the context it wraps |
| Gemini.SeedInjective | services/geminiService.ts:26-35 | different contexts give different seeding messages |
| Strings.EnvelopeLayout | services/geminiService.ts:31-33 | in a marker/line-break/body/line-break/marker layout each piece stands at its offset |
| Gemini.SeedMarkers | services/geminiService.ts:31-33 | the context stands verbatim right after "--- BEGIN PAPERS ---", a line break and the indentation, and right before a line break, the indentation and "--- END PAPERS ---" |
| Gemini.StartText | services/geminiService.ts:38 | the start's text is never empty: the reply's text when it is non-empty, otherwise exactly "Error: No response text generated." |
| Gemini.SendText | services/geminiService.ts:52 | the send's text is the reply's text whenever there is one (also ""), and "" when it is missing |
| Gemini.FallbackAsymmetry | services/geminiService.ts:38-52 | the two fallbacks agree exactly when the send's text is non-empty |
| Gemini.StartOutcome | services/geminiService.ts:24-42 | an awaited start returns exactly when the reply is a response, with the start's text; a rejection is rethrown unchanged |
| Gemini.SendOutcome | services/geminiService.ts:48-56 | an awaited send returns exactly when the reply is a response, with the send's text; a rejection is rethrown unchanged |
| Application.App.constructor | App.tsx:9-11 | the shell starts in SETUP with no messages and nothing in flight |
| Application.App.HandleApiKeySubmit | App.tsx:13-20 | a key whose client is built installs it and moves to INGEST; if the client constructor throws, the phase stays |
| Application.App.BeginStartAnalysis | App.tsx:22-29 | the click raises `isProcessing`, compiles the context from the papers and runs the start up to its `await`: without a client the call is refused and the slot stays; otherwise the slot already holds a new session that received exactly the seeding message of that context; phase and transcript stay |
| Application.App.CompleteStartAnalysis | App.tsx:29-45 | a start succeeds exactly when its call was issued and the reply is a response; then the transcript is exactly one MODEL message with the start's text and the phase is ANALYSIS; otherwise both stay; `isProcessing` drops either way, and the session slot is not touched |
| Application.App.HandleStartAnalysis | App.tsx:22-46 | the whole start, from click to reply: success exactly when a client was set and the reply is a response, with the one MODEL message and ANALYSIS; the slot holds a new session that received exactly the seeding message |
| Application.App.HandleReset | App.tsx:48-51 | the transcript is empty and the phase INGEST; nothing else, and in particular not the session slot, changes |
| Conversation.ModelTurnText | components/ChatScreen.tsx:42-57 | a returned send gives its text, a thrown one exactly "Error communicating with the reviewer persona. Please try again." |
| Conversation.ReplyTurnText | components/ChatScreen.tsx:41-57 | with a session and a response, the model turn carries the send's text; without a session or on a rejection, the fixed error text |
| Conversation.ChatScreen.constructor | components/ChatScreen.tsx:14-15 | the screen mounts with an empty input and not typing |
| Conversation.ChatScreen.SetInput | components/ChatScreen.tsx:146 | the input holds what was typed |
| Conversation.ChatScreen.BeginSend | components/ChatScreen.tsx:26-41 | a blank input or a send while typing changes nothing, not even a session; otherwise exactly one USER message with the untrimmed input is appended, the input is cleared, `isTyping` is raised, and the input is issued unchanged on the current session, or the call is refused when there is none |
| Conversation.ChatScreen.CompleteSend | components/ChatScreen.tsx:41-60 | exactly one MODEL message is appended: the send's text when the call was issued and the reply is a response, the fixed error text otherwise; earlier messages are untouched, no session is touched, and `isTyping` drops |
| Conversation.ChatScreen.HandleSend | components/ChatScreen.tsx:26-61 | an accepted send grows the transcript by exactly the user turn and one model turn, issues the input unchanged on the current session, and leaves `isTyping` down; a refused one changes nothing, and no session receives a request |
| Ingest.IngestScreen.constructor | components/IngestScreen.tsx:11-14 | the screen mounts with no papers and empty paste fields |
| Ingest.IngestScreen.SetPastedTitle | components/IngestScreen.tsx:101 | the title field holds what was typed |
| Ingest.IngestScreen.SetPastedContent | components/IngestScreen.tsx:110 | the content field holds what was typed |
| Ingest.IngestScreen.HandleAddPaper | components/IngestScreen.tsx:17-30 | a paper is added exactly when neither trimmed field is empty; then exactly one paper with the untrimmed fields is appended and both fields are cleared; otherwise nothing changes |
| Ingest.FilePapers | components/IngestScreen.tsx:36-44 | one paper per file, in file order, titled by the file name and holding the file text |
| Ingest.IngestScreen.HandleFileUpload | components/IngestScreen.tsx:32-47 | with no file list nothing changes; otherwise the files' papers are appended in file order after the papers already there |
| Ingest.IngestScreen.RemovePaper | components/IngestScreen.tsx:49-51 | the list becomes the filter of the old list by the id |
| Ingest.WithoutIdMembers | components/IngestScreen.tsx:50 | a paper survives removal exactly when it was there and has another id |
| Ingest.WithoutIdConcat | components/IngestScreen.tsx:50 | removal works part by part and keeps the order of the survivors |
| Ingest.WithoutIdAbsent | components/IngestScreen.tsx:50 | removing an id no paper has changes nothing |
| Ingest.WithoutIdIdempotent | components/IngestScreen.tsx:50 | removing twice is removing once |
| Ingest.IngestScreen.HandleAnalyze | components/IngestScreen.tsx:53-57 | the exact list is handed on, and only when it is non-empty |
| Ingest.IngestScreen.ClickAnalyze | components/IngestScreen.tsx:185 | a click hands the list on exactly when the list is non-empty and no start is in flight |
| Scenarios.RestartRoutesToNewest | services/geminiService.ts:16-22 | two starts in a row give two different sessions; a later send reaches only the second, the first keeps just its seeding message |
| Scenarios.SendBeforeStart | services/geminiService.ts:46 | a send before any start fails with "Chat session not started" |
| Scenarios.FailedStartThenRetry | App.tsx:28-45 | right after a rejected start the phase is INGEST, the transcript empty and the failed session still installed; a retry with the same papers installs another session and reaches ANALYSIS with one MODEL message |
| Scenarios.ResetKeepsSession | App.tsx:48-51 | after a start and a reset the transcript is empty and the phase INGEST, yet a send still reaches the same session |
| Scenarios.ResetDuringSend | components/ChatScreen.tsx:36-48 | a reset while a send is outstanding empties the transcript, and the reply that then arrives becomes its only message, with the phase still INGEST |
| Scenarios.TurnFailureKeepsSession | components/ChatScreen.tsx:40-60 | a send that throws appends the error turn and keeps the session; the next send reaches the same session and appends its reply |

## Left out

- The Google GenAI SDK and the network: clients and sessions are opaque objects, and each remote reply is a parameter of the operation that awaits it. What the SDK keeps as chat history is not modelled; `ChatSession.requests` records the messages issued on a session, whatever the reply.
- The sampling temperature 0.7 is kept in `ChatConfig` as the real number 0.7 and never reasoned about; floating point is not modelled.
- The persona text (`NSFC_SYSTEM_INSTRUCTION` in types.ts) is opaque: it is the `persona` given to the `GeminiService` constructor, and every session is created with it.
- Concurrency and interleavings: each awaited handler is a click step, which runs the engine call up to its first `await`, and a completion step; `HandleStartAnalysis` and `HandleSend` run the two with nothing in between, and `Scenarios.ResetDuringSend` puts a reset between them: `CompleteSend` then appends the reply to the emptied transcript, as the functional `setMessages` update (components/ChatScreen.tsx:48) does against the shell's state after `handleReset`. What is not modelled is that the chat screen unmounts on the reset: its `isTyping` and `input` live on in the model, while in the application they are discarded. `BeginStartAnalysis` requires that no start is in flight, because its only caller's button is disabled while one is.
- `Date.now()` ids and timestamps are parameters; neither their uniqueness nor their order is modelled, so two papers may share an id (then `RemovePaper` removes both).
- `file.text()` is I/O: an upload receives the files' names and texts as a list, with the ids the loop gives them. Resetting the file input element is UI.
- `console.error` and `alert` are dropped; a failure shows in the models only as the returned `Failure` or the unchanged state.
- Whether the SDK client constructor throws is a parameter (`built`) of `InitializeGemini` and `HandleApiKeySubmit`.
- The active tab of the ingest screen, the Enter-key handling, the scroll effect, all rendering, the markdown renderer and the icons are UI only. The disabled states of the paste and send buttons are not modelled separately. The send button is disabled on its handler's own guard (components/ChatScreen.tsx:155 and :27). The paste button is disabled on the untrimmed test `!pastedTitle || !pastedContent` (components/IngestScreen.tsx:134), while its handler tests the trimmed fields (components/IngestScreen.tsx:18). That guard is stricter: a click the button lets through with a blank field changes nothing. So leaving out the disabled state loses no behaviour.
- `MessageRole.System` is declared but never produced by the code, and so by the model.
- Strings are sequences of Unicode code points, not UTF-16 units; no property here depends on the difference. `trim` strips the code points ECMAScript calls WhiteSpace and LineTerminator.
