# Chat client session and conversation model

A Dafny model of the logic core of a browser chat client that talks to a
generative AI backend. The client keeps several chat sessions, each with its
own message history and assistant preset, and lets the user send, edit,
regenerate and delete turns. The model covers three parts:

- **Generation service** (`gemini_service.dfy`, module `GeminiService`). This
  is `generateContent`. It builds the SDK client options (custom key or
  environment key, optional base URL). It builds the outgoing parts: the
  attachments as inline data, then the prompt if it is not empty. It merges
  the system instruction into the configuration. Finally it maps the SDK's
  first candidate back to message parts, falling back to the response's
  `text`. The SDK is a function parameter. Its errors are passed back
  unchanged as `Failure`.
- **Conversation editor** (`conversation.dfy`, module `Conversation`). These
  are the pure sequence transforms of `App.tsx`:
  - the user message that `processMessage` builds, and the auto-title;
  - the reply built from a generation outcome;
  - the fixed classification of generation failures and their texts;
  - what edit, regenerate and delete do to a session's messages.
- **Session store** (`session_store.dfy`, module `SessionStore`). Class
  `Store` holds the React state as fields: `sessions`, `activeSessionId`,
  `isLoading`, `apiKey` and `baseUrl`. Its methods are the app's handlers:
  new chat, delete, rename, select, change assistant, replace messages, and
  send, edit, regenerate and delete message. The class also has the derived
  active session and active assistant. `processMessage` is split at the
  awaited call into `BeginProcess` (the user message is shown, `isLoading`
  rises, the call's arguments are returned) and `FinishProcess` (the reply
  is appended, `isLoading` falls). `ProcessMessage` runs both halves, with
  the call's outcome given as a parameter.

The data types of `types.ts` are in `types.dfy` (module `Types`). Optional
fields are `Option`s, and `Truthy` is JavaScript truthiness of an optional
string.

The invariant `Store.Valid` says the list is non-empty and the active id
names a session in it. The source never requires it, so no store method
does. Every handler except `SelectSession` proves `old(Valid()) ==> Valid()`.
`SelectSession` keeps `Valid` only when some session carries the selected id.
Startup is valid exactly when the loaded list is non-empty and a saved
active id, if there is one, names a loaded session; the constructor's
contract states this equivalence.

Three behaviours of the code are worth stating; the model follows the code:
- Startup does not always establish `Valid`. A saved list that parses to `[]`
  stays empty. A saved active id is kept even when no loaded session has
  that id. In that state the derived active session falls back to the first
  session, but message replacement still matches the active id, so it
  changes nothing (`WithMessagesUnknownId`). From such a state, deleting the
  last session leaves no session at all. The active id is not the deleted
  one, so the filtered list `[]` is kept (the first clause of
  `DeleteSession` with `WithoutSessionSingle`).
- Selecting a session sets the active id unconditionally. It is not a no-op
  for an unknown id.
- The outgoing request puts attachments first and the prompt last. The
  stored user message puts the text first and then the attachments.

## Model

| member | source | states |
|---|---|---|
| GeminiService.BuildOptions | services/geminiService.ts:15-21 | the API key is the custom key when truthy, else the environment key; a base URL is present exactly when the custom one is truthy, and then equals it |
| GeminiService.BuildParts | services/geminiService.ts:25-40 | the parts are every attachment as inline data, in input order, then `{text: prompt}` only for a non-empty prompt; length is the number of attachments plus one when the prompt is non-empty |
| GeminiService.MergeConfig | services/geminiService.ts:43-46 | `systemInstruction` is set to the instruction when it is truthy; otherwise the result is the given config, or `{}` when none is given; every other key and its value are kept |
| GeminiService.ConvertedAppend | services/geminiService.ts:58-73 | converting candidate parts commutes with concatenation, so the output follows the input order |
| GeminiService.ConvertedLength | services/geminiService.ts:61-72 | parts are dropped, never added: output length is at most input length, with equality exactly when every part has truthy text or inline data |
| GeminiService.ConvertedPointwise | services/geminiService.ts:61-72 | when every part is kept, output part i is input part i converted; truthy text wins over inline data |
| GeminiService.FirstCandidateParts | services/geminiService.ts:58-60 | `response.candidates?.[0]?.content.parts`: the first candidate's parts, none without a candidate; `ResponsePartsFallback` and `ExtractResponseParts` use it |
| GeminiService.ConvertPart | services/geminiService.ts:61-72 | one SDK part becomes `[{text}]` when its text is truthy, else `[{inlineData}]` when it has inline data, else nothing; its partner is `ConvertedPointwise` |
| GeminiService.Converted | services/geminiService.ts:61-72 | the loop's output over a prefix of the candidate's parts; its partners `ConvertedAppend`, `ConvertedLength` and `ConvertedPointwise` give its order, length and contents |
| GeminiService.ResponseParts | services/geminiService.ts:55-80 | the parts `generateContent` returns for a response; its partner `ResponsePartsFallback` gives the text fallback, and `ExtractResponseParts` is proved equal to it |
| GeminiService.ExtractResponseParts | services/geminiService.ts:55-80 | the result is the first candidate's converted parts; when none were produced and `response.text` is truthy, it is exactly `[{text: response.text}]` |
| GeminiService.ResponsePartsFallback | services/geminiService.ts:58-80 | when the first candidate yields no parts, the result is exactly `[{text}]` for a truthy `response.text` and empty otherwise (so no candidates and no text give no parts); when it yields some, the text is ignored and the result is no longer than the candidate's parts |
| GeminiService.GenerateContent | services/geminiService.ts:15-84 | the SDK receives the built options, the model id, the built parts and the merged config (the instruction under `systemInstruction` when it is truthy, else exactly the given config or `{}`; every other key and value of the given config kept); an SDK error is returned unchanged as `Failure`; a response gives `Success` with the extracted parts |
| Conversation.Contains | App.tsx:202 | `includes`: true exactly when the substring occurs at some index |
| Conversation.FindMessageIndex | App.tsx:244 | `findIndex`: the first index carrying the id, or none when no message carries it |
| Conversation.AttachmentParts | App.tsx:152-154 | each attachment becomes an inline-data part with its MIME type and data, in order |
| Conversation.UserParts | App.tsx:150-155 | the user message's parts are `{text}` first when the text is non-empty, then all attachments in order; the length is the number of attachments plus one when the text is non-empty |
| Conversation.UserMessage | App.tsx:146-156 | a USER message with the given id and time whose first truthy text is the prompt and whose inline parts give back the attachments with their preview URLs cleared |
| Conversation.Title | App.tsx:163 | at most 33 chars; the text itself when it has at most 30 chars, else its first 30 chars followed by `...`; empty exactly for an empty text |
| Conversation.AutoTitle | App.tsx:161-164 | a title is proposed exactly when auto-titling is asked for and the history is empty, and it is `Title(text)` |
| Conversation.EmptyPromptProposesNoTitle | App.tsx:161-164 | an empty first prompt proposes a title that is not truthy |
| Conversation.EffectiveStatus | App.tsx:198 | the error's status unless it is absent or zero, else its code |
| Conversation.IsForbidden | App.tsx:202 | the 403 test: `403` in the error's string form or an effective status of 403; `Classify` gives `PermissionDenied` exactly when it holds |
| Conversation.IsQuota | App.tsx:207 | the 429 test: `429` in the string form, an effective status of 429, or `Quota exceeded` in the message; `Classify` uses it only after the 403 test fails |
| Conversation.IsOverloaded | App.tsx:211 | the 503 test: `503` in the string form or an effective status of 503; `Classify` uses it only after the 403 and 429 tests fail |
| Conversation.Classify | App.tsx:193-216 | precedence: 403 in the string or status, then 429 / status 429 / "Quota exceeded" in the message, then 503, then a non-empty message, else the fallback; each category holds exactly when its test passes and no earlier one does |
| Conversation.OpensSettings | App.tsx:194-228 | `isPermissionError`: true for the permission category only; `FinishProcess` opens the settings panel exactly when the failure classifies as a permission failure |
| Conversation.ErrorText | App.tsx:193-216 | the transcript text of each category, the permission text naming the assistant; its partner `ErrorTextDistinguishes` shows the texts are non-empty and tell the categories apart |
| Conversation.ErrorTextDistinguishes | App.tsx:193-216 | every error text is non-empty, and different categories give different texts for the same assistant name |
| Conversation.Reply | App.tsx:181-223 | a MODEL message with the given id and time: the response parts on success; on failure exactly one text part, non-empty, holding the text of the error's category |
| Conversation.ProcessedMessages | App.tsx:158-224 | the list `processMessage` leaves: history, user message, reply; its partner `ProcessedShape` gives its length, prefix and the two new messages |
| Conversation.ProcessedShape | App.tsx:147-224 | the final list is the history, then one USER message with text first and then the attachments, then one MODEL reply carrying the response parts on success or a single non-empty text part on failure |
| Conversation.RecoveredAttachments | App.tsx:249-255 | the recovered attachments number at most the parts, and each has an empty preview URL |
| Conversation.FirstText | App.tsx:290 | the first truthy text: empty exactly when no part has truthy text, otherwise the text of the first part that does |
| Conversation.RecoveredAttachmentsResend | App.tsx:249-261 | re-sending the recovered attachments reproduces exactly the original message's inline-data parts, in order |
| Conversation.AttachmentsRoundTrip | App.tsx:152-154 | recovering attachments from the parts built from them gives the attachments back, with their preview URLs cleared |
| Conversation.UserPartsRoundTrip | App.tsx:283-290 | from a user message that `processMessage` built, the first text is the original prompt and the recovered attachments are the originals, with their preview URLs cleared |
| Conversation.EditPlan | App.tsx:244-261 | what an edit resubmits: none for an unknown id, else the new text, the edited message's attachments and the messages before it; its partner `EditResult` gives the resulting list |
| Conversation.EditResult | App.tsx:241-262 | an unknown id is a no-op; editing the message found first at i yields `messages[..i]`, then a USER message (new text if non-empty, then the edited message's inline parts in order), then one MODEL reply; auto-title is off |
| Conversation.RegenerateTarget | App.tsx:270-280 | a USER target stays at its index; a MODEL target steps back by one; a MODEL target at index 0 or an unknown id is a no-op; the stepped-to role is not checked |
| Conversation.RegeneratePlan | App.tsx:270-295 | what a regenerate resubmits: none without a target, else the target's first text and attachments against the messages before it; its partners `RegenerateResult` and `RegenerateResendsPrompt` give the resulting list and the round trip |
| Conversation.RegenerateResult | App.tsx:264-296 | regenerating from the target user message j leaves messages[..j], then a user message holding that message's first truthy text (if any) followed by its inline parts in order, then one model reply, with auto-titling off |
| Conversation.RegenerateResendsPrompt | App.tsx:264-296 | regenerating resends that user message's prompt and attachments against the messages before it, without auto-titling |
| Conversation.DeleteCount | App.tsx:305-310 | two messages exactly when the target is USER and a MODEL message follows it, else one |
| Conversation.AfterDelete | App.tsx:300-315 | the messages after a delete: the splice at the first index carrying the id, of `DeleteCount` messages; its partners `DeleteUnknownId` and `DeleteResult` give the no-op and the exact removal |
| Conversation.DeleteUnknownId | App.tsx:298-303 | deleting an id no message carries leaves the messages unchanged |
| Conversation.DeleteResult | App.tsx:298-316 | deleting the first message with the id removes exactly 2 messages (it and the model reply bonded to it) when it is a user message followed by a model message, else 1; the others keep their relative order |
| SessionStore.NewSession | App.tsx:87-93 | a new session has the given id and time, the title `新对话`, no messages and assistant `nano-banana` |
| SessionStore.FindSession | App.tsx:83 | `sessions.find`: found exactly when some session carries the id; it is the first such session |
| SessionStore.FindAssistant | App.tsx:84 | `find` over the catalog: found exactly when the id is present and some entry carries it |
| SessionStore.KeptTitle | App.tsx:124 | the new title when it is truthy, else the session's current title |
| SessionStore.Renamed | App.tsx:112-116 | only titles change, and only in the sessions carrying the id |
| SessionStore.WithMessages | App.tsx:118-129 | sessions carrying the id get the new messages and the kept title; every other field and every other session is unchanged |
| SessionStore.WithAssistant | App.tsx:131-136 | only `assistantId` changes, and only in the sessions carrying the id; messages are untouched |
| SessionStore.WithoutSession | App.tsx:100 | `filter`: exactly the sessions with a different id remain, and the first remaining one is the first such session of the input; its partners `WithoutSessionAppend` and `WithoutSessionSingle` fix the order and the count of the rest |
| SessionStore.WithoutSessionAppend | App.tsx:100 | filtering commutes with concatenation, so the remaining sessions keep their input order and each appears once |
| SessionStore.WithoutSessionSingle | App.tsx:100 | a single session is kept exactly when its id differs from the deleted one |
| SessionStore.WithMessagesTwice | App.tsx:166-188 | the two message updates of `processMessage` compose: the title set by the first survives the second |
| SessionStore.WithMessagesUnknownId | App.tsx:118-129 | replacement matches the active id, not the fallback session: an id no session carries changes nothing |
| SessionStore.EmptyPromptKeepsTitle | App.tsx:161-166 | an empty first prompt leaves the session title unchanged |
| SessionStore.UpdatesKeepIds | App.tsx:112-136 | rename, assistant change and message replacement keep the set of session ids |
| SessionStore.Store.constructor | App.tsx:39-69 | a missing or unparseable store gives exactly one default session; the active id is the saved one when truthy, else the first session's id; loading is off; the store is valid exactly when the loaded list is non-empty and a truthy saved id names a loaded session |
| SessionStore.Store.ActiveSession | App.tsx:83 | the session carrying the active id, else `sessions[0]`; none only for an empty list |
| SessionStore.Store.ActiveAssistant | App.tsx:84 | the entry of `InitialAssistants` (the fixed catalog of App.tsx:13-35: ids, names, icons, models and system instructions as written there) named by the active session, else the first catalog entry |
| SessionStore.Store.NewChat | App.tsx:86-97 | a fresh default session is prepended and becomes active |
| SessionStore.Store.DeleteSession | App.tsx:99-110 | the sessions carrying the id are filtered out; a non-active id leaves the active id; deleting the active one selects the first remaining session, or leaves exactly one fresh default session, active, when none remain |
| SessionStore.Store.SelectSession | App.tsx:335 | the active id becomes the given id; validity is kept when a session carries it |
| SessionStore.Store.RenameSession | App.tsx:112-116 | the list becomes `Renamed(old list)`; nothing else changes |
| SessionStore.Store.UpdateActiveSessionMessages | App.tsx:118-129 | the list becomes `WithMessages` at the active id; nothing else changes |
| SessionStore.Store.UpdateActiveSessionAssistant | App.tsx:131-136 | the list becomes `WithAssistant` at the active id; nothing else changes |
| SessionStore.Store.BeginProcess | App.tsx:139-179 | the history plus the new user message is stored with the auto-title rule; `isLoading` is true; the call carries the prompt, the attachments' data, and the active assistant's model and system instruction |
| SessionStore.Store.FinishProcess | App.tsx:181-233 | the reply is appended after the user message; `isLoading` is false; the settings panel opens exactly on a permission failure |
| SessionStore.Store.ProcessMessage | App.tsx:139-234 | the active session ends as the stored history plus user message plus reply, with the auto-title rule; `isLoading` is false afterwards |
| SessionStore.Store.HandleSendMessage | App.tsx:236-239 | with no active session nothing changes; otherwise the message is processed against the active session's messages, auto-titling while the title is `新对话` |
| SessionStore.Store.HandleEditMessage | App.tsx:241-262 | nothing changes for an unknown id; otherwise the edit plan is processed with auto-title off |
| SessionStore.Store.HandleRegenerateMessage | App.tsx:264-296 | nothing changes when there is no target; otherwise the regenerate plan is processed with auto-title off |
| SessionStore.Store.HandleDeleteMessage | App.tsx:298-316 | nothing changes for an unknown id; otherwise the active id's messages become `AfterDelete` of the active session's messages |

## Left out

- Rendering: the sidebar, message list, input area and settings components, plus the sidebar, assistant-menu and settings-panel flags of `App.tsx`, are UI. Their input guards are left to the UI: trimmed non-empty edit text and titles, and "non-empty text or attachments, and not loading" for send. The store operations accept any input, as the handlers do.
- The SDK client and its network call are a function parameter of `GenerateContent`. For the store, the call is an `Outcome` parameter between `BeginProcess` and `FinishProcess`.
- Persistence: storage reads and writes and JSON parsing are I/O. Startup takes the result of loading as a `StoredSessions` value and the saved strings as parameters. The write-back effects are not modelled, and no JSON round trip is claimed.
- `handleSaveSettings` (App.tsx:318-324) only stores two strings in the settings state and in storage, so it is not modelled. The settings are constructor parameters.
- Ids and timestamps come from the clock, so they are parameters. Nothing is claimed about their uniqueness.
- Concurrency: async interleaving, stale closures, React batching, and the place where a late response lands are not modelled. The 1500 ms timer that opens the settings panel becomes the `opensSettings` result.
- The process environment key is a parameter. The SDK response's optional fields are simplified: a missing candidate list, content or parts list counts as empty. Error `message` is a string, with `""` standing for absent. `error.toString()` is the given `description`.
- String length and slicing are over `seq<char>`. The source counts UTF-16 code units, so a title cut inside a surrogate pair is not modelled.
- Config values other than the system instruction are opaque.
- Console logging is not modelled.
