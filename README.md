# A verified model of a browser LLM chat client's core

The client keeps chat sessions in the browser and streams answers from
several LLM providers. This project models its deterministic core in
Dafny and proves what that code promises.

- **Application store** (`Store`): the state and the reducer over its
  twelve actions. Also hydration from the browser store on start-up,
  settings write-back after every change, and session write-back (a
  one-second debounce with a single timer slot, plus an immediate save when
  the page is hidden).
- **Persistence service** (`Storage`): the IndexedDB `sessions` store
  keyed by session id, and the `settings` store with out-of-line keys, as a
  class whose fields are the stores' contents. `getSessions` lists newest
  first, with a selection loop. `getAllSettings` zips keys with values in a
  loop. A service built without `window` never settles.
- **Provider adapters** (`Adapters`, `Sse`, `JsonValue`, `Text`):
  - request mapping for OpenAI, Groq, Anthropic and Gemini (roles, system
    message, temperature rule, URL, constants);
  - error selection;
  - the shared line-buffering decoder for `data: ` frames of server-sent
    events (WHATWG HTML Living Standard, section 9.2, reduced to what the
    code handles), written as an imperative loop over chunks and proved
    equal to a line-by-line specification;
  - the JavaScript property-access rules (`a.b` throws on null, `a?.b`,
    `x || ""`).
- **Orchestrator** (`Llm`): the adapter registry and `streamChat`'s
  accumulation loop with its cancellation check.
- **Model catalog** (`Catalog`): the constant model list, availability
  filtering by stored keys, lookup by id, and config creation.
- **Chat view** (`ChatArea`): `handleSend`, split at its `await` into the
  actions chosen before the stream and the updates after it, plus a class
  holding the abort controller and the generating flag.
- **Composer** (`InputArea`): the send guard, including JavaScript `trim`;
  the Enter-key rule; adding and removing picked files.
- **Mobile navigation** (`MobileNavigation`): the state-to-URL-hash
  decision, the Back (`popstate`) decision, and a small browser-history
  class on which they act.

`provider` is modelled as a plain string. The `ModelConfig.provider` union
in `src/types/llm.ts:30` lists `'custom'` but not `'groq'`, while
`getAdapter` accepts `'groq'` and rejects `'custom'`. The model follows the
code: any string may be stored, and the registry decides.

Outside inputs are parameters:
- the clock reading (`now`) and generated ids;
- `JSON.parse` (a function returning `None` when the text does not parse);
- `fetch` (a function from request to response or error);
- whether the browser is online;
- the viewport width;
- the position in the token stream at which the abort signal is found set.

## Model

| member | source | states |
|---|---|---|
| Types.FindSession | src/components/ChatArea.tsx:40 | the session found has the id asked for and is in the list; none is found only when no session has that id |
| Text.Split | src/services/openai.ts:47 | `split("\n")` yields at least one piece and no piece contains a line feed |
| Text.CompleteLines | src/services/openai.ts:47-48 | the lines handed to the inner loop contain no line feed |
| Text.Leftover | src/services/openai.ts:48 | what stays in the buffer contains no line feed |
| Text.SplitAfterLines | src/services/openai.ts:47 | splitting text made of terminated lines and a rest gives back exactly those lines followed by the split of the rest |
| Text.SplitNoNewline | src/services/openai.ts:47 | a piece without a line feed splits into itself alone |
| Text.SplitJoin | src/services/openai.ts:46-48 | the complete lines, each followed by a line feed, plus the leftover, rebuild the buffered text exactly |
| Text.LinesOfJoin | src/services/openai.ts:47-48 | joined lines plus a rest without a line feed have exactly those complete lines and that leftover |
| JsonValue.Get | src/services/openai.ts:56 | a plain property access throws exactly when the value is null or undefined |
| JsonValue.GetOpt | src/services/gemini.ts:58 | an optional-chaining access on null or undefined yields undefined |
| JsonValue.TextOr | src/services/openai.ts:56 | `v \|\| ""` is the fallback unless `v` is a non-empty string, and then it is that string |
| Sse.ChatCompletionsToken | src/services/openai.ts:56 | the access throws, so the frame is skipped, exactly when the value is null or `choices` is missing or null |
| Sse.AnthropicToken | src/services/anthropic.ts:60-63 | a frame yields a token exactly when its `type` is `content_block_delta`; AnthropicDeltaYielded and AnthropicMissingTextYieldsEmpty state the token |
| Sse.GeminiToken | src/services/gemini.ts:57-59 | every parsed frame except `null` yields a token; GeminiTextYielded and GeminiNoCandidatesYieldsEmpty state the token |
| Sse.DecodeStream | src/services/openai.ts:40-64 | the tokens the buffering loop yields over the chunks equal the line-by-line decoding of their concatenation, up to the first `[DONE]`, with an unterminated last line dropped |
| Sse.ChunkStep | src/services/openai.ts:46-48 | after each chunk, the processed lines, each with its line feed, plus the buffer equal all text received |
| Sse.DecodeLines | src/services/openai.ts:50-62 | the inner loop yields the tokens of the chunk's lines up to the first stopping line, and reports a stop exactly when one of them stops the stream |
| Sse.StopLine | src/services/openai.ts:53 | when line j is the first `[DONE]`, the chunk's lines decode to the tokens of the lines before it |
| Sse.StopEndsStream | src/services/openai.ts:53 | once the lines read so far hold `[DONE]`, they decode to the tokens of the whole stream, whatever the later chunks hold |
| Sse.LinesTokensAfterStop | src/services/openai.ts:53 | once a line has stopped the stream, lines after it contribute nothing |
| Sse.LinesTokensAppend | src/services/openai.ts:50-62 | without a stopping line, decoding two runs of lines is decoding each in turn |
| Sse.DataLinePayload | src/services/openai.ts:51-52 | the payload of a `data: ` line is the line without its first six characters |
| Sse.NonDataLineSkipped | src/services/openai.ts:51 | a line not starting with `data: ` yields nothing |
| Sse.DoneEndsStream | src/services/openai.ts:53 | for OpenAI and Groq, a `data: [DONE]` line ends the stream, so nothing after it is decoded, even complete lines |
| Sse.PartialLineDropped | src/services/openai.ts:44-48 | an unterminated final line is never decoded |
| Sse.NoSentinel | src/services/anthropic.ts:49-55 | Anthropic and Gemini frames never stop the stream |
| Sse.MissingChoicesSkipped | src/services/openai.ts:54-59 | a parsed frame without `choices` is skipped, not fatal |
| Sse.EmptyDeltaYieldsEmpty | src/services/openai.ts:56 | a first choice without `delta` yields the empty token |
| Sse.DeltaContentYielded | src/services/groq.ts:54-59 | a well-formed delta frame yields its content |
| Sse.OtherAnthropicFramesSkipped | src/services/anthropic.ts:57-68 | parsed Anthropic frames of any other type yield nothing |
| Sse.AnthropicDeltaYielded | src/services/anthropic.ts:60-63 | a `content_block_delta` frame yields exactly its non-empty `delta.text`, whatever other fields it carries |
| Sse.AnthropicMissingTextYieldsEmpty | src/services/anthropic.ts:62 | a `content_block_delta` frame without `delta` or without `delta.text` yields "" |
| Sse.GeminiTextYielded | src/services/gemini.ts:57-59 | a frame yields exactly the non-empty text of the first part of the first candidate's content, whatever else it carries |
| Sse.GeminiNoCandidatesYieldsEmpty | src/services/gemini.ts:58 | a frame without `candidates` yields "" |
| Sse.UnparseableSkipped | src/services/gemini.ts:56-62 | a payload that does not parse is skipped in every dialect |
| Sse.ClassifyLine | src/services/openai.ts:50-62 | the handling of one complete line; NonDataLineSkipped, DataLinePayload, DoneEndsStream, NoSentinel, UnparseableSkipped and the per-dialect token lemmas state its cases |
| Sse.LinesTokens | src/services/openai.ts:50-62 | the tokens of a run of complete lines up to the first stop; LinesTokensAppend and LinesTokensAfterStop state how it composes |
| Sse.StreamTokens | src/services/openai.ts:40-64 | the generator's output for a whole stream; DecodeStream is proved equal to it for every chunking, PartialLineDropped states the unterminated tail |
| Adapters.PassThrough | src/services/openai.ts:19-22 | every message, system ones included, maps to its role name and content, in order, none dropped |
| Adapters.FirstSystemContent | src/services/anthropic.ts:18 | the content of the first system message, and none exactly when there is no system message |
| Adapters.GeminiContents | src/services/gemini.ts:11-14 | one entry per message, in order |
| Adapters.GeminiContentsShape | src/services/gemini.ts:11-14 | each entry has role `model` for an assistant message and `user` otherwise, and a single text part with the content |
| Adapters.EmptyKeyRejected | src/services/openai.ts:8 | with an empty key, each of the four adapters fails with its own fixed message before any request |
| Adapters.TemperatureRule | src/services/openai.ts:23-25 | OpenAI sends the temperature exactly when the model id starts with neither `o1` nor `o3`; Groq always sends it |
| Adapters.ReasoningTier | src/services/openai.ts:23 | for every model id: it is of the o1/o3 tier exactly when its first two characters are `o` and then `1` or `3`, whatever follows |
| Adapters.WithoutSystem | src/services/anthropic.ts:12 | the kept messages are exactly the non-system ones; WithoutSystemAppend and WithoutSystemNone give their order and count |
| Adapters.WithoutSystemAppend | src/services/anthropic.ts:12 | the filter distributes over concatenation, so the kept messages keep their order and multiplicity |
| Adapters.WithoutSystemNone | src/services/anthropic.ts:12 | a conversation with no system message is kept whole |
| Adapters.AnthropicTurnsShape | src/services/anthropic.ts:11-16 | one turn per non-system message, in order, with role `assistant` for assistants and `user` otherwise |
| Adapters.AnthropicWithoutSystemIsPassThrough | src/services/anthropic.ts:11-16 | without system messages the Anthropic turns are the plain role-and-content mapping |
| Adapters.AnthropicSystemField | src/services/anthropic.ts:18 | the `system` field is the first system message's content, and is omitted when there is none or it is empty |
| Adapters.AnthropicBodyConstants | src/services/anthropic.ts:28-34 | the body always has `max_tokens` 4096 and `stream` true, and no temperature |
| Adapters.GeminiUrlShape | src/services/gemini.ts:17-29 | the URL carries the model id in its path, then the key and `alt=sse` in its query, and the temperature goes in `generationConfig` |
| Adapters.VendorMessageReported | src/services/openai.ts:30-33 | a failed response whose error body holds a non-empty string `error.message` fails with that message, whatever other fields the body carries |
| Adapters.FallbackWithoutMessage | src/services/openai.ts:32 | a failed response whose body has no `error`, a null `error`, or an `error` without `message` fails with the provider's fixed text |
| Adapters.ErrorBodyUnreadable | src/services/openai.ts:31-32 | an error body that is not JSON makes `response.json()` reject and that error propagates; a `null` body makes `err.error` throw a TypeError |
| Adapters.ResponseFailures | src/services/openai.ts:30-35 | a non-ok response fails with the error read from its error body, whatever its response body; a successful one without a body fails with "No response body"; a rejected fetch propagates |
| Adapters.IsReasoningModel | src/services/openai.ts:23 | the o1/o3 test; ReasoningTier states it for every id and TemperatureRule its effect on the body |
| Adapters.OpenAIRequest | src/services/openai.ts:10-27 | the OpenAI request; TemperatureRule states its temperature and Llm.OpenAIStreamDelivers its use |
| Adapters.GroqRequest | src/services/groq.ts:10-26 | the Groq request; TemperatureRule states that it always carries the temperature |
| Adapters.AnthropicTurns | src/services/anthropic.ts:11-16 | the Anthropic turns; AnthropicTurnsShape states each turn and AnthropicWithoutSystemIsPassThrough the system-free case |
| Adapters.AnthropicRequest | src/services/anthropic.ts:18-35 | the Anthropic request; AnthropicSystemField and AnthropicBodyConstants state its fields |
| Adapters.GeminiRequest | src/services/gemini.ts:11-31 | the Gemini request; GeminiUrlShape and GeminiContentsShape state its URL and body |
| Adapters.ApiError | src/services/openai.ts:30-33 | the error thrown for a non-ok response; VendorMessageReported, FallbackWithoutMessage and ErrorBodyUnreadable state its cases |
| Adapters.Respond | src/services/openai.ts:30-64 | the part of `chat` after `fetch`; ResponseFailures states its failure cases and Llm.OpenAIStreamDelivers its success case |
| Adapters.OpenAIChat | src/services/openai.ts:7-65 | OpenAI `chat`; EmptyKeyRejected states the missing-key case and Llm.OpenAIStreamDelivers the streamed case |
| Adapters.GroqChat | src/services/groq.ts:7-63 | Groq `chat`; EmptyKeyRejected states its missing-key message |
| Adapters.AnthropicChat | src/services/anthropic.ts:7-73 | Anthropic `chat`; EmptyKeyRejected states its missing-key message |
| Adapters.GeminiChat | src/services/gemini.ts:7-67 | Gemini `chat`; EmptyKeyRejected states its missing-key message |
| Llm.GetAdapter | src/services/llm.ts:19-28 | an adapter exists exactly for openai, groq, deepseek, anthropic and gemini; any other id fails with "Provider X not implemented" |
| Llm.RegistryIds | src/services/llm.ts:19-28 | `custom` is rejected, and every adapter found is registered under the id asked for |
| Llm.Consumed | src/services/llm.ts:41-42 | no more tokens are consumed than the stream yields |
| Llm.Cumulative | src/services/llm.ts:43-44 | one callback argument per consumed token |
| Llm.StreamChat | src/services/llm.ts:30-47 | the accumulation loop's result and its callback arguments are those of the specification: registry and adapter errors propagate, and otherwise the consumed tokens are accumulated |
| Llm.CumulativePrefixes | src/services/llm.ts:41-45 | the i-th callback gets the concatenation of the first i+1 tokens; each adds exactly its token, so an empty token repeats the previous argument |
| Llm.ResultIsLastUpdate | src/services/llm.ts:40-46 | the settled value is the last callback argument, or "" when no token was consumed |
| Llm.AbortCutsStream | src/services/llm.ts:41-42 | when the signal is found set before token k, exactly the first k tokens are reported and the result is their concatenation |
| Llm.ErrorsPropagate | src/services/llm.ts:37-38 | errors from the registry or from `chat` propagate unchanged, with no callback |
| Llm.AdapterChat | src/services/llm.ts:37-38 | the selected adapter's `chat`; OpenAIStreamDelivers states what streamChat delivers over it |
| Llm.StreamChatSpec | src/services/llm.ts:30-47 | what streamChat settles to and reports; StreamChat is proved equal to it, and CumulativePrefixes, AbortCutsStream and ErrorsPropagate state its cases |
| Llm.OpenAIStreamDelivers | src/services/llm.ts:30-47 | over the OpenAI adapter with a key and an ok response, the callbacks receive the running totals of the tokens decoded from the body, cut where the signal is found aborted |
| Catalog.FirstWithId | src/services/models.ts:173-175 | the entry found is the first one with the id asked for; none is found exactly when no entry has it |
| Catalog.CreateModelConfig | src/services/models.ts:178-184 | the provider and model id come from the definition, the temperature is the argument or 0.7, and there is no key or base URL |
| Catalog.SelectableMembers | src/services/models.ts:164-169 | a model is offered exactly when it is listed and is free or its provider's key is non-empty |
| Catalog.SelectableInOrder | src/services/models.ts:164 | the offered models keep catalog order |
| Catalog.AvailableModelsSpec | src/services/models.ts:162-170 | free models are always offered, a paid one exactly when its provider's key is non-empty, only catalog models are offered, and in catalog order |
| Catalog.AvailableMonotone | src/services/models.ts:162-170 | adding keys never removes a model |
| Catalog.NoKeysOnlyFree | src/services/models.ts:13-170 | with no keys, exactly the four free models at the head of the catalog are offered |
| Catalog.FreeAlwaysKept | src/services/models.ts:165-167 | a list of free models is offered whole, whatever the keys |
| Catalog.PaidOnlyWithoutKeys | src/services/models.ts:168 | without keys no paid model is offered |
| Catalog.SelectableAppend | src/services/models.ts:164 | filtering distributes over the concatenation of lists |
| Catalog.CatalogIdsDistinct | src/services/models.ts:13-159 | no two catalog entries share an id |
| Catalog.ModelByIdFindsEntry | src/services/models.ts:173-175 | every catalog entry is found by its own id, and an unknown id finds nothing |
| Catalog.SelectableAmong | src/services/models.ts:164-169 | the availability filter over any list; SelectableMembers, SelectableInOrder and SelectableAppend state its membership, order and composition |
| Catalog.GetAvailableModels | src/services/models.ts:162-170 | `getAvailableModels`; AvailableModelsSpec, AvailableMonotone and NoKeysOnlyFree state it |
| Catalog.GetModelById | src/services/models.ts:173-175 | `getModelById`; FirstWithId states the first-match search and ModelByIdFindsEntry that every catalog entry is found |
| Storage.IdBeforeTotal | src/services/storage.ts:47 | any two different ids are ordered one way or the other |
| Storage.IdBeforeTransitive | src/services/storage.ts:47 | the string-key order is transitive |
| Storage.ListedBeforeTransitive | src/services/storage.ts:45-49 | the listing order (newer first, ties by id) is transitive |
| Storage.ListedBeforeTotal | src/services/storage.ts:45-49 | any two sessions with different ids are ordered |
| Storage.FirstListedExists | src/services/storage.ts:45-49 | among any non-empty set of stored ids one comes first in listing order |
| Storage.ListingUnique | src/services/storage.ts:45-49 | two listings of the same store are equal: the order leaves no choice |
| Storage.Lookup | src/services/storage.ts:66-69 | a key is found exactly when it is stored, and then with the value stored at its position |
| Storage.ReplaceLookup | src/services/storage.ts:61-64 | overwriting the value at a key's position changes what that key finds and nothing else |
| Storage.AppendLookup | src/services/storage.ts:61-64 | adding a new key keeps the keys distinct, makes it find its value and changes no other key |
| Storage.StorageService.constructor | src/services/storage.ts:22-38 | constructs without throwing, with or without `window`; without it, no operation ever settles |
| Storage.StorageService.SaveSession | src/services/storage.ts:40-43 | upserts the whole session under its id and leaves other ids alone |
| Storage.StorageService.GetSession | src/services/storage.ts:51-54 | finds a session exactly when its id is stored, and then the stored session |
| Storage.StorageService.DeleteSession | src/services/storage.ts:56-59 | removes exactly that id; an absent id changes nothing |
| Storage.StorageService.GetSessions | src/services/storage.ts:45-49 | lists every stored session exactly once, newest first |
| Storage.StorageService.SaveSetting | src/services/storage.ts:61-64 | afterwards the key reads back the value written, and every other key reads as before |
| Storage.StorageService.GetSetting | src/services/storage.ts:66-69 | finds a value exactly when the key is stored, and then the stored value |
| Storage.StorageService.GetAllSettings | src/services/storage.ts:71-80 | the record's keys are exactly the stored string keys, each paired with the value stored beside it |
| Store.WithoutSession | src/lib/store.tsx:65 | the kept sessions are exactly those with another id; WithoutSessionAppend and WithoutSessionAbsent give their order and count |
| Store.WithoutSessionAppend | src/lib/store.tsx:65 | the filter distributes over concatenation, so the survivors keep their order and multiplicity |
| Store.WithoutSessionAbsent | src/lib/store.tsx:65 | a list in which no session has the id comes back unchanged |
| Store.ReduceTwo | src/lib/store.tsx:51-107 | dispatching two actions is reducing by the first and then by the second |
| Store.Reduce | src/lib/store.tsx:51-107 | `appReducer` over all twelve actions; SetApiKeyOnlyThatKey, CreateSessionInFront, SelectSessionUnchecked, DeleteSessionRemoves, AddMessageAppends, UpdateMessageContentOnly, TogglesAreInvolutions, SettersReplaceOneField and LoadStateOverwrites state one action each |
| Store.ReduceAll | src/lib/store.tsx:51-107 | dispatching a list of actions in order; ReduceTwo states it for two |
| Store.SetApiKeyOnlyThatKey | src/lib/store.tsx:53-54 | SET_API_KEY changes only that provider's key |
| Store.CreateSessionInFront | src/lib/store.tsx:55-60 | CREATE_SESSION puts the session first, keeps the rest in order and selects it |
| Store.CurrentValidPreserved | src/lib/store.tsx:55-101 | every action except SELECT_SESSION and LOAD_STATE keeps the current id null or naming a session |
| Store.SelectSessionUnchecked | src/lib/store.tsx:61-62 | SELECT_SESSION makes any id current and changes nothing else; the result names a session exactly when the id does, since the id is not checked |
| Store.DeleteSessionRemoves | src/lib/store.tsx:63-68 | DELETE_SESSION keeps exactly the sessions with another id, clears the current id when it was the deleted one, and changes nothing else; DeleteSessionAt gives the order |
| Store.DeleteSessionAt | src/lib/store.tsx:63-68 | when only the session at index i has the id, deleting it removes exactly that slot and the others keep their order |
| Store.WithoutSessionIdempotent | src/lib/store.tsx:65 | filtering an id out twice is filtering it once |
| Store.DeleteSessionIdempotent | src/lib/store.tsx:63-68 | deleting the same id twice is deleting it once |
| Store.AddMessageAppends | src/lib/store.tsx:69-77 | ADD_MESSAGE appends the message to the matching session and stamps its `updatedAt`; other sessions are untouched |
| Store.AddMessageUnknownSession | src/lib/store.tsx:69-77 | ADD_MESSAGE for an unknown id changes nothing |
| Store.UpdateMessageContentOnly | src/lib/store.tsx:78-91 | UPDATE_MESSAGE changes only the content of matching messages in the matching session; count, order, other fields and `updatedAt` stay |
| Store.TogglesAreInvolutions | src/lib/store.tsx:92-95 | each toggle flips exactly one flag, and toggling twice restores the state |
| Store.SettersReplaceOneField | src/lib/store.tsx:96-101 | SET_THEME, SET_TEXT_SIZE and SET_MODEL each replace one field only |
| Store.LoadStateOverwrites | src/lib/store.tsx:102-103 | LOAD_STATE takes every field the partial carries and keeps every other |
| Store.LoadedState | src/lib/store.tsx:130-136 | hydration never sets the current id or the two panel flags |
| Store.HydrationDefaults | src/lib/store.tsx:130-136 | a first visit hydrates to no sessions, no keys, dark theme, medium text and the initial model |
| Store.HydrationPerKey | src/lib/store.tsx:130-136 | each of the four settings hydrates on its own: stored with a value of its kind gives that value, missing gives its default, whatever the other keys hold; the sessions are the listed ones |
| Store.HydrationFailureKeepsState | src/lib/store.tsx:139-143 | a failed load dispatches nothing |
| Store.Hydrate | src/lib/store.tsx:121-146 | the state once loading settles; LoadedState, HydrationPerKey, HydrationDefaults, HydrationFailureKeepsState and SettingsSurviveReload state it |
| Store.SettingsSurviveReload | src/lib/store.tsx:130-138 | a settings record carrying saved values hydrates to exactly those settings |
| Store.SaveSettings | src/lib/store.tsx:186-196 | once hydrated, the store then holds the four current settings, other keys and the sessions unchanged; before hydration nothing is written |
| Store.LoadFromStorage | src/lib/store.tsx:125-128 | loads the newest-first listing and the settings record, or stays pending without `window` |
| Store.SaveThenReload | src/lib/store.tsx:122-196 | settings written after hydration come back unchanged on the next load |
| Store.StoredSettingsReadBack | src/services/storage.ts:71-80 | a record read from a store holding the settings carries the four values |
| Store.CurrentSession | src/lib/store.tsx:212-214 | the session saved is the one the truthy current id names |
| Store.Changes | src/lib/store.tsx:209-223 | one change event per state |
| Store.BurstLeavesOneTimer | src/lib/store.tsx:209-223 | after a burst of changes the single slot holds only the last state's session, and nothing has been saved |
| Store.RunEventsAppend | src/lib/store.tsx:199-235 | running two runs of events is running them in turn |
| Store.BurstSavesOnce | src/lib/store.tsx:209-223 | a burst of changes followed by the timer saves exactly one session, the last state's |
| Store.NoTimerBeforeHydration | src/lib/store.tsx:210 | before hydration, changes schedule nothing |
| Store.HiddenSavesNow | src/lib/store.tsx:226-235 | hiding the page cancels the timer and saves the current session at once, and the timer then saves nothing more |
| Store.OnSaveEvent | src/lib/store.tsx:199-235 | one step of the session write-back; BurstLeavesOneTimer, BurstSavesOnce, NoTimerBeforeHydration and HiddenSavesNow state its behaviour |
| Store.RunEvents | src/lib/store.tsx:199-235 | a run of write-back events in order; RunEventsAppend states how runs compose |
| Store.SessionWriteBack.constructor | src/lib/store.tsx:118-199 | starts not hydrated, with no timer and nothing saved |
| Store.SessionWriteBack.MarkHydrated | src/lib/store.tsx:141-142 | marks hydration done, as the event model says |
| Store.SessionWriteBack.OnSessionsChanged | src/lib/store.tsx:209-223 | replaces the one pending timer, never queues a second |
| Store.SessionWriteBack.OnTimer | src/lib/store.tsx:217-220 | saves the snapshot and empties the slot |
| Store.SessionWriteBack.OnPageHidden | src/lib/store.tsx:226-232 | cancels the timer and saves the current session now |
| ChatArea.AttachmentFor | src/components/ChatArea.tsx:49-55 | an attachment is an image exactly when the MIME type starts with "image"; its data is empty; id, name and type are the file's |
| ChatArea.AttachmentsFor | src/components/ChatArea.tsx:49-55 | one attachment per picked file, in order |
| ChatArea.History | src/components/ChatArea.tsx:99 | the last ten messages, or all when there are fewer |
| ChatArea.UpdateActions | src/components/ChatArea.tsx:108-115 | one UPDATE_MESSAGE per callback argument, in order, all to the same message |
| ChatArea.HasApiKey | src/components/ChatArea.tsx:73-74 | a non-empty key is stored for the default provider; MissingKeyOpensSettings and StreamStartsWithPlaceholder state both outcomes |
| ChatArea.StartSend | src/components/ChatArea.tsx:37-100 | the first half of `handleSend`; NoSessionNoDispatch, UserMessageFirst, OfflineAnswersAtOnce, MissingKeyOpensSettings and StreamStartsWithPlaceholder state its branches |
| ChatArea.ErrorContent | src/components/ChatArea.tsx:118-126 | the placeholder text after a failure; FinishTargetsPlaceholder states it |
| ChatArea.FinishActions | src/components/ChatArea.tsx:104-126 | the second half of `handleSend`; FinishTargetsPlaceholder and StreamedReplyLands state it |
| ChatArea.NoSessionNoDispatch | src/components/ChatArea.tsx:38-41 | with no current id, or one naming no session, nothing is dispatched and no stream starts |
| ChatArea.UserMessageFirst | src/components/ChatArea.tsx:44-57 | the first action records the user's message unchanged, with one attachment record per file |
| ChatArea.OfflineAnswersAtOnce | src/components/ChatArea.tsx:60-70 | offline, exactly one more ADD_MESSAGE (an assistant notice labelled `system`) follows, and no stream starts |
| ChatArea.OfflineSessionGrowsByTwo | src/components/ChatArea.tsx:57-70 | offline, the current session grows by exactly two messages |
| ChatArea.MissingKeyOpensSettings | src/components/ChatArea.tsx:73-77 | without a key for the default provider, a single TOGGLE_SETTINGS follows the user message, flipping the settings panel (open when it was closed), and there is no placeholder or stream |
| ChatArea.StreamStartsWithPlaceholder | src/components/ChatArea.tsx:79-117 | an empty placeholder labelled with the default model follows, and the stream is asked, with the default model configuration and its provider's key, for the last ten earlier messages plus the user's, at most eleven |
| ChatArea.FinishTargetsPlaceholder | src/components/ChatArea.tsx:104-126 | every later action writes into the placeholder; an AbortError adds nothing; any other error adds `**Error**: ` and the message or the fixed text |
| ChatArea.UpdateOverrides | src/components/ChatArea.tsx:108-115 | a later update of the same message overrides an earlier one |
| ChatArea.UpdatesLeaveLast | src/components/ChatArea.tsx:108-115 | a run of updates leaves what the last one wrote |
| ChatArea.ReplyLandsAfterDispatch | src/components/ChatArea.tsx:80-115 | after the user's message and the placeholder are added, a run of updates leaves the session with both, the placeholder holding the last update |
| ChatArea.ReplyReplacesPlaceholder | src/lib/store.tsx:78-91 | when only the placeholder carries the reply id, updating that id rewrites the placeholder's text and nothing else |
| ChatArea.StreamedReplyLands | src/components/ChatArea.tsx:57-117 | a successful stream leaves the session with the user's message and then the placeholder holding the full streamed text |
| ChatArea.ChatView.constructor | src/components/ChatArea.tsx:29-35 | starts with no controller and not generating |
| ChatArea.ChatView.DispatchAll | src/components/ChatArea.tsx:57-126 | dispatching each action in turn reduces by all of them in order |
| ChatArea.ChatView.StopGeneration | src/components/ChatArea.tsx:29-35 | aborts and forgets the running controller, if any, and clears the generating flag |
| ChatArea.ChatView.BeginSend | src/components/ChatArea.tsx:37-96 | dispatches the chosen actions; when a stream starts, aborts the previous controller and installs a new one |
| ChatArea.ChatView.InstallController | src/components/ChatArea.tsx:92-96 | aborts the previous controller, if any, and makes a new one current |
| ChatArea.ChatView.FinishSend | src/components/ChatArea.tsx:104-131 | dispatches the updates and error text; clears the controller only if it is still this call's |
| InputArea.TrimStart | src/components/InputArea.tsx:27 | what is left is a suffix that does not start with white space |
| InputArea.TrimEnd | src/components/InputArea.tsx:27 | what is left is a prefix that does not end with white space |
| InputArea.TrimEmptyIffBlank | src/components/InputArea.tsx:27 | the trimmed input is empty exactly when every character is white space |
| InputArea.BlankInputBlocked | src/components/InputArea.tsx:27 | blank text with no file cannot be sent, and the send button is disabled by the same condition; one non-blank character or any non-empty list of files unblocks it |
| InputArea.Trim | src/components/InputArea.tsx:27 | `trim()`; TrimEmptyIffBlank states when it yields "" |
| InputArea.SendBlocked | src/components/InputArea.tsx:27 | the send guard and the button's disabled condition; BlankInputBlocked states it |
| InputArea.WithoutIndex | src/components/InputArea.tsx:47-49 | removes exactly the element at the index and keeps the others in order; an index out of range removes nothing |
| InputArea.RemoveShifts | src/components/InputArea.tsx:47-49 | earlier files stay in place and later ones shift down by one |
| InputArea.Composer.constructor | src/components/InputArea.tsx:13-14 | starts with empty input and no files |
| InputArea.Composer.Type | src/components/InputArea.tsx:75 | typing replaces the input |
| InputArea.Composer.HandleSend | src/components/InputArea.tsx:26-32 | unless blocked, hands on the untrimmed input and the files, then clears both; when blocked, changes nothing |
| InputArea.Composer.HandleKeyDown | src/components/InputArea.tsx:34-39 | Enter without Shift takes the send path; any other key changes nothing |
| InputArea.Composer.HandleFileSelect | src/components/InputArea.tsx:41-45 | the newly picked files go after the existing ones |
| InputArea.Composer.RemoveAttachment | src/components/InputArea.tsx:47-49 | drops the file at that index, keeping the others in order |
| MobileNavigation.HashSync | src/hooks/useMobileNavigation.ts:21-45 | pushes `#settings` exactly when settings are open and it is not current; pushes `#chat` exactly on mobile with a current session, a closed sidebar and settings closed; replaces only to leave `#settings` or `#chat` |
| MobileNavigation.PopState | src/hooks/useMobileNavigation.ts:48-70 | Back dispatches at most one action, and nothing exactly when settings are not open away from `#settings` and the mobile chat is not shown away from `#chat` |
| MobileNavigation.HashAfter | src/hooks/useMobileNavigation.ts:26-43 | the hash once a history effect has run; BrowserHistory.Apply is proved to leave it, and SyncSettles states that a second sync after it does nothing |
| MobileNavigation.SettingsFirst | src/hooks/useMobileNavigation.ts:26-29 | while settings are open, the effect is a push of `#settings` unless it is current |
| MobileNavigation.RootOnlyReplaces | src/hooks/useMobileNavigation.ts:38-43 | otherwise the hash is replaced, never pushed, exactly when it is `#settings` or a mobile `#chat`, and nothing happens else |
| MobileNavigation.SyncSettles | src/hooks/useMobileNavigation.ts:27-34 | re-running the sync after its own effect, with the state unchanged, does nothing |
| MobileNavigation.BackClosesSettings | src/hooks/useMobileNavigation.ts:53-56 | Back with settings open and the hash not `#settings` dispatches exactly TOGGLE_SETTINGS, which closes them and changes nothing else |
| MobileNavigation.BackShowsSidebar | src/hooks/useMobileNavigation.ts:59-65 | on mobile, Back away from `#chat` with the sidebar closed opens the sidebar and changes nothing else |
| MobileNavigation.BrowserHistory.constructor | src/hooks/useMobileNavigation.ts:21-45 | a history with one entry, the current hash |
| MobileNavigation.BrowserHistory.Apply | src/hooks/useMobileNavigation.ts:26-43 | a push drops forward entries and appends the hash; a replace rewrites the current entry to no hash |
| MobileNavigation.BrowserHistory.Back | src/hooks/useMobileNavigation.ts:48-50 | moves to the previous entry, if there is one |
| MobileNavigation.OpenSettingsThenBack | src/hooks/useMobileNavigation.ts:26-56 | opening settings and then pressing Back returns to the same history position and hash, with the state as before |

## Left out

- MobileNavigation.BrowserHistory.Back: Back at the first entry leaves the page in a browser; the model stays at that entry, since leaving the page ends everything this model describes.
- HTTP headers, the request's JSON serialisation and the response's wire form. Requests are records. `fetch` is a parameter.
- `TextDecoder`: chunks arrive as already-decoded text, so a multi-byte character split across chunks is not modelled.
- `JSON.parse` is a parameter returning `None` for text that does not parse. Parsed values are a small JSON datatype.
- Non-string values in JSON fields: a token or an error message that is a number, or an object, is treated as falsy.
- Reader errors in the middle of a stream, and errors raised after some tokens were reported, are not represented. A stream either fails before its first token or yields all its tokens.
- Adapter requests carry no `signal`: aborting is modelled only as the check in `streamChat`'s loop.
- The DeepSeek adapter's file is not part of this model. It is a registry entry whose outcome is a parameter.
- `temperature` is an opaque real. Nothing is computed with it.
- IndexedDB opening, upgrade callbacks and the `by-date` index are not modelled. The stores are their contents.
- The relative order in which two different promises settle is not modelled.
- String-key order is modelled over Dafny characters, not UTF-16 code units. The two differ only for characters outside the Basic Multilingual Plane.
- The settings store's key order is not modelled. `getAllSettings` builds a record, so order does not matter.
- `saveSetting` accepts only the four setting shapes the client writes. A stored value of another shape is not modelled; hydration falls back to the defaults.
- Store.SessionWriteBack: timers, `async` saves and effect scheduling are events applied in order. A save is logged, not written to `Storage`, and interleaving with other effects is not modelled.
- Theme application through `matchMedia` and DOM attributes, the wake lock and `beforeunload` are browser side effects.
- Every `Date.now()` reading within one send is the same `now` parameter. uuids are parameters.
- Sidebar, SettingsModal and ModelSelector are not modelled. Their handlers only compose the reducer, storage and catalog operations modelled here.
- React rendering, scrolling and the online/offline listeners are not modelled. Whether the browser is online is a parameter.
