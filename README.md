# A verified model of the streaming chat front-end

This project models the decision-making core of a retrieval-augmented chat front-end, and proves properties of that model.

**The chat pipeline**
- The server streams *display events* over a hand-rolled `text/event-stream` reader. A display event is a typed fragment of agent output with a stage, a format, content and a delta flag.
- The page buffers those events and flushes them once per animation frame.
- Each flush folds the events through a pure *display reducer* into the last agent message.
- A completion sentinel settles the turn.
- The message view then picks which of the four panels (searching, thinking, output, status) to show.

**The smaller decision rules around it**
- How document indexing states map to the UI.
- The active-tenant switch: optimistic, with revert-or-clear on failure, and automatic synchronisation at most once per tenant list.
- The profile page's error-message, date, role-label, avatar-size and response-classification rules.

## Modules

One Dafny module per source file, plus two shared modules:

| file | module | models |
|---|---|---|
| `base.dfy` | `Base` | `Option`/`Result`; the JavaScript string operations used (`startsWith`, `indexOf`, `trim` with ECMAScript's white-space set, `toLowerCase`) |
| `js_value.dfy` | `Js` | JSON/JavaScript values, property access, truthiness, `??`, `\|\|`, the `{code, data, message}` response envelope |
| `display_event.dfy` | `DisplayEvent` | the event type, `isDisplayEvent`, `parseDisplayEvent`, `dispatchDisplayEvent` |
| `display_state.dfy` | `DisplayState` | panels, `createInitialDisplayState`, `displayReducer`, folding a batch of events |
| `chat_api.dfy` | `ChatApi` | `clampLimit`, `unwrapResponse`, and the event-stream reader inside `streamChat` (class `SseStream`) |
| `chat_page.dfy` | `ChatPage` | the record normalisers, `bumpSession`, and the stream orchestrator of the chat page (class `ChatOrchestrator`) |
| `chat_message.dfy` | `ChatMessage` | panel selection, renderer choice, stage labels, the message body |
| `upload_api.dfy` | `UploadApi` | `statusMap`, `mapDocumentStatus`, `normalizeDocuments` |
| `tenant_context.dfy` | `TenantContext` | the tenant provider's state (class `TenantProvider`) and its pure helpers |
| `profile_page.dfy` | `ProfilePage` | `getApiErrorMessage`, `formatDate`, the role label, the 2 MiB guard, `requestJson`'s classification |

## How the model is built

**Pure code becomes functions and lemmas.** The stateful parts become classes whose fields are the component's state, refs included:
- `SseStream`: the reader's buffer, pending frame, abort flag and callback log.
- `ChatOrchestrator`: the page's messages, sessions, pending buffer, scheduled frame and in-flight flags.
- `TenantProvider`: the tenant state and the attempted-set.

**Each state-changing method is proved against a specification function.** The method's postcondition is `State() == XSpec(old(State()), …)`. The properties are then proved about `XSpec` as lemmas.

**The stream's callbacks are a log.** Each call to `onEvent`, `onComplete` or `onError` is appended to a log, in call order. The stream's text arrives as decoded chunks, passed to `Feed`. The end of the body is `Finish`, a failed read is `Fail`, and `close()` is `Close`.

**The frame decoder is a parameter.** The lemmas about the reader hold for any decoder `decode: string -> Option<DisplayEvent>`. The stream itself uses `Decoder(parse)`, which is `JSON.parse` followed by `parseDisplayEvent`. `DecoderReadsWireShape` and `EventStreamRoundTrip` connect the general lemmas to that decoder.

**Host functions are oracles.** These are parameters of the model:
- `JSON.parse` (`None` when it throws);
- `JSON.stringify`;
- `String(x)`;
- `Number(raw)` restricted to finite results;
- the clock formatting.

**Requests become inputs.** Animation frames are an explicit `scheduledFor` field and a `RunScheduled` method. The requests the page makes are recorded as effects, and their results arrive as method inputs.

## Model

| member | source | states |
|---|---|---|
| DisplayEvent.StageOf | src/features/chat/displayEvent.ts:13 | a name is in the stage set exactly when some stage has that name, and it maps to that stage |
| DisplayEvent.FormatOf | src/features/chat/displayEvent.ts:14 | a name is in the format set exactly when some format has that name, and it maps to that format |
| DisplayEvent.IsDisplayEvent | src/features/chat/displayEvent.ts:16-25 | false for every non-object; true exactly when `type` is "display", stage and format are in their sets, `content` is a string and `delta` a boolean |
| DisplayEvent.WireShapeRoundTrip | src/features/chat/displayEvent.ts:5-25 | the wire shape of every event is accepted and reads back as the same event |
| DisplayEvent.AcceptedValueIsItsEvent | src/features/chat/displayEvent.ts:39-40 | an accepted value agrees with the event read from it on all five protocol fields |
| DisplayEvent.ParseDisplayEvent | src/features/chat/displayEvent.ts:27-41 | every string payload goes through `JSON.parse`, and text it rejects yields null, not an error; a non-string payload is validated as it is; the result is non-null exactly when the parsed value validates, and then agrees with it on the five fields |
| DisplayEvent.ParseOfWireShape | src/features/chat/displayEvent.ts:27-41 | the JSON text of an event, and the event value itself, both parse back to that event |
| DisplayEvent.Dispatch | src/features/chat/displayEvent.ts:50-66 | `any` is called exactly when registered, and then first; the stageFormat handler is called exactly when registered; the stage handler exactly when registered and no stageFormat handler is; the format handler exactly when registered and neither stronger one is; nothing else is called |
| DisplayEvent.AnyHandlerPrepends | src/features/chat/displayEvent.ts:50-51 | registering `any` only puts its call in front of the calls made without it |
| DisplayEvent.StageFormatHandlerShadows | src/features/chat/displayEvent.ts:53-57 | with a handler for the event's stage and format, the stage and format handlers are never reached: only `any` and that handler run |
| DisplayState.Panels.Set | src/features/chat/displayState.ts:56-61 | the written panel holds the new value and every other panel is unchanged |
| DisplayState.InitialState | src/features/chat/displayState.ts:13-21 | stage `status`; all four panels empty; output in format `text`, the others in `status` |
| DisplayState.Reduce | src/features/chat/displayState.ts:30-65 | reset gives the initial state; an event sets the stage; panels other than the target are unchanged; an output/status ping leaves the output panel alone and appends to or replaces the status panel; otherwise the target panel takes the event's format and appends exactly when the event is a delta in the panel's current format |
| DisplayState.ReduceAllConcat | src/features/chat/ChatPage.tsx:270-273 | folding a batch equals folding its two halves in turn |
| DisplayState.ReduceAllSnoc | src/features/chat/ChatPage.tsx:270-273 | folding one more event is one more reducer step |
| DisplayState.ReduceAllLeavesOtherPanels | src/features/chat/displayState.ts:42-61 | a panel that no event of a batch writes is unchanged by the batch |
| DisplayState.ReduceAllStage | src/features/chat/displayState.ts:42-61 | after a non-empty batch the stage is the last event's stage; an empty batch changes nothing |
| DisplayState.ReduceAllAccumulatesDeltas | src/features/chat/displayState.ts:50-55 | deltas into one panel in its current format accumulate: old content followed by all fragments in order |
| DisplayState.ReplacementForgetsHistory | src/features/chat/displayState.ts:36-55 | after a non-delta event its panel holds exactly that event's content, whatever came before |
| DisplayState.CompletionScenario | src/features/chat/displayState.ts:30-65 | "Hel", "lo" and the completion sentinel leave "Hello" in the output panel and the sentinel text in the status panel |
| ChatApi.ClampLimit | src/features/chat/chatApi.ts:50 | the result is in [1, 50]; the default is 10; the identity inside the range, clamped outside it |
| ChatApi.UnwrapResponse | src/features/chat/chatApi.ts:52-57 | rejects exactly when the code is present and non-zero, with the server message or else the fallback; otherwise yields `data` |
| ChatApi.CrToLf | src/features/chat/chatApi.ts:194 | every CR becomes LF and nothing else changes |
| ChatApi.Normalize | src/features/chat/chatApi.ts:194 | no CR remains after normalisation, and CR-free text is unchanged |
| ChatApi.SplitLines | src/features/chat/chatApi.ts:196-201 | the remainder left in the buffer holds no LF |
| ChatApi.SplitLinesReassembles | src/features/chat/chatApi.ts:196-201 | the lines, each given back its LF, followed by the remainder, are the input |
| ChatApi.SplitLinesAppend | src/features/chat/chatApi.ts:196-201 | splitting `s + t` splits `s`, then carries its remainder into `t` |
| ChatApi.SplitLinesOfPrefix | src/features/chat/chatApi.ts:196-201 | the complete lines of a prefix are a prefix of the complete lines |
| ChatApi.JoinLines | src/features/chat/chatApi.ts:164 | no lines join to "", and one line joins to itself |
| ChatApi.JoinLinesTerminated | src/features/chat/chatApi.ts:164 | for one line or more, the join followed by one LF is the lines, each terminated by LF |
| ChatApi.JoinSplitRoundTrip | src/features/chat/chatApi.ts:164 | joining LF-free data lines loses nothing: splitting the joined text at LF gives the same lines back |
| ChatApi.Decide | src/features/chat/chatApi.ts:162-186 | an empty frame does nothing; a type other than display or none never emits, and completes exactly for end/done; an event is emitted exactly when a display or untyped frame's data is not `[DONE]` and decodes, and it is the decoded event; such a frame whose data does not decode is dropped |
| ChatApi.CompletingFrames | src/features/chat/chatApi.ts:163-180 | a frame completes the stream exactly when its type is end or done, or when it is a display or untyped frame whose data is `[DONE]` |
| ChatApi.DecoderReadsWireShape | src/features/chat/chatApi.ts:182 | the stream's decoder reads the JSON text of an event back as that event, and drops text `JSON.parse` rejects |
| ChatApi.EventTypeCaseInsensitive | src/features/chat/chatApi.ts:163 | the decision does not depend on the case of the event type |
| ChatApi.DispatchFrame | src/features/chat/chatApi.ts:162-186 | the frame is always cleared; the log gains exactly the callback of `Decide`'s action: nothing, the decoded event, or `onComplete`; the abort flag is raised exactly by a completion and never lowered |
| ChatApi.DataValue | src/features/chat/chatApi.ts:214-215 | the value is the text after `data:` minus exactly one leading space when there is one |
| ChatApi.HandleLine | src/features/chat/chatApi.ts:202-216 | a blank line dispatches the pending frame; only a blank line can call back or abort; `event:` sets the trimmed type; `data:` appends its value; every other line changes nothing |
| ChatApi.HandleLinesConcat | src/features/chat/chatApi.ts:196-217 | handling two batches of lines in turn is handling them together |
| ChatApi.HandleLinesWithoutBlank | src/features/chat/chatApi.ts:202-216 | without a blank line there is no callback and no abort |
| ChatApi.HandleLinesExtendsLog | src/features/chat/chatApi.ts:196-217 | the callback log only grows, and the abort flag is never lowered |
| ChatApi.RespondSpec | src/features/chat/chatApi.ts:140-154 | reading starts exactly when not aborted, OK and with a body, and then nothing else changes; a bad status calls `onError` with the status; a missing body calls `onError` with that error; an abort before the response calls nothing; never `onComplete` |
| ChatApi.FeedSpec | src/features/chat/chatApi.ts:188-217 | after an abort the reader stops silently; otherwise it keeps reading, the log only grows, and the buffer holds neither LF nor CR |
| ChatApi.FinishSpec | src/features/chat/chatApi.ts:220-244 | the reader ends, whatever the abort flag; the log keeps what it had, gains at least one callback, and ends with `onComplete`; nothing is left pending; with no remainder it is exactly the final dispatch of the pending frame followed by `onComplete` |
| ChatApi.PendingFrameAtEndOfBody | src/features/chat/chatApi.ts:243-244 | a data frame still pending at end of body, without its blank line, is delivered by the final dispatch: `onEvent` with the decoded event, then `onComplete` |
| ChatApi.GuardedFinishSpec | src/features/chat/chatApi.ts:220-244 | the intended end of body: once aborted nothing changes; otherwise the end of body as the code has it |
| ChatApi.FailSpec | src/features/chat/chatApi.ts:245-247 | a failure calls `onError` once unless aborted (AbortError swallowed), and never `onComplete` |
| ChatApi.ChunkIndependence | src/features/chat/chatApi.ts:188-217 | for CR-free input, feeding two chunks in turn equals feeding their concatenation, unless the first chunk completed the stream |
| ChatApi.CrLfSplitAcrossChunks | src/features/chat/chatApi.ts:193-194 | `data: [DONE]` ended by CR LF completes when CR and LF arrive in separate chunks, and not when they arrive together |
| ChatApi.ControlWordsEndAndDone | src/features/chat/chatApi.ts:171 | "end" and "done" are completing control words |
| ChatApi.ControlFrame | src/features/chat/chatApi.ts:170-173 | a pending end/done frame without data completes and aborts |
| ChatApi.DataFrame | src/features/chat/chatApi.ts:177-185 | a display or untyped frame with one data line emits its decoded event, or nothing when it does not decode |
| ChatApi.CompletionIsNotExclusive | src/features/chat/chatApi.ts:134-137 | two control frames in one chunk both call `onComplete`; the abort only stops the next read |
| ChatApi.TailCompletionCompletesTwice | src/features/chat/chatApi.ts:220-244 | an unterminated control line left at end of body completes in the tail pass, then `onComplete` is called again |
| ChatApi.ClosedStreamIsSilent | src/features/chat/chatApi.ts:253-255 | after `close()`, no later chunk read and no failed read calls back, and reading stops |
| ChatApi.EndOfBodyAfterCloseCompletes | src/features/chat/chatApi.ts:220-244 | after `close()`, a read that reports the end of the body still calls `onComplete` |
| ChatApi.CompletionThenEndOfBody | src/features/chat/chatApi.ts:188-244 | a chunk whose last frame is `event: end` or `event: done`, then the end of the body, call `onComplete` twice |
| ChatApi.GuardedClosedStreamIsSilent | src/features/chat/chatApi.ts:253-255 | with the intended end of body, once closed no chunk read, end of body or failure calls back |
| ChatApi.GuardedCompletionCompletesOnce | src/features/chat/chatApi.ts:188-244 | with the intended end of body, a completing last frame followed by the end of the body calls `onComplete` once |
| ChatApi.FinishAsIfNewlineTerminated | src/features/chat/chatApi.ts:220-244 | at end of body a non-empty remainder is handled as if one more chunk "\n" had arrived, then dispatched, then completed |
| ChatApi.MalformedFrameIsDropped | src/features/chat/chatApi.ts:182-185 | a frame that does not decode is dropped silently, and the next well-formed frame is still emitted once |
| ChatApi.DisplayFrameAnySplit | src/features/chat/chatApi.ts:188-217 | a display frame split into two chunks at any position yields exactly one `onEvent` with its event |
| ChatApi.EventStreamRoundTrip | src/features/chat/chatApi.ts:182-217 | with the stream's own decoder, the JSON text of an event sent as a display frame and split anywhere arrives as that event, once |
| ChatApi.SseStream.constructor | src/features/chat/chatApi.ts:131-160 | a new stream awaits the response with an empty buffer, no pending frame and no callbacks |
| ChatApi.SseStream.Close | src/features/chat/chatApi.ts:253-255 | `close()` only raises the abort flag |
| ChatApi.SseStream.Respond | src/features/chat/chatApi.ts:140-154 | the response step is `RespondSpec` |
| ChatApi.SseStream.CompleteAndAbort | src/features/chat/chatApi.ts:134-137 | `onComplete` is logged, then the flag is aborted |
| ChatApi.SseStream.DispatchCurrentEvent | src/features/chat/chatApi.ts:162-186 | the state after dispatch is `DispatchFrame` with the stream's decoder |
| ChatApi.SseStream.ProcessLine | src/features/chat/chatApi.ts:202-216 | the state after one line is `HandleLine` |
| ChatApi.SseStream.DrainLines | src/features/chat/chatApi.ts:196-217 | the line loop handles every complete line of the buffer in order and keeps the remainder (`DrainSpec`) |
| ChatApi.SseStream.Feed | src/features/chat/chatApi.ts:188-217 | a chunk step is `FeedSpec` |
| ChatApi.SseStream.Finish | src/features/chat/chatApi.ts:220-244 | the end of body is `FinishSpec`, as the code has it |
| ChatApi.SseStream.Fail | src/features/chat/chatApi.ts:245-247 | a failure is `FailSpec` |
| ChatPage.FirstPresent | src/features/chat/ChatPage.tsx:66 | `a ?? b ?? …`: the first value that is neither null nor undefined, else the last |
| ChatPage.SourceOf | src/features/chat/ChatPage.tsx:59-71 | falsy items, numbers and booleans are dropped; a string is a title; an object is kept exactly when its first present title field is truthy, and keeps `href`/`url` only when it is a string |
| ChatPage.KeptSourcesAppend | src/features/chat/ChatPage.tsx:58-73 | mapping and filtering distribute over concatenation |
| ChatPage.KeptSources | src/features/chat/ChatPage.tsx:58-73 | no more sources than items; none exactly when every item is dropped |
| ChatPage.TitlesKept | src/features/chat/ChatPage.tsx:61-63 | a list of non-empty strings is kept whole, each as a title without a link |
| ChatPage.NormalizeSources | src/features/chat/ChatPage.tsx:56-75 | undefined for a non-array and for an array from which nothing is kept; otherwise the kept sources, in order |
| ChatPage.FirstStringIndex | src/features/chat/ChatPage.tsx:78-83 | the index of the first string field, or -1 when there is none |
| ChatPage.RoleWord | src/features/chat/ChatPage.tsx:78-86 | a string `role` field decides the role word, lower-cased |
| ChatPage.ResolveRole | src/features/chat/ChatPage.tsx:77-94 | user words make a user message and agent words an agent message; otherwise `isUser === true` decides, and the default is agent |
| ChatPage.ResolveContent | src/features/chat/ChatPage.tsx:96-110 | the first present of the five content fields: a string as it is, nothing as "", anything else serialised; `content` wins when it is a string, then `message` |
| ChatPage.ResolveTimestamp | src/features/chat/ChatPage.tsx:112-119 | absent exactly when all four time fields are absent; `messageAt` wins when present |
| ChatPage.ResolveMessageId | src/features/chat/ChatPage.tsx:121-125 | the first present of the four id fields, every earlier one being nullish; absent exactly when all are, and then the last one's value |
| ChatPage.MapMessageRecord | src/features/chat/ChatPage.tsx:127-135 | a server record becomes a settled message without a display, with the resolved role and content |
| ChatPage.MapRecords | src/features/chat/ChatPage.tsx:303 | records map one to one, in order |
| ChatPage.FindSessionIndex | src/features/chat/ChatPage.tsx:240 | the index of the first session with the id, or -1 when there is none |
| ChatPage.Bumped | src/features/chat/ChatPage.tsx:237-250 | the matching session moves to the front, restamped; the others keep their order; an unknown id leaves the list as it is |
| ChatPage.BumpedKeepsIds | src/features/chat/ChatPage.tsx:237-250 | a bump is a permutation of the chat ids |
| ChatPage.BumpedToFront | src/features/chat/ChatPage.tsx:237-250 | after a bump the session is found at the front with the new time |
| ChatPage.BumpAtFront | src/features/chat/ChatPage.tsx:237-250 | bumping the front session only restamps it |
| ChatPage.BumpTwice | src/features/chat/ChatPage.tsx:237-250 | two bumps of the same session are one bump with the later time |
| ChatPage.FoldEvents | src/features/chat/ChatPage.tsx:270-273 | the event loop folds the buffer through the reducer in FIFO order |
| ChatPage.Flushed | src/features/chat/ChatPage.tsx:269-281 | the message's display is folded forward from its own display or the initial state; its content is the active panel's; it streams exactly when not finalising; only finalising restamps it; no other field changes |
| ChatPage.FlushMessages | src/features/chat/ChatPage.tsx:262-283 | only the last message changes, and only when it is an agent message |
| ChatPage.FlushBatchesCompose | src/features/chat/ChatPage.tsx:252-290 | flushing a buffer over two frames leaves the messages as one flush of the whole buffer |
| ChatPage.CloseSpec | src/features/chat/ChatPage.tsx:216-225 | closing drops the buffer, cancels the frame, stops streaming and closes an open stream; nothing else changes |
| ChatPage.FlushSpec | src/features/chat/ChatPage.tsx:252-290 | every flush empties the buffer; an inactive conversation's messages stay as they are; an empty buffer without finalisation changes nothing; otherwise the buffer is folded into the last agent message |
| ChatPage.HydrationStartSpec | src/features/chat/ChatPage.tsx:294-295 | a hydration is skipped while one is in flight, otherwise it is marked in flight and requested |
| ChatPage.LastIndexOf | src/features/chat/ChatPage.tsx:310-315 | the index of the last message with the role, or -1 |
| ChatPage.LastAgentIndex | src/features/chat/ChatPage.tsx:310-315 | the backward loop finds the last agent message |
| ChatPage.HydrateMessages | src/features/chat/ChatPage.tsx:304-329 | for the active conversation, the last local agent message becomes the server's last agent message, settled and without a display; without local agent messages the fetched page is taken; otherwise nothing changes |
| ChatPage.HydrationEndSpec | src/features/chat/ChatPage.tsx:292-337 | hydration always ends; a failure or a conversation that is no longer active leaves the messages as they are |
| ChatPage.OnEventSpec | src/features/chat/ChatPage.tsx:578-603 | events of an inactive conversation are ignored; the sentinel flushes with finalisation, closes the stream and asks for hydration; any other event is buffered, and a frame is scheduled only when none is |
| ChatPage.RunScheduledSpec | src/features/chat/ChatPage.tsx:599-602 | a scheduled frame clears its handle and flushes without finalising |
| ChatPage.StreamEndSpec | src/features/chat/ChatPage.tsx:604-627 | completion and error stop streaming, cancel the frame and finalise the flush; the fallback is requested exactly on error or when no display event arrived; whether one arrived and the active chat are unchanged |
| ChatPage.RepeatedCompletionFallsBackTwice | src/features/chat/ChatPage.tsx:604-616 | a turn without display events whose stream completes twice asks for the one-shot answer twice |
| ChatPage.SendSpec | src/features/chat/ChatPage.tsx:539-575 | when chatting is impossible the messages and the stream stay as they are; a blank message does nothing; with a ready session the user message and a streaming placeholder are appended, the buffer is reset, the session is bumped and a stream is open; a failed session keeps the draft |
| ChatPage.SelectSpec | src/features/chat/ChatPage.tsx:493-504 | selecting another conversation closes the stream and clears the messages; selecting the same one or none changes nothing |
| ChatPage.FallbackSpec | src/features/chat/ChatPage.tsx:506-537 | the one-shot answer, pretty-printed when not a string, settles the last message when it is the agent's and leaves any other last message alone; the session is bumped; nothing else on the page changes; a failure only adds a notice |
| ChatPage.SettleLastAgent | src/features/chat/ChatPage.tsx:519-533 | the last message, when it is the agent's, takes the final text without a display and stops streaming; nothing else changes |
| ChatPage.SentinelSettlesTurn | src/features/chat/ChatPage.tsx:578-597 | after streamed events and the sentinel, the agent message holds all of them folded, no longer streams, the stream is closed and hydration is requested |
| ChatPage.RunEventsBuffers | src/features/chat/ChatPage.tsx:578-602 | until a frame fires, events only accumulate in the buffer in order, and one frame is scheduled |
| ChatPage.ChatOrchestrator.constructor | src/features/chat/ChatPage.tsx:167-195 | a fresh page has no conversation, nothing buffered or scheduled |
| ChatPage.ChatOrchestrator.CloseStream | src/features/chat/ChatPage.tsx:216-225 | closing is `CloseSpec` |
| ChatPage.ChatOrchestrator.BumpSession | src/features/chat/ChatPage.tsx:237-250 | the session list becomes `Bumped`, nothing else changes |
| ChatPage.ChatOrchestrator.Flush | src/features/chat/ChatPage.tsx:252-290 | a flush is `FlushSpec` |
| ChatPage.ChatOrchestrator.StartHydration | src/features/chat/ChatPage.tsx:294-295 | the start of hydration is `HydrationStartSpec` |
| ChatPage.ChatOrchestrator.EndHydration | src/features/chat/ChatPage.tsx:302-334 | the end of hydration is `HydrationEndSpec` |
| ChatPage.ChatOrchestrator.MergeHydrated | src/features/chat/ChatPage.tsx:307-329 | the messages become `HydrateMessages` against the conversation active now |
| ChatPage.ChatOrchestrator.OnEvent | src/features/chat/ChatPage.tsx:578-603 | an event is `OnEventSpec` |
| ChatPage.ChatOrchestrator.RunScheduled | src/features/chat/ChatPage.tsx:599-602 | a frame is `RunScheduledSpec` |
| ChatPage.ChatOrchestrator.OnComplete | src/features/chat/ChatPage.tsx:604-616 | completion is `StreamEndSpec` without failure |
| ChatPage.ChatOrchestrator.OnError | src/features/chat/ChatPage.tsx:617-627 | an error is `StreamEndSpec` with failure |
| ChatPage.ChatOrchestrator.Send | src/features/chat/ChatPage.tsx:539-575 | sending is `SendSpec` |
| ChatPage.ChatOrchestrator.SelectSession | src/features/chat/ChatPage.tsx:493-504 | selecting is `SelectSpec` |
| ChatPage.ChatOrchestrator.ApplyFallback | src/features/chat/ChatPage.tsx:506-537 | the settled fallback is `FallbackSpec` |
| ChatPage.ChatOrchestrator.SettleLastMessage | src/features/chat/ChatPage.tsx:519-533 | the messages become `SettleLastAgent`, nothing else changes |
| ChatMessage.RenderByFormat | src/components/ChatMessage.tsx:47-61 | markdown to the markdown renderer, code to a code block, text and status to a plain text block |
| ChatMessage.ShownStageLabel | src/components/ChatMessage.tsx:122-124 | a caption exactly for searching and thinking, with their labels |
| ChatMessage.SelectPanel | src/components/ChatMessage.tsx:73-83 | nothing without a display; on output the output panel when it has content, else a non-empty status panel, else the empty output panel; on other stages that stage's panel |
| ChatMessage.MessageBody | src/components/ChatMessage.tsx:120-137 | an agent message with a display shows its selected panel under its stage label, with a placeholder when empty; a streaming agent message without one shows its text or the placeholder; every other message, a settled agent answer included, is its content as markdown |
| ChatMessage.StatusPingShownBeforeOutput | src/components/ChatMessage.tsx:73-83 | a status ping is shown as plain text while the output panel is empty |
| ChatMessage.StatusPingHiddenAfterOutput | src/components/ChatMessage.tsx:73-83 | once the output panel has content, status pings do not change what is shown |
| ChatMessage.CompletedAnswerShown | src/components/ChatMessage.tsx:120-137 | the streamed "Hello" is what the settled message shows |
| UploadApi.MapDocumentStatus | src/features/upload/api.ts:7-15 | INDEXED, INDEXING and FAILED map to ready, processing and error exactly; everything else, absent included, is waiting |
| UploadApi.NormalizeDocuments | src/features/upload/api.ts:17-23 | a list is returned as it is; an object whose `data` is a list yields that list; anything else yields no documents |
| TenantContext.ReadActiveTenantId | src/features/tenants/tenantContext.tsx:11-17 | an id exactly when the stored entry is present, non-empty and a finite number |
| TenantContext.UnwrapTenants | src/features/tenants/tenantContext.tsx:24-29 | rejects exactly on a present non-zero code, with a non-empty message; otherwise the data, or an empty list |
| TenantContext.UnwrapBoolean | src/features/tenants/tenantContext.tsx:31-36 | rejects exactly on a present non-zero code, with a non-empty message; otherwise the data, or false |
| TenantContext.HasTenant | src/features/tenants/tenantContext.tsx:94 | true exactly when some tenant has the id |
| TenantContext.FirstPersonal | src/features/tenants/tenantContext.tsx:132 | the first personal tenant, or -1 |
| TenantContext.DesiredTenantId | src/features/tenants/tenantContext.tsx:132-134 | a valid active id, else the personal tenant's id, else the first tenant's; any choice names a known tenant |
| TenantContext.CanRevert | src/features/tenants/tenantContext.tsx:90-94 | exactly when the previous id is set, differs from the target and is among the loaded tenants |
| TenantContext.BeginSpec | src/features/tenants/tenantContext.tsx:88-97 | the switch is optimistic: the target becomes active and the error is cleared before the call; nothing else changes |
| TenantContext.EndSpec | src/features/tenants/tenantContext.tsx:98-119 | success persists the target and marks it synchronised; failure reverts to and persists the previous id when possible, and otherwise clears it and the stored entry, with a non-empty error; activation ends either way |
| TenantContext.AutoSyncTarget | src/features/tenants/tenantContext.tsx:128-137 | no target exactly in the early-return cases; otherwise the desired id, a known tenant not yet attempted |
| TenantContext.AutoSyncSpec | src/features/tenants/tenantContext.tsx:128-139 | a chosen id is recorded as attempted and a switch to it begins; otherwise nothing changes |
| TenantContext.AutoSyncAtMostOncePerList | src/features/tenants/tenantContext.tsx:124-140 | under any interleaving, the ids auto-sync switches to are pairwise distinct and were not attempted before |
| TenantContext.SuccessfulSwitch | src/features/tenants/tenantContext.tsx:95-102 | a successful switch leaves the target active, ready and synchronised, and stored so that it reads back |
| TenantContext.FailedSwitch | src/features/tenants/tenantContext.tsx:103-116 | a failed switch restores the previous tenant, in memory and storage, when it can, and otherwise leaves none active and nothing stored |
| TenantContext.TenantProvider.constructor | src/features/tenants/tenantContext.tsx:56-61 | mounting reads the stored id; nothing is loaded, activating or synchronised |
| TenantContext.TenantProvider.SetTenants | src/features/tenants/tenantContext.tsx:124-126 | a new tenant list clears the attempted-set |
| TenantContext.TenantProvider.BeginActivation | src/features/tenants/tenantContext.tsx:88-97 | the start of a switch is `BeginSpec` and keeps readiness consistent with the synchronised id |
| TenantContext.TenantProvider.EndActivation | src/features/tenants/tenantContext.tsx:98-119 | the end of a switch is `EndSpec`; the failure is re-thrown exactly when the call failed |
| TenantContext.TenantProvider.AutoSync | src/features/tenants/tenantContext.tsx:128-140 | one run of the effect is `AutoSyncSpec` |
| ProfilePage.GetApiErrorMessage | src/features/auth/ProfilePage.tsx:24-46 | 401 and 403 give their override or default text; otherwise a truthy `message` field; otherwise the fallback; an empty result only from an empty fallback |
| ProfilePage.FormatDate | src/features/auth/ProfilePage.tsx:51-54 | "--" for a missing or empty value; otherwise the part before the first 'T' |
| ProfilePage.FormatDateOfTimestamp | src/features/auth/ProfilePage.tsx:51-54 | the date part of an ISO timestamp is what is shown |
| ProfilePage.RoleLabel | src/features/auth/ProfilePage.tsx:74-79 | fixed labels for no role, admin and ban; any other role as it is; never empty |
| ProfilePage.SelectFile | src/features/auth/ProfilePage.tsx:150-158 | a file over 2 MiB is rejected on selection; a kept file is within the limit |
| ProfilePage.BeginUpload | src/features/auth/ProfilePage.tsx:168-176 | no file warns; a file over 2 MiB is rejected; an upload starts only within the limit |
| ProfilePage.SizeGuardsAgree | src/features/auth/ProfilePage.tsx:150-176 | a kept file is uploaded, and no file over the limit reaches the request |
| ProfilePage.ClassifyResponse | src/features/auth/ProfilePage.tsx:129-145 | a non-OK response fails with the payload message, else the status text, else "请求失败"; an OK response with a non-zero code fails; otherwise the data; failures carry the status and a non-empty message |
| ProfilePage.RequestFailureMessage | src/features/auth/ProfilePage.tsx:129-145 | a failed request is shown by the 401/403 texts, or by its own non-empty message, never by the caller's fallback |

## Left out

**I/O and timing**
- Network I/O: `fetch`, `AbortController` and the `TextDecoder` are replaced by method calls. Each decoded chunk is a `Feed`, the end of the body is `Finish`, a rejected fetch or read is `Fail`, and `close()` is `Close`. After an abort, a read of a body still open rejects with an AbortError, which is swallowed: a `Feed` after an abort, and `Fail`, model it. A read of a body received in full before the abort reports its end, which is `Finish`. Which of the two happens depends on network timing, which is not modelled. Multi-byte decoding is not modelled.
- Requests made by the page: `fetchChatOnce`, `listChatMessages` (both for hydration and for pagination), `createChatSession` and the tenant calls. These are recorded as effects or taken as inputs.
- Scheduling: `requestAnimationFrame` timing, scroll effects, React re-rendering and `setState` batching. A scheduled frame is the `scheduledFor` field, and it fires in `RunScheduled`.
- Server-side rendering: the `typeof window` checks. A browser is always assumed.

**Host functions**
- `JSON.parse`, `JSON.stringify`, `String`, `Number`/`Number.isFinite` and the locale time formatting are oracles.
- The `JSON.parse` oracle is not constrained to reject "". The real one always throws on "", so a display frame with a type but no data never emits. Under an oracle that accepts "", the model may emit one. No stated property depends on this.
- Numbers are integers. Non-integer tenant ids are not modelled.
- Lower-casing is ASCII only. Every word the source compares against is ASCII.
- Inherited properties and getters are not modelled. Property lookup reads own fields only.

**Parts of the page and of sending**
- `ensureSession` is an input, `SessionOutcome`. A new conversation made by `createNewSession` sets the active id here, as the ready session does. Prepending the new session and clearing the messages are not modelled.
- `loadSessions`/`loadMessages` pagination is not modelled.
- The `activeTenant` lookup is not modelled.
- The avatar upload itself is not modelled: the token request, the OSS upload, the progress timers and object URLs. Neither is the CORS check.

**Weaker contracts**
- ChatApi.Normalize: its contract states only that no CR remains and that CR-free text is unchanged. What CR LF and a lone CR become is shown by `ChatApi.CrLfSplitAcrossChunks` and the helper lemmas `NormalizeLoneCr` and `NormalizeCrLf`.
- ChatApi.JoinLines: its contract states the cases of no line and one line. The join of several lines is stated by `ChatApi.JoinLinesTerminated`, so that proofs about a frame's data do not carry it.
- ChatApi.Decide: the `[DONE]` completion is stated by `ChatApi.CompletingFrames`, not by the contract of `Decide` itself, for the same reason. A frame is decoded by a decoder parameter rather than by a fixed `JSON.parse`. The stream's own decoder, `JSON.parse` followed by `parseDisplayEvent`, is tied in by `ChatApi.DecoderReadsWireShape` and `ChatApi.EventStreamRoundTrip`.
- DisplayEvent.ParseDisplayEvent: the result is the typed event, which agrees with the parsed value on the five protocol fields. Any extra fields of the parsed value are not carried.
- ProfilePage.GetApiErrorMessage: the `error instanceof Error` branch is not modelled separately. An `Error` is an object with a `message` field, so the object branch already returns its message.
- ChatPage.RoleWord: its contract pins down only the case where `role` itself is a string. The other fields are covered through `ChatPage.FirstStringIndex`.
- ChatPage.ResolveTimestamp: its contract pins down the absent case and the case where `messageAt` is present. Later fields are taken in the order `ChatPage.FirstPresent` states.
- ChatPage.MapMessageRecord: its contract states the role, the content, the settled state and that the sources are non-empty. The id and the timestamp follow from `ResolveMessageId` and `ResolveTimestamp`.
- ChatPage.SendSpec: its contract does not state the state after `ensureSession` returns no conversation, which is the state after the optional close. When chatting is impossible, it states only that the messages and the stream are unchanged.
- ChatPage.HydrationEndSpec: its contract states when the messages stay the same. The merge itself is stated by `ChatPage.HydrateMessages`.

## Findings

| source | as written | input that shows it | evidently intended | confidence | as-written member | corrected member |
|---|---|---|---|---|---|---|
| src/features/chat/chatApi.ts:220-244 | the end-of-body path runs the tail pass, a final dispatch and `onComplete` without looking at the abort flag | a body whose last bytes are `event: end` and a blank line, received in full before the completion's abort: `onComplete` is called twice, and a turn without display events warns twice and asks for the one-shot answer twice | after a completion or `close()`, no further callback | not executed; needs the body to have closed before the abort | ChatApi.CompletionThenEndOfBody | ChatApi.GuardedClosedStreamIsSilent |

The stream class keeps the code's behaviour, so `ChatApi.SseStream.Finish` is `ChatApi.FinishSpec`. `ChatApi.GuardedFinishSpec` is the corrected end of body. `ChatApi.GuardedCompletionCompletesOnce` shows that it completes once on the input above. `ChatPage.RepeatedCompletionFallsBackTwice` shows what the page does when the stream completes twice.
