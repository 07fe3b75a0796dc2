# Event-to-state reducer of the avatar-control client

This project models the state layer of a Svelte client for an AI VTuber backend. The client keeps one socket.io connection to the backend. Most named inbound events (`next_chunk`, `action_feedback`, `patience_update`, `audio_list`, ...) are bound to a handler that rewrites one or two observable cells. The connection events `error`, `connect_error` and `disconnect` only raise toasts, and `connect`, `chinese_text` and `vtuber_action` have no handler. A few command functions turn user intents into outbound emissions. The state lives in two files:

- `src/lib/socketio.ts` owns the socket, about twenty-six `writable` cells and their `socket.on` handlers, plus `sendChineseText`, `triggerVtuberAction`, `manualConnect` and `manualDisconnect`.
- `src/lib/stores.ts` owns a connection flag, the last connection error, an append-only Chinese chat history and a map of VTuber action flags. Its `bindSocketEvents` registers handlers for five events.

Layout:

- `events.dfy` (module `Events`): the inbound events, one constructor per name of the `SocketEvents` interface, with their payloads. Also the two outbound events, the calls made on the transport, toast severities, and the keyed merge both reducers apply to `action_feedback`.
- `text.dfy` (module `Text`): the two JavaScript string built-ins the reducers rely on.
  - `String.prototype.trim`, with ECMAScript's whitespace and line-terminator set.
  - `Array.prototype.join("\n")`, with its inverse `SplitLines`.
- `socketio.dfy` (module `SocketIO`):
  - The cells as a value `Cells` and the reducer as a pure function `Step` (folded by `Run`).
  - The frame, accumulation and normalisation lemmas.
  - The class `Client`: one field per cell, plus the connection flag, the log of transport calls and the log of toasts. Every handler and command is a method whose contract ties the new state to `Step` or states it outright.
- `stores.dfy` (module `Stores`): the same arrangement for `stores.ts`. It has a pure `StoreStep`/`StoreRun` with lemmas about the history and the error cell, and a class `Store` whose methods are proved against them.

JavaScript numbers are `real`. The percentage cell uses a `Percent` datatype with NaN and the two infinities, because the division has no zero guard. `new Date()` is a `Timestamp` parameter supplied by the caller.

Where the code and its documented intent differ, the model follows the code:

- **Zero total time.** `patience_update` divides with no zero guard, so a zero total time gives NaN or an infinity rather than 0.
- **Audio labels.** `audio_list` labels are the raw file names; no extension is stripped.
- **Failed feedback.** A failed `action_feedback` raises no warning.
- **Sent text.** `sendChineseText` sets the single `chineseMessage` cell and appends nothing to any history.
- **Connection state.** The connection state is a boolean, not a five-state machine.
- **Action lookup.** `triggerVtuberAction` emits whatever the object-literal lookup yields, including members inherited from `Object.prototype` (see Findings).

## Model

| member | source | states |
|---|---|---|
| Events.MergeFeedback | src/lib/socketio.ts:89-93 | the merged map has the old keys plus `action`; `action` maps to true exactly when the status is "executed"; every other key keeps its value |
| Text.TrimEnd | src/lib/socketio.ts:215 | the trailing half of trim: the kept text is a prefix that does not end in whitespace, everything removed is whitespace, and a non-whitespace first character is kept |
| Text.Trim | src/lib/socketio.ts:215 | the result is the middle slice of the input after its leading whitespace; it neither starts nor ends with whitespace, only whitespace follows it, and it is empty exactly when the input is all whitespace |
| Text.IsBlank | src/lib/socketio.ts:215 | `text.trim()` is falsy exactly when every character is JavaScript whitespace |
| Text.JoinLines | src/lib/socketio.ts:141 | joining a single line gives that line |
| Text.SplitLines | src/lib/socketio.ts:141 | splitting yields at least one line, and no line contains a line feed |
| Text.SplitJoinLines | src/lib/socketio.ts:141 | for a non-empty list of lines without line feeds, splitting the joined text gives the list back (the join loses nothing) |
| Text.JoinLinesEmptyCollision | src/lib/socketio.ts:204 | the empty list and the list holding one empty line join to the same text, so the round trip needs a non-empty list |
| SocketIO.PatiencePercent | src/lib/socketio.ts:133 | the percentage is finite exactly when the total is non-zero, and then percentage × total = 100 × elapsed; with a zero total it is NaN exactly when the elapsed time is zero and +Infinity exactly when it is positive |
| SocketIO.SongsOf | src/lib/socketio.ts:172-177 | same length and order as the file list; entry i has value and label both equal to file i |
| SocketIO.Normalize | src/lib/socketio.ts:222-229 | a localized label maps to a canonical token; any other label passes through unchanged |
| SocketIO.NormalizeLabels | src/lib/socketio.ts:223-227 | the three localized labels map to "blink", "nod" and "shake_head" |
| SocketIO.NormalizeIdempotent | src/lib/socketio.ts:229 | normalizing twice equals normalizing once |
| SocketIO.LookupAsWritten | src/lib/socketio.ts:229 | the written lookup yields an inherited member exactly for the names `Object.prototype` provides |
| SocketIO.LookupAsWrittenAgrees | src/lib/socketio.ts:223-229 | the written lookup emits the normalized token for every name that is not an `Object.prototype` member, and something else for every name that is |
| SocketIO.LookupAsWrittenToString | src/lib/socketio.ts:229 | "toString" resolves to the inherited function, although normalization passes it through |
| SocketIO.Step | src/lib/socketio.ts:52-211 | the cells after one event's handler; no server event writes `chineseMessage`, `selectedAudio` or `searchQuery` |
| SocketIO.Bound | src/lib/socketio.ts:52-211 | the binding table: the cells each event's handler writes; it never names a cell the user owns, and it is empty exactly for `error`, `connect`, `disconnect`, `connect_error`, `chinese_text` and `vtuber_action` |
| SocketIO.StepChangesOnlyBound | src/lib/socketio.ts:52-211 | each handler writes only the cells its binding names; all other cells are unchanged |
| SocketIO.StepConnectionBound | src/lib/socketio.ts:52-66 | the error and connection handlers write no cell |
| SocketIO.StepChineseSupportBound | src/lib/socketio.ts:68-95 | the Chinese-message and feedback handlers write only their own cell |
| SocketIO.StepMessagesBound | src/lib/socketio.ts:99-114 | the current-message, reset and chunk handlers write only their own cell |
| SocketIO.StepSignalsBound | src/lib/socketio.ts:115-135 | the thinking, speaking and patience handlers write only their own cells |
| SocketIO.StepTwitchBound | src/lib/socketio.ts:137-155 | the Twitch chat, Twitch status and LLM status handlers write only their own cell |
| SocketIO.StepControlsBound | src/lib/socketio.ts:156-167 | the TTS, STT, movement and multimodal status handlers write only their own cell |
| SocketIO.StepListsBound | src/lib/socketio.ts:169-195 | the audio list, full prompt and custom prompt handlers write only their own cells |
| SocketIO.StepMemoryBound | src/lib/socketio.ts:196-211 | the memory, blacklist and hotkey handlers write only their own cell |
| SocketIO.RunChangesOnlyBound | src/lib/socketio.ts:52-211 | over any event sequence, only cells bound to a delivered event can differ |
| SocketIO.UserCellsSurviveEvents | src/lib/socketio.ts:69-211 | no inbound event ever writes `chineseMessage`, `selectedAudio` or `searchQuery`, which only the UI sets |
| SocketIO.BoundAllDisjoint | src/lib/socketio.ts:52-211 | a set of cells that no single event binds is bound by no event sequence |
| SocketIO.RunAppend | src/lib/socketio.ts:52-211 | events are handled in delivery order: handling `a` then `b` equals handling `a + b` |
| SocketIO.StepNextMessage | src/lib/socketio.ts:106-112 | on an event other than a reset, the accumulator grows by the chunk text (empty for non-chunk events) |
| SocketIO.NoResetTail | src/lib/socketio.ts:106-112 | a suffix of a reset-free event sequence is reset-free |
| SocketIO.NextMessageAccumulates | src/lib/socketio.ts:106-112 | without a reset, the accumulator ends as its old value followed by the chunks, in delivery order; there is no implicit reset |
| SocketIO.NextMessageAfterReset | src/lib/socketio.ts:107-112 | after the last reset, the accumulator holds exactly the chunks delivered since that reset |
| SocketIO.ResetThenTwoChunks | src/lib/socketio.ts:107-112 | reset, then chunk "A", then chunk "B" leaves "AB" |
| SocketIO.ConnectedNeedsTransition | src/lib/socketio.ts:235-247 | the transport's connection flag, as `manualConnect` and `manualDisconnect` read it, keeps its value over any events that include no `connect` and no `disconnect` |
| SocketIO.ConnectedRunAppend | src/lib/socketio.ts:235-247 | the flag follows events in delivery order: handling `a` then `b` equals handling `a + b` |
| SocketIO.ConnectedByLastTransition | src/lib/socketio.ts:235-247 | whatever the start and the earlier events, the flag is set exactly when the last `connect` or `disconnect` delivered is a `connect` |
| SocketIO.NoticesFor | src/lib/socketio.ts:52-66 | at most one toast per event: an error toast exactly for `error` and `connect_error`, a warning toast exactly for a disconnect with reason "io server disconnect", never an info toast |
| SocketIO.StepConnection | src/lib/socketio.ts:52-66 | `error`, `connect`, `disconnect` and `connect_error` change no cell |
| SocketIO.StepChineseSupport | src/lib/socketio.ts:68-95 | `chinese_response` replaces the response cell; `action_feedback` merges into the status map; `chinese_text` and `vtuber_action` change nothing |
| SocketIO.StepMessages | src/lib/socketio.ts:99-135 | each message, signal and patience event replaces its cell(s); a reset clears the accumulator; a chunk appends to it |
| SocketIO.StepControls | src/lib/socketio.ts:137-167 | Twitch messages replace the chat cell with their join; each status event replaces its flag |
| SocketIO.StepLists | src/lib/socketio.ts:169-211 | each list or prompt event replaces its cell(s); audio and blacklist payloads are transformed first |
| SocketIO.Client.constructor | src/lib/socketio.ts:43-211 | module load: every cell holds its declared default; the auto-connecting socket is opened, not yet connected; no toast |
| SocketIO.Client.Handle | src/lib/socketio.ts:52-211 | the new cells are `Step` of the old; the transport's `connect`/`disconnect` set the connection flag; the toasts are those of the event; nothing is emitted |
| SocketIO.Client.HandleCells | src/lib/socketio.ts:68-211 | the cell-writing handlers, dispatched by group, leave the cells as `Step` says and touch neither the connection flag, the calls nor the toasts |
| SocketIO.Client.HandleConnection | src/lib/socketio.ts:52-66 | the error and connection handlers change no cell; the transport's `connect`/`disconnect` set the flag; the toasts are exactly those of the event (two error toasts, a warning only for a server-side disconnect) |
| SocketIO.Client.HandleChineseSupport | src/lib/socketio.ts:68-95 | the Chinese and feedback handlers agree with `Step` and touch nothing else |
| SocketIO.Client.HandleMessages | src/lib/socketio.ts:99-135 | the message, signal and patience handlers agree with `Step` and touch nothing else |
| SocketIO.Client.HandleControls | src/lib/socketio.ts:137-167 | the Twitch and status handlers agree with `Step` and touch nothing else |
| SocketIO.Client.HandleLists | src/lib/socketio.ts:169-211 | the list and prompt handlers agree with `Step` and touch nothing else |
| SocketIO.Client.OnDisconnect | src/lib/socketio.ts:61-66 | the socket is no longer connected; a warning toast is raised only when the reason is "io server disconnect"; no cell changes |
| SocketIO.Client.OnChineseResponse | src/lib/socketio.ts:72-75 | only `chineseResponse` changes, to the reply text |
| SocketIO.Client.OnActionFeedback | src/lib/socketio.ts:89-95 | only `vtuberStatus` changes, by the keyed merge; no toast |
| SocketIO.Client.OnCurrentMessage | src/lib/socketio.ts:100-103 | only `currentMessage` changes |
| SocketIO.Client.OnResetNextMessage | src/lib/socketio.ts:107-109 | `nextMessage` becomes empty and no other cell changes |
| SocketIO.Client.OnNextChunk | src/lib/socketio.ts:110-112 | `nextMessage` becomes its old value followed by the chunk; no other cell changes |
| SocketIO.Client.OnAIThinking | src/lib/socketio.ts:115-118 | only `aiThinking` changes |
| SocketIO.Client.OnAISpeaking | src/lib/socketio.ts:120-123 | only `aiSpeaking` changes |
| SocketIO.Client.OnHumanSpeaking | src/lib/socketio.ts:125-128 | only `humanSpeaking` changes |
| SocketIO.Client.OnPatienceUpdate | src/lib/socketio.ts:130-135 | the percentage and the raw total change, nothing else |
| SocketIO.Client.OnRecentTwitchMessages | src/lib/socketio.ts:138-142 | only `twitchChat` changes, to the line-feed join |
| SocketIO.Client.OnTwitchStatus | src/lib/socketio.ts:143-145 | only `twitchChatEnabled` changes |
| SocketIO.Client.OnLLMStatus | src/lib/socketio.ts:153-155 | only `llmEnabled` changes |
| SocketIO.Client.OnTTSStatus | src/lib/socketio.ts:156-158 | only `ttsEnabled` changes |
| SocketIO.Client.OnSTTStatus | src/lib/socketio.ts:159-161 | only `sttEnabled` changes |
| SocketIO.Client.OnMovementStatus | src/lib/socketio.ts:162-164 | only `movementEnabled` changes |
| SocketIO.Client.OnMultimodalStatus | src/lib/socketio.ts:165-167 | only `multimodalEnabled` changes |
| SocketIO.Client.OnAudioList | src/lib/socketio.ts:171-178 | only `songs` changes, to the value/label pairs of the files |
| SocketIO.Client.OnFullPrompt | src/lib/socketio.ts:181-184 | only `lobotomy` changes |
| SocketIO.Client.OnGetCustomPrompt | src/lib/socketio.ts:187-192 | only `customPrompt` and `priority` change |
| SocketIO.Client.OnGetMemories | src/lib/socketio.ts:195-199 | only `memories` changes |
| SocketIO.Client.OnGetBlacklist | src/lib/socketio.ts:202-205 | only `blacklist` changes, to the line-feed join |
| SocketIO.Client.OnGetHotkeys | src/lib/socketio.ts:208-211 | only `hotkeys` changes |
| SocketIO.Client.SendChineseText | src/lib/socketio.ts:214-220 | blank text emits nothing and changes no cell; otherwise exactly one `chinese_text` with the untrimmed text is emitted and `chineseMessage` becomes that text |
| SocketIO.Client.TriggerVtuberAction | src/lib/socketio.ts:222-232 | exactly one `vtuber_action` is emitted, carrying what the object-literal lookup yields as written; for every label not inherited from `Object.prototype` that is the normalized token; no cell, connection flag or toast changes |
| SocketIO.Client.ManualConnect | src/lib/socketio.ts:235-240 | when disconnected: one connect call and an info toast; when connected: nothing |
| SocketIO.Client.ManualDisconnect | src/lib/socketio.ts:242-247 | when connected: one disconnect call and a warning toast, and the socket is disconnected at once (the client-side reason raises no further toast); when disconnected: nothing; either way the socket ends disconnected |
| Stores.StoreStep | src/lib/stores.ts:38-69 | the stores after one delivery: the history only grows, by at most one entry and only on `chinese_response`; only `connect` and `disconnect` move the connection flag; no action-flag key is dropped; the audio store is never touched |
| Stores.ResponsesSnoc | src/lib/stores.ts:52-61 | the last delivery's reply comes last among the collected replies |
| Stores.PositionsSnoc | src/lib/stores.ts:52-61 | appending one delivery adds one reply position exactly when it is a `chinese_response` |
| Stores.ResponsesAreReplies | src/lib/stores.ts:52-61 | there is exactly one collected entry per `chinese_response` delivery, and every one has `isUser` false |
| Stores.HistoryAppendOnly | src/lib/stores.ts:52-61 | after any deliveries, the history is the old history followed by one entry per reply, in delivery order, each with that event's text and time; the old history is a prefix |
| Stores.ConnectionNeedsTransition | src/lib/stores.ts:39-46 | without `connect` or `disconnect`, the connection flag keeps its value |
| Stores.StoreRunAppend | src/lib/stores.ts:38-69 | deliveries are handled in order: handling `a` then `b` equals handling `a + b` |
| Stores.ErrorNeedsAttemptOutcome | src/lib/stores.ts:39-50 | without `connect` or `connect_error`, the recorded error keeps its value |
| Stores.ErrorClearedByLastConnect | src/lib/stores.ts:39-42 | when the last connection outcome is a `connect`, no error is recorded |
| Stores.ErrorSetByLastConnectError | src/lib/stores.ts:48-50 | when the last connection outcome is a `connect_error`, its message is the recorded error |
| Stores.ShakeHeadFeedbackMissesKey | src/lib/stores.ts:63-68 | for any stores holding a `shakeHead` flag and any status, feedback for "shake_head" (the token the command side emits) lands under a key of its own and leaves `shakeHead` as it was |
| Stores.Store.constructor | src/lib/stores.ts:5-35 | disconnected, no error, empty history, the three action flags false, no audio playing; no handler registered yet |
| Stores.Store.BindSocketEvents | src/lib/stores.ts:38 | the handlers are registered; no store changes |
| Stores.Store.Handle | src/lib/stores.ts:38-69 | once bound, the new stores are `StoreStep` of the old ones; before that, events change nothing |
| Stores.Store.OnConnect | src/lib/stores.ts:39-42 | connected and no error; history and flags unchanged |
| Stores.Store.OnDisconnect | src/lib/stores.ts:44-46 | not connected; the recorded error and the history are unchanged |
| Stores.Store.OnConnectError | src/lib/stores.ts:48-50 | the error's message is recorded; the connection flag is unchanged |
| Stores.Store.OnChineseResponse | src/lib/stores.ts:52-61 | the history grows by exactly one entry, the old history is a prefix, and the new last entry is the reply text with `isUser` false and the delivery time |
| Stores.Store.OnActionFeedback | src/lib/stores.ts:63-68 | only the action flags change, by the keyed merge |

## Left out

- Socket.io configuration, reconnection and backoff (`src/lib/socketio.ts:43-49`) belong to the library. The model opens the socket once and lets the transport's `connect`/`disconnect` events set the connection flag.
- Emissions while disconnected are simply logged. The transport's buffering is not modelled.
- Toast and `console` texts are not modelled. Toasts are kept as severities in a log; console output is dropped.
- The development-only `window.socket` hook (`src/lib/socketio.ts:250-252`) is a global side effect.
- `src/hooks.server.ts` is server-side request handling and is not part of this model.
- `src/app.d.ts` holds type declarations only and is not part of this model.
- Svelte's subscription and notification mechanics are library behaviour. Each store is a plain field.
- Payloads are well typed. A malformed payload (a missing `text`, a non-array list) is not modelled.
- The `any[]` memory and hotkey lists are JSON values, copied as received.
- `new Date()` is replaced by a caller-supplied timestamp.
- SocketIO.PatiencePercent: computed in exact real arithmetic. IEEE-754 rounding of the quotient and of the product by 100 is not modelled; the zero-total cases (NaN, ±Infinity) are.
- Strings are sequences of Unicode scalar values, while JavaScript strings are UTF-16 code units, so a lone surrogate cannot be represented. No operation modelled here (trim, join on a line feed, concatenation) behaves differently on well-formed text.
- Stores.Store.BindSocketEvents: a second call registers every handler again in the source, so a `chinese_response` would then append twice. The model records a single registration.

## Findings

| source | as written | input that shows it | evidently intended | confidence | as-written member | corrected member |
|---|---|---|---|---|---|---|
| src/lib/socketio.ts:229 | the label is looked up as `actionMap[action]` on an object literal, falling back to `action` only when the result is falsy; the lookup also finds the members inherited from `Object.prototype`, and all of them are truthy | `triggerVtuberAction("toString")` emits the inherited `toString` function instead of the string "toString" (likewise "constructor", "valueOf", "__proto__", ...) | a label that is not one of the three localized labels passes through unchanged (an own-property lookup) | not executed | SocketIO.LookupAsWrittenToString | SocketIO.NormalizeIdempotent |
