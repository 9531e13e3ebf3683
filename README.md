# chat-stream: the streaming state machines, modelled in Dafny

chat-stream streams randomly generated text from a producer to a browser client, which reveals the text one character at a time. This project models the parts of it that are timer-driven state machines:

- **The listener table** (`EventEmitter`, module `SharedEmitter`). This is the in-process bus through which the mock client and the mock server of the mock app talk to each other.
- **The mock client socket** of the mock app (`WebSocket`, module `MockClient`). It has four ready states, moves only forward, closes with code 1006 on error, and cleans up once.
- **The mock server of the mock app** (`ws` and the `serverInstances` registry, module `MockServer`). It has a connect timer, a stream of at most 30 chunks followed by `STREAM_END`, and a delayed teardown that notifies the client only when the server itself started the close.
- **The self-contained mock socket** (`MockWebSocket`, module `MockSocket`). It is a socket and a 30-chunk producer in one object.
- **The real server's per-connection handler** (module `StreamServer`). It sends a greeting and runs a 50-chunk stream. It has no stop command.
- **The client renderer** (`App`, module `Renderer`). It holds a FIFO chunk queue and one interval that reveals the head chunk character by character.

Timers are explicit. Each object owns a `Timers.Scheduler`, whose map holds the pending callbacks by id. `setTimeout` registers a callback under a fresh positive id, and `clearTimeout` forgets it. The environment fires a pending callback by calling the matching `Fire…`/`Tick` method. Delays are not modelled, so any pending callback may fire next. The random chunks a producer would generate are parameters of the firing methods.

Two things hold for every producer:
- It keeps at most one stream timer pending. This is the `Valid()` invariant of its class and its `AtMostOneStreamTimer` lemma.
- Fired without interruption, it sends exactly its maximum number of chunks, then one `STREAM_END`, then nothing more. This is `Streaming.RunCompletes`, plus each module's `UninterruptedStream` lemma and `DeliverWholeStream` driver.

Behaviours of the code that are modelled as written:
- A close started by the mock client never completes: the server tears down without `server-close`, so the client stays CLOSING (`MockSession.ClientCloseStalls`).
- The renderer's queue effect reruns only when the queue is given a new array. A chunk that arrives while an interval runs, with nothing after it but `STREAM_END`, stays queued and unrevealed once the interval ends (`Renderer.LastChunkStalls`).
- `MockWebSocket` can go from CLOSING back to OPEN (`MockSocket.CloseBeforeOpenReopens`), and can then deliver two close events (`MockSocket.CloseTwiceDeliversTwoCloseEvents`).
- The real server ignores `STOP_STREAM` (`StreamServer.Connection.OnMessage`).
- `cleanupInternal` clears the connect timer but keeps its handle (`MockServer.Server.CleanupInternal`).
- The mock client's `_handlers` lists stay empty, so only `on<type>` properties are ever called (`MockClient.OnlyOnHandlerIsCalled`).

The mock app's emitter is imported from `packages/mock-app/src/shared/emitter`, which is not part of this model. It is taken to behave as `src/MockVersion/shared/emitter.ts`, which is modelled.

## Model

| member | source | states |
|---|---|---|
| Types.NeverBackwardOverRun | packages/mock-app/src/WebSocket.ts:84-138 | when every step of a run of ready states keeps or advances the state (as each client operation ensures), no state of the run is earlier than any state before it: the ready state never decreases |
| Types.ListenerCalls | packages/mock-app/src/WebSocket.ts:180-194 | one call per listener of the copied list, in list order, each with the same event |
| Timers.Scheduler.constructor | packages/mock-app/src/ws-server/ws.ts:35-36 | no callback is pending at first |
| Timers.Scheduler.SetTimeout | packages/mock-app/src/ws-server/ws.ts:200 | the new id is positive and differs from every pending id; exactly that callback is added |
| Timers.Scheduler.ClearTimeout | packages/mock-app/src/ws-server/ws.ts:213 | exactly that id stops being pending; clearing an id that is not pending changes nothing |
| Timers.Scheduler.Expire | packages/mock-app/src/ws-server/ws.ts:108-115 | a timeout that fires hands back its callback and is no longer pending |
| SharedEmitter.Without | src/MockVersion/shared/emitter.ts:27 | the filtered list holds exactly the elements of the list other than the listener, and is no longer |
| SharedEmitter.WithoutAbsent | src/MockVersion/shared/emitter.ts:27 | filtering out a listener that is absent leaves the list unchanged |
| SharedEmitter.WithoutAppend | src/MockVersion/shared/emitter.ts:27 | filtering distributes over concatenation |
| SharedEmitter.Add | src/MockVersion/shared/emitter.ts:13-16 | the listener goes to the end of that event's list (created when absent, duplicates kept); every other list is unchanged |
| SharedEmitter.Remove | src/MockVersion/shared/emitter.ts:25-29 | every occurrence leaves that event's list only; an absent entry means no change |
| SharedEmitter.RemoveKey | src/MockVersion/shared/emitter.ts:60-67 | with a name only that entry is deleted and the rest kept as is; without one the table is emptied |
| SharedEmitter.OnThenOff | src/MockVersion/shared/emitter.ts:13-29 | `on` then `off` of a listener not yet registered for the event leaves every list as it was |
| SharedEmitter.QuietLeavesTable | src/MockVersion/shared/emitter.ts:41-53 | listeners that change nothing leave the table as it was, however many are called |
| SharedEmitter.AddEachSubscribes | packages/mock-app/src/WebSocket.ts:31-34 | after a series of `on` calls every subscribed listener is in its event's list, and events not subscribed to are untouched |
| SharedEmitter.AddEachKeeps | src/MockVersion/shared/emitter.ts:13-16 | later `on` calls never drop a registered listener |
| SharedEmitter.RemoveEachUnsubscribes | packages/mock-app/src/WebSocket.ts:200-203 | after a series of `off` calls no unsubscribed listener is in its event's list, every other listener keeps its membership, and other events are untouched |
| SharedEmitter.RemoveEachKeepsOut | src/MockVersion/shared/emitter.ts:27 | later `off` calls never bring a removed listener back |
| SharedEmitter.EmitQuiet | src/MockVersion/shared/emitter.ts:33-57 | an emission whose listeners change nothing is logged once and leaves the table as it was |
| SharedEmitter.EventEmitter.constructor | src/MockVersion/shared/emitter.ts:5-6 | the table starts empty |
| SharedEmitter.EventEmitter.On | src/MockVersion/shared/emitter.ts:9-18 | the table becomes `Add` of the old table |
| SharedEmitter.EventEmitter.Off | src/MockVersion/shared/emitter.ts:21-30 | the table becomes `Remove` of the old table |
| SharedEmitter.EventEmitter.Emit | src/MockVersion/shared/emitter.ts:33-57 | the listeners called are exactly those registered when `emit` starts, in order; changes made by listeners, and listeners that throw, do not change who is called |
| SharedEmitter.EventEmitter.RemoveAllListeners | src/MockVersion/shared/emitter.ts:60-68 | the table becomes `RemoveKey` of the old table |
| Streaming.RunCompletes | packages/mock-app/src/ws-server/ws.ts:172-204 | a live stream started at count `sent` sends exactly the next `max - sent` chunks, then one `STREAM_END`, then nothing more |
| MockServer.LiveStepIsCounted | packages/mock-app/src/ws-server/ws.ts:176-201 | on a server that is connected and not closing, a firing is a step of the counted stream of 30 |
| MockServer.DeadStepIsSilent | packages/mock-app/src/ws-server/ws.ts:178-182 | on a server that is disconnected or closing, a firing sends nothing and drops the handle |
| MockServer.UninterruptedStream | packages/mock-app/src/ws-server/ws.ts:172-204 | an uninterrupted stream sends exactly 30 chunks and then one `STREAM_END` |
| MockServer.Messages | packages/mock-app/src/ws-server/ws.ts:121 | one `server-message` emission per string sent, in order, for the server's URL |
| MockServer.MessagesAppend | packages/mock-app/src/ws-server/ws.ts:190-204 | the emissions of two runs of sends, one after the other, are those of the joined run |
| MockServer.LogAccumulates | packages/mock-app/src/ws-server/ws.ts:190-204 | a log holding the emissions of the chunks sent so far holds those of one more chunk after its send |
| MockServer.Server.constructor | packages/mock-app/src/ws-server/ws.ts:38-51 | both flags are off and no timer exists; the three listeners are subscribed; nothing is emitted |
| MockServer.Server.HandleConnectionRequest | packages/mock-app/src/ws-server/ws.ts:54-58 | only the server's own URL starts `connection`; any other URL changes nothing |
| MockServer.Server.Connection | packages/mock-app/src/ws-server/ws.ts:104-116 | a pending connect timer is replaced by a new one |
| MockServer.Server.FireConnect | packages/mock-app/src/ws-server/ws.ts:108-115 | if a close has begun, nothing happens; otherwise the server is connected, its handle is dropped and one `server-open` is emitted |
| MockServer.Server.HandleClientMessage | packages/mock-app/src/ws-server/ws.ts:60-81 | a message is ignored unless it is for this URL and the server is connected and not closing; `START_STREAM` restarts the stream, `STOP_STREAM` stops it, and anything else is ignored |
| MockServer.Server.HandleClientCloseEvent | packages/mock-app/src/ws-server/ws.ts:83-101 | for this URL, while accepting, the close is started with a teardown that does not notify the client |
| MockServer.Server.SendMessageToClient | packages/mock-app/src/ws-server/ws.ts:118-122 | one `server-message` is emitted exactly while the server is connected and not closing |
| MockServer.Server.InitiateServerClose | packages/mock-app/src/ws-server/ws.ts:124-149 | ignored unless accepting; otherwise the server is marked closing, the stream and connect timers are cleared and dropped, and then the teardown is scheduled |
| MockServer.Server.FireTeardown | packages/mock-app/src/ws-server/ws.ts:149-159 | both flags are reset; `server-close` is emitted only when the close was to notify the client; then the listeners are removed |
| MockServer.Server.StartStream | packages/mock-app/src/ws-server/ws.ts:168-205 | a running stream is cleared first, then the first step of a new one is scheduled with count 0 |
| MockServer.Server.FireStream | packages/mock-app/src/ws-server/ws.ts:176-201 | the firing sends and reschedules as `StreamStepOutcome` of the count and the flags says |
| MockServer.Server.StopStream | packages/mock-app/src/ws-server/ws.ts:211-217 | a pending stream timer is cleared and dropped, and nothing is sent, not even `STREAM_END` |
| MockServer.Server.ForceClose | packages/mock-app/src/ws-server/ws.ts:220-223 | a server-initiated close with code 1006, whose teardown notifies the client |
| MockServer.Server.CleanupInternal | packages/mock-app/src/ws-server/ws.ts:226-239 | the connect timer is cleared but its handle kept, the stream is stopped, and exactly the three listeners are unsubscribed |
| MockServer.AtMostOneStreamTimer | packages/mock-app/src/ws-server/ws.ts:168-204 | a valid server has at most one pending stream timer |
| MockServer.DeliverWholeStream | packages/mock-app/src/ws-server/ws.ts:172-204 | a stream fired on an accepting server until it stops emits exactly the first 30 chunks and then one `STREAM_END` |
| MockServer.FireLiveStream | packages/mock-app/src/ws-server/ws.ts:172-204 | one firing on an accepting server, `k` chunks in, emits the next chunk and reschedules with `k + 1`, or emits `STREAM_END` and stops once 30 are sent |
| MockServer.Registry.constructor | packages/mock-app/src/ws-server/ws.ts:9-27 | the registry starts empty and listens for create and destroy |
| MockServer.Registry.OneServerValid | packages/mock-app/src/ws-server/ws.ts:9-16 | a registry holding one valid server under that server's own URL, on the same bus, is valid |
| MockServer.Registry.HandleCreate | packages/mock-app/src/ws-server/ws.ts:9-16 | a new server only for a URL that has none; otherwise nothing changes |
| MockServer.Registry.HandleDestroy | packages/mock-app/src/ws-server/ws.ts:19-27 | that server's `cleanupInternal` runs and the entry is removed; an absent URL changes nothing |
| MockClient.ErrorCloseReason | packages/mock-app/src/WebSocket.ts:155 | the reason of the forced close ends with the error message |
| MockClient.WebSocket.Deliveries | packages/mock-app/src/WebSocket.ts:160-195 | the `on<type>` property first (when set), then one call per listener; every call carries the event |
| MockClient.WebSocket.constructor | packages/mock-app/src/WebSocket.ts:24-40 | the socket starts CONNECTING, subscribes its four listeners, and emits `create-server-instance` and then `server-initiate-connection` |
| MockClient.WebSocket.Subscribe | packages/mock-app/src/WebSocket.ts:31-34 | the four `on` calls add exactly the socket's four subscriptions, in order, and emit nothing |
| MockClient.WebSocket.SetOnHandler | packages/mock-app/src/WebSocket.ts:19-22 | assigning an `on<type>` property changes nothing else |
| MockClient.WebSocket.HandleServerOpen | packages/mock-app/src/WebSocket.ts:43-45 | acts only for its own URL, as `_receiveOpen` does |
| MockClient.WebSocket.HandleServerMessage | packages/mock-app/src/WebSocket.ts:47-49 | acts only for its own URL, as `_receiveMessage` does |
| MockClient.WebSocket.HandleServerClose | packages/mock-app/src/WebSocket.ts:51-57 | acts only for its own URL, as `_receiveClose` does |
| MockClient.WebSocket.HandleServerError | packages/mock-app/src/WebSocket.ts:59-61 | acts only for its own URL, as `_receiveError` does |
| MockClient.WebSocket.Send | packages/mock-app/src/WebSocket.ts:71-83 | when OPEN, one `client-message` is emitted; otherwise no message is emitted, an error is delivered, and a CONNECTING socket is then closed with 1006 |
| MockClient.WebSocket.Close | packages/mock-app/src/WebSocket.ts:85-101 | a no-op when CLOSING or CLOSED; otherwise the socket becomes CLOSING (not CLOSED) and one `client-close` is emitted |
| MockClient.WebSocket.ReceiveOpen | packages/mock-app/src/WebSocket.ts:104-117 | only CONNECTING becomes OPEN, with the open event delivered exactly then; any other state changes nothing |
| MockClient.WebSocket.ReceiveMessage | packages/mock-app/src/WebSocket.ts:119-129 | messages are delivered only while OPEN |
| MockClient.WebSocket.ReceiveClose | packages/mock-app/src/WebSocket.ts:131-145 | CLOSED is set, the close event delivered and cleanup run, at most once; a later close changes nothing |
| MockClient.WebSocket.ReceiveError | packages/mock-app/src/WebSocket.ts:147-157 | the error is always delivered; a socket not yet CLOSING is then closed with 1006 and the error's reason |
| MockClient.WebSocket.Trigger | packages/mock-app/src/WebSocket.ts:160-195 | the calls made are exactly `Deliveries` of the event |
| MockClient.WebSocket.CallListeners | packages/mock-app/src/WebSocket.ts:180-194 | every listener of the copy is called once, in order |
| MockClient.WebSocket.Cleanup | packages/mock-app/src/WebSocket.ts:198-206 | exactly the four listeners are unsubscribed, and one `destroy-server-instance` is emitted for the URL |
| MockClient.OnlyOnHandlerIsCalled | packages/mock-app/src/WebSocket.ts:15-17 | with the listener lists as they start, only the `on<type>` property is ever called |
| MockSocket.LiveStepIsCounted | src/MockServer.ts:84-100 | on an OPEN socket, a firing is a step of the counted stream of 30 |
| MockSocket.UninterruptedStream | src/MockServer.ts:81-105 | an uninterrupted stream delivers exactly 30 chunks and then one `STREAM_END` |
| MockSocket.Deliveries | src/MockServer.ts:41-51 | one call per listener and then the `on<type>` property, which comes last |
| MockSocket.OnlyOnHandlerIsCalled | src/MockServer.ts:9-14 | with the four listener lists left empty, an event reaches the application only through its `on<type>` property, and not at all without one |
| MockSocket.MessageDeliveriesAppend | src/MockServer.ts:89-99 | delivering two runs of messages in turn makes the calls of each, in order |
| MockSocket.MessageDeliveriesOne | src/MockServer.ts:89-99 | delivering one message makes exactly the calls `_trigger` makes for that message event |
| MockSocket.ConcatMapAppend | src/MockServer.ts:89-99 | mapping each message to its calls and joining them distributes over joining the messages |
| MockSocket.DeliveriesAccumulate | src/MockServer.ts:89-99 | a call log holding the deliveries of the messages so far holds those of one more message after its delivery |
| MockSocket.MockWebSocket.constructor | src/MockServer.ts:8-26 | the socket starts CONNECTING, with four empty listener lists and only its connect timer pending |
| MockSocket.MockWebSocket.AddEventListener | src/MockServer.ts:33-38 | the listener goes to the end of its type's list, which is created when missing |
| MockSocket.MockWebSocket.SetOnHandler | src/MockServer.ts:134-137 | assigning an `on<type>` property changes nothing else |
| MockSocket.MockWebSocket.Trigger | src/MockServer.ts:41-51 | the calls made are exactly `Deliveries` of the event: every listener in order, then the `on<type>` property |
| MockSocket.MockWebSocket.Send | src/MockServer.ts:54-73 | when not OPEN, only an error is delivered; when OPEN, `START_STREAM` restarts the stream, `STOP_STREAM` clears it, and anything else changes nothing |
| MockSocket.MockWebSocket.StartMockStream | src/MockServer.ts:76-106 | a running stream timer is cleared before the first step of a new one is scheduled |
| MockSocket.MockWebSocket.Close | src/MockServer.ts:109-131 | a no-op from CLOSING on; otherwise the socket is CLOSING at once and a teardown is scheduled |
| MockSocket.MockWebSocket.FireConnect | src/MockServer.ts:22-25 | OPEN whatever the state, and one open event |
| MockSocket.MockWebSocket.FireStream | src/MockServer.ts:84-100 | the firing delivers and reschedules as `MockStep` of the count and the state says; on a socket that is not OPEN it does nothing and the handle stays |
| MockSocket.MockWebSocket.FireTeardown | src/MockServer.ts:116-130 | CLOSED, exactly one close event with code 1000, then the stream and connect timers are cleared and dropped |
| MockSocket.AtMostOneStreamTimer | src/MockServer.ts:76-105 | a valid socket has at most one pending stream timer |
| MockSocket.FireLiveStream | src/MockServer.ts:84-100 | one firing on an OPEN socket delivers the next chunk and reschedules, or delivers `STREAM_END` and stops |
| MockSocket.DeliverWholeStream | src/MockServer.ts:81-105 | a stream fired on an OPEN socket until it stops delivers exactly the first 30 chunks and then one `STREAM_END` as message events |
| MockSocket.CloseBeforeOpenReopens | src/MockServer.ts:22-25 | with an `onclose` property set, a close issued before the connect step fires is undone: the socket ends OPEN with the teardown still pending and nothing delivered |
| MockSocket.CloseTwiceDeliversTwoCloseEvents | src/MockServer.ts:109-131 | after reopening, the socket can be closed again, and `onclose` receives two close events |
| StreamServer.LiveStepIsCounted | websocket-server/server.js:38-66 | on an OPEN socket, a firing is a step of the counted stream of 50 |
| StreamServer.DeadStepIsSilent | websocket-server/server.js:39-56 | on a socket that is not OPEN, a firing sends nothing (not even `STREAM_END`) and ends the stream |
| StreamServer.UninterruptedStream | websocket-server/server.js:35-68 | an uninterrupted stream sends exactly 50 chunks and then one `STREAM_END` |
| StreamServer.Connection.constructor | websocket-server/server.js:16-93 | the handle starts empty and the greeting is the first string sent |
| StreamServer.Connection.OnMessage | websocket-server/server.js:20-72 | `START_STREAM` clears and drops a running stream and schedules a new one; any other message, `STOP_STREAM` included, changes nothing |
| StreamServer.Connection.FireStream | websocket-server/server.js:38-66 | the firing sends and reschedules as `RealStep` of the count and the socket state says |
| StreamServer.Connection.OnClose | websocket-server/server.js:74-81 | a pending stream timer is cleared and dropped |
| StreamServer.Connection.OnError | websocket-server/server.js:83-89 | a pending stream timer is cleared and dropped |
| StreamServer.Connection.SetReadyState | websocket-server/server.js:44-51 | the transport changes state, and nothing else changes |
| StreamServer.AtMostOneStreamTimer | websocket-server/server.js:29-68 | a valid connection has at most one pending stream timer, the one its handle names |
| StreamServer.DeliverWholeStream | websocket-server/server.js:35-68 | a stream fired on an OPEN connection until it stops sends exactly the first 50 chunks and then one `STREAM_END` |
| Renderer.AppendChar | packages/app/src/App.tsx:49 | the text gains exactly that one character at its end |
| Renderer.EnqueueChunk | packages/app/src/App.tsx:89 | the queue gains exactly that chunk at its tail |
| Renderer.DropHead | packages/app/src/App.tsx:140 | exactly the head is removed, and the rest keeps its order |
| Renderer.UserLine | packages/app/src/App.tsx:189-194 | the appended line carries the submitted message verbatim |
| Renderer.ConcatAppend | packages/app/src/App.tsx:44-54 | joining one more chunk appends exactly that chunk |
| Renderer.TakeHead | packages/app/src/App.tsx:137-150 | taking the head of the queue keeps the owed text equal to the shown text plus the new chunk, and keeps taken-then-queued equal to what arrived |
| Renderer.RevealShift | packages/app/src/App.tsx:44-50 | moving one character from the unrevealed rest of a chunk to the text shown keeps their concatenation |
| Renderer.App.constructor | packages/app/src/App.tsx:7-16 | nothing is shown, queued or running, and there is no socket |
| Renderer.App.ClearCharRenderInterval | packages/app/src/App.tsx:20-27 | the interval is cleared and dropped, and the chunk and index are reset; text and queue are untouched |
| Renderer.App.Tick | packages/app/src/App.tsx:38-55 | with characters left, exactly `chunk[charIndex]` is appended and the index advances; otherwise the interval is cleared |
| Renderer.App.RevealNextChar | packages/app/src/App.tsx:44-50 | exactly `chunk[charIndex]` is appended to what is shown and the index advances by one; nothing else changes |
| Renderer.App.QueueEffect | packages/app/src/App.tsx:137-150 | runs only when the queue was given a new array since its last run; then, only with no interval and a non-empty queue, the head is taken and removed exactly once and one interval starts; otherwise nothing but the due flag changes |
| Renderer.App.TakeNextChunk | packages/app/src/App.tsx:139-148 | the head becomes the current chunk from index 0, leaves the queue by a new array, and is the only chunk taken; one interval is pending |
| Renderer.App.OnOpen | packages/app/src/App.tsx:75-79 | connected, and the text is replaced by the connection notice |
| Renderer.App.OnMessage | packages/app/src/App.tsx:81-90 | `STREAM_END` only clears streaming and is never queued; any other string joins the queue's tail |
| Renderer.App.OnClose | packages/app/src/App.tsx:105-113 | both flags and the cursor are cleared, and a status line with the code is appended to the existing text |
| Renderer.App.OnError | packages/app/src/App.tsx:115-121 | both flags and the cursor are cleared, and the error line is appended to the existing text |
| Renderer.App.Connect | packages/app/src/App.tsx:58-73 | text, queue, cursor and flags are reset even when a CONNECTING or OPEN socket makes it return early; otherwise there is a new CONNECTING socket |
| Renderer.App.StartStreaming | packages/app/src/App.tsx:158-175 | only when OPEN: the queue is emptied, the cursor cleared, a line break appended, `START_STREAM` sent and streaming set |
| Renderer.App.StopStreaming | packages/app/src/App.tsx:177-183 | only when OPEN: `STOP_STREAM` is sent and streaming and the cursor cleared, and the queue is left as it is |
| Renderer.App.HandleSubmit | packages/app/src/App.tsx:185-196 | the message line is appended whatever the socket state, and then `startStreaming` runs |
| Renderer.App.Unmount | packages/app/src/App.tsx:127-133 | the cursor is cleared, and only an OPEN socket is asked to close |
| Renderer.App.SetSocketState | packages/app/src/App.tsx:66 | the socket changes state, and nothing else changes |
| Renderer.AtMostOneInterval | packages/app/src/App.tsx:137-150 | a valid renderer has at most one pending interval: the one its handle names, running while a chunk is current |
| Renderer.ConcatSplit | packages/app/src/App.tsx:44-54 | joining two runs of chunks joins their texts |
| Renderer.IdleOwesQueue | packages/app/src/App.tsx:137-150 | with no interval running no timer is pending, and the text shown followed by the queued chunks is the text at the last reset followed by everything that arrived |
| Renderer.ChunkArrivesDuringInterval | packages/app/src/App.tsx:81-90 | a chunk that arrives while the interval runs is queued, and the queue effect, finding the interval, is not due again until the queue changes |
| Renderer.LastChunkStalls | packages/app/src/App.tsx:137-150 | if the last chunk arrives during an interval and `STREAM_END` follows, then after the interval ends no timer is pending, the effect is not due, and the chunk stays queued and unshown |
| Renderer.DrainedShowsAll | packages/app/src/App.tsx:44-54 | once everything that arrived since the last reset is revealed, the text is the text at the reset followed by all the chunks, joined in arrival order |
| MockSession.Start | packages/mock-app/src/WebSocket.ts:24-40 | a new client makes the registry create one server for its URL, which schedules its connect step |
| MockSession.Connected | packages/mock-app/src/ws-server/ws.ts:108-115 | the connect step emits `server-open`, and the client becomes OPEN |
| MockSession.ServerTornDown | packages/mock-app/src/ws-server/ws.ts:124-160 | a forced close of a connected server fires its teardown: both flags drop, nothing stays pending, and `server-close` with code 1006 goes out (the first step of `MockSession.ServerCloseCompletes`; the client's reaction is applied after it) |
| MockSession.ClientCloseStalls | packages/mock-app/src/ws-server/ws.ts:83-101 | after a client close the server tears down without emitting `server-close` and all three of its listeners are gone from the bus, so nothing reaches it again; the client stays CLOSING and the server stays registered |
| MockSession.ServerCloseCompletes | packages/mock-app/src/ws-server/ws.ts:219-223 | a forced close reaches the client, which becomes CLOSED and has the registry forget the server |

## Left out

- Random generators: `generateRandomChunk`, `getRandomDelay` and `mockServerUtils` use `Math.random`. Chunks are arbitrary strings passed to the firing methods, and delays are not modelled.
- Timing: `setTimeout`/`setInterval` durations are left out. Any pending callback may fire next, so every interleaving the code allows is covered, and some that real durations would exclude are too.
- The `ws` library and the port-8080 server setup are left out. The real server's transport is a ready state plus the list of strings sent.
- Listener bodies during an emission: endpoints emit through `EmitQuiet`, and the listeners' effects on other objects are applied by hand in `MockSession`, in emission order. The nesting of synchronous calls inside `emit` is not modelled.
- Handler bodies: a call to an application handler is recorded as a `Delivery` and its body is not run. So a handler that throws inside `MockWebSocket._trigger` (which has no try/catch and would stop the remaining calls) is not modelled.
- React: rendering, effect scheduling (the queue effect is an explicit step, due only after the queue is given a new array), scrolling, `alert` and `dangerouslySetInnerHTML` are left out. The renderer's socket is a ready state plus the calls made on it, and its handlers are the `On…` methods.
- The Blob branch of `onmessage` (packages/app/src/App.tsx:91-99) is asynchronous, and its order relative to string messages is not fixed by the code.
- Logging: every `console.*` call is left out.
- `src/main.tsx` is only bootstrap.
- Module-level singletons: `eventEmitter` and `serverInstances` are explicit objects passed to constructors.
- The mock app's own emitter file is not part of this model. It is taken to be `src/MockVersion/shared/emitter.ts`.
- MockSession.ServerTornDown: its state (client still OPEN, `server-close` the last emission) exists only because listeners are applied one after another. In the program, `emit('server-close')` runs the client's `_receiveClose` and its `cleanup` (packages/mock-app/src/WebSocket.ts:131-138), and through it the registry's destroy listener and `cleanupInternal` (packages/mock-app/src/ws-server/ws.ts:19-27), all before the teardown callback returns. `MockSession.ServerCloseCompletes` states the completed close.
- MockClient.WebSocket.constructor: its table postcondition (its own four listeners added) holds only while no other listener acts during its emissions. In the program, the registry's `create-server-instance` listener subscribes the new server's listeners during that emission, and `MockSession.Start` applies this afterwards.
- Renderer.App.Tick: JavaScript's `chunk.length` and `chunk[i]` count UTF-16 code units, while a Dafny string is a sequence of characters. The two agree for characters in the Basic Multilingual Plane, which is all the chunk generators produce. A surrogate pair is revealed in one step here and in two in the program.
- Renderer.App.Connect does not model the four handlers it attaches to the new socket. Those handlers are the `On…` methods, which the environment calls.
