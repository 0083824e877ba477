# Realtime option chain: subscription and broadcast core, in Dafny

This project models the real-time core of a live option-chain application.

On the server:
- A connection manager keeps a registry of WebSocket clients (each with its subscription set and last heartbeat), an option cache and an underlying cache.
- It answers subscribe, unsubscribe and ping requests, sends a full-state snapshot on subscribe, and evicts silent clients.
- On every tick it moves the first underlying and about 10% of the options, then sends each OPEN client a delta holding only the tokens it subscribes to.
- A small service answers registry queries, a singleton holds the manager, and a generator builds the strike ladder, the chain and the random tick updates.

In the browser:
- A connection service queues subscriptions made while disconnected and flushes them on open. It pings every 30 seconds and reconnects with growing delays, up to five attempts.
- A `useWebSocket` hook merges market-data messages into a token-keyed map.
- A Redux slice and its middleware turn server messages into store actions.
- A `useOptionChain` hook groups the fetched options into a chain, picks the at-the-money (ATM) strike and a window of visible strikes, and merges live data into the chain.

How the model is built:
- One Dafny module per source file, plus `Common` (JSON-like values, object spread, truthiness, ready states) and `Protocol` (server messages and their parsed JSON form).
- Objects whose fields the source updates in place are classes with `modifies` frames: `Manager.WebSocketManager`, `ClientSocket.WebSocketService`, `Handlers.ManagerHolder` and `Middleware.WebSocketMiddleware`.
- React state and Redux reducers are pure functions from the old state to the new one.
- Each loop is a method, proved equal to a fold function (`MergeAll`, `FullMap`, `Incremental`, `Group`, `ApplyUpdates`, `Relevant`) or to a set or map comprehension. The lemmas then state what the source promises about that function.
- Timers, transport events, the clock, random draws, generated tokens and option prices are inputs. A timer firing or a transport event is a method that the environment calls.
- The slice's initial `connectionState` is 0. The comment beside it calls 0 CLOSED, but the transport numbering the code uses makes 0 CONNECTING. The model follows the numbering (`Store.Initial`).

## Model

| member | source | states |
|---|---|---|
| Pricing.GetMoneyness | backend/utils/helpers.js:77-104 | ATM exactly when the strike is within 112.5 of the underlying price; otherwise a call is ITM iff strike < price and a put iff strike > price |
| Pricing.NonCallIsPut | backend/utils/helpers.js:91-103 | every option type other than "CALL" is classified exactly as a put |
| Pricing.CallPutOpposite | backend/utils/helpers.js:77-104 | at one strike the call and put are both ATM, or one is ITM and the other OTM |
| Pricing.CalculatePercentChange | backend/utils/helpers.js:63-67 | 0 when the previous price is 0; otherwise r * previous == (current - previous) * 100 |
| Market.RawPercentChange | backend/services/dataGeneratorService.js:159-160 | the unguarded division is non-finite exactly when yesterday's price is 0, and otherwise the percentage change |
| DataGenerator.PushWhile | backend/services/dataGeneratorService.js:47-65 | each push loop of generateStrikes appends exactly the run of strikes `gap` apart up to its bound (exclusive below the center, inclusive above) |
| DataGenerator.GenerateStrikes | backend/services/dataGeneratorService.js:37-73 | the result is the ladder of `depth` strikes `gap` apart starting depth/2 gaps below the rounded center |
| DataGenerator.LadderAscending | backend/services/dataGeneratorService.js:37-73 | the generated ladder is strictly ascending, in steps of exactly `gap`, and starts depth/2 gaps below the center |
| DataGenerator.StrikesOnGrid | backend/services/dataGeneratorService.js:41-65 | the center strike sits at index depth/2, and every strike is a multiple of the gap |
| DataGenerator.GenerateOptionChainData | backend/services/dataGeneratorService.js:82-132 | a CALL then a PUT for every ladder strike, in order, each with a fresh token, the underlying's token, and moneyness against the current underlying price |
| DataGenerator.SelectIndices | backend/services/dataGeneratorService.js:140-148 | exactly min(updateCount, n) distinct indices, all below n and all drawn |
| DataGenerator.OptionUpdate | backend/services/dataGeneratorService.js:151-161 | same token, the old price as previousPrice, the new price, and the change measured against yesterday's price |
| DataGenerator.GenerateUnderlyingUpdate | backend/services/dataGeneratorService.js:172-183 | the underlying's update: same token, old price as previousPrice, change against yesterday's price |
| DataGenerator.GenerateRandomUpdates | backend/services/dataGeneratorService.js:140-165 | one update per selected distinct index, in selection order, each the update of that option at its new price |
| Manager.UpdateCount | backend/websocket/manager.js:161 | ceil(10% of the options): never more than the count, and 10c lies in [n, n+10) |
| Manager.ApplyUpdates | backend/websocket/manager.js:165-189 | applying tick updates to the cache keeps its keys and every entry's token |
| Manager.ApplyUpdatesUntouched | backend/websocket/manager.js:165-189 | an option no update names is left exactly as it was |
| Manager.ApplyUpdatesTouched | backend/websocket/manager.js:165-189 | with distinct tokens, a named option becomes its old entry with the new price, change, time and recomputed moneyness |
| Manager.Relevant | backend/websocket/manager.js:196-198 | the filter keeps exactly the updates whose token is subscribed |
| Manager.DeltaFor | backend/websocket/manager.js:192-212 | a client's delta holds exactly its subscribed option updates plus the underlying update when subscribed; it is empty iff nothing it subscribes to moved |
| Manager.UnsubscribedNeverDelivered | backend/websocket/manager.js:192-212 | after unsubscribing from tokens, no delta to that client carries an update for them |
| Manager.SubscribeIdempotent | backend/websocket/manager.js:259-284 | a second subscribe to the same tokens leaves the registry as the first left it; on an OPEN transport it only sends one more full-state snapshot of the same set, otherwise nothing |
| Manager.ChosenTokensDistinct | backend/websocket/manager.js:136-162 | updates chosen at distinct cache positions name distinct tokens |
| Manager.WebSocketManager.constructor | backend/websocket/manager.js:15-62 | no clients, no timer, and the caches hold every stored option and underlying under its token, in load order |
| Manager.WebSocketManager.LoadOptions | backend/websocket/manager.js:28-41 | every stored option is cached under its token, in insertion order |
| Manager.WebSocketManager.LoadUnderlyings | backend/websocket/manager.js:43-54 | every stored underlying is cached under its token, in insertion order |
| Manager.WebSocketManager.StartDataUpdates | backend/websocket/manager.js:109-117 | afterwards the update timer runs (idempotent) |
| Manager.WebSocketManager.StopDataUpdates | backend/websocket/manager.js:119-126 | afterwards the update timer is stopped (idempotent) |
| Manager.WebSocketManager.SendMessage | backend/websocket/manager.js:388-396 | a frame is appended to the client's transport only when it is OPEN |
| Manager.WebSocketManager.OnConnection | backend/websocket/manager.js:65-103 | registers the client with no subscriptions and heartbeat now, sends exactly one "connected" status with its id, and starts the timer when it is the only client |
| Manager.WebSocketManager.OnTransportError | backend/websocket/manager.js:92-97 | the client is dropped but the timer is left as it is |
| Manager.WebSocketManager.HandleClose | backend/websocket/manager.js:323-331 | the client is dropped and the timer stops exactly when no client is left |
| Manager.WebSocketManager.SnapshotOf | backend/websocket/manager.js:337-359 | each cached state of a subscribed token appears exactly once; unknown tokens contribute nothing |
| Manager.WebSocketManager.SendFullMarketState | backend/websocket/manager.js:333-367 | an OPEN registered client gets one full-state message holding its snapshot; otherwise nothing is sent |
| Manager.WebSocketManager.HandleSubscribe | backend/websocket/manager.js:259-284 | a non-array gets the "Invalid tokens format" error; otherwise the tokens are added to the set and a snapshot of the whole set is sent |
| Manager.WebSocketManager.HandleUnsubscribe | backend/websocket/manager.js:286-310 | a non-array gets the error; otherwise the tokens are removed and an "unsubscribed" acknowledgement echoes them |
| Manager.WebSocketManager.HandlePing | backend/websocket/manager.js:312-321 | a registered client gets a pong stamped now |
| Manager.WebSocketManager.HandleMessage | backend/websocket/manager.js:219-257 | unknown clients and unparsable frames change nothing; otherwise the heartbeat is refreshed and the request routed by type |
| Manager.WebSocketManager.CheckConnections | backend/websocket/manager.js:369-386 | evicts exactly the clients silent for more than 60000 ms, closing those still OPEN, and leaves every other client and transport alone |
| Manager.Survivors | backend/websocket/manager.js:374-383 | the registry after a sweep keeps exactly the clients not silent for over the timeout, each unchanged |
| Manager.CloseStale | backend/websocket/manager.js:374-383 | a sweep sends nothing and changes only the transports of evicted clients that were OPEN, which start closing |
| Manager.WebSocketManager.AllOptions | backend/websocket/manager.js:136 | the cached options in cache insertion order |
| Manager.WebSocketManager.BroadcastDataUpdates | backend/websocket/manager.js:128-217 | no clients: the timer stops and nothing else changes; no underlying: nothing changes; otherwise the whole tick effect (TickEffect) |
| Manager.WebSocketManager.Tick | backend/websocket/manager.js:135-213 | the first underlying moves, ceil(10%) distinct options are updated, and every registered client gets its delta |
| Manager.WebSocketManager.UpdateUnderlying | backend/websocket/manager.js:139-148 | the first cached underlying takes the new price and change and is stamped now |
| Manager.WebSocketManager.ApplyTicks | backend/websocket/manager.js:164-189 | the option cache becomes ApplyUpdates of the old cache |
| Manager.WebSocketManager.FanOut | backend/websocket/manager.js:191-213 | every OPEN registered client gets its non-empty delta; other transports are untouched |
| Handlers.ManagerHolder.constructor | backend/websocket/handlers.js:4 | no manager yet |
| Handlers.ManagerHolder.InitWebSocketManager | backend/websocket/handlers.js:10-15 | the first call builds a fresh manager with no clients and no timer; later calls return the same instance |
| Handlers.ManagerHolder.GetWebSocketManager | backend/websocket/handlers.js:22-27 | the instance iff initialised, otherwise the "WebSocket manager not initialized" error |
| Handlers.InitTwice | backend/websocket/handlers.js:10-15 | initialising twice yields the same manager |
| BackendService.SubscribersOf | backend/services/websocketService.js:32-36 | the subscribers of a token are registered clients |
| BackendService.SubscribersBounded | backend/services/websocketService.js:27-43 | a token never has more subscribers than there are clients |
| BackendService.GetConnectionCount | backend/services/websocketService.js:12-20 | the registry size, 0 before initialisation |
| BackendService.GetSubscriptionCount | backend/services/websocketService.js:27-43 | the number of clients subscribed to the token (at most the client count), 0 before initialisation |
| BackendService.BroadcastMessage | backend/services/websocketService.js:49-61 | every registered client, whatever it subscribes to, gets the message on an OPEN transport; the registry, the caches, their orders and the update timer are unchanged |
| BackendService.TriggerDataUpdate | backend/services/websocketService.js:67-75 | nothing before initialisation; otherwise exactly the manager's tick: without clients the timer stops and transports and caches stay, with clients the timer stays, without an underlying nothing changes, and otherwise the tick effect holds |
| ClientSocket.ReconnectDelayGrows | frontend/src/lib/websocket.js:262 | each reconnect wait is 1.5 times the previous one, and never below 1000 ms |
| ClientSocket.ReconnectSchedule | frontend/src/lib/websocket.js:250-271 | the waits before the five attempts are 1000, 1500, 2250, 3375 and 5062.5 ms |
| ClientSocket.Fanned | frontend/src/lib/websocket.js:280-288 | one call per registered handler, in registration order, each with the event's data |
| ClientSocket.WebSocketService.constructor | frontend/src/lib/websocket.js:23-38 | no socket, no timers, no attempts, an empty queue and five empty handler lists |
| ClientSocket.WebSocketService.GetState | frontend/src/lib/websocket.js:187-197 | CLOSED without a socket; OPEN exactly when connected |
| ClientSocket.WebSocketService.Send | frontend/src/lib/websocket.js:169-181 | true and one frame on the current socket iff connected, otherwise false and nothing sent |
| ClientSocket.WebSocketService.Subscribe | frontend/src/lib/websocket.js:121-140 | falsy input or the empty array does nothing; connected: one subscribe frame; otherwise the tokens join the queue |
| ClientSocket.WebSocketService.Unsubscribe | frontend/src/lib/websocket.js:146-163 | falsy input does nothing; otherwise the tokens always leave the queue, and a frame goes out only while connected |
| ClientSocket.WebSocketService.StartPingInterval | frontend/src/lib/websocket.js:202-212 | the ping interval runs |
| ClientSocket.WebSocketService.StopPingInterval | frontend/src/lib/websocket.js:217-222 | the ping interval is stopped |
| ClientSocket.WebSocketService.PingTimerFired | frontend/src/lib/websocket.js:204-211 | connected: a ping stamped now; otherwise the interval stops itself |
| ClientSocket.WebSocketService.On | frontend/src/lib/websocket.js:229-233 | the handler is appended to a known event's list; unknown events are ignored |
| ClientSocket.WebSocketService.Off | frontend/src/lib/websocket.js:240-244 | every registration of the handler is removed from that event's list |
| ClientSocket.WebSocketService.TriggerHandlers | frontend/src/lib/websocket.js:280-288 | calls exactly the event's handlers, in order |
| ClientSocket.WebSocketService.AttemptReconnect | frontend/src/lib/websocket.js:250-272 | after five attempts the "reconnect" handlers hear of failure and nothing is scheduled; otherwise a retry is pending after 1000 * 1.5^attempts ms |
| ClientSocket.WebSocketService.Connect | frontend/src/lib/websocket.js:43-95 | the handler lists are kept, and `ConnectEffect`: nothing while connected; otherwise the old socket's handlers are detached and a new CONNECTING socket becomes current; a constructor failure keeps the old reference, runs the error handlers and attempts a reconnect |
| ClientSocket.WebSocketService.Disconnect | frontend/src/lib/websocket.js:100-115 | the handler lists are kept, and `DisconnectEffect`: nothing without a socket; otherwise pinging and the retry stop, an OPEN or CONNECTING socket is closed, and the socket, queue and attempt count are cleared |
| ClientSocket.WebSocketService.CloseTransport | frontend/src/lib/websocket.js:109 | the socket starts closing |
| ClientSocket.WebSocketService.OnTransportOpen | frontend/src/lib/websocket.js:62-73 | for an attached socket: attempts reset, pinging starts, the "open" handlers run, and the queue goes out as one subscribe and is emptied |
| ClientSocket.WebSocketService.FlushPending | frontend/src/lib/websocket.js:67-72 | a non-empty queue is sent as one subscribe listing each queued token once, then emptied |
| ClientSocket.WebSocketService.OnTransportClose | frontend/src/lib/websocket.js:75-79 | for an attached socket: pinging stops, the "close" handlers run and a reconnect is attempted |
| ClientSocket.WebSocketService.OnTransportMessage | frontend/src/lib/websocket.js:81-86 | a frame that parses reaches the "message" handlers; one that does not reaches none |
| ClientSocket.WebSocketService.OnTransportError | frontend/src/lib/websocket.js:88-90 | the "error" handlers run for an attached socket |
| ClientSocket.WebSocketService.ReconnectTimerFired | frontend/src/lib/websocket.js:264-271 | the attempt count goes up, the "reconnect" handlers hear the new count, then connect opens a new socket |
| ClientSocket.DisconnectStillReconnects | frontend/src/lib/websocket.js:100-115 | because disconnect leaves the socket's handlers attached, the close that follows still schedules a 1000 ms reconnect |
| UseWebSocket.MarketDataSpec | frontend/src/hooks/useWebSocket.js:86-118 | ignored iff the message has no truthy `data`; an incremental merge keeps every previous key |
| UseWebSocket.MergeFields | frontend/src/hooks/useWebSocket.js:96-113 | one update changes at most the entry of the token it names, keeps every other entry, and changes nothing when it is untyped and its token was unknown before an incremental message |
| UseWebSocket.MergeStep | frontend/src/hooks/useWebSocket.js:95-96 | destructuring throws exactly on a null update; other non-objects change nothing |
| UseWebSocket.MergeAll | frontend/src/hooks/useWebSocket.js:95-114 | the forEach throws exactly when some update is null |
| UseWebSocket.HandleMarketData | frontend/src/hooks/useWebSocket.js:86-118 | the updater loop computes MarketDataSpec: throwing on a null update and skipping updates without a token |
| UseWebSocket.MergeKeys | frontend/src/hooks/useWebSocket.js:92-117 | a merge keeps every starting key and adds only tokens that the updates name |
| UseWebSocket.FullStateKeys | frontend/src/hooks/useWebSocket.js:93 | after a full state, the map holds only tokens that the message names |
| UseWebSocket.MergeUntouched | frontend/src/hooks/useWebSocket.js:95-114 | an entry no update names stays as it was |
| UseWebSocket.IncrementalKeepsUntouched | frontend/src/hooks/useWebSocket.js:93-116 | in an incremental message, a previous entry no update names is unchanged |
| UseWebSocket.UntypedUnknownDropped | frontend/src/hooks/useWebSocket.js:104-113 | an incremental message adds no unknown token unless a typed update names it |
| UseWebSocket.MergeAppend | frontend/src/hooks/useWebSocket.js:95-114 | merging two runs of updates is merging the second from the first's result |
| UseWebSocket.NoneStays | frontend/src/hooks/useWebSocket.js:96 | once an update throws, the rest of the forEach never runs |
| UseWebSocket.TypedUpdateMerged | frontend/src/hooks/useWebSocket.js:98-103 | the last typed update for a token leaves every field of its data, a fresh lastUpdated, and every other field the entry had before it |
| UseWebSocket.UntypedUpdateMerged | frontend/src/hooks/useWebSocket.js:104-113 | the last untyped update for a token known before the message (or in a full state) leaves every field of the update itself, a fresh lastUpdated, and every other field the entry had before it |
| UseWebSocket.LastNamingStep | frontend/src/hooks/useWebSocket.js:95-114 | the merge up to the last update naming a token does not throw, and that token's final entry is what that update's own step made of it |
| UseWebSocket.FieldKept | frontend/src/hooks/useWebSocket.js:104-113 | untyped updates that do not carry a field leave that field of the entry as it was, and do not throw |
| UseWebSocket.DeltaItems | backend/websocket/manager.js:206-211 | a server delta parses to a truthy array without isFullState, of untyped objects carrying exactly the tick update's four properties and naming its token |
| UseWebSocket.HookDeltaMerge | frontend/src/hooks/useWebSocket.js:86-117 | a server delta through the hook never throws and keeps the map's keys; unnamed entries stay; a named entry takes its last tick update's fields and a fresh lastUpdated; every other field (strike, moneyness, ...) is kept |
| UseWebSocket.Connect | frontend/src/hooks/useWebSocket.js:18-22 | the hook is connecting with no error; the service keeps its handler lists and does exactly `ConnectEffect` (a new CONNECTING socket unless already connected; the failure path otherwise) |
| UseWebSocket.Disconnect | frontend/src/hooks/useWebSocket.js:25-32 | the service keeps its handler lists, does exactly `DisconnectEffect` and has no socket; the hook is CLOSED with no subscriptions and no market data |
| UseWebSocket.Subscribe | frontend/src/hooks/useWebSocket.js:35-57 | non-empty tokens always join the local set; the service gets them only while connected |
| UseWebSocket.Unsubscribe | frontend/src/hooks/useWebSocket.js:60-73 | tokens always leave the local set; the service hears only while connected |
| UseWebSocket.HandleOpen | frontend/src/hooks/useWebSocket.js:123-133 | OPEN, not connecting, no error, attempt 0; a non-empty set is re-sent as one subscribe while connected, or joins the service's queue otherwise; an empty set sends and queues nothing |
| UseWebSocket.HandleClose | frontend/src/hooks/useWebSocket.js:136-139 | CLOSED and not connecting; subscriptions and market data kept |
| UseWebSocket.HandleMessage | frontend/src/hooks/useWebSocket.js:142-163 | remembers the message; only market data changes the map; an error message sets `error || "Unknown error from server"` |
| UseWebSocket.HandleReconnect | frontend/src/hooks/useWebSocket.js:172-174 | the attempt number is recorded and nothing else changes |
| UseWebSocket.HandleError | frontend/src/hooks/useWebSocket.js:166-169 | `message || "WebSocket error occurred"`, not connecting, nothing else changed |
| UseWebSocket.SendPing | frontend/src/hooks/useWebSocket.js:76-83 | a ping goes out only while connected |
| Store.Initial | frontend/src/store/optionChainStore.js:6-17 | empty market data and subscriptions; connectionState 0, which is CONNECTING |
| Store.Reduce | frontend/src/store/optionChainStore.js:23-76 | intents and other slices' actions change nothing; only the market-data and subscription reducers touch those fields; no duplicate subscription is ever introduced |
| Store.ReduceAll | frontend/src/store/optionChainStore.js:23-76 | a run of actions never introduces a duplicate subscription |
| Store.AppendKeepsNoDup | frontend/src/store/optionChainStore.js:56-60 | pushing an absent token keeps the list duplicate-free |
| Store.WithoutKeepsNoDup | frontend/src/store/optionChainStore.js:61-65 | filtering keeps the list duplicate-free |
| Store.AddSubscriptionSpec | frontend/src/store/optionChainStore.js:56-60 | the token joins the set, is appended only when absent, and the earlier order is kept |
| Store.WithoutAppend | frontend/src/store/optionChainStore.js:61-65 | the filter distributes over concatenation, so kept tokens keep their order |
| Store.WithoutAbsent | frontend/src/store/optionChainStore.js:61-65 | removing an unsubscribed token changes nothing |
| Store.WithoutElems | frontend/src/store/optionChainStore.js:61-65 | the filter removes the token and keeps every other |
| Store.RemoveSubscriptionSpec | frontend/src/store/optionChainStore.js:61-65 | every copy of the token goes, every other stays, and repeating it does nothing |
| Store.UpdateMarketDataSpec | frontend/src/store/optionChainStore.js:45-52 | only that token's entry changes: old fields the data lacks are kept, data fields win, lastUpdated is now |
| Store.MergedEntry | frontend/src/store/optionChainStore.js:47-51 | the new entry has lastUpdated now, every field of the data, every other old field, and no field from elsewhere |
| Store.SetFullMarketDataSpec | frontend/src/store/optionChainStore.js:53-55 | the map is replaced and nothing else changes |
| Store.ResetStateSpec | frontend/src/store/optionChainStore.js:69-71 | any state returns to the initial state, so reset is idempotent |
| Store.SetterSpec | frontend/src/store/optionChainStore.js:24-68 | a setter writes its payload to its own field and leaves every other field alone |
| Middleware.MarketDataSpec | frontend/src/store/websocketMiddleware.js:69-98 | nothing without data; a full state dispatches at most one action, and that action is setFullMarketData |
| Middleware.HandleMarketData | frontend/src/store/websocketMiddleware.js:69-98 | the two loops dispatch exactly MarketDataSpec, including the dispatches made before a null update throws |
| Middleware.FullMapNoneStays | frontend/src/store/websocketMiddleware.js:78-86 | once an update throws, the full-state map is never built |
| Middleware.IncrementalThrewStays | frontend/src/store/websocketMiddleware.js:91-96 | after a throw, no further update is dispatched |
| Middleware.FullMapKeys | frontend/src/store/websocketMiddleware.js:77-88 | the full-state map has an entry for exactly the tokens the updates name |
| Middleware.FullMap | frontend/src/store/websocketMiddleware.js:77-86 | building the full-state map throws exactly when some update is null |
| Middleware.Incremental | frontend/src/store/websocketMiddleware.js:90-96 | throws exactly when some update is null; at most one updateMarketData per update, each for a non-empty token |
| Middleware.FullMapEntry | frontend/src/store/websocketMiddleware.js:79-85 | each entry is the last update naming its token: its data fields plus lastUpdated |
| Middleware.DeltaDispatch | frontend/src/store/websocketMiddleware.js:91-96 | a server delta dispatches one data-less updateMarketData per token, in order, without throwing |
| Middleware.StampTwice | frontend/src/store/optionChainStore.js:45-52 | stamping an already stamped entry at the same time changes nothing |
| Middleware.StampStep | frontend/src/store/optionChainStore.js:45-52 | one more data-less update extends the set of stamped tokens |
| Middleware.TickActionsStamp | frontend/src/store/websocketMiddleware.js:91-96 | reducing a delta's actions stamps exactly its tokens and leaves the rest of the store alone |
| Middleware.StampOnlyTouchesLastUpdated | frontend/src/store/optionChainStore.js:45-52 | a data-less update changes only lastUpdated of its entry |
| Middleware.DeltaOnlyStamps | frontend/src/store/websocketMiddleware.js:89-97 | a server delta, through middleware and reducer, never throws, changes only lastUpdated of its tokens' entries, and changes nothing else in the store |
| Middleware.Registered | frontend/src/store/websocketMiddleware.js:21-52 | one listener each is appended to open, close, message and error; other lists are kept |
| Middleware.WebSocketMiddleware.constructor | frontend/src/store/websocketMiddleware.js:10-11 | not yet initialised |
| Middleware.WebSocketMiddleware.EnsureListeners | frontend/src/store/websocketMiddleware.js:17-53 | the four listeners are registered on the first action only |
| Middleware.WebSocketMiddleware.Dispatch | frontend/src/store/websocketMiddleware.js:13-66 | every action is forwarded unchanged; the four listeners are registered on the first action of any kind and never again; connect and disconnect do exactly `ConnectEffect` and `DisconnectEffect`; subscribe and unsubscribe do what the service's methods do, falsy or empty input included; other actions leave the rest of the service alone |
| Middleware.WebSocketMiddleware.OnOpen | frontend/src/store/websocketMiddleware.js:21-29 | dispatches OPEN and re-sends non-empty stored subscriptions through the service |
| Middleware.OnClose | frontend/src/store/websocketMiddleware.js:32-34 | dispatches CLOSED |
| Middleware.OnMessage | frontend/src/store/websocketMiddleware.js:37-48 | market data goes through handleMarketData, an error becomes `setError(error || "Unknown WebSocket error")`, anything else dispatches nothing |
| Middleware.OnError | frontend/src/store/websocketMiddleware.js:50-52 | dispatches `setError(message || "WebSocket error")` |
| UseOptionChain.ClosestSpec | frontend/src/hooks/useOptionChain.js:31-36 | the reduce picks a strike at least distance from the price, the earliest among ties |
| UseOptionChain.Closest | frontend/src/hooks/useOptionChain.js:31-36 | the reduce returns a strike of the list, no farther from the price than any other |
| UseOptionChain.FindAtmStrike | frontend/src/hooks/useOptionChain.js:28-37 | null iff no strikes or a falsy price; otherwise a strike of the list |
| UseOptionChain.IndexOf | frontend/src/hooks/useOptionChain.js:43 | the first index holding the strike, or -1 iff absent |
| UseOptionChain.WindowStart | frontend/src/hooks/useOptionChain.js:46-55 | the window fits the list, contains the ATM index, is centred when it can be, clamps to 0, and is pulled back to end at the list's end |
| UseOptionChain.GetVisibleStrikes | frontend/src/hooks/useOptionChain.js:39-60 | [] without strikes or ATM; the first `count` when the ATM is absent; otherwise min(count, n) consecutive strikes containing the ATM |
| UseOptionChain.WindowAscending | frontend/src/hooks/useOptionChain.js:57 | a slice of an ascending list is ascending |
| UseOptionChain.VisibleStrikesAscending | frontend/src/hooks/useOptionChain.js:39-60 | the visible strikes of ascending strikes are ascending |
| UseOptionChain.GroupKeys | frontend/src/hooks/useOptionChain.js:76-86 | the chain has a row for exactly the distinct strikes |
| UseOptionChain.GroupCells | frontend/src/hooks/useOptionChain.js:76-86 | each cell holds an option of the list with that strike and type |
| UseOptionChain.GroupLast | frontend/src/hooks/useOptionChain.js:85 | the last option of each strike and type is the one kept |
| UseOptionChain.Insert | frontend/src/hooks/useOptionChain.js:78-89 | adding a strike keeps the list strictly ascending and adds exactly that strike |
| UseOptionChain.AscendingUnique | frontend/src/hooks/useOptionChain.js:89 | two strictly ascending lists with the same strikes are equal, so the sorted strikes are determined |
| UseOptionChain.GroupOptions | frontend/src/hooks/useOptionChain.js:73-90 | the loop builds the grouped chain and its distinct strikes, ascending |
| UseOptionChain.SubscriptionTokens | frontend/src/hooks/useOptionChain.js:114-115 | the underlying's token, then every option's, in list order |
| UseOptionChain.LoadOptionChain | frontend/src/hooks/useOptionChain.js:62-128 | failure records `message || "Failed to load option chain"`; success sets the chain, sorted strikes, ATM, window, connect-if-disconnected and the subscription list |
| UseOptionChain.MergeChain | frontend/src/hooks/useOptionChain.js:147-159 | merging keeps every strike and type |
| UseOptionChain.MergeChainSpec | frontend/src/hooks/useOptionChain.js:139-160 | merging keeps each option's token, strike and type, leaves options with no data alone, and is idempotent |
| UseOptionChain.MergeMarketData | frontend/src/hooks/useOptionChain.js:131-195 | no chain or no data: unchanged; no match: unchanged; otherwise the merged chain, and, when the underlying matched, its merged quote and a recomputed ATM and window only if the ATM moved |
| UseOptionChain.ApplyEntries | frontend/src/hooks/useOptionChain.js:134-160 | the entries loop yields the merged chain, flags the underlying iff its token has data, and needs an update iff something matched |
| UseOptionChain.FormattedData | frontend/src/hooks/useOptionChain.js:203-217 | one row per visible strike, with its call, put and ATM flag; none without a chain or window |
| UseOptionChain.OneAtmRow | frontend/src/hooks/useOptionChain.js:203-217 | an ascending window holding the ATM strike marks exactly one row ATM |
| Common.WithoutCount | frontend/src/store/optionChainStore.js:61-65 | the filter drops every copy of the token and keeps every other element as often as it occurs |
| Common.SetToSeq | frontend/src/lib/websocket.js:68 | `Array.from` of a set lists each element exactly once |
| Common.Spread | frontend/src/hooks/useOptionChain.js:142 | `{...a, ...b}` has the properties of both, with b's value where both have one |
| Protocol.Encode | backend/websocket/manager.js:338-365 | a full state is a marketData message with a truthy isFullState and one entry object per snapshot entry; a delta is a marketData message without it, one update object per tick update; every other server message has a string type other than marketData |

## Left out

- Floating point. Prices are exact reals, so `toFixed(2)` rounding, `Math.pow`, and NaN/Infinity arithmetic beyond the division by a zero yesterday price are not modelled.
- Pricing.CalculatePercentChange: does not round to two decimals.
- Randomness and generated values: `generateRandomPrice`, `calculateOptionPrice`, `generateToken`, the random draws, and the client id taken from a header or the clock. They are parameters.
- `generateUnderlyingData` is not modelled: it is one random price and one formula. Its record is the `UnderlyingData` input of `GenerateOptionChainData`.
- DataGenerator.GenerateOptionChainData: states each option's strike, type, token, underlying token and moneyness, but not its prices. Those come from the price formula passed in.
- Persistence: the Option and Underlying database reads and writes, and the `try/catch` around them. The cache is loaded from its input lists, which the schemas make unique by token.
- Asynchrony: every `await` and callback runs to completion as one step, and timers are method calls the environment makes. Interleavings within a tick are not modelled.
- Logging.
- Manager.WebSocketManager.SnapshotOf: specifies which entries a snapshot holds (each once), not their order. The order follows the subscription set's insertion order, which the model's sets do not keep.
- ClientSocket.WebSocketService.FlushPending: the same applies to the order of the replayed queue.
- ClientSocket.WebSocketService.OnTransportOpen: the same as FlushPending.
- UseWebSocket.HandleOpen: the same as FlushPending.
- ClientSocket.WebSocketService.ReconnectTimerFired: states the attempt count, the notification and the new socket. The rest of that connect is stated by `Connect`.
- The branch of `connect` that closes an OPEN socket (frontend/src/lib/websocket.js:54-56) is unreachable: connect returns earlier in that case.
- `send` swallowing a `JSON.stringify` failure: every modelled message serialises.
- React effects:
  - The `useEffect` that registers and removes the hook's five handlers on every change of its subscriptions, and the `getState` it reads then, are not modelled.
  - The handlers are modelled as functions applied to the hook state.
  - The React batching of the hook's intermediate states (`isLoading` true during a load) is not modelled.
- UseOptionChain.LoadOptionChain: a failure is the fetch's failure. A throw while processing a malformed response is not modelled separately.
- Values:
  - Tokens are strings.
  - A strike is a number, used directly as a map key: the source's object keys are the strike's string form, and its sort is numeric.
  - `Stamp` stands for both a `Date` and its ISO string.
  - Spreading a string or array spreads nothing: only objects contribute fields.
  - A display count is a natural number.
- UseWebSocket.HandleMessage: a merge that throws (a `null` update, or a `data` that is not an array) is given as leaving the map unchanged. In the hook the TypeError escapes the `setMarketData` updater into React's render, and nothing in the frontend catches it there, so the component fails. React rendering is not modelled.
- UseOptionChain.MergeMarketData: models one run of the market-data effect. The effect depends on `optionChain` and `underlying`, and a matching entry makes it set both to fresh objects. So React runs the effect again after each matching merge, and it keeps re-rendering while the market data holds a matching token. `MergeChainSpec` shows that each re-run produces an equal value. React compares dependencies by identity, and this re-run cycle is not modelled.
- UseOptionChain.MergeChain: live data is spread over an option's other fields. The option's own token, strike and type stay as fetched; the source's live entries repeat those unchanged.
- The backend's environment overrides of `STRIKE_GAP`, `STRIKE_DEPTH` and `UNDERLYING_BASE_VALUE`: the defaults 100, 75 and 22500 are used.
