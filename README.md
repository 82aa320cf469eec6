# Order execution engine — verified model

The system accepts market orders over HTTP, validates them, stores them, and queues one job per order.

A worker processes each job:
- It asks two mock decentralised exchanges (Raydium and Meteora) for a quote and routes the order to the better one.
- It simulates the swap.
- It moves the order through `pending → routing → building → submitted → confirmed`, or to `failed`.
- At every step it writes the order's row in Postgres and publishes a status update.

An in-process event emitter delivers each update to the listeners of connected WebSocket clients. It then appends the update to a Mongo event log. A WebSocket client subscribes to one order id and gets a snapshot of the stored order, then every later update for that order. The browser page folds those messages into its order list. It closes a connection shortly after a terminal status.

The model has one Dafny module per source file:

| module | file | form |
|---|---|---|
| `Domain` | `order.dfy` | order type, the six statuses, the order constructor (pure) |
| `Routes` | `routes.dfy` | request schema as a predicate; the POST handler as a function and a method over the table and the queue |
| `DexRouter` | `router.dfy` | quotes, best-quote choice, transaction hash and swap price (pure; random draws are a parameter `rnd: nat -> real`) |
| `Postgres` | `postgres.dfy` | row layout, insert/read mapping, the imperative SET-clause builder, and class `OrderTable` |
| `OrderQueue` | `queue.dfy` | the job record and class `JobQueue` |
| `Sockets` | `sockets.dfy` | frames, the per-connection listener and class `SocketTable` |
| `OrderEvents` | `events.dfy` | class `StatusBus` (listener registry plus append-only log) and the delivery lemmas |
| `Gateway` | `gateway.dfy` | the WebSocket connection handler |
| `OrderWorker` | `worker.dfy` | the job handler, as a specification (a run of effects, with injected faults) and as an imperative method over the table, bus and sockets |
| `Client` | `client.dfy` | the page's list reducers and class `Connections` (the page's map of open sockets) |

`Wrappers` (Option, Result, Outcome) and `Json` (JSON values) are shared support modules.

How outside behaviour is represented:
- **Randomness, ids and clocks are parameters:**
  - `Math.random` is the draw sequence `rnd`;
  - `randomUUID()` is `newId`;
  - `new Date()` is a `Timestamp` (an `int`), or the worker's `clock` per step.
- **Backend failures are explicit inputs:**
  - a database or queue that is down is a boolean;
  - in the worker, the step at which something throws is the key of a `faults` map.
- **Numbers are `real`.** The model proves the price formulas and bounds, not IEEE rounding.

## Model

| member | source | states |
|---|---|---|
| Domain.ParseStatus | backend/src/domain/order.ts:7-13 | a status text is accepted exactly when it is one of the six status names, and it decodes to that status |
| Domain.ParseSide | backend/src/domain/order.ts:5 | only `buy` and `sell` decode, each to its side |
| Domain.ParseType | backend/src/domain/order.ts:3 | only `market` is an order type |
| Domain.ParseDex | backend/src/domain/order.ts:24 | only `raydium` and `meteora` name a venue |
| Domain.StatusNamesDistinct | backend/src/domain/order.ts:7-13 | two statuses have the same name exactly when they are the same status |
| Domain.Stage | backend/src/domain/order.ts:7-13 | the non-failed statuses are ranked 0..4, with pending first and confirmed last |
| Domain.TerminalHasNoSuccessor | backend/src/domain/order.ts:7-13 | confirmed and failed permit no forward step |
| Domain.CreateNewMarketOrder | backend/src/domain/order.ts:32-59 | a new order is a pending market order with the given id; its parameters are copied unchanged; created and updated times are both `now`; no dex, price, hash or failure reason is set |
| Domain.NewOrderIsDetermined | backend/src/domain/order.ts:41-52 | every order with the fresh-order shape is the constructor's result for its own parameters, id and time |
| Routes.ParseAcceptsExactlyValid | backend/src/routes/orders.ts:7-13 | the schema accepts a body exactly when the side is buy/sell, both tokens are non-empty, amountIn > 0 and 0 ≤ maxSlippageBps ≤ 10000; the parsed value carries exactly those fields |
| Routes.IssuesNameTheInvalidFields | backend/src/routes/orders.ts:7-13 | a rejection lists at least one issue; an issue names amountIn or maxSlippageBps exactly when that field breaks its rule |
| Routes.BoundaryValues | backend/src/routes/orders.ts:11-12 | slippage 0 and 10000 are accepted; amountIn 0 is rejected with a single too-small issue |
| Routes.UnknownKeysAreStripped | backend/src/routes/orders.ts:7-13 | keys outside the schema do not change the parse |
| Routes.StatusCode | backend/src/routes/orders.ts:37-49 | the handler only ever answers 202, 400 or 500 |
| Routes.ExecuteOrder | backend/src/routes/orders.ts:16-51 | the imperative handler leaves the response, table and queue that the handler's function prescribes |
| Routes.InvalidBodyChangesNothing | backend/src/routes/orders.ts:19-43 | an invalid body gets 400 "Validation failed" with a non-empty issue list; nothing is stored or queued |
| Routes.AcceptedMeansStoredThenQueued | backend/src/routes/orders.ts:22-37 | 202 happens exactly when the body is valid, the id is new, the slippage is whole and both backends answer. The answer then carries the new id, the stored row reads back as the order built from the body, and exactly one job for that id is appended |
| Routes.ServerErrorEnqueuesNothing | backend/src/routes/orders.ts:44-49 | any other failure of a valid body is 500 "Internal server error" and queues nothing; the row stays only if the enqueue was what failed |
| Routes.FractionalSlippageIsServerError | backend/src/routes/orders.ts:12 | a fractional slippage passes the schema, the INTEGER column rejects it, and the request gets 500 |
| DexRouter.RaydiumPriceRange | backend/src/dex/mockDexRouter.ts:19-34 | for a draw in [0,1] the Raydium price lies in [0.98·base, 1.02·base] |
| DexRouter.MeteoraPriceRange | backend/src/dex/mockDexRouter.ts:36-51 | for a draw in [0,1] the Meteora price lies in [0.97·base, 1.02·base] |
| DexRouter.RaydiumQuote | backend/src/dex/mockDexRouter.ts:26-27 | a Raydium quote names Raydium and charges fee 0.003 |
| DexRouter.MeteoraQuote | backend/src/dex/mockDexRouter.ts:43-44 | a Meteora quote names Meteora and charges fee 0.002 |
| DexRouter.GetBestQuote | backend/src/dex/mockDexRouter.ts:53-67 | `all` is [raydium, meteora], the best quote is one of them with the highest price, and Raydium is chosen exactly when its price is strictly higher |
| DexRouter.MaximalDrawsTieToMeteora | backend/src/dex/mockDexRouter.ts:64 | on equal prices (both 1.02) Meteora is chosen |
| DexRouter.NatHex | backend/src/dex/mockDexRouter.ts:78 | `toString(16)` yields lowercase hex digits, one digit below 16 and at least two from 16 up |
| DexRouter.HashDigitIsOneHexChar | backend/src/dex/mockDexRouter.ts:78 | a draw in [0,1) gives exactly one hex digit |
| DexRouter.ConcatOfSingles | backend/src/dex/mockDexRouter.ts:77-79 | joining one-character strings gives a string of their characters, one per string |
| DexRouter.HashDigitList | backend/src/dex/mockDexRouter.ts:77-78 | 64 digits taken from draws 1..64, in order |
| DexRouter.TxHashWellFormed | backend/src/dex/mockDexRouter.ts:77-79 | for draws in [0,1) the hash is "0x" followed by 64 lowercase hex digits (66 characters) |
| DexRouter.ConcatOfCopies | backend/src/dex/mockDexRouter.ts:77-79 | joining n copies of one string repeats it n times |
| DexRouter.DrawOfOneBreaksHashFormat | backend/src/dex/mockDexRouter.ts:78 | a draw of exactly 1 would give two characters per digit, so such a hash has length 130 |
| DexRouter.ExecuteSwap | backend/src/dex/mockDexRouter.ts:69-88 | when the digit draws 1..64 lie in [0,1), the swap's hash is "0x" and 64 lowercase hex digits; when the price draw (draw 65, after the latency draw) lies in [0,1], the executed price is within [0.99·base, 1.01·base] |
| DexRouter.SwapPriceRange | backend/src/dex/mockDexRouter.ts:82 | the executed price lies in [0.99·base, 1.01·base], and is positive when the base price is |
| Postgres.InsertParams | backend/src/infra/postgres.ts:50-65 | 14 parameters in column order; the optional fields are NULL exactly when absent |
| Postgres.ParamsFitWhenWhole | backend/src/infra/postgres.ts:41-67 | the parameters fit the column types whenever the slippage is whole |
| Postgres.ParamsReadBack | backend/src/infra/postgres.ts:41-67 | the row built from an order's insert parameters reads back as that same order |
| Postgres.InsertReadsBack | backend/src/infra/postgres.ts:41-67 | the insert succeeds exactly when the id is new and the slippage is whole; the new row then reads back as the order and no other row changes |
| Postgres.PatchFieldsWellOrdered | backend/src/infra/postgres.ts:78-100 | the defined patch fields come in the order chosenDex, executedPrice, txHash, failureReason |
| Postgres.NumberedClausesSnoc | backend/src/infra/postgres.ts:76-99 | each new clause takes the next parameter number, which names the value pushed with it |
| Postgres.BuildStep | backend/src/infra/postgres.ts:78-100 | one guarded push keeps the builder's invariant (clauses, values and index agree with the fields seen so far) |
| Postgres.PushIfDefined | backend/src/infra/postgres.ts:78-82 | an undefined field changes nothing; a defined field appends its clause at the current index and its value, and advances the index |
| Postgres.BuildStatusUpdate | backend/src/infra/postgres.ts:69-106 | the imperative builder produces exactly the statement that the status-update specification describes |
| Postgres.StatementParams | backend/src/infra/postgres.ts:74-76 | the statement starts with `status = $2` and `updated_at = $3`, the values start with [orderId, status, now], and there are 3 + (number of fields) values |
| Postgres.NatText | backend/src/infra/postgres.ts:79 | a parameter number is written as decimal digits, one digit exactly below 10 |
| Postgres.NatTextReadsBack | backend/src/infra/postgres.ts:79 | the decimal text of a parameter number reads back as that number, so distinct parameters get distinct `$k` names |
| Postgres.StatusUpdateText | backend/src/infra/postgres.ts:74-100 | the SET items read `status = $2`, `updated_at = $3`, then `<column> = $k` for each defined field with k counting from 4 |
| Postgres.BareSetItems | backend/src/infra/postgres.ts:74 | without patch fields the SET items are exactly `status = $2` and `updated_at = $3` |
| Postgres.JoinPair | backend/src/infra/postgres.ts:103 | `join` of two items puts the separator between them |
| Postgres.BareStatusUpdateText | backend/src/infra/postgres.ts:102-105 | a bare status change sends `UPDATE orders SET status = $2, updated_at = $3 WHERE id = $1` |
| Postgres.StatusUpdateShape | backend/src/infra/postgres.ts:74-100 | the clause and value lists of the built statement: one clause per defined field, numbered from 4 |
| Postgres.PatchStatementBinds | backend/src/infra/postgres.ts:76-99 | every `$k` of the statement names an existing value of the right column type |
| Postgres.PatchStatementAssigns | backend/src/infra/postgres.ts:102-105 | binding the statement assigns status, updated_at and then each defined field to its value |
| Postgres.Assignments | backend/src/infra/postgres.ts:102-105 | there is one assignment per clause, and each is type-correct |
| Postgres.AssignAppend | backend/src/infra/postgres.ts:102-105 | assigning a + b is assigning a, then b |
| Postgres.AssignPresent | backend/src/infra/postgres.ts:78-100 | assigning an optional field sets the column when defined and leaves the row alone otherwise |
| Postgres.AssignPatchFields | backend/src/infra/postgres.ts:78-100 | the patch's assignments set exactly its defined fields |
| Postgres.AssignStatusUpdate | backend/src/infra/postgres.ts:102-105 | the full assignment list is type-correct and overwrites status, updated_at and the defined fields |
| Postgres.UpdateMeetsPatchSpec | backend/src/infra/postgres.ts:102-105 | running the statement patches the row with that id (status, time, defined fields only) and leaves every other row unchanged; a missing id changes nothing |
| Postgres.PatchKeepsDecodable | backend/src/infra/postgres.ts:69-106 | a patched row still decodes, and reads back with the new status |
| Postgres.PatchFields | backend/src/infra/postgres.ts:78-100 | a patch has at most the four optional fields |
| Postgres.OrderTable.constructor | backend/src/infra/postgres.ts:16-31 | an empty table meets the invariant that every row decodes |
| Postgres.OrderTable.InsertOrder | backend/src/infra/postgres.ts:41-67 | the rows become the insert's result on success, and are unchanged with the error on failure; the invariant is kept |
| Postgres.OrderTable.UpdateOrderStatus | backend/src/infra/postgres.ts:69-106 | the row with the id is patched, or nothing changes when there is none; the invariant is kept |
| Postgres.OrderTable.GetOrderById | backend/src/infra/postgres.ts:108-136 | null exactly when no row has the id; otherwise the order decoded from that row, with that id |
| OrderQueue.OrderJob | backend/src/queue/orderQueue.ts:6-15 | a job is named processOrder, carries the order id, and allows 3 attempts with a 1000 ms backoff |
| OrderQueue.JobIds | backend/src/queue/orderQueue.ts:6-15 | the queued ids are the jobs' ids, in order |
| OrderQueue.JobIdsAppend | backend/src/queue/orderQueue.ts:6-15 | the ids of appended queues are the appended ids |
| OrderQueue.JobQueue.constructor | backend/src/queue/orderQueue.ts:4 | the queue starts empty |
| OrderQueue.JobQueue.AddOrderToQueue | backend/src/queue/orderQueue.ts:6-15 | when the queue is up, exactly one job for the id is appended after the existing ones; otherwise nothing is queued |
| Sockets.Forward | backend/src/index.ts:77-81 | the listener sends the update to its socket exactly when the update is for its order and the socket is open, and otherwise sends nothing |
| Sockets.MessagesTo | backend/src/index.ts:77-81 | a connection receives at most one message per frame written |
| Sockets.MessagesToAppend | backend/src/index.ts:77-81 | the messages to a connection from two frame sequences are those of the first followed by those of the second |
| Sockets.SocketTable.constructor | backend/src/index.ts:39 | no connection has been seen, none is open, and nothing has been written |
| Sockets.SocketTable.Send | backend/src/index.ts:56 | the frame is appended to the wire |
| OrderEvents.RecordOf | backend/src/infra/mongo.ts:40-51 | the log record carries the update's orderId, status and data, stamped with the time |
| OrderEvents.Deliveries | backend/src/ws/orderEvents.ts:16 | an emit writes at most one frame per registered listener |
| OrderEvents.ForOrder | backend/src/index.ts:78 | the updates one subscriber should see are the updates of the stream that are for its order |
| OrderEvents.LastIndexOf | backend/src/index.ts:88 | the position of a listener's last registration, or -1 exactly when it is not registered |
| OrderEvents.RemoveLast | backend/src/index.ts:88 | `off` removes exactly the most recent registration of the listener and keeps every other one, in order; an unregistered listener leaves the registry unchanged; as a multiset, one copy of the listener is taken away |
| OrderEvents.DeliveriesAppend | backend/src/ws/orderEvents.ts:16 | delivery follows the registration order: the listeners of a + b are served as a, then b |
| OrderEvents.DeliveriesCarryTheUpdate | backend/src/ws/orderEvents.ts:16 | every frame an emit writes carries the emitted update unchanged, to an open connection registered for that order |
| OrderEvents.NoListenerNoMessages | backend/src/ws/orderEvents.ts:16 | a connection with no registered listener receives nothing from an emit |
| OrderEvents.MessagesToForward | backend/src/index.ts:77-81 | one listener's message to a connection is the update exactly when it is that listener's connection, the order matches and the socket is open |
| OrderEvents.InitKeepsOnePerConnection | backend/src/index.ts:83 | dropping the newest listener keeps one listener per connection |
| OrderEvents.LastIsOnlyListener | backend/src/index.ts:83 | the newest listener is its connection's only one |
| OrderEvents.OneMessagePerSubscriber | backend/src/ws/orderEvents.ts:16 | with one listener per connection, an emit sends a connection the update when its listener wants it, and nothing otherwise |
| OrderEvents.SubscriberSeesItsOrderInOrder | backend/src/ws/orderEvents.ts:15-18 | over any sequence of emits, an open subscriber receives exactly the updates for its order, in emit order |
| OrderEvents.DetachedSeesNothing | backend/src/index.ts:86-94 | a connection whose listener was removed receives nothing from any later emit |
| OrderEvents.SubscribersOfOneOrderAgree | backend/src/index.ts:77-83 | two open subscribers of the same order receive the same messages |
| OrderEvents.SkipForeignListener | backend/src/index.ts:77-81 | a listener of another connection adds nothing to what a connection receives |
| OrderEvents.DetachLeavesOthersAlone | backend/src/index.ts:86-94 | removing one connection's listener leaves what every other connection receives from a publication unchanged |
| OrderEvents.DetachLeavesOthersAloneOverRun | backend/src/index.ts:86-94 | the same over any run of publications |
| OrderEvents.SurvivorSeesItsOrderInOrder | backend/src/index.ts:77-94 | after another connection detaches, an open subscriber still receives exactly its own order's updates, in publication order |
| OrderEvents.OffDetaches | backend/src/index.ts:88 | removing a connection's listener leaves that connection with none and keeps one listener per connection |
| OrderEvents.StatusBus.constructor | backend/src/ws/orderEvents.ts:13 | no listeners and an empty log |
| OrderEvents.StatusBus.On | backend/src/index.ts:83 | the listener is appended to the registry |
| OrderEvents.StatusBus.Off | backend/src/index.ts:88 | the registry loses the listener's last registration |
| OrderEvents.StatusBus.EmitStatusUpdate | backend/src/ws/orderEvents.ts:15-18 | every registered listener is served in order first, whether or not the log append then fails; on success exactly one record is appended to the log, and the earlier records are unchanged |
| Gateway.ExtractOrderId | backend/src/index.ts:42-45 | a single non-empty value is the id; a repeated parameter's id is its first value if that is non-empty; an absent, empty or empty-first id is no id |
| Gateway.RepeatedIdUsesFirstValue | backend/src/index.ts:43 | a repeated `orderId` behaves as its first value alone |
| Gateway.SnapshotData | backend/src/index.ts:60-68 | the snapshot data has the seven listed fields; absent dex, hash and reason are null, and an absent executed price is omitted |
| Gateway.Snapshot | backend/src/index.ts:56-70 | the snapshot carries the order's id, status and data |
| Gateway.NewOrderSnapshot | backend/src/index.ts:56-70 | a freshly submitted order's snapshot is pending, with its parameters and null execution fields |
| Gateway.Greeting | backend/src/index.ts:45-74 | a missing id closes with 1008 "orderId required"; otherwise exactly the snapshot is sent when the lookup finds the order, and nothing when it finds none or throws |
| Gateway.RegisterKeepsInvariant | backend/src/index.ts:83 | a new connection's listener keeps one listener per accepted connection |
| Gateway.OnConnection | backend/src/index.ts:41-95 | the socket writes are the greeting. A missing id adds no listener and leaves the socket closed; otherwise the socket is open and exactly one listener for that id is registered, even when no order was found |
| Gateway.OnClose | backend/src/index.ts:86-89 | the socket is closed and its listener removed, so the connection has no listener left |
| Gateway.OnError | backend/src/index.ts:91-94 | the listener is removed, so the connection has no listener left |
| Gateway.Detach | backend/src/index.ts:88 | the connection's listener is removed and the registry invariant is kept |
| Gateway.RemoveKeepsAccepted | backend/src/index.ts:88 | removing a listener keeps every remaining one on an accepted connection |
| OrderWorker.FailureReason | backend/src/workers/orderWorker.ts:106-107 | an Error's message, or "Unknown error" for any other thrown value |
| OrderWorker.FaultAt | backend/src/workers/orderWorker.ts:21-124 | a step throws exactly when a fault is injected there, and throws that fault |
| OrderWorker.PlannedAttempt | backend/src/workers/orderWorker.ts:33-101 | a step of the try block throws exactly when a fault is injected at it |
| OrderWorker.CatchBlock | backend/src/workers/orderWorker.ts:105-124 | the catch path always ends the job in failure |
| OrderWorker.LoadError | backend/src/workers/orderWorker.ts:23-27 | loading raises nothing exactly when the lookup does not throw and finds the order |
| OrderWorker.NextStopsAtFirstFault | backend/src/workers/orderWorker.ts:33-101 | one more step keeps the invariant that the run so far is the planned prefix up to the first fault |
| OrderWorker.TryBlockStopsAtFirstFault | backend/src/workers/orderWorker.ts:21-104 | the try block performs the planned steps in order and stops right after the first one that throws |
| OrderWorker.RunSucceeds | backend/src/workers/orderWorker.ts:16-125 | a job succeeds exactly when the order exists and no step throws. Its effects are then the 11 planned steps, in order: the writes routing{dex}, building, submitted, confirmed{hash, price} and the emits pending, routing, routing+quotes, building, building, submitted, confirmed |
| OrderWorker.EffectStatus | backend/src/workers/orderWorker.ts:33-101 | the status a write stores or an emit announces |
| OrderWorker.StageAt | backend/src/workers/orderWorker.ts:33-101 | the pipeline stage of each planned step |
| OrderWorker.PlanFollowsStateMachine | backend/src/workers/orderWorker.ts:33-101 | the planned steps start pending and end confirmed, never mention failed, and never go backwards: each step keeps the status or advances it by one, and the stage is non-decreasing |
| OrderWorker.PlanUsesOneVenue | backend/src/workers/orderWorker.ts:39-101 | the stored dex, the swap's venue and the confirmed event's dex are all the best quote's dex; the confirmed write and event carry the swap's hash and price |
| OrderWorker.FailedRunShape | backend/src/workers/orderWorker.ts:21-124 | a failed job is a planned prefix that stops at the first fault, then the write of failed with the reason, then (if that write did not throw) the emit of failed with `{error}`, then the rethrow of the first error |
| OrderWorker.MissingOrderFails | backend/src/workers/orderWorker.ts:23-27 | a missing order fails with "Order … not found", writes failed and emits nothing but failed |
| OrderWorker.LastWritten | backend/src/workers/orderWorker.ts:48-115 | the last status a run stored, taken from a write that did not throw |
| OrderWorker.PerformAll | backend/src/workers/orderWorker.ts:16-125 | a run never adds or removes rows |
| OrderWorker.PerformAllRows | backend/src/workers/orderWorker.ts:16-125 | a run leaves other orders' rows unchanged; the job's row ends with the last status written |
| OrderWorker.OnlyConfirmedPublicationThrows | backend/src/workers/orderWorker.ts:86-101 | when only the confirmed publication throws, the confirmed row has already been written before the error |
| OrderWorker.LateFailureOverwritesConfirmed | backend/src/workers/orderWorker.ts:86-124 | when only the confirmed publication's log append throws, the catch path then writes failed over confirmed and the job fails |
| OrderWorker.RunLastWritten | backend/src/workers/orderWorker.ts:16-125 | a successful job last stored confirmed; a failed job whose failed write went through last stored failed |
| OrderWorker.RunFinalStatus | backend/src/workers/orderWorker.ts:16-125 | applied to a table holding the order, a run ends with the order confirmed on success, or failed on failure when the failed write went through; other rows are unchanged |
| OrderWorker.PerformAllSnoc | backend/src/workers/orderWorker.ts:16-125 | effects are performed one after the other |
| OrderWorker.WriteStep | backend/src/workers/orderWorker.ts:48 | a write that does not throw patches the row; one that throws changes nothing |
| OrderWorker.PublishStep | backend/src/workers/orderWorker.ts:33 | a publish always serves the listeners, and appends to the log unless its append throws |
| OrderWorker.Attempted | backend/src/workers/orderWorker.ts:33-101 | performing one attempt changes the table, wire and log as the specification's step does |
| OrderWorker.TryStep | backend/src/workers/orderWorker.ts:33-101 | one awaited step advances the run as the specification's next step does, and stops after the first fault |
| OrderWorker.CatchStep | backend/src/workers/orderWorker.ts:105-124 | the catch path's writes and emits match the specification's catch block, and it returns the catch block's failure |
| OrderWorker.Route | backend/src/workers/orderWorker.ts:36-59 | the routing phase: the quote is the best quote, and the state follows three specification steps |
| OrderWorker.Build | backend/src/workers/orderWorker.ts:61-71 | the building phase follows three specification steps |
| OrderWorker.Submit | backend/src/workers/orderWorker.ts:73-79 | the submission phase follows two specification steps |
| OrderWorker.Confirm | backend/src/workers/orderWorker.ts:85-101 | the confirmation phase follows two specification steps |
| OrderWorker.TryBlockUnrolled | backend/src/workers/orderWorker.ts:21-104 | the try block is its eleven steps in sequence |
| OrderWorker.ProcessOrder | backend/src/workers/orderWorker.ts:16-125 | the imperative job handler returns the specification's result and leaves the table, wire and log that the specification's run prescribes. An existing order ends confirmed on success, and failed on failure whenever the failed write went through |
| Client.Spread | frontend/app/page.tsx:57 | spreading undefined gives no keys |
| Client.Merge | frontend/app/page.tsx:57 | the merged data has both sides' keys, and the message's keys win |
| Client.Revised | frontend/app/page.tsx:54-66 | a revised entry keeps its id, takes the message status, merges the data and appends exactly one history item |
| Client.ApplyMessage | frontend/app/page.tsx:48-86 | if the order is listed, the length is kept, its entries are revised and the others are unchanged; otherwise a new entry with the merged initial data and a single update is appended at the end |
| Client.Submitted | frontend/app/page.tsx:128-136 | a submitted order is prepended as pending with its data and no updates |
| Client.Ids | frontend/app/page.tsx:48-86 | the ids of the listed orders, in order |
| Client.MessageKeepsIds | frontend/app/page.tsx:48-86 | a message keeps the list's ids when its order is listed and appends its id otherwise; afterwards the order is listed |
| Client.History | frontend/app/page.tsx:58-65 | one history item per message, in order |
| Client.SubmittedOrderCollectsItsMessages | frontend/app/page.tsx:48-86 | after submitting a new order and receiving messages for it, the entry stays at the top, its history is exactly the messages, its status is the last message's, and the rest of the list is unchanged |
| Client.RecentHistory | frontend/app/page.tsx:339 | at most the last five updates are shown |
| Client.RecentHistoryFollowsUpdates | frontend/app/page.tsx:339 | a new update always shows last, and pushes out the oldest once five are shown |
| Client.ClosesOnTerminalStatuses | frontend/app/page.tsx:89 | the page closes the connection exactly on the terminal statuses confirmed and failed |
| Client.Connections.constructor | frontend/app/page.tsx:35 | no connections and no timers |
| Client.Connections.Connect | frontend/app/page.tsx:106 | the new socket is registered under the order id |
| Client.Connections.OnMessage | frontend/app/page.tsx:88-94 | a close timer is scheduled exactly when the status is terminal |
| Client.Connections.FireTimer | frontend/app/page.tsx:90-93 | the timer's socket is closed and the order's entry removed; no entry then refers to that socket |
| Client.Connections.OnClose | frontend/app/page.tsx:101-104 | the order's entry is removed |

Helper lemmas and functions that only serve other proofs carry no row of their own, among them `DexRouter.ScaleBounds`, `Postgres.AppendPresent`, `Postgres.SetItems`, `Postgres.Join` and `Postgres.DigitChar`.

## Left out

- BullMQ retry and backoff are not modelled. The model covers one job run; the 3 attempts and the 1000 ms exponential backoff are only constants of `OrderQueue.OrderJob`. A retry after a failure runs the whole handler again, writing `routing`…`confirmed` over a `failed` row. Nothing here says a terminal row is immutable, because the code does not keep it so.
- Concurrency is not modelled:
  - up to 10 jobs run at once;
  - the gateway's lookup is awaited before the listener is registered, so updates emitted during the lookup are missed;
  - the client's timers can interleave with messages.

  The model runs each handler to completion, one after another.
- `sleep` delays and timing (the 200 ms quote latency, 300 ms build, 2–3 s swap, the client's 1000 ms close timer) are not modelled. The swap's latency draw is consumed but not used; the client's timer is a queue that fires when told to.
- IEEE floating-point arithmetic is left out; prices are `real`. Dates are `int` timestamps. `randomUUID`, `Math.random` and `new Date()` are parameters.
- JSON encoding and `parseFloat` are left out; messages and rows are structured values. `executedPrice` is undefined exactly when the column is NULL, because node-pg returns NUMERIC as non-empty text, which is always truthy.
- Postgres.OrderTable.GetOrderById: the `id` column is a UUID in the table definition, but the model keys rows by the exact id string. PostgreSQL compares UUIDs regardless of letter case and hyphenation, and it rejects a string that is not a UUID. So an upper-case or unhyphenated spelling of a stored id finds the row in the database but not in the model. A malformed id makes the query throw, which the model represents only through the lookup-failure inputs (`lookupFails` in the gateway, the `Load` fault in the worker).
- Routes.AcceptedMeansStoredThenQueued: TEXT columns in PostgreSQL reject the character U+0000, but the model's columns accept every string. A token containing U+0000 passes the schema and gets 202 in the model, whereas the database insert fails and the source answers 500. The same holds for `Postgres.InsertReadsBack` and for patched hashes and failure reasons.
- The DDL, connection setup and the Redis, Mongo and Postgres clients are not modelled. The table is a map from id to typed row; the log is a sequence of records.
- `DexRouter.GetBestQuote`, `DexRouter.ExecuteSwap`: `tokenIn`, `tokenOut`, `amount` and `order` are unused by the mock router and are not parameters. The mock router does not throw, so the model has no fault points at the quote or swap calls.
- Console logging is left out everywhere.
- React rendering, JSX and `frontend/app/layout.tsx` are not modelled; the HTTP fetch in `submitOrder` is represented only by its result (the prepend).
- HTTP/WS server start-up, shutdown, `backend/src/server.ts` and `backend/src/config/env.ts` are not modelled.
- `backend/test/routingDecision.test.ts` is not part of this model; the tie rule it mentions is proved from the router code itself (`DexRouter.MaximalDrawsTieToMeteora`).

## Notes on the code's behaviour

- **Tie rule.** On a tie, `getBestQuote` chooses Meteora, the second quote, because it compares with a strict `>`. The model follows the code.
- **Fractional slippage.** The schema allows a fractional `maxSlippageBps`; the column is INTEGER. Such a request therefore gets 500, not 400 (`Routes.FractionalSlippageIsServerError`).
- **Late failure.** When the confirmed update's log append throws, the row has already been written as confirmed. The catch path then overwrites it with failed, and clients first receive `confirmed` and then `failed` (`OrderWorker.LateFailureOverwritesConfirmed`).
- **Emit failures.** Listeners are notified before the log append. A failed append still delivers the update to every subscriber.
- **The page reducer.** It matches on the connection's own order id, not the message's `orderId`. It revises every list entry with that id (a `map`), not only the first.
- **Hash digits.** A random draw of exactly 1 would produce the digit text "10". `Math.random` never returns 1, so the 66-character format holds for every actual draw (`DexRouter.TxHashWellFormed`, `DexRouter.DrawOfOneBreaksHashFormat`).
