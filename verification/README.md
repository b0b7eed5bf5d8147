# KB Labs gateway: a verified model

The gateway accepts connections from host agents, routes executions to them, retries and cancels those
executions, streams their events to an initiator and to observers, and keeps a registry of hosts over a
cache and a durable store. This project models that core in Dafny and proves what it keeps.

| files | what they model |
|---|---|
| `Collections`, `Messages` | options, insertion-ordered sets, the shared vocabulary |
| `RetryMachine`, `RetryOutcomes`, `Backoff`, `RetryExecutor` | `executeWithRetry`: a machine over settlements, timers and aborts; what its runs come to; its arithmetic; the loop, proved to refine the machine |
| `Routing`, `Calls`, `Dispatcher` | `HostCallDispatcher`: what its maps mean as a history, and the class over them |
| `RunCalls` | hosts, many runs and the calls they dispatch, on one clock: how long a run lasts, that its calls are sent, and where its result comes from |
| `Executions`, `Subscriptions` | the execution registry and the two-way subscription index, each with its class |
| `GatewaySystem`, `GatewayInvariants`, `GatewayHistory`, `GatewayObservers`, `GatewayProcess` | hosts, runs, cancels and observers as one step system; its invariants; what its histories come to; what observers see; the handlers as a class that takes these steps |
| `HostStore`, `HostStates`, `HostInvariants`, `HostHistory`, `HostEffects`, `HostRegistries`, `HostKeys` | the store, the registry as a step system with crashes, its invariants, its history theorems, what each operation does to the fields, the class, and the text keys |
| `HostSessions` | hello, heartbeat, watchdog and close over registry, dispatcher and buffer together |
| `TopOperations`, `RouteKeys`, `Collector` | merging, ranking and cutting of operations; route keys; the request counters |
| `AdaptiveBuffers`, `RefreshTokens` | the buffer with its expiring cache; refresh-token rotation |

Conventions. An object that the code updates in place is a class whose methods are proved against a step
function on its `View()` (the state as a value), and the theorems are about all sequences of those steps.
A time is a parameter of the step it is read in; a timer is a due time and a step that fires it. A random
id is a parameter that must be fresh. Durations and averages are reals; `Math.round(x)` is the floor of
`x + 1/2`. The order of a JavaScript `Map` or `Set` is kept as a duplicate-free sequence where it shows.

Where the code and its documentation disagree, the model follows the code:

- `packages/gateway-core/src/dispatcher.ts:70` says a call resolves with the last chunk; it resolves with
  the only chunk or the list of all (`Calls.ResultByChunks`).
- `packages/gateway-auth/src/service.ts:96-104` says a refresh reloads the client's tier; it always signs
  `free`, which is right because registration stores no other (`RefreshTokens.RefreshKeepsIdentity`).
- `apps/gateway-app/src/hosts/ws-handler.ts:223` allows a degraded host to recover, but a heartbeat does
  not lift the status and `resetStaleHosts` skips it; only a new connection or a restore from the store does.

One expected property is false of the code: an open host socket cannot always be called, and neither can a
host shown as online, because `removeConnection` does not ask which socket closed. The exact conditions are
`HostSessions.SinceLastHello`, `HostSessions.OnlineIsCallable` and `GatewayInvariants.RoutedWhileUndisturbed`;
the behaviours that break it are `HostSessions.OnlineButNotCallable` and
`GatewayInvariants.ReconnectedHostLosesItsRoute`.

Two functions have an edge no caller reaches. A route that is only a query normalises to the empty key, and
that to `unknown` (`RouteKeys.Idempotent`, `RouteKeys.QueryAloneIsNot`); routes come as patterns or request
URLs, on which normalising is idempotent (`RouteKeys.IdempotentOnPaths`). A report limited to nought may hold
one operation (`TopOperations.ReportSize`, `TopOperations.ReportOfNought`); the one caller takes the limit 5
(`TopOperations.ReportFillsTheLimit`).

## Model

| member | source | states |
|---|---|---|
| `RetryMachine.RunWritesCompleteStream` | `apps/gateway-app/src/execute/routes.ts:117-199` | For every configuration, abort time, settlement and failure pattern: a run that ends has written retries numbered 1, 2, 3, ... with their own delays followed by exactly one of `done(0)`, `cancelled;done(130)`, `error;done(1)`; a `cancelled` reason is the signal's; dispatches are retries + 1, or equal when abandoned, and at most max(1, maxAttempts). |
| `RetryMachine.CompleteStreamShape` | `apps/gateway-app/src/execute/routes.ts:131-192` | What the grammar means to a reader: `done` stands last and nowhere else, its exit code tells which closing it is, `cancelled` carries the reason of the aborted signal, retries count from 1. |
| `RetryMachine.NoDispatchAfterAbort` | `apps/gateway-app/src/execute/retry-executor.ts:50-56` | Once the signal is aborted it keeps its reason and no further call is dispatched, whatever else happens. |
| `RetryMachine.FirstAbortWins` | `apps/gateway-app/src/execute/retry-executor.ts:98-130` | Of several aborts on a run the first decides the reason the signal ends with. |
| `RetryMachine.RouteStreamIsClosing` | `apps/gateway-app/src/execute/routes.ts:119-121` | The route passes no configuration: every complete stream of it is a closing and nothing else, no retry. |
| `RetryMachine.DriveCoherent` | `apps/gateway-app/src/execute/retry-executor.ts:50-88` | Kept by every stimulus: the attempt number, the retries written and the calls dispatched agree in every phase of the run. |
| `RetryOutcomes.RetryableIsTransient` | `apps/gateway-app/src/execute/retry-executor.ts:145-155` | A failure is retryable iff it is an Error whose message mentions one of the seven texts, listed. |
| `RetryOutcomes.DelaysMultiply` | `apps/gateway-app/src/execute/retry-executor.ts:71-74` | The first pause is min(initialDelayMs, maxDelayMs); each further one is the multiple of the uncapped one before, capped again. |
| `RetryOutcomes.RetriesThenSucceeds` | `apps/gateway-app/src/execute/retry-executor.ts:50-88` | For every list of failures the configuration goes on after: the run that has them and then an answer writes one retry for each, with its text and pause, ends with that answer, and has dispatched once more than it failed. |
| `RetryOutcomes.RetriesThenFails` | `apps/gateway-app/src/execute/retry-executor.ts:58-91` | The same run with a last failure that is the last attempt's, or not transient when only those are retried, ends with that failure's text. |
| `RetryOutcomes.AbortEnds` | `apps/gateway-app/src/execute/retry-executor.ts:98-130` | An abort ends a waiting run at once, as cancelled with its reason; one about to attempt when it goes on; one holding a failure when it goes on, unless that failure ends it anyway. |
| `RetryOutcomes.ResolvedFields` | `apps/gateway-app/src/execute/retry-executor.ts:18-24` | The defaults, field by field, and the overrides given. |
| `RetryExecutor.Attempt` | `apps/gateway-app/src/execute/retry-executor.ts:51-87` | One turn of the loop (abort check, raced call, classification, retry event, interruptible pause) does to signal, stream and dispatch count what the machine does on the same stimuli, within its share of the time. |
| `RetryExecutor.ExecuteWithRetry` | `apps/gateway-app/src/execute/retry-executor.ts:41-91` | The loop refines the machine and always ends: outcome, stream and dispatch count are the machine's on a prefix of the stimuli; its stream with the closing obeys the grammar; its duration is within its calls' timeouts plus its delays. |
| `RetryExecutor.RunTimeBounded` | `apps/gateway-app/src/execute/retry-executor.ts:45-88` | On a script whose calls each take at most 30 s the loop ends within attempts x 30000 ms plus (attempts - 1) x maxDelayMs, and also plus the closed geometric sum. That calls do take at most that long is not assumed but derived in `RunCalls.RunEndsInTime`. |
| `RunCalls.RunEndsInTime` | `packages/gateway-core/src/dispatcher.ts:86-92` | Runs and pending calls on one clock, each call with the dispatcher's 30 s timer: whatever hosts answer and whoever aborts, a run that is not over began at most attempts x 30000 ms plus its delays ago, the delays within the cap bound and the geometric bound. |
| `RunCalls.RouteRunEndsIn30s` | `apps/gateway-app/src/execute/routes.ts:119-129` | An execution dispatched as the route does it, without a configuration, is over after 30 s. |
| `RunCalls.ResultIsOwnChunks` | `packages/gateway-core/src/dispatcher.ts:113-124` | Over every interleaving of hosts, runs, calls, messages, timeouts and aborts: `done(0)` carries no data, the one chunk, or the list of all chunks in order, as none, one or more arrived before the result of the call that this run's last attempt sent, on the socket routed for its host then. |
| `RunCalls.ErrorIsOwnFailure` | `packages/gateway-core/src/dispatcher.ts:86-132` | Over every interleaving: the text of a failed run's error event is the message or text of the error that its last attempt's call was answered with, "Unknown error" without one, or the timeout text of that call. |
| `RunCalls.TimeoutAt30s` | `packages/gateway-core/src/dispatcher.ts:86-92` | A call times out exactly 30000 ms after it was sent. |
| `RunCalls.RunIsTheMachine` | `apps/gateway-app/src/execute/retry-executor.ts:50-88` | At every moment a run is where the retry machine is on what happened to it since it was accepted: the settlements of its own calls, its pauses ending, aborts, its host leaving, and its code going on. |
| `RunCalls.BeginsOnFirstHost` | `apps/gateway-app/src/execute/routes.ts:55-87` | A run begins iff a host with the capability is connected, on the one found first, with nothing written or dispatched. |
| `RunCalls.AttemptWaits30s` | `packages/gateway-core/src/dispatcher.ts:86-92` | An attempt waits for its own call until 30000 ms on. |
| `RunCalls.PauseLastsItsDelay` | `apps/gateway-app/src/execute/retry-executor.ts:71-83` | A pause ends exactly its delay later. |
| `RunCalls.ValueHasAttempt` | `apps/gateway-app/src/execute/retry-executor.ts:55-56` | A run that ended with a value has made an attempt. |
| `RunCalls.EveryAttemptIsSent` | `packages/gateway-core/src/dispatcher.ts:79-102` | Hosts coming and going, runs accepted by capability, and a leaving host cancelling its runs: every attempt of every run finds its host connected and its call is sent, on the socket routed then; no execution fails for a host that is not connected. |
| `RunCalls.NoSharedCall` | `packages/gateway-core/src/dispatcher.ts:84-92` | No two runs ever have the same call, so a result answers one run at most. |
| `RunCalls.Reachable` | `apps/gateway-app/src/execute/retry-executor.ts:50-88` | In every reachable state: a run waiting for a call waits for one that is pending and until its timer is due; a run with a value has it from the one settlement of its call; every run is coherent and on time. |
| `Backoff.DelaysGrowToCap` | `apps/gateway-app/src/execute/retry-executor.ts:71-74` | For a multiplier of at least 1 and non-negative delays, later delays are never shorter and none exceeds maxDelayMs. |
| `Backoff.DefaultsGrow` | `apps/gateway-app/src/execute/retry-executor.ts:18-24` | The defaults are such a configuration, and remain one iff the overrides given are non-negative delays and a multiplier of at least 1. |
| `Backoff.SumBelowGeometric` | `apps/gateway-app/src/execute/retry-executor.ts:71-74` | The delays of n retries sum to at most n caps and at most the geometric closed form (multiplier 1 included). |
| `Calls.CallFollowsItsOwnMessages` | `packages/gateway-core/src/dispatcher.ts:72-133` | Over every interleaving of many calls, the state of a call is a projection of the messages about it: pending with its chunks in order until its first final one, then settled once by that one (case by case: no data, the single chunk, the list; the texts of the failures); later messages change nothing. |
| `Calls.ResultByChunks` | `packages/gateway-core/src/dispatcher.ts:113-124` | A call whose first final message is a result is settled exactly by: undefined when no chunk preceded it, that chunk when one did, the list of all in order when more did. |
| `Calls.InOrder` | `packages/gateway-core/src/dispatcher.ts:113-124` | A call's own messages and their chunks are taken in order of arrival, part by part. |
| `Calls.OneMessage` | `packages/gateway-core/src/dispatcher.ts:106-124` | Each message is its own call's alone, and a chunk message gives its data. |
| `Calls.PendingAsSent` | `packages/gateway-core/src/dispatcher.ts:84-102` | Until then it is pending with its chunks so far, due 30000 ms after it was sent. |
| `Calls.Texts` | `packages/gateway-core/src/dispatcher.ts:74-90` | The texts of the timeout and of the unconnected host, word by word. |
| `Calls.SettlesAtMostOnce` | `packages/gateway-core/src/dispatcher.ts:86-132` | A call has settled once exactly when it is no longer pending, and never twice. |
| `Calls.DispatcherFailuresAreRetryable` | `apps/gateway-app/src/execute/retry-executor.ts:145-155` | The two texts with which the dispatcher itself fails a call (timeout, host not connected) are classified as retryable, across the two files that share them only as text. |
| `Routing.FirstHeldLongest` | `packages/gateway-core/src/dispatcher.ts:153-165` | Over every history of connections and leaves: a host is chosen for a capability iff it has held it longest since its last leave, it is then connected (the re-check in the loop skips nobody), and none is chosen iff nobody holds it. |
| `Routing.HoldersFollowSince` | `packages/gateway-core/src/dispatcher.ts:37-66` | The index lists, for each capability and namespace, exactly the hosts that listed it in some registration since their last removal, in the order they came to hold it. |
| `Routing.ConnectedIsPresent` | `packages/gateway-core/src/dispatcher.ts:37-66` | A host is connected iff some registration of it was not followed by a removal. |
| `Dispatcher.HostCallDispatcher.RegisterConnection` | `packages/gateway-core/src/dispatcher.ts:37-54` | The map updates are the registration step of the routing history (socket replaced, capabilities added, none dropped). |
| `Dispatcher.HostCallDispatcher.Enlist` | `packages/gateway-core/src/dispatcher.ts:49-52` | The loop over the capabilities adds the host to each listed one, at the end and once, and leaves the others. |
| `Dispatcher.HostCallDispatcher.RemoveConnection` | `packages/gateway-core/src/dispatcher.ts:56-66` | The deletion and the loop over the index are the leave step of the routing history. |
| `Dispatcher.HostCallDispatcher.Call` | `packages/gateway-core/src/dispatcher.ts:72-103` | A call to an unconnected host fails with its text and changes nothing; otherwise exactly that host's socket is written to and the call is pending without chunks. |
| `Dispatcher.HostCallDispatcher.HandleInbound` | `packages/gateway-core/src/dispatcher.ts:106-133` | A chunk is appended, a result settles with nothing, the chunk or the list, an error rejects with its text; nothing happens when it names no pending call. |
| `Dispatcher.HostCallDispatcher.OnTimeout` | `packages/gateway-core/src/dispatcher.ts:87-90` | The timer settles a call that is still pending, with the timeout text. |
| `Dispatcher.HostCallDispatcher.FirstHostWithCapability` | `packages/gateway-core/src/dispatcher.ts:153-165` | The search loop returns the first listed holder that is connected. |
| `Executions.FirstCancelWins` | `apps/gateway-app/src/execute/execution-registry.ts:33-75` | Over any sequence of cancels by id, by host, and removals: at most one reports success for an execution, the first aimed at it while registered; its reason is the signal's and the recorded one for good; after removal nothing cancels it. |
| `Executions.VictimsExact` | `apps/gateway-app/src/execute/execution-registry.ts:65-75` | `cancelByHost` returns exactly the unaborted executions of that host, each once. |
| `Executions.VictimsInOrder` | `apps/gateway-app/src/execute/execution-registry.ts:65-75` | They are returned in registration order. |
| `Executions.OrderIsRegistration` | `apps/gateway-app/src/execute/execution-registry.ts:33-75` | Over any sequence of operations in which ids are added once, the registry's order is that of registration. |
| `Executions.ExecutionRegistry.RegisterExecution` | `apps/gateway-app/src/execute/execution-registry.ts:33-41` | Adds an unaborted entry at the end; the others stay. |
| `Executions.ExecutionRegistry.CancelExecution` | `apps/gateway-app/src/execute/execution-registry.ts:44-52` | True iff the execution is registered and unaborted; then, and only then, the reason and the signal are set, both, to the same value. |
| `Executions.ExecutionRegistry.CancelByHostId` | `apps/gateway-app/src/execute/execution-registry.ts:65-75` | The loop over the live entries aborts exactly the victims and lists them. |
| `Executions.ExecutionRegistry.RemoveExecution` | `apps/gateway-app/src/execute/execution-registry.ts:55-57` | Removes the entry; the others keep their order. |
| `Subscriptions.TotalsAgree` | `apps/gateway-app/src/clients/subscription-registry.ts:123-133` | For two mutually transposed indexes the subscriptions summed from either side are the cardinality of the one relation. |
| `Subscriptions.RelationDeterminesIndexes` | `apps/gateway-app/src/clients/subscription-registry.ts:31-76` | Without empty sets an index holds nothing but its relation: equal relations have equal indexes. |
| `Subscriptions.SubscriptionRegistry.Subscribe` | `apps/gateway-app/src/clients/subscription-registry.ts:49-63` | Adds exactly one pair to the relation; the indexes stay transposes without empty sets. |
| `Subscriptions.SubscriptionRegistry.Unsubscribe` | `apps/gateway-app/src/clients/subscription-registry.ts:65-76` | Removes exactly that pair and collects empty sets on both sides. |
| `Subscriptions.SubscriptionRegistry.RemoveConnection` | `apps/gateway-app/src/clients/subscription-registry.ts:86-108` | Removes every pair of the connection and returns, each once, exactly the executions it was the only subscriber of. |
| `Subscriptions.SubscriptionRegistry.Broadcast` | `apps/gateway-app/src/clients/subscription-registry.ts:110-121` | Sends the event once to each subscriber whose socket is registered and open, and to nobody else. |
| `Subscriptions.SubscriptionRegistry.SubscriptionCount` | `apps/gateway-app/src/clients/subscription-registry.ts:127-133` | The summing loop returns the cardinality of the relation, from either side. |
| `GatewayInvariants.NoOrphanedExecution` | `apps/gateway-app/src/hosts/ws-handler.ts:276-281` | In every reachable state (overlapping connections included) every registered, unaborted execution names a host connected in its namespace. |
| `GatewayInvariants.DispatchFindsItsHost` | `apps/gateway-app/src/execute/routes.ts:122-128` | In every reachable state, for an execution that is not closed and whose signal is not aborted, an attempt included: the host it was accepted on is connected, on an open socket of that host. |
| `GatewayInvariants.ClosedStreamIsComplete` | `apps/gateway-app/src/execute/routes.ts:117-199` | Over every behaviour of hosts, runs, cancels and observers: a closed execution has a complete stream by the grammar and is gone from the registry; one that is not closed is registered. |
| `GatewayInvariants.CancellationIsFinal` | `apps/gateway-app/src/execute/execution-registry.ts:44-75` | Between any two moments of a behaviour: an aborted run keeps its reason and dispatches nothing more, a log only grows, a closed run does not change. |
| `GatewayInvariants.RoutedWhileUndisturbed` | `packages/gateway-core/src/dispatcher.ts:37-66` | Calls to a host go to a given socket exactly as long as, since it was registered, no socket of the same host was registered or closed. |
| `GatewayInvariants.ReconnectedHostLosesItsRoute` | `packages/gateway-core/src/dispatcher.ts:56-57` | "An open host socket is routable" is false: a host that reconnects before its old socket closes has no route after that close (a concrete behaviour). |
| `GatewayInvariants.Reachable` | `apps/gateway-app/src/execute/routes.ts:56-199` | The joint invariant of routes, registry, runs and observers holds in every reachable state. |
| `GatewayHistory.CancelRequestEffect` | `apps/gateway-app/src/execute/routes.ts:205-238` | On the fields: a cancel of a registered, unaborted execution of the namespace sets its entry's signal and reason and its run's signal, ending the run as cancelled if it waits, and leaves every other execution and run; any other cancel changes nothing. |
| `GatewayHistory.InitiatorLeavesEffect` | `apps/gateway-app/src/execute/routes.ts:88-96` | On the fields: so does the initiator leaving, with "disconnect". |
| `GatewayHistory.HostClosesEffect` | `apps/gateway-app/src/hosts/ws-handler.ts:276-281` | On the fields: a close aborts exactly the unaborted executions of that host, and the host is no longer connected in its namespace. |
| `GatewayHistory.ExecuteEffect` | `apps/gateway-app/src/execute/routes.ts:55-87` | On the fields: accepted iff a host is found, then registered last on it, its run unaborted with nothing written; else nothing changes. |
| `GatewayHistory.CancelledByFirstHit` | `apps/gateway-app/src/execute/execution-registry.ts:44-75` | Over every interleaving: a run's signal is a reason iff the first to hit it while registered (a cancel from its namespace, its initiator leaving, a socket of its host closing) has that reason; registry entry and signal say the same. |
| `GatewayHistory.AcceptedOnLongestHolder` | `apps/gateway-app/src/execute/routes.ts:55-87` | Over every behaviour: an execution is accepted iff some host of its namespace holds the capability then, and on the host that has held it longest since its last leave. |
| `GatewayHistory.RunIsTheMachine` | `apps/gateway-app/src/execute/routes.ts:117-199` | Over every behaviour: an accepted execution is where the retry machine is on its settlements, timers and first cancel; its stream is what that machine wrote and, once closed, the closing of its outcome, event by event. |
| `GatewayHistory.ClosedWhenThrough` | `apps/gateway-app/src/execute/routes.ts:117-199` | It is closed exactly when its handler has gone on after the executor ended. |
| `GatewayObservers.ObserverFaithful` | `apps/gateway-app/src/execute/routes.ts:109-115` | Over every interleaving: what a connection has received is, in order and once each, exactly the events written while it was subscribed to them with an open socket. |
| `GatewayObservers.PairsAreSubscriptions` | `apps/gateway-app/src/clients/ws-handler.ts:127-158` | A connection is subscribed iff a granted subscribe was not undone by an unsubscribe or its close. |
| `GatewayObservers.ListeningIsOpen` | `apps/gateway-app/src/clients/ws-handler.ts:101-194` | A connection can be sent to iff it was made and has neither begun to close nor closed. |
| `GatewayObservers.OwnNamespaceOnly` | `apps/gateway-app/src/clients/ws-handler.ts:135-146` | Whatever a connection has received is about executions of its own namespace. |
| `GatewayObservers.SubscriberHearsTheRest` | `apps/gateway-app/src/clients/subscription-registry.ts:110-121` | From the moment it hears an execution, a subscriber that stays receives exactly what the initiator's log grows by. |
| `GatewayObservers.StayingSubscriberSeesSuffix` | `apps/gateway-app/src/execute/routes.ts:109-115` | A first subscriber that stays to the close has received a suffix of the initiator's complete log. |
| `GatewayProcess.Process.OnHostConnect` | `apps/gateway-app/src/hosts/ws-handler.ts:196-196` | Registers the socket and its capabilities: one connect step of the system. |
| `GatewayProcess.Process.OnHostClose` | `apps/gateway-app/src/hosts/ws-handler.ts:277-281` | Drops the route, aborts exactly the host's unaborted executions, entries and runs, and returns them. |
| `GatewayProcess.Process.OnExecute` | `apps/gateway-app/src/execute/routes.ts:55-87` | Accepts the execution on the chosen host, or answers 503 and changes nothing. |
| `GatewayProcess.Process.WriteEvents` | `apps/gateway-app/src/execute/routes.ts:109-115` | Each event goes to the initiator's log and to the listening observers, in order. |
| `GatewayProcess.Process.Continue` | `apps/gateway-app/src/execute/routes.ts:117-199` | A step of the run: the executor's events, or its closing events and the removal in `finally`. |
| `GatewayProcess.Process.OnCancelRequest` | `apps/gateway-app/src/execute/routes.ts:205-238` | 404 unknown, 403 foreign namespace, 200 cancelled, 409 cancelled before; on 200 exactly this execution is aborted, entry and run, with the reason given or "user"; otherwise nothing changes. |
| `GatewayProcess.Process.OnInitiatorGone` | `apps/gateway-app/src/execute/routes.ts:92-96` | A disconnect of the initiator aborts its unaborted execution, entry and run, with "disconnect", and nothing else. |
| `GatewayProcess.Process.OnClientConnect` | `apps/gateway-app/src/clients/ws-handler.ts:101-108` | Registers the observer's socket. |
| `GatewayProcess.Process.OnClientClose` | `apps/gateway-app/src/clients/ws-handler.ts:191-194` | Forgets the observer's socket and all its subscriptions. |
| `GatewayProcess.Process.OnClientMessage` | `apps/gateway-app/src/clients/ws-handler.ts:126-187` | Subscribe, unsubscribe and cancel with their guards, in the guards' order, and the error each refusal is answered with; a cancel without an error aborts exactly its execution, entry and run. |
| `HostHistory.RestoreRoundTrip` | `apps/gateway-app/src/hosts/registry.ts:40-75` | After any history, a restart (cache lost or kept) leaves cached exactly the hosts registered and not deregistered, with the same profile and createdAt, offline, unconnected, indexed, no timers; the returned count is their number. |
| `HostHistory.TokensOfLiveHostsResolve` | `apps/gateway-app/src/hosts/registry.ts:190-203` | At every moment a token issued to a host that is not deregistered resolves to it, from cache or store. |
| `HostHistory.OnlyLiveTokensSurviveCrash` | `apps/gateway-app/src/hosts/registry.ts:190-236` | After a restart that lost the cache, those are the only tokens that resolve. |
| `HostHistory.StoreIsDirectory` | `apps/gateway-app/src/hosts/registry.ts:77-270` | At every moment of every history the host rows and token rows are exactly those of the hosts registered and not deregistered, as last announced; created_at is the registration's whatever saves, timers and reconnects occur. |
| `HostHistory.StatusMachine` | `apps/gateway-app/src/hosts/registry.ts:109-166` | In every reachable state: online is exactly one connection and no armed timer, offline and reconnecting are none, reconnecting has an armed timer; a firing timer takes a reconnecting host offline and changes no other. |
| `HostHistory.IndexHoldsTheCachedHosts` | `apps/gateway-app/src/hosts/registry.ts:286-304` | Without eviction each namespace index is duplicate-free and holds exactly the cached hosts, whose namespaces are tracked. |
| `HostHistory.StoredListAgreesWithGet` | `apps/gateway-app/src/hosts/registry.ts:205-216` | With a store, `list` has one entry per known host, each equal to what `get` returns. |
| `HostHistory.CachedListAgreesWithGet` | `apps/gateway-app/src/hosts/registry.ts:218-224` | Without a store too. |
| `HostHistory.RestoreIsComplete` | `apps/gateway-app/src/hosts/registry.ts:40-75` | From any cache whose index covers its hosts, agreeing with the store or not, and for the rows as the store lists them: after `restore` no cached host is online or reconnecting; every stored host is cached as stored, offline, unconnected, indexed and tracked; the count returned is the number of stored hosts. |
| `HostHistory.ResetSettles` | `apps/gateway-app/src/hosts/registry.ts:62-75` | The nested walk alone, which is all there is without a store, leaves no covered host online or reconnecting. |
| `HostEffects.GraceLasts` | `apps/gateway-app/src/hosts/registry.ts:131-166` | Over every behaviour: a host whose last connection closes is reconnecting, its timer due graceMs later, until that timer fires, it comes online, loses another connection, is degraded, deregistered or evicted, or the process restarts. |
| `HostEffects.OfflineAfterGrace` | `apps/gateway-app/src/hosts/registry.ts:155-166` | When that timer fires at least graceMs have passed, and the host is offline with no timer. |
| `HostEffects.OnlyGraceGoesOffline` | `apps/gateway-app/src/hosts/registry.ts:155-166` | Over every behaviour only its own due timer, or a restart, takes a reconnecting host offline. |
| `HostEffects.KnownHostsAreFound` | `apps/gateway-app/src/hosts/registry.ts:174-188` | At every moment, whatever was evicted, `get` finds exactly the hosts registered and not deregistered, with profile and createdAt as registered and last announced. |
| `HostEffects.SetOnlineEffect` | `apps/gateway-app/src/hosts/registry.ts:109-129` | On the fields: online, exactly this connection, seen now, no timer, saved; no other host, timer or row changes. |
| `HostEffects.SetOfflineEffect` | `apps/gateway-app/src/hosts/registry.ts:131-166` | On the fields: the last connection listed leaves the host reconnecting without one, seen now, its timer at now + graceMs, saved; another one leaves it online with exactly the others and arms nothing; no other host, timer or row changes. |
| `HostEffects.GraceEffect` | `apps/gateway-app/src/hosts/registry.ts:157-165` | On the fields: the timer is disarmed and a reconnecting host offline, seen now, saved; any other as it was. |
| `HostEffects.HeartbeatEffect` | `apps/gateway-app/src/hosts/registry.ts:168-172` | On the fields: lastSeen is now, and nothing else. |
| `HostEffects.DegradeEffect` | `apps/gateway-app/src/hosts/ws-handler.ts:224-230` | On the fields: a found host is cached, degraded, otherwise as found. |
| `HostEffects.FoundEffect` | `apps/gateway-app/src/hosts/registry.ts:174-188` | The cached descriptor, else the row as an offline one, else none. |
| `HostEffects.RegisterEffect` | `apps/gateway-app/src/hosts/registry.ts:77-107` | On the fields: cached offline as of now with its token, both stored. |
| `HostEffects.DeregisterEffect` | `apps/gateway-app/src/hosts/registry.ts:227-236` | On the fields: neither cached, indexed nor stored, nor any stored token of it; what others have stays. |
| `HostEffects.AnnounceNewEffect` | `apps/gateway-app/src/hosts/registry.ts:258-269` | On the fields: a host nobody knew is cached, indexed and stored, offline as of now. |
| `HostEffects.AnnounceKnownEffect` | `apps/gateway-app/src/hosts/registry.ts:244-256` | On the fields: only capabilities given and different replace a known host's, as of now, in cache and store. |
| `HostEffects.RestartEffect` | `apps/gateway-app/src/hosts/registry.ts:62-75` | Without a store a restart that keeps the cache takes exactly the online and reconnecting hosts offline, unconnected, and leaves all else. |
| `HostHistory.SqlIsTheStore` | `apps/gateway-app/src/hosts/registry.ts:77-270` | Executing an operation's SQL statements in order gives the store after the operation. |
| `HostHistory.IntegrityAfterEveryStatement` | `packages/gateway-core/src/stores/sqlite-host-store.ts:142-166` | After every single statement, so wherever a crash cuts an operation short, each token row names an existing host row. |
| `HostInvariants.Reachable` | `apps/gateway-app/src/hosts/registry.ts:40-304` | The joint invariant of cache, index, statuses, timers and store holds in every reachable state, across restarts and evictions. |
| `HostStore.CreatedAtStays` | `packages/gateway-core/src/stores/sqlite-host-store.ts:88-113` | Every statement but its own deletion keeps a row's created_at. |
| `HostStore.StatementEffects` | `packages/gateway-core/src/stores/sqlite-host-store.ts:88-181` | Each statement, on the rows: what it writes or removes, and that it leaves everything else. |
| `HostStore.TextLessIsLexicographic` | `packages/gateway-core/src/stores/sqlite-host-store.ts:125-140` | The order of texts in ORDER BY is the lexicographic one: at the first difference the lesser character, or the end. |
| `HostStore.SameSpaceByAge` | `packages/gateway-core/src/stores/sqlite-host-store.ts:125-132` | Within a namespace a listing is in the order of created_at. |
| `HostStore.SqliteHostStore.Save` | `packages/gateway-core/src/stores/sqlite-host-store.ts:88-113` | Upsert: inserts, or overwrites all but created_at. |
| `HostStore.SqliteHostStore.Get` | `packages/gateway-core/src/stores/sqlite-host-store.ts:115-123` | The row as an offline descriptor, or none. |
| `HostStore.SqliteHostStore.List` | `packages/gateway-core/src/stores/sqlite-host-store.ts:125-132` | Each row of the namespace once, ordered by created_at. |
| `HostStore.SqliteHostStore.ListAll` | `packages/gateway-core/src/stores/sqlite-host-store.ts:134-140` | Each row once, ordered by namespace and created_at. |
| `HostStore.SqliteHostStore.Delete` | `packages/gateway-core/src/stores/sqlite-host-store.ts:142-154` | Deletes the host with all its tokens; true iff the row existed. |
| `HostStore.SqliteHostStore.SaveToken` | `packages/gateway-core/src/stores/sqlite-host-store.ts:156-166` | Upsert of a token row. |
| `HostStore.SqliteHostStore.ResolveToken` | `packages/gateway-core/src/stores/sqlite-host-store.ts:168-176` | The host of a token row, or none. |
| `HostStore.SqliteHostStore.RemoveToken` | `packages/gateway-core/src/stores/sqlite-host-store.ts:178-181` | Deletes a token row. |
| `HostRegistries.HostRegistry.Restore` | `apps/gateway-app/src/hosts/registry.ts:40-55` | The reset, the listing and the loop are the restart step; the count is the number of rows listed. |
| `HostRegistries.HostRegistry.ResetStaleHosts` | `apps/gateway-app/src/hosts/registry.ts:62-75` | The nested loops take exactly the online and reconnecting hosts reached through the indexes offline. |
| `HostRegistries.HostRegistry.Register` | `apps/gateway-app/src/hosts/registry.ts:77-107` | Store, token, cache and index written; the host is found and its token resolves to it. |
| `HostRegistries.HostRegistry.SetOnline` | `apps/gateway-app/src/hosts/registry.ts:109-129` | Online with exactly this connection, timer cleared, saved; nothing for a host not cached. |
| `HostRegistries.HostRegistry.SetOffline` | `apps/gateway-app/src/hosts/registry.ts:131-166` | Online while connections remain; else reconnecting, saved, and its timer armed anew. |
| `HostRegistries.HostRegistry.OnGraceOver` | `apps/gateway-app/src/hosts/registry.ts:157-165` | The firing timer disarms and takes only a reconnecting host offline. |
| `HostRegistries.HostRegistry.Heartbeat` | `apps/gateway-app/src/hosts/registry.ts:168-172` | Updates lastSeen only. |
| `HostRegistries.HostRegistry.Get` | `apps/gateway-app/src/hosts/registry.ts:174-188` | Cached or stored descriptor, the stored one warmed into cache and index; the answer is the same before and after. |
| `HostRegistries.HostRegistry.ResolveToken` | `apps/gateway-app/src/hosts/registry.ts:190-203` | From cache, else from the store with the cache warmed. |
| `HostRegistries.HostRegistry.List` | `apps/gateway-app/src/hosts/registry.ts:205-225` | The rows enriched with live descriptors, or the indexed cached hosts; changes nothing. |
| `HostRegistries.HostRegistry.Deregister` | `apps/gateway-app/src/hosts/registry.ts:227-236` | True iff the store had the row; afterwards the host is not found and no token row names it. |
| `HostRegistries.HostRegistry.EnsureRegistered` | `apps/gateway-app/src/hosts/registry.ts:238-270` | Creates an unknown host; replaces the capabilities of a known one only by different, non-empty ones. |
| `HostRegistries.HostRegistry.MarkDegraded` | `apps/gateway-app/src/hosts/ws-handler.ts:224-230` | A silent host found becomes degraded. |
| `HostRegistries.HostRegistry.AddToIndex` | `apps/gateway-app/src/hosts/registry.ts:286-298` | Host id and namespace added once each. |
| `HostRegistries.HostRegistry.RemoveFromIndex` | `apps/gateway-app/src/hosts/registry.ts:300-304` | Host id removed from its namespace's index. |
| `HostKeys.HostKeyInjective` | `apps/gateway-app/src/hosts/registry.ts:274-276` | The text keys of hosts whose ids have no colon are equal only for equal pairs. |
| `HostKeys.KeyIsUnique` | `apps/gateway-app/src/hosts/registry.ts:274-276` | Some other pair shares a host's text key iff its namespace or its id has a colon. |
| `HostKeys.OtherPair` | `apps/gateway-app/src/hosts/registry.ts:274-276` | The other pair, wherever the colon stands. |
| `HostKeys.HostKeysCollide` | `apps/gateway-app/src/hosts/registry.ts:274-276` | Two concrete hosts that share a key. |
| `HostKeys.FamiliesApart` | `apps/gateway-app/src/hosts/registry.ts:274-304` | Host, token, index and namespace-list keys never coincide. |
| `HostSessions.SinceLastHello` | `apps/gateway-app/src/hosts/ws-handler.ts:191-301` | Over every behaviour, sockets of a host overlapping or not, from its last hello on: that socket is open until closed; calls go to it and to no other, iff no socket of the host was closed since; the registry lists the host with it and no other, iff it was not closed and the host not deregistered since. |
| `HostSessions.NothingBeforeHello` | `apps/gateway-app/src/hosts/ws-handler.ts:191-196` | A host that has not said hello has no open socket, no route and no listed socket. |
| `HostSessions.OneSocketThreeWays` | `apps/gateway-app/src/hosts/ws-handler.ts:191-301` | A socket is called iff it is open, that of the last hello, and no other socket of the host was closed since; it is listed iff it is open, that of the last hello, and the host was not deregistered since. |
| `HostSessions.OnlineIsCallable` | `apps/gateway-app/src/hosts/ws-handler.ts:191-301` | A host shown as online is shown with the open socket of its last hello, and has a route, then to that socket, iff no other socket of it was closed since. |
| `HostSessions.OnlineSaidHello` | `apps/gateway-app/src/hosts/ws-handler.ts:191-196` | A host shown as online has said hello in this process. |
| `HostSessions.OneAtATimeIsCallable` | `apps/gateway-app/src/hosts/ws-handler.ts:191-301` | A host that itself opens one socket at a time (whatever others do) is called on exactly the socket it has open, and listed with it unless deregistered since. |
| `HostSessions.OnlineButNotCallable` | `apps/gateway-app/src/hosts/ws-handler.ts:276-301` | A concrete behaviour with two sockets of a host: closing the older takes the route but leaves the host shown as online on the newer. |
| `HostSessions.NoClosedSocketIsUsed` | `apps/gateway-app/src/hosts/ws-handler.ts:191-301` | Even then no socket is listed for a host or called that is not an open socket of that host. |
| `HostSessions.HoldsWhatHellosGave` | `apps/gateway-app/src/hosts/ws-handler.ts:177-196` | Over every behaviour a host holds exactly the capabilities, of the four known ones, that some hello of it gave it since a socket of it was last closed: those of its client record, or without one those it claimed. |
| `HostSessions.ClientsHoldOnlyWhatTheyRegistered` | `apps/gateway-app/src/hosts/ws-handler.ts:183-191` | If every hello of a host came with a client record, each capability it holds is known and was in one of those records, whatever the hellos claimed. |
| `HostSessions.EffectiveExactly` | `apps/gateway-app/src/hosts/ws-handler.ts:178-191` | A hello gives exactly the known capabilities of the client record, or without one of its own claim. |
| `HostSessions.SilentHostIsDegraded` | `apps/gateway-app/src/hosts/ws-handler.ts:220-244` | Over every behaviour: the watchdog degrades a host iff more than 40000 ms passed since its last hello or heartbeat on that socket, and otherwise changes nothing. |
| `HostSessions.HelloEffect` | `apps/gateway-app/src/hosts/ws-handler.ts:177-206` | On the fields: online on this socket alone, seen now, no timer, routed to it, heard now. |
| `HostSessions.BeatEffect` | `apps/gateway-app/src/hosts/ws-handler.ts:240-244` | On the fields: seen now, heard now, nothing else. |
| `HostSessions.CloseEffect` | `apps/gateway-app/src/hosts/ws-handler.ts:276-301` | On the fields: no route, and this connection gone; with the last one the host is in its grace period. |
| `HostSessions.Validated` | `apps/gateway-app/src/hosts/ws-handler.ts:178-189` | Exactly the capabilities of the list that the schema knows. |
| `HostSessions.HostSockets.OnHello` | `apps/gateway-app/src/hosts/ws-handler.ts:117-216` | An unsupported version is answered and changes nothing; otherwise registry, route and session change as one hello step, and the answer is followed by every waiting call in order, none of which waits any longer. |
| `HostSessions.HostSockets.OnHeartbeat` | `apps/gateway-app/src/hosts/ws-handler.ts:240-244` | Resets the silence clock and updates lastSeen. |
| `HostSessions.HostSockets.OnWatchdog` | `apps/gateway-app/src/hosts/ws-handler.ts:220-232` | Marks the host degraded iff it has been silent for more than 40 s. |
| `HostSessions.HostSockets.OnClose` | `apps/gateway-app/src/hosts/ws-handler.ts:276-301` | Route, status and session change as one close step. |
| `TopOperations.MergeConserves` | `apps/gateway-app/src/observability/collector.ts:311-330` | Per operation, merging conserves the count, the errors and count x average, and keeps the largest maximum. |
| `TopOperations.TotalOfJoin` | `apps/gateway-app/src/observability/collector.ts:303-330` | What is conserved: totals of two lists are the sums of theirs, and the longer of their longest (with `TotalOfSingle`: one measurement counts as what it says). |
| `TopOperations.TotalOfSingle` | `apps/gateway-app/src/observability/collector.ts:303-330` | One measurement's count, errors, count x average and maximum. |
| `TopOperations.NamesInOrder` | `apps/gateway-app/src/observability/collector.ts:303-332` | Of two merged names the one that stands first was measured first. |
| `TopOperations.Merge` | `apps/gateway-app/src/observability/collector.ts:303-332` | The loop over the map yields one merged operation per name, in order of first occurrence, a single measurement as given. |
| `TopOperations.RankedIsRanking` | `apps/gateway-app/src/observability/collector.ts:332-333` | The ranking is a stable permutation in which whatever stands earlier has a larger count, or the same count and at least as long a maximum. |
| `TopOperations.RankingIsUnique` | `apps/gateway-app/src/observability/collector.ts:332-333` | Any stable sort by that order gives this ranking. |
| `TopOperations.Cut` | `apps/gateway-app/src/observability/collector.ts:334-345` | The top of the ranking; when that is all `http.` although domain operations were given and one is ranked, its last place goes to the best-ranked domain operation. |
| `TopOperations.MergeTopOperations` | `apps/gateway-app/src/observability/collector.ts:286-346` | The report is that cut of the stable ranking of the merged measurements of both lists. |
| `TopOperations.ReportCarriesTotals` | `apps/gateway-app/src/observability/collector.ts:286-346` | Names in a report are distinct and each reported operation carries exactly the total of its measurements. |
| `TopOperations.ReportIsTheTop` | `apps/gateway-app/src/observability/collector.ts:332-345` | For every operation measured and left out: each reported one has a larger count than its total, or the same and at least its longest duration; but for the last place when it is kept for a domain operation and what is left out is `http.`. |
| `TopOperations.ReportRanked` | `apps/gateway-app/src/observability/collector.ts:332-345` | In a report whatever stands earlier has a larger count, or the same and at least as long a maximum; and it has a domain operation whenever some were given and one was measured. |
| `TopOperations.ReportSize` | `apps/gateway-app/src/observability/collector.ts:334-345` | With n the number of distinct names measured, the size is min(limit, n) iff not (the limit is 0, domain operations were given, and a name without `http.` was measured). |
| `TopOperations.ReportFillsTheLimit` | `apps/gateway-app/src/observability/collector.ts:334-345` | With a limit of at least 1 the size is min(limit, n). |
| `TopOperations.ReportOfNought` | `apps/gateway-app/src/observability/collector.ts:336-345` | With a limit of 0, which no caller gives, one domain operation is reported (concrete input). |
| `Collector.TotalsFollowHistory` | `apps/gateway-app/src/observability/collector.ts:89-111` | Over any history of requests and responses the totals are those of the history and the sums over the routes. |
| `Collector.RoutesFollowHistory` | `apps/gateway-app/src/observability/collector.ts:92-107` | A route's statistics are exactly those of its responses; routes without one are not kept. |
| `Collector.ActiveFollowsHistory` | `apps/gateway-app/src/observability/collector.ts:83-111` | Active operations are the unanswered requests iff no response ever came without a request; otherwise they are more. |
| `Collector.ReportedRouteIsExact` | `apps/gateway-app/src/observability/collector.ts:162-174` | What a report says of a route that no domain operation is named after is what the history says: responses, failures, total time, longest time. |
| `Collector.FiveBestRoutes` | `apps/gateway-app/src/observability/collector.ts:162-174` | Of the routes with responses, one left out of the five means five that each had more responses, or as many and at least as long a longest one. |
| `Collector.HealthReportShape` | `apps/gateway-app/src/observability/collector.ts:162-174` | A report is ranked, names each operation once, has min(5, routes) operations when no domain ones were given and never more than five, and a domain operation whenever one was given. |
| `Collector.StatsOfJoin` | `apps/gateway-app/src/observability/collector.ts:92-107` | The statistics of two histories are their sums and the longer of their longest. |
| `Collector.StatsOfOne` | `apps/gateway-app/src/observability/collector.ts:92-107` | One response counts for its own route alone: its time, and an error from status 400 on. |
| `Collector.PairedExactly` | `apps/gateway-app/src/observability/collector.ts:83-111` | Responses are paired iff at no point there are more of them than of requests. |
| `Collector.CountsJoin` | `apps/gateway-app/src/observability/collector.ts:83-111` | Requests and failures of two histories are the sums of theirs. |
| `Collector.CountsOfOne` | `apps/gateway-app/src/observability/collector.ts:83-111` | One request counts as a request, one response with status 400 or more as a failure, and nothing else as either. |
| `Collector.UpperExactly` | `apps/gateway-app/src/observability/collector.ts:91-91` | The verb of a key, letter by letter in upper case. |
| `Collector.GatewayObservabilityCollector.OnRequest` | `apps/gateway-app/src/observability/collector.ts:83-87` | One more active operation. |
| `Collector.GatewayObservabilityCollector.OnResponse` | `apps/gateway-app/src/observability/collector.ts:89-111` | The counters move as a response of the matched pattern, or else the url, that took now - started, or nothing when not started or started later. |
| `Collector.GatewayObservabilityCollector.TopOperations` | `apps/gateway-app/src/observability/collector.ts:162-174` | The report over the five best-ranked routes of the counters and the domain operations. |
| `RouteKeys.KeyIsClean` | `apps/gateway-app/src/observability/collector.ts:32-39` | For every route: its key has no `?` and no slash followed by six identifier characters. |
| `RouteKeys.IdChars` | `apps/gateway-app/src/observability/collector.ts:36-38` | An identifier character is a hexadecimal digit of either case or a hyphen. |
| `RouteKeys.KeysAreTheCleanRoutes` | `apps/gateway-app/src/observability/collector.ts:32-39` | A route is its own key iff it is non-empty and has neither. |
| `RouteKeys.Idempotent` | `apps/gateway-app/src/observability/collector.ts:32-39` | Normalising twice is normalising once iff the route does not start with `?`. |
| `RouteKeys.IdempotentOnPaths` | `apps/gateway-app/src/observability/collector.ts:32-39` | Normalising is idempotent on every route that starts with a slash. |
| `RouteKeys.QueryAloneIsNot` | `apps/gateway-app/src/observability/collector.ts:32-39` | On a text that is only a query, which no request has for its route, it is not (concrete input). |
| `RouteKeys.SameKey` | `apps/gateway-app/src/observability/collector.ts:36-38` | Routes that differ only in a maximal identifier run of at least six characters after a slash have the same key, wherever it stands. |
| `RouteKeys.IdReplaced` | `apps/gateway-app/src/observability/collector.ts:36-38` | Such a run is replaced by `:id`, and what stands before and after it as if it stood alone. |
| `AdaptiveBuffers.TtlFallsFromMaxToMin` | `packages/gateway-core/src/buffer/adaptive.ts:40-44` | For load >= 0, a positive threshold and minTTL <= maxTTL: the time to live is within bounds, falls as the load rises, is maxTTL at no load and minTTL from the threshold on. |
| `AdaptiveBuffers.TtlIsLinear` | `packages/gateway-core/src/buffer/adaptive.ts:40-44` | Below the threshold it is the linear value to the nearest millisecond, halves up. |
| `AdaptiveBuffers.DefaultPolicyBounds` | `packages/gateway-core/src/buffer/adaptive.ts:14-19` | With the default policy the time to live is between 30 s and 5 min, and takes both values. |
| `AdaptiveBuffers.CacheFollowsHistory` | `packages/gateway-core/src/buffer/adaptive.ts:47-62` | What the expiring cache returns at any time is, in order, the calls waiting by the history. |
| `AdaptiveBuffers.ReturnsTheWaiting` | `packages/gateway-core/src/buffer/adaptive.ts:47-62` | The call returned at a position is that of the event waiting at that position. |
| `AdaptiveBuffers.WaitingExactly` | `packages/gateway-core/src/buffer/adaptive.ts:47-62` | Those are, without replaying events: a call waits iff it was accepted, the host was not flushed after it, and the list has not expired since: each later accepted call came before the due time the one before it set, and so does the present after the newest. |
| `AdaptiveBuffers.AcceptsWhenRoom` | `packages/gateway-core/src/buffer/adaptive.ts:49-52` | A call is refused exactly when as many as may wait already do by the history. |
| `AdaptiveBuffers.NeverOverfull` | `packages/gateway-core/src/buffer/adaptive.ts:50-52` | Never more than maxSize wait. |
| `AdaptiveBuffers.FlushedAtMostOnce` | `packages/gateway-core/src/buffer/adaptive.ts:57-62` | No call is returned by two flushes. |
| `AdaptiveBuffers.OnlyAcceptedWait` | `packages/gateway-core/src/buffer/adaptive.ts:47-54` | Only accepted calls wait. |
| `AdaptiveBuffers.LivesAtLeastMinTTL` | `packages/gateway-core/src/buffer/adaptive.ts:47-54` | Until minTTL after an accepted call, and without a flush, everything that waited then still waits in front, followed by it. |
| `AdaptiveBuffers.AdaptiveBuffer.Enqueue` | `packages/gateway-core/src/buffer/adaptive.ts:47-54` | Refused with nothing changed, or appended with a new time to live for the whole list. |
| `AdaptiveBuffers.AdaptiveBuffer.Flush` | `packages/gateway-core/src/buffer/adaptive.ts:57-62` | Returns the live calls and clears them. |
| `RefreshTokens.RefreshedAtMostOnce` | `packages/gateway-auth/src/store.ts:108-118` | Over any sequence of registrations, logins and refreshes a refresh token is accepted at most once. |
| `RefreshTokens.LoginSucceedsExactly` | `packages/gateway-auth/src/service.ts:63-83` | Over every sequence of actions with fresh ids: a login is answered iff an earlier action registered that client id with exactly that secret, and then with tokens for that action's host and namespace, of the free tier, expiring 15 minutes and 30 days on. |
| `RefreshTokens.RegisteredIsStored` | `packages/gateway-auth/src/store.ts:48-60` | A client once registered stays stored as it was registered, under its id and under its host's. |
| `RefreshTokens.StoredIsRegistered` | `packages/gateway-auth/src/store.ts:48-60` | And every client stored is as some action registered it. |
| `RefreshTokens.StoredAsHanded` | `packages/gateway-auth/src/store.ts:99-118` | What is stored for a token handed out is the host and namespace of the access token beside it, until 30 days on. |
| `RefreshTokens.TokensAreLogins` | `packages/gateway-auth/src/service.ts:63-113` | Refreshing conserves the number of stored refresh tokens: it is always the number of logins with the secret of a client registered before. |
| `RefreshTokens.RefreshKeepsIdentity` | `packages/gateway-auth/src/service.ts:87-113` | However long the chain of refreshes, what is answered is for the host and namespace that the client whose login began it registered with, of the free tier, expiring 15 minutes and 30 days on; and for the host the old token names. |
| `RefreshTokens.StoredIsUnused` | `packages/gateway-auth/src/store.ts:99-118` | What is stored is exactly the tokens some login or refresh answered with and no refresh accepted since. |
| `RefreshTokens.RefreshSucceedsExactly` | `packages/gateway-auth/src/service.ts:87-113` | A refresh succeeds iff the token was handed out and not accepted since, is a refresh token of a host, and is not expired: the stored entry never expires first. |
| `RefreshTokens.AuthService.Register` | `packages/gateway-auth/src/service.ts:38-59` | Client record, reverse index and public key written. |
| `RefreshTokens.AuthService.IssueTokens` | `packages/gateway-auth/src/service.ts:63-83` | A pair for the client iff it is stored with the hash of this secret, and the grant stored. |
| `RefreshTokens.AuthService.RefreshTokens` | `packages/gateway-auth/src/service.ts:87-113` | Verify, consume, sign, store: one refresh step and its answer. |

## Left out

- Interleaving inside one operation of `HostRegistry`, `AdaptiveBuffer` or the auth store: their reads and writes of the asynchronous cache are taken as uninterrupted. The dispatcher, the execution registry and the subscription registry have no suspension point inside a method, so there nothing is lost.
- Sockets, abort controllers and promises are values (open or closed, a reason, a settlement); the aliasing of one controller by the registry and the run is modelled by updating both in one step.
- A hello is one step although it awaits `ensureRegistered`, `setOnline` and `flush` in turn (`apps/gateway-app/src/hosts/ws-handler.ts:192-206`); what could happen between these is not modelled.
- GatewaySystem lets any settlement of a run's call happen at any time, so its theorems hold for more behaviours than the code has; `RunCalls` ties runs to the dispatcher's pending calls and routes.
- `handleInbound` does not ask which socket a message came on, and neither does the model: the request id alone decides.
- RunCalls takes code to need no time and timers to fire when they are due.
- The execute route passes no retry configuration; the theorems are for every configuration, with an integer `maxAttempts`.
- Resolve: an option that is present but undefined counts as absent; in the code it replaces the default, so that an undefined `maxAttempts` makes no attempt at all.
- Events omit request ids, execution metadata and durations; JSON is taken as an invertible codec, and JSON values as their text.
- A host type of null and an absent one are the same; the created_at of a token row, which nothing reads, is omitted; rows that tie in `ORDER BY` may come in any order.
- HostStates: a cache entry of a host may vanish at any time (eviction), cached tokens and indexes do not; the properties that need no eviction say so.
- HostSessions: an entry does not vanish from the cache while the process lives, a process starts with all hosts unconnected, and the cancelling part of a close is in `GatewayProcess.Process.OnHostClose`.
- A host that stays degraded in a cache that outlives a restart without a store keeps its old connection there, as in the code.
- `deregister` leaves the cached token, as in the code, so `HostHistory.OnlyLiveTokensSurviveCrash` speaks of a restart that lost the cache.
- `cancelByHost` ignores the namespace, as in the code; the theorems are about host ids.
- `firstHost`, `connectedCount`, `connectionCount`, `size` and the plain getters: they read one field.
- AdaptiveBuffers: a threshold of 0 with a negative load divides by zero in the code and is excluded; an entry is taken to be gone at its expiry time exactly.
- RefreshTokens: the hash is injective, the signer ideal, and refreshes are not concurrent; entries that have expired stay in the modelled map but are never returned.
- Static tokens seeded at start-up, machine-token resolution through JWTs, the hello timeout and malformed messages that end before any state changes.
- HTTP and WebSocket plumbing, proxying, schemas, configuration, logging, Prometheus text, process snapshots, telemetry, LLM and platform routes, `handleAdapterCall`, `RuntimeServer`, `GatewayHostResolver`, `GatewayDispatchTransport` and the trace context.

Nothing was executed: every statement here is about the model and is established by proof.
