# MiniCloud, verified core

MiniCloud is a small function-serving platform. A Controller keeps functions, versions, routes and assignments
under compare-and-swap revisions and records every mutation in an idempotency ledger. A publisher replicates
the serving view to Gateways. A Gateway picks a weighted route target, then the least loaded endpoint of that
target. On each Worker an agent drives replicas through a fenced lifecycle, an authorization gate decides
whether an invocation may start, and a cache shares compiled WebAssembly programs between leases.

This project models those components in Dafny and proves what they promise, over every run and every input.

How a component is laid out:

- A state datatype and one function per critical section follow the Go code branch by branch.
- Where goroutines interleave between critical sections, a system state adds what the goroutines hold, and a
  step is one critical section of one goroutine. `Runs.dfy` turns "kept by every step" into "true in every
  reachable state" and "true from here on".
- A class has the Go struct's fields and one method per operation, with the source's loops. Each method is
  proved equal to its function, so every theorem about the functions is about the methods.
- A range over a Go map takes an `order` parameter: the loop is proved for every order of the keys.

| component | files |
|---|---|
| compiled-module cache | `CacheCore`, `CacheSystem`, `CacheProofs`, `CachePlaces`, `CacheTheorems`, `WorkerCache` |
| authorization gate | `ServingAuth`, `GateHistories`, `GateDisconnects` |
| worker agent | `AgentReplica`, `AgentSystem`, `AgentProofs`, `AgentTheorems`, `WorkerAgent` |
| publisher and Gateway store | `ServingView`, `Publisher`, `Replication`, `GatewayStore` |
| idempotency ledger | `Ledger`, `LedgerHistories`, `OperationLedger` |
| control stores | `ControlStores`, `ControlTheorems`, `ControlObjects` |
| controller | `Controller`, `ControllerRuns`, `ControllerReplays`, `ControllerExamples` |
| placement planner | `PlacementOrder`, `Planner`, `PlannerTheorems`, `PlannerObject` |
| weighted routing | `Routing`, `RoutingTheorems` |
| balancer | `Balancer` |
| worker registry | `WorkerRegistry`, `RegistryRuns`, `RegistryObject` |
| shared | `Common`, `Ordering`, `Runs` |

## What the proofs found

- A ledger record can name a revision that never became true. The Controller predicts revisions while it
  prepares an operation, and the direct `PublishRoute` does not take the operation lock.
  `Controller.OutcomeExactlyWhenUpToDate` and `ControllerRuns.RecordedOutcomeIsEffect` give the exact condition
  under which the record is right. `ControllerExamples.StaleLifecycleRecord` and
  `ControllerExamples.StalePublicationRecord` are two whole runs that end with a wrong record in the ledger.
- Disconnecting a control connection that the gate has not accepted yet does not always rule it out: it can be
  accepted afterwards and carry live-only authorizations. `GateDisconnects.DisconnectIsFinalExactlyWhen` says
  exactly when no continuation uses the connection again, and `GateDisconnects.DisconnectedConnectionServes` is a
  history in which one does.
- A clock regression turns registry workers Unavailable without moving the registry revision.
  `RegistryRuns.RevisionTracksChanges` gives the exact condition before the call, and
  `RegistryRuns.RegressionKeepsTheRevision` is a run in which it happens.
- Three defensive branches are never taken: the early return of `abandonFlight`, the registration answer
  "another registration owns the current session", and every invariant error of `ServingStates`.

## Model

| member | source | states |
|---|---|---|
| `CacheCore.FullExactlyWhenHopeless` | internal/workercache/cache.go:535-561 | the cache reports Full exactly when evicting every unpinned entry would still not make room in weight and count |
| `CacheCore.ShortestRun` | internal/workercache/cache.go:535-561 | the victims are a prefix of the unpinned entries, oldest first, that makes room, and no shorter prefix does |
| `WorkerCache.ShortestIsUnique` | internal/workercache/cache.go:535-561 | that selection is the only oldest-first run that makes room and has no shorter one |
| `CacheTheorems.StepInv` | internal/workercache/cache.go:190-633 | no critical section of any caller, flight goroutine or Close call leaves the invariant: pointers, flights, pins, LRU list, weights, drain channel, places of programs |
| `CacheTheorems.ReachableIsGood` | internal/workercache/cache.go:190-633 | the whole invariant holds in every state of every interleaving |
| `CacheTheorems.ExactlyOnePlace` | internal/workercache/cache.go:472-633 | every program ever compiled is in exactly one place: with its flight goroutine, cached, in one close batch, in the pending list, or closed |
| `CacheTheorems.LeasedProgramIsCached` | internal/workercache/cache.go:271-326 | the program behind a live lease is cached, is in nobody's close batch and is not closed |
| `CacheTheorems.RefsCountHolders` | internal/workercache/cache.go:217-326 | an entry's reference count is its leases plus the waiters of its finished flight that have not claimed yet |
| `CacheTheorems.CapacityHolds` | internal/workercache/cache.go:472-561 | no key is both cached and in flight, the stored weight is the sum over the list, and both capacity bounds hold |
| `CacheTheorems.ClosedAtMostOnce` | internal/workercache/cache.go:353-411 | however Close calls overlap and fail, no program is closed successfully twice |
| `CacheTheorems.AbandonAlwaysCounts` | internal/workercache/cache.go:440-453 | an abandoning waiter is always counted, so the early return is dead code |
| `CacheTheorems.IdleForever` | internal/workercache/cache.go:353-411 | once closing with nothing active, no call, lease or flight ever becomes active again |
| `CacheTheorems.OverwriteLosesNothing` | internal/workercache/cache.go:385-408 | Close detaches only in an idle cache, and the pending list it overwrites is empty at that point |
| `CacheTheorems.SuccessfulCloseClosesAll` | internal/workercache/cache.go:353-411 | after a Close that reported success, every program ever compiled was closed, each exactly once |
| `CacheTheorems.AdmitRunsOnCore` | internal/workercache/cache.go:217-268 | the system's admission step is exactly Acquire's second critical section |
| `WorkerCache.BatchKeepsFailures` | internal/workercache/cache.go:623-633 | closing a batch visits every program and keeps exactly those whose close failed, in order |
| `WorkerCache.ClosePrograms` | internal/workercache/cache.go:623-633 | the loop returns exactly the programs whose close failed, in order |
| `WorkerCache.WalkFromBack` | internal/workercache/cache.go:535-561 | the backward walk over the list collects exactly the reference selection |
| `WorkerCache.RangeOverEntries` | internal/workercache/cache.go:582-591 | in any range order, detaching takes every cached program exactly once, as many as there are entries |
| `WorkerCache.Cache.constructor` | internal/workercache/cache.go:138-187 | a new cache is the empty initial state |
| `WorkerCache.Cache.Begin` | internal/workercache/cache.go:593-601 | entering is refused while closing and otherwise counts one more active user |
| `WorkerCache.Cache.StartLocked` | internal/workercache/cache.go:603-608 | the first active user replaces the drained channel |
| `WorkerCache.Cache.EndLocked` | internal/workercache/cache.go:616-621 | the last active user closes the drained channel |
| `WorkerCache.Cache.Acquire` | internal/workercache/cache.go:217-268 | the critical section is the admission function: hit, join, start or refuse |
| `WorkerCache.Cache.AbandonFlight` | internal/workercache/cache.go:440-453 | a waiter leaves, cancelling the load or unpinning the entry if it was the last one concerned |
| `WorkerCache.Cache.Release` | internal/workercache/cache.go:313-326 | the first release unpins the lease's entry and ends its use |
| `WorkerCache.Cache.SelectVictimsLocked` | internal/workercache/cache.go:535-561 | the in-place selection equals the reference selection |
| `WorkerCache.Cache.CompleteFlight` | internal/workercache/cache.go:472-533 | completion publishes or gives up exactly as the function does and returns the programs to close |
| `WorkerCache.Cache.CancelFlightsLocked` | internal/workercache/cache.go:576-580 | every running flight and no other is cancelled |
| `WorkerCache.Cache.ReportFailures` | internal/workercache/cache.go:563-574 | programs that failed to close join the pending list |
| `WorkerCache.Cache.CloseBeginLocked` | internal/workercache/cache.go:353-378 | a Close round starts closing, cancels flights, and waits or claims the release as the function says |
| `WorkerCache.Cache.DetachPrograms` | internal/workercache/cache.go:385-396 | all cached and pending programs move to this Close call |
| `WorkerCache.Cache.CloseEndLocked` | internal/workercache/cache.go:398-409 | failures become the new pending list, otherwise the cache is released |
| `GateHistories.AcceptedIsJustified` | internal/servingauth/gate.go:188-254 | every accepted invocation has one earlier install of the same fence, undisturbed since, in the current session and highest discovery epoch, within its lifetime, and for live-only over a connection that never dropped |
| `GateHistories.MarksNeverFall` | internal/servingauth/gate.go:105-134 | discovery and session epochs only rise and an unhealthy clock stays unhealthy |
| `GateHistories.RegressionStopsEverything` | internal/servingauth/gate.go:295-303 | after one clock reading below an earlier one nothing is installed or accepted again |
| `GateHistories.DisconnectedForGood` | internal/servingauth/gate.go:175-224 | after an accepted connection is disconnected nothing is installed over it and nothing live-only from it is accepted |
| `GateDisconnects.DisconnectIsFinalExactlyWhen` | internal/servingauth/gate.go:105-254 | after a disconnect of c, no continuation of the history ever installs over c or accepts a live-only invocation from c, exactly unless before the disconnect c was valid, ahead of the session, not behind the Leader, the clock healthy and the configuration one that New admits |
| `GateDisconnects.OtherwiseRuledOut` | internal/servingauth/gate.go:105-254 | in every history, a disconnected connection outside that condition is never used again |
| `GateDisconnects.ComesBack` | internal/servingauth/gate.go:105-254 | every history that ends inside that condition goes on to accept c, install over it and accept a live-only invocation from it |
| `GateDisconnects.DisconnectedConnectionServes` | internal/servingauth/gate.go:175-184 | a history of four events in which a connection is disconnected first and then serves a live-only invocation |
| `GateHistories.FindInstall` | internal/servingauth/gate.go:188-224 | every stored authorization was put there by one earlier install and has stayed since |
| `GateHistories.StayedConnected` | internal/servingauth/gate.go:105-184 | a connection that is up at both ends of a stretch was up throughout |
| `GateHistories.HistoryOk` | internal/servingauth/gate.go:105-265 | in every state of every history, stored authorizations belong to the current session and epoch and match the stored assignment |
| `ServingAuth.AcceptControl` | internal/servingauth/gate.go:105-134 | success makes the connection current; a refusal leaves session and assignments alone, and if it moved the discovery epoch it cleared permissions and connection |
| `ServingAuth.Gate.constructor` | internal/servingauth/gate.go:67-100 | a new gate is the initial state |
| `ServingAuth.Gate.AcceptAuthoritativeControl` | internal/servingauth/gate.go:105-134 | whole new state: a newer Leader clears all permissions even if the session is refused, a newer session also clears the assignments, an equal session needs the very same connection |
| `ServingAuth.Gate.Disconnect` | internal/servingauth/gate.go:175-184 | exactly the named connection goes down and keeps its place as the last one; any other name changes nothing |
| `ServingAuth.Gate.ElapsedLocked` | internal/servingauth/gate.go:295-303 | the clock advances or becomes unhealthy for good |
| `ServingAuth.Gate.InstallAuthorization` | internal/servingauth/gate.go:188-224 | whole new state: stored only over the current connection, epoch and session, as a compatible refresh or within the bound, stamped with the clock; a refusal stores nothing |
| `ServingAuth.Gate.Authorize` | internal/servingauth/gate.go:229-254 | accepted exactly for the stored fence while it is live; a record found dead is removed |
| `ServingAuth.Gate.RevokeAssignment` | internal/servingauth/gate.go:257-265 | the method forgets exactly this assignment |
| `AgentProofs.StepInv` | internal/workeragent/agent.go:181-818 | no critical section of any caller leaves the agent's invariant |
| `AgentTheorems.ReachableIsGood` | internal/workeragent/agent.go:181-818 | the agent's invariant holds in every state of every interleaving |
| `AgentTheorems.AuthorizationsAreForReadyReplicas` | internal/workeragent/agent.go:309-326 | every stored authorization belongs to a Ready replica with exactly that identity in the current session |
| `AgentTheorems.LiveReplicasAreCurrent` | internal/workeragent/agent.go:181-210 | every replica that is not terminal is bound to the gate's current session and listed under its id |
| `AgentTheorems.AcceptedInvocationIsFenced` | internal/workeragent/agent.go:408-429 | when an invocation is accepted its own replica is Ready, listed and leased, the fence is the authorized one of the highest epoch, within its lifetime, and the agent is not closing |
| `AgentTheorems.AcceptedWasInstalled` | internal/workeragent/agent.go:309-429 | the fence of an accepted invocation was installed earlier; at every moment since, its replica was Ready with that identity and the authorization in force: not withdrawn, same Leader and session, for live-only the same connection never dropped, and within its lifetime by the Worker's clock |
| `AgentTheorems.LeaseReturnedAtMostOnce` | internal/workeragent/agent.go:592-764 | however preparation, use, cancellation and loss interleave, a cache lease is in one place and returned at most once |
| `AgentTheorems.NoUserOfReturnedLease` | internal/workeragent/agent.go:679-744 | a lease that is being or was returned has no invocation on its replica |
| `AgentTheorems.CountersAreExact` | internal/workeragent/agent.go:340-436 | users and active count exactly the entered and the accepted invocations |
| `AgentTheorems.NoInvalidTransition` | internal/workeragent/agent.go:837-846 | no run reaches the panic of an invalid transition or stops in a passing state |
| `AgentTheorems.NoReplicaIsStuck` | internal/workeragent/agent.go:691-764 | a draining replica, or a terminal one not yet done, always has a preparation, invocation or release left that moves it on |
| `AgentTheorems.CacheClosedAfterAllLeases` | internal/workeragent/agent.go:766-818 | the cache is closed only when every lease ever obtained is back and nothing is prepared or invoked |
| `AgentReplica.StopShape` | internal/workeragent/agent.go:691-744 | stopping a replica leaves it terminal or draining, with its lease released exactly when it is idle |
| `AgentReplica.PrepareDoneShape` | internal/workeragent/agent.go:592-655 | finishing a preparation makes the replica Ready with the lease, or hands the lease to exactly one release |
| `AgentReplica.PrepareFailedShape` | internal/workeragent/agent.go:657-671 | a failed preparation ends the replica without a lease |
| `AgentReplica.LeaveShape` | internal/workeragent/agent.go:679-689 | the last user of a stopping replica triggers its one release |
| `AgentReplica.ReleaseEndShape` | internal/workeragent/agent.go:746-764 | after the lease went back the replica is terminal and done |
| `WorkerAgent.TwoLoops` | internal/workeragent/agent.go:181-210 | the two loops of AcceptControl together lose exactly the outdated replicas |
| `WorkerAgent.SweepIsStopAll` | internal/workeragent/agent.go:691-724 | a loop over the replica table stops exactly the chosen replicas, in any order |
| `WorkerAgent.StopWhere` | internal/workeragent/agent.go:181-231 | the range over the table, in any order, stops those and only those satisfying the condition |
| `WorkerAgent.Agent.constructor` | internal/workeragent/agent.go:123-177 | a new agent is the initial state |
| `WorkerAgent.Agent.AcceptConnection` | internal/workeragent/agent.go:181-210 | the gate accepts or refuses, and exactly the replicas the new control no longer backs are lost with their leases handed out |
| `WorkerAgent.Agent.DisconnectConnection` | internal/workeragent/agent.go:213-231 | preparations over exactly this connection are lost |
| `WorkerAgent.Agent.Prepare` | internal/workeragent/agent.go:235-306 | duplicates, conflicts, limits and insertion exactly as in the model |
| `WorkerAgent.Agent.FinishPrepare` | internal/workeragent/agent.go:592-655 | the replica is Ready exactly if it was still fetching, backed and matching and the agent open; otherwise it is terminal and the lease is handed out; no other replica changes |
| `WorkerAgent.Agent.FinishFailedPrepare` | internal/workeragent/agent.go:657-671 | the replica is terminal and done without a lease; no other replica changes |
| `WorkerAgent.Agent.InstallAuthorization` | internal/workeragent/agent.go:309-326 | the record is stored exactly if reported, and then the replica is Ready with this identity over the current connection; otherwise no authorization changes |
| `WorkerAgent.Agent.EnterInvocation` | internal/workeragent/agent.go:340-377 | the caller becomes a user of a Ready replica or is refused |
| `WorkerAgent.Agent.CheckInvocation` | internal/workeragent/agent.go:408-429 | whether the invocation is accepted is the model's decision, including authorization by the gate |
| `WorkerAgent.Agent.FinishInvocation` | internal/workeragent/agent.go:679-689 | the lease is handed out exactly by the last user of a replica that is no longer Ready; no other replica changes |
| `WorkerAgent.Agent.CancelAssignment` | internal/workeragent/agent.go:440-463 | the exact assignment drains and loses its authorization |
| `WorkerAgent.Agent.AcknowledgeTerminal` | internal/workeragent/agent.go:468-490 | only a terminal, finished replica of exactly this observation is forgotten |
| `WorkerAgent.Agent.FinishRelease` | internal/workeragent/agent.go:746-764 | the replica is terminal, done and without its lease; no other replica changes |
| `WorkerAgent.FinishPreparation` | internal/workeragent/agent.go:592-655 | the step-by-step updates of finishPrepare are the transition that PrepareDoneShape characterizes |
| `WorkerAgent.FailPreparation` | internal/workeragent/agent.go:657-671 | the step-by-step updates of a failed preparation are the transition that PrepareFailedShape characterizes |
| `WorkerAgent.LeaveReplica` | internal/workeragent/agent.go:679-744 | leaving and finalizing an idle replica is the transition that LeaveShape characterizes |
| `WorkerAgent.FinishReplica` | internal/workeragent/agent.go:756-764 | done is closed exactly when the replica is terminal with nothing outstanding |
| `WorkerAgent.Agent.BeginClosing` | internal/workeragent/agent.go:766-781 | every listed replica drains and no new one is admitted |
| `WorkerAgent.Agent.BeginCacheClose` | internal/workeragent/agent.go:783-804 | one caller at a time closes the cache |
| `WorkerAgent.Agent.EndCacheClose` | internal/workeragent/agent.go:806-817 | success is final and failure lets another caller retry |
| `Publisher.SentIsWellPlaced` | internal/discovery/publisher.go:34-83 | a sent event and every snapshot in it carry the next position |
| `Publisher.Publisher.BuildOne` | internal/discovery/publisher.go:34-52 | the sequence moves by one exactly on success |
| `Publisher.Publisher.BuildFull` | internal/discovery/publisher.go:56-83 | a full build is all or nothing and uses one sequence number |
| `Replication.ReplicaMatchesPublisher` | internal/gatewaydiscovery/store.go:73-169 | however events are lost, repeated or reordered, a synced store holds exactly what its epoch's publisher had published at the store's sequence |
| `Replication.PositionMovesUp` | internal/gatewaydiscovery/store.go:73-169 | the position only moves up lexicographically; being synced and an unhealthy clock are for good |
| `Replication.LookupReturnsPublished` | internal/gatewaydiscovery/store.go:184-208 | a successful lookup returns what was published at the store's position minus the suppressed endpoints |
| `Replication.RegressionStopsLookups` | internal/gatewaydiscovery/store.go:450-466 | after one clock regression no lookup succeeds and no event is applied again |
| `Replication.RevisionsNeverRegress` | internal/gatewaydiscovery/store.go:355-383 | while a function stays in the view its revisions never fall and equal revisions mean equal content, over the whole stretch |
| `Replication.HiddenExactlySince` | internal/gatewaydiscovery/store.go:240-271 | an endpoint is hidden exactly when it was suppressed under its exact identity and has been offered ever since |
| `Replication.ChainInOrder` | internal/gatewaydiscovery/store.go:355-383 | pairwise non-regression carries over a chain of snapshots |
| `Replication.PublishedIsStable` | internal/discovery/publisher.go:34-83 | what was published at a position never changes later |
| `ServingView.Visible` | internal/gatewaydiscovery/store.go:433-448 | exactly the offered endpoints that are not hidden under their identity |
| `GatewayStore.NormalizeEvent` | internal/gatewaydiscovery/store.go:291-330 | the loop accepts exactly the well-formed events and yields their content |
| `GatewayStore.RetainedSuppressions` | internal/gatewaydiscovery/store.go:417-431 | a suppression is retained exactly while the new snapshot offers that identity |
| `GatewayStore.VisibleEndpoints` | internal/gatewaydiscovery/store.go:433-448 | the filter loop computes the visible endpoints |
| `GatewayStore.FindEndpoint` | internal/gatewaydiscovery/store.go:240-271 | the search loop finds the first endpoint with the assignment id |
| `GatewayStore.CheckAll` | internal/gatewaydiscovery/store.go:101-131 | the full event passes exactly when no function's revisions regress |
| `GatewayStore.InstallAll` | internal/gatewaydiscovery/store.go:101-131 | the new map holds exactly the event's functions with retained suppressions |
| `GatewayStore.ViewAll` | internal/gatewaydiscovery/store.go:212-236 | one stale function fails the whole read |
| `GatewayStore.Store.constructor` | internal/gatewaydiscovery/store.go:39-70 | a new store is the initial state |
| `GatewayStore.Store.ElapsedLocked` | internal/gatewaydiscovery/store.go:457-466 | the clock advances or becomes unhealthy for good |
| `GatewayStore.Store.ApplyFullLocked` | internal/gatewaydiscovery/store.go:101-131 | whole new state: all functions of the event replace the view with suppressions retained, or nothing changes on an older sequence or a regressing revision |
| `GatewayStore.Store.ApplyIncrementalLocked` | internal/gatewaydiscovery/store.go:133-169 | whole new state: the next sequence number replaces one function; a gap or newer epoch asks for a Full Sync; an old one, a regression or a full store changes nothing |
| `GatewayStore.Store.ApplyEvent` | internal/gatewaydiscovery/store.go:73-99 | malformed, older-epoch and repeated events change nothing, a repeat is accepted exactly when its content is equal, the rest goes to full or incremental |
| `GatewayStore.Store.SuppressEndpoint` | internal/gatewaydiscovery/store.go:240-271 | exactly the named identity becomes suppressed, if it is offered |
| `GatewayStore.Store.LookupFunction` | internal/gatewaydiscovery/store.go:184-208 | found exactly when synced, healthy, known and fresh, with the suppressed endpoints left out |
| `GatewayStore.Store.LookupAll` | internal/gatewaydiscovery/store.go:212-236 | all visible snapshots, or failure if one is stale |
| `Ledger.Complete` | internal/controlplane/operation.go:283-340 | the mutation is recorded exactly when it is new, valid, within the bound and its callback succeeds; otherwise the ledger is unchanged |
| `LedgerHistories.ReplayReturnsTheApplication` | internal/controlplane/operation.go:283-340 | whatever a completion returns without applying is the record of the one application still retained |
| `LedgerHistories.ReapplyNeedsLateCutoff` | internal/controlplane/operation.go:283-399 | a key is applied again only after a GC whose cutoff lies both retention times after the earlier completion, whatever the order of cutoffs |
| `LedgerHistories.DifferentRequestNeverMutates` | internal/controlplane/operation.go:283-340 | in every history, a different request under an applied key is refused and mutates nothing, as record and as tombstone, up to a GC whose cutoff is late enough |
| `LedgerHistories.FindApplication` | internal/controlplane/operation.go:283-340 | every retained record was inserted by one earlier application and has been there since |
| `LedgerHistories.FateHolds` | internal/controlplane/operation.go:368-399 | an applied key stays as record, then tombstone, until cutoffs late enough have come |
| `LedgerHistories.LedgerIsBounded` | internal/controlplane/operation.go:283-399 | records and tombstones never share a key and together never exceed the bound |
| `OperationLedger.ExpireLoop` | internal/controlplane/operation.go:368-399 | in any range order the first GC loop expires exactly the old records |
| `OperationLedger.DropLoop` | internal/controlplane/operation.go:368-399 | in any range order the second GC loop drops exactly the old tombstones |
| `OperationLedger.LedgerObject.constructor` | internal/controlplane/operation.go:211-219 | a new ledger is empty |
| `OperationLedger.LedgerObject.BeginComplete` | internal/controlplane/operation.go:283-326 | the callback is reached exactly when the completion would mutate |
| `OperationLedger.LedgerObject.CompleteAfter` | internal/controlplane/operation.go:273-340 | replay, conflict, expiry, bound, failed callback or one new record, with the ledger unchanged in all but the last |
| `OperationLedger.LedgerObject.CollectGarbage` | internal/controlplane/operation.go:368-399 | old records become tombstones stamped with the cutoff, then old tombstones go |
| `ControlTheorems.ExecuteOk` | internal/controlplane/route.go:60-121 | every command of the four stores keeps the joint invariant over catalog, releases, routes and assignments |
| `ControlTheorems.ServingStatesNeverFails` | internal/controlplane/route.go:173-240 | in every reachable state each function yields a serving state, so no invariant error occurs |
| `ControlTheorems.IndexesAreInverse` | internal/controlplane/catalog.go:162-274 | the name and id indexes are inverse and functions and triggers are one to one |
| `ControlTheorems.StatesMatchTables` | internal/controlplane/release.go:96-215 | a version is Ready exactly when it has a deployment and Validating exactly when it has a fence |
| `ControlTheorems.ActiveCountsAreExact` | internal/controlplane/assignment.go:106-204 | the per-target counts are the live assignments, within the desired replicas, and a cancel never meets a missing count |
| `ControlTheorems.AssignmentsAreForever` | internal/controlplane/assignment.go:106-204 | an assignment id once used keeps its placement for good and is cancelled at most once |
| `ControlTheorems.CreateFunctionOk` | internal/controlplane/catalog.go:162-194 | creating a function keeps the catalog's invariant |
| `ControlTheorems.SetLifecycleOk` | internal/controlplane/catalog.go:198-232 | a lifecycle change keeps the catalog's invariant |
| `ControlTheorems.RotateOk` | internal/controlplane/catalog.go:236-274 | a token rotation keeps the catalog's invariant |
| `ControlTheorems.CreateVersionOk` | internal/controlplane/release.go:96-124 | creating a version keeps the release invariant |
| `ControlTheorems.StartOk` | internal/controlplane/release.go:128-156 | starting a validation keeps the release invariant |
| `ControlTheorems.CompleteOk` | internal/controlplane/release.go:161-215 | completing a validation keeps the release invariant |
| `ControlTheorems.PublishOk` | internal/controlplane/route.go:60-121 | a publication keeps the route invariant and the function's active revision equal to the route's |
| `ControlTheorems.InstallOk` | internal/controlplane/assignment.go:106-158 | installing keeps the counts exact and within the desired replicas |
| `ControlTheorems.CancelOk` | internal/controlplane/assignment.go:161-204 | cancelling keeps the counts exact and never meets a missing count |
| `ControlObjects.CatalogStore.Create` | internal/controlplane/catalog.go:162-194 | keeps indexes and tables inverse; on success going by the new name finds exactly this function and its trigger, on refusal nothing changes |
| `ControlObjects.CatalogStore.SetFunctionLifecycle` | internal/controlplane/catalog.go:198-232 | keeps the catalog in order; success means the revision was the expected one and moved by one exactly if the lifecycle changed, for this function alone |
| `ControlObjects.CatalogStore.RotateInvocationToken` | internal/controlplane/catalog.go:236-274 | keeps the catalog in order and never meets a missing trigger; success replaces the verifier of this trigger alone, one revision after the expected one |
| `ControlObjects.ReleaseStore.Create` | internal/controlplane/release.go:96-124 | keeps counts exact and within the limit; success adds exactly this version and one to its function's count |
| `ControlObjects.ReleaseStore.Start` | internal/controlplane/release.go:128-156 | keeps Validating and fences in step; success takes an Uploaded version to Validating under exactly this fence |
| `ControlObjects.ReleaseStore.Complete` | internal/controlplane/release.go:161-215 | keeps Ready and deployments in step; success needs this fence, removes it, and the version is Ready with a deployment exactly if the report was valid |
| `ControlObjects.RouteStore.PublishRoute` | internal/controlplane/route.go:60-121 | keeps every route its function's active one with a ready target; success stores the route and moves pointer and revision by one together, refusal changes neither store |
| `ControlObjects.RouteStore.CheckPublication` | internal/controlplane/route.go:60-121 | the checks refuse exactly the publications the transaction refuses, with the same code |
| `ControlObjects.RouteStore.ServingStates` | internal/controlplane/route.go:173-240 | the sorted states, one per function, or the first invariant error; never an error in a reachable state |
| `ControlObjects.ServingIgnoresOrder` | internal/controlplane/route.go:173-240 | the sorted read does not depend on the order in which the map yields the functions |
| `ControlObjects.AllServingIs` | internal/controlplane/route.go:173-240 | the read succeeds exactly when every function has a state, and lists each function's own state |
| `ControlObjects.AssignmentStore.Install` | internal/controlplane/assignment.go:106-158 | keeps every count equal to its live assignments and within the desired replicas; success adds exactly this record, refusal changes nothing |
| `ControlObjects.AssignmentStore.Cancel` | internal/controlplane/assignment.go:161-204 | keeps every count exact and never meets a missing one; success ends exactly this live assignment and keeps its placement |
| `Controller.OutcomeExactlyWhenUpToDate` | internal/localcontroller/operation.go:330-363 | the recorded outcome names the revisions the stores end up with exactly when the caller's view was up to date at prepare |
| `Controller.CreateFunctionExact` | internal/localcontroller/operation.go:38-84 | a creation's record is always right |
| `Controller.LifecycleExactlyWhenUpToDate` | internal/localcontroller/operation.go:88-132 | a lifecycle record is right exactly when the caller's view was current or the lifecycle really changes |
| `Controller.RotateExact` | internal/localcontroller/operation.go:136-180 | a rotation's record is always right |
| `Controller.CreateVersionExact` | internal/localcontroller/operation.go:189-246 | a version's record is always right |
| `Controller.PublishExactlyWhenUpToDate` | internal/localcontroller/operation.go:250-305 | a publication record is right exactly when the caller's active revision was current at prepare |
| `Controller.ErrorChangesNothing` | internal/localcontroller/operation.go:388-406 | an operation that fails leaves the stores as they were |
| `ControllerRuns.RecordedOutcomeIsEffect` | internal/localcontroller/operation.go:330-406 | whenever an operation finishes in any run, a success record is right if and only if the view was up to date, and a failure record or none means the stores did not change |
| `ControllerRuns.ExactWithoutInterleaving` | internal/localcontroller/operation.go:330-363 | without a direct publication between prepare and apply every success record is exact |
| `ControllerReplays.SettledAgainNeedsLateCutoff` | internal/localcontroller/operation.go:330-406 | in every run of the controller, two operations settle under one key, in success or terminal failure, only across a GC whose cutoff lies both retention times after the first |
| `ControllerReplays.EffectsNeedLateCutoff` | internal/localcontroller/operation.go:330-363 | in every run, the stores are changed twice under one key only across such a GC |
| `ControllerReplays.EffectIsRecorded` | internal/localcontroller/operation.go:330-363 | an operation changes the stores only together with a success record in the ledger |
| `ControllerReplays.RetryChangesNothing` | internal/localcontroller/operation.go:365-386 | a retry of a settled operation, with the same or another request, changes neither stores nor ledger up to such a GC |
| `ControllerReplays.RunIsHistory` | internal/localcontroller/operation.go:330-406 | the ledger of every controller run goes through a ledger history |
| `ControllerExamples.ExampleIsReachable` | internal/localcontroller/route.go:17-32 | a run of four direct commands ends in the example stores |
| `ControllerExamples.StaleLifecycleRecord` | internal/localcontroller/operation.go:88-132 | a run of seven steps that ends with a lifecycle record naming revision 1 while the function is at 2 |
| `ControllerExamples.StalePublicationRecord` | internal/localcontroller/operation.go:250-305 | a run of seven steps that ends with a publication record naming function revision 2 while it is at 3 |
| `PlacementOrder.RatioIsExact` | internal/scheduler/planner.go:344-354 | the 128-bit comparison is the comparison of the exact quotients |
| `PlacementOrder.EligibleOrder` | internal/scheduler/planner.go:319-342 | the candidate order is transitive and antisymmetric and ties only a session with itself |
| `PlacementOrder.SessionOrder` | internal/scheduler/planner.go:297-317 | the session order is total |
| `Planner.EligibleIsRankable` | internal/scheduler/planner.go:214-286 | eligibility forces both denominators to be positive |
| `PlannerTheorems.BestIsLeast` | internal/scheduler/planner.go:98-169 | the chosen worker is at most every eligible one |
| `PlannerTheorems.LeastIsUnique` | internal/scheduler/planner.go:319-342 | two least eligible workers are the same session |
| `PlannerTheorems.FirstOfSortedIsBest` | internal/scheduler/planner.go:98-169 | the first element of any arrangement sorting may produce is the chosen worker |
| `PlannerTheorems.PlanIgnoresOrder` | internal/scheduler/planner.go:98-169 | permuting the observations changes neither state nor answer nor explanations |
| `PlannerTheorems.DecisionsAndAssignmentsAreInverse` | internal/scheduler/planner.go:98-192 | in every reachable state the two maps invert each other |
| `PlannerTheorems.RetryReturnsTheDecision` | internal/scheduler/planner.go:98-169 | asking again changes nothing; the answer is the retained placement exactly when the request is the retained one up to its command id, and a conflict otherwise |
| `PlannerTheorems.BarrierNeverMovesBack` | internal/scheduler/planner.go:54-94 | the barrier's term and index never move backwards |
| `PlannerObject.ValidateWorkerSet` | internal/scheduler/planner.go:356-368 | the loop accepts exactly the bounded sets without a repeated worker |
| `PlannerObject.EvaluateCandidates` | internal/scheduler/planner.go:214-286 | for any workers, every one becomes a candidate with its reasons, a repeated id as an invalid observation, and the eligible ones are ranked |
| `PlannerObject.PlannerStore.Place` | internal/scheduler/planner.go:98-169 | whole answer and new state: retained decision for a repeat, refusal without a barrier or room, otherwise the least eligible worker with all explanations |
| `PlannerObject.PlannerStore.AcknowledgeCommand` | internal/scheduler/planner.go:174-192 | the decision and its assignment are forgotten together |
| `PlannerObject.PlannerStore.InstallLeaderBarrier` | internal/scheduler/planner.go:54-72 | installed exactly when neither term nor index moves back |
| `Routing.ValidateRouteTargets` | internal/model/route.go:157-184 | the loop accepts exactly the target lists with well-formed identifiers and digests, distinct slots and weights totalling 10000 |
| `Routing.TotalFits` | internal/model/route.go:157-184 | the 32-bit running total cannot overflow within the target limit |
| `Routing.TargetForBucket` | internal/routing/route.go:111-120 | the loop finds the target whose cumulative interval holds the bucket |
| `Routing.HashPreimage` | internal/routing/route.go:75-103 | the loops write the length-prefixed encoding of the fields, or refuse a field over its prefix or a total over the platform limit |
| `RoutingTheorems.TargetAlwaysFound` | internal/routing/route.go:48-73 | every valid enabled route and every hash select a target of the route |
| `RoutingTheorems.SelectIgnoresOrder` | internal/routing/route.go:48-73 | the choice does not depend on the order of the targets |
| `RoutingTheorems.PickExactly` | internal/routing/route.go:111-120 | a target is picked exactly for the buckets of its own interval |
| `RoutingTheorems.ShareIsExact` | internal/routing/route.go:105-120 | a target of weight w gets the floor or the ceiling of w times 2^64 over 10000 of the hash prefixes |
| `RoutingTheorems.EncodeInjective` | internal/routing/route.go:75-103 | the length-prefixed encoding of a list of fields is injective |
| `RoutingTheorems.PreimageIsUnambiguous` | internal/routing/route.go:75-103 | equal preimages come from equal function id, revision, salt and key |
| `Balancer.InflightIsOpenLeases` | internal/gatewayroute/balancer.go:56-139 | in every run, inflight of an identity is its number of unreleased leases, however often copies are released, and zero counts are dropped |
| `Balancer.AcquirePicksLeast` | internal/gatewayroute/balancer.go:56-121 | the chosen endpoint serves exactly the target with the least load, and only its load changes, by one |
| `Balancer.AcquireSucceedsWhenServed` | internal/gatewayroute/balancer.go:56-121 | an Acquire succeeds exactly when its inputs are in order and some endpoint serves the target |
| `Balancer.GapStaysBounded` | internal/gatewayroute/balancer.go:56-121 | an Acquire raises no load gap above the larger of the previous gap and 1 |
| `Balancer.LoadsStayEven` | internal/gatewayroute/balancer.go:56-121 | any number of Acquires keeps loads within one of each other |
| `Balancer.AcquireIgnoresOrder` | internal/gatewayroute/balancer.go:72-119 | the choice does not depend on the order in which endpoints are listed |
| `Balancer.Filter` | internal/gatewayroute/balancer.go:70-89 | the loop yields exactly the serving endpoints, or refuses a bad endpoint or repeated assignment |
| `Balancer.LeastLoad` | internal/gatewayroute/balancer.go:102-105 | the loop finds the least load |
| `Balancer.CollectTied` | internal/gatewayroute/balancer.go:106-111 | the loop collects the endpoints with that load, in order |
| `Balancer.LoadBalancer.constructor` | internal/gatewayroute/balancer.go:47-52 | a new balancer is empty |
| `Balancer.LoadBalancer.ChooseLocked` | internal/gatewayroute/balancer.go:94-116 | the endpoint at the cursor among those of least load; its count and the wrapping cursor move by one |
| `Balancer.LoadBalancer.AcquireEndpoint` | internal/gatewayroute/balancer.go:56-121 | whole new state and choice, with every refusal leaving the balancer unchanged |
| `Balancer.LoadBalancer.ReleaseOnce` | internal/gatewayroute/balancer.go:128-138 | one count less, and the key goes with the last one |
| `Balancer.ReleaseState.ReleaseLease` | internal/gatewayroute/balancer.go:124-139 | the first release of any copy counts and later ones change nothing |
| `RegistryRuns.StepSound` | internal/workerregistry/registry.go:96-374 | every operation keeps the registry's invariant |
| `RegistryRuns.ServingWorkerIsCurrent` | internal/workerregistry/registry.go:190-374 | in every run a Ready or Suspect worker is registered, holds the last inventory accepted from its current session, waits for no newer session, is not Removed, and the clock never ran backwards |
| `RegistryRuns.EpochsGrowByOne` | internal/workerregistry/registry.go:96-142 | in every run a worker's sessions were committed with epochs 1, 2, 3, ... and the current one is the last |
| `RegistryRuns.SessionIsNeverOwnedTwice` | internal/workerregistry/registry.go:146-185 | the answer "another registration owns the current session" never occurs |
| `RegistryRuns.RegistryIsBounded` | internal/workerregistry/registry.go:96-142 | the worker limit always holds |
| `RegistryRuns.RemovedForever` | internal/workerregistry/registry.go:305-344 | once Removed, nothing in the worker's record ever changes again |
| `RegistryRuns.RemovedOnlyFromDrained` | internal/workerregistry/registry.go:305-344 | Removed is entered only by SetIntent from a drained, draining worker |
| `RegistryRuns.DrainedNeedsProof` | internal/workerregistry/registry.go:348-374 | Drained is entered only on an observation of the current session with no calls, no assignments and a fence proof |
| `RegistryRuns.RegressionFailsClosed` | internal/workerregistry/registry.go:422-435 | after a clock regression no worker is Ready or Suspect in any later state |
| `RegistryRuns.RevisionTracksChanges` | internal/workerregistry/registry.go:96-435 | the revision, also as a 64-bit counter, moves with every change but heartbeat times, except exactly when a call that passes its checks reads a regressed clock while some worker is open |
| `RegistryRuns.RegressionKeepsTheRevision` | internal/workerregistry/registry.go:422-435 | a run of commit, register, report at 5 and evaluate at 4 in which a Ready worker turns Unavailable under the same revision |
| `RegistryRuns.UnhealthyExactlyWhen` | internal/workerregistry/registry.go:146-301 | a call reports an unhealthy clock exactly when it passes the checks in front of the clock reading and the clock has regressed |
| `RegistryRuns.EvaluateMeasuresSilence` | internal/workerregistry/registry.go:271-301 | after Evaluate a watched worker's state tells exactly how long ago the run last accepted a sign of life from it, never negative |
| `RegistryRuns.RefusalChangesNothing` | internal/workerregistry/registry.go:96-374 | a refused call changes nothing unless the clock is unhealthy |
| `RegistryObject.FailAll` | internal/workerregistry/registry.go:422-435 | in any order the loop fails exactly the registered, not removed workers |
| `RegistryObject.EvaluateAll` | internal/workerregistry/registry.go:271-301 | in any order the loop classifies every watched worker and counts the changes |
| `RegistryObject.RegistryStore.constructor` | internal/workerregistry/registry.go:54-93 | a new registry is empty and healthy |
| `RegistryObject.RegistryStore.ElapsedLocked` | internal/workerregistry/registry.go:422-435 | the clock advances, or is unhealthy for good and every registered worker fails closed |
| `RegistryObject.RegistryStore.Commit` | internal/workerregistry/registry.go:96-142 | only the next epoch of a worker that is not Removed is committed, and it resets registration and inventory |
| `RegistryObject.RegistryStore.RegisterWorker` | internal/workerregistry/registry.go:146-185 | only the committed session registers; repeating it changes nothing |
| `RegistryObject.RegistryStore.Report` | internal/workerregistry/registry.go:190-236 | only the current session with a revision that is not older becomes Ready with this inventory |
| `RegistryObject.RegistryStore.Beat` | internal/workerregistry/registry.go:240-267 | the current session is heard, and a Suspect or Unavailable worker with inventory is Ready again |
| `RegistryObject.RegistryStore.EvaluateLiveness` | internal/workerregistry/registry.go:271-301 | every watched worker is classified by its silence and the revision counts the changes |
| `RegistryObject.RegistryStore.ChangeIntent` | internal/workerregistry/registry.go:305-344 | Removed only when drained; Schedulable again needs a new session; the same intent changes nothing |
| `RegistryObject.RegistryStore.ObserveDrain` | internal/workerregistry/registry.go:348-374 | a draining worker is Drained exactly while the observation proves it |

## Left out

- Liveness: nothing says a waiting Close, Prepare or Invoke eventually returns; `NoReplicaIsStuck` only says somebody is left to move a replica on.
- Cache statistics, eviction reasons and hit or miss counters, and the cancellation of contexts inside a load.
- Pointer identity: cache entries, flights and replicas are numbered cells in a map instead of heap objects, so aliasing between Go pointers is modelled by equal numbers.
- The agent holds the gate as a value; the gate's own lock is taken inside each agent section as in the source.
- The agent's global and per-replica concurrency limiters and their queues; an invocation may wait arbitrarily long at either.
- Fingerprints and request digests are the normalized content itself, so hash collisions are excluded.
- SHA-256: routing is proved for every 64-bit prefix, and the distribution of prefixes is not modelled.
- Field validators that only match patterns or ranges of one value appear as flags of the input (`fit`, `valid`, `keyValid`).
- Clocks, random ids, tokens, artifacts and validator reports are inputs.
- Sorting is insertion sort with the source's comparator; only results that do not depend on the algorithm are stated.
- Registry revisions, inflight counts, reference counts and queue lengths are unbounded integers here (`RegistryRuns.RevisionTracksChanges` also speaks of the 64-bit revision); the revisions of the control stores, epochs, the event sequence, the routing arithmetic and the round-robin cursor keep their 64-bit limits.
- Errors before a controller operation is prepared are not recorded by the source and not modelled; results returned to the caller besides the ledger record are left out.
- Snapshot and status readers that copy state, cloning helpers and error texts.
- HTTP servers, RPC transport, the WebAssembly runtime, the artifact store, the validator process and command-line tools.
- WorkerCache.Cache.constructor: does not model the configuration checks and defaults of New, which touch one value each.
- ServingAuth.Gate.constructor: does not model the configuration checks of New.
- WorkerAgent.Agent.constructor: does not model the configuration checks of New.
- GatewayStore.Store.constructor: does not model the configuration checks of New.
- RegistryObject.RegistryStore.constructor: does not model the configuration checks and defaults of New.
