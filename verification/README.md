# Browser automation extension: a verified model

This project models the parts of the browser extension and its helper crate in which the order of events decides
whether the program is right, and proves what they guarantee. `dafny verify dfyconfig.toml` checks everything.

The program is single-threaded but interleaved. Each protocol is therefore modelled as a state machine whose atomic
steps are the stretches of code between two awaits; promises are slots that are resolved or not, and timers and late
completions are steps that may happen at any moment they are armed. A claim about "every run" or "every reachable
state" quantifies over all interleavings of these steps. Beside each machine stands a class with the module's
variables as fields; every method of it is one such stretch, or a helper it calls, and is proved to leave exactly the
state the machine's step computes; the stretches of the broker, the connection, the stores and the cancellation
registry require and keep the machine's invariant. Loops over JavaScript sets and maps visit their elements in an
arbitrary order.

What a step does is also told without the functions that compute it. Each machine has a predicate `Does` over the
fields of the states before and after a step and a lemma `StepDoes` that every step satisfies it, and the methods that
take a step ensure it. The laws that say what does happen, such as `BrokerEffects.PostedIff`, `Connection.LivePortLost`
and `SessionStore.TabIsLatestSaid`, are read off it.

## The protocols

**The broker** (`LeaseIndex`, `Broker`, `BrokerInvariant`, `BrokerSafety`, `BrokerTheorems`, `BrokerEffects`,
`BrokerQueues`, `BrokerStale`, `BrokerPermanence`, `BrokerService`). Messages arrive over a native port that can die
and be replaced. A message with an id gets a lease stamped with the port's epoch and its session's epoch; it waits its
turn in its session's queue, may be cut off by a watchdog while its handler keeps unwinding, and its replies pass a
fence before they are posted. Idle sessions are pruned, which resets their epoch to 0. `Broker` holds the machine,
`BrokerInvariant` and `BrokerSafety` the inductive invariant, `BrokerTheorems` and `BrokerQueues` what follows for
every run, `BrokerEffects` what each step does, above all when exactly a reply goes out, `BrokerStale` a concrete run
in which a stale lease becomes current again, `BrokerPermanence` when exactly that can happen, and `BrokerService` the
imperative form. The run starts after the stored sessions have been loaded: loading later would reset epochs and
queues under live leases (`extension/src/background.ts:1066-1086`). In this machine the port connects and disconnects
at any moment, which covers whatever the connection machine does.

**The debugger lock** (`CdpLock`): a mutex made of a chain of promises, whose waiters may time out.

**The native connection** (`Connection`): port, reconnect timer, heartbeat, control requests with their timeouts.

**The stores** (`CdpLeases`, `SessionStore`): two asynchronous writers that must agree with memory. For the first, a
sweep and the restore at startup read storage outside the queue, a sweep waits for a detach after each tab it forgets,
and anything may happen in between. A read may come back late: it shows what storage held at any earlier moment, or
nothing if it failed. Both can undo the agreement; exactly when is proved.

**Cancellation and traversal in the page** (`Cancellation`, `ShadowWalk`).

**Self-contained parts**: glob translation (`Glob`), workflow health (`WorkflowHealth`), the metrics window
(`MetricWindow`), generated names (`Naming`), manifest versions (`BuildVersion`).

## Where a promise does not hold as stated

* A stale lease stays stale for ever if and only if it was cancelled, its port is gone, or its session is one of the
  two that are never pruned (`BrokerPermanence.StaleForEverIff`). Any other can become current again once its session
  is pruned and created anew; `BrokerStale.UnregisteredLeaseMayComeBack` is such a run. While it is registered, a
  stale lease never does (`BrokerTheorems.StalenessIsPermanent`).
* Exactly one of a live port and a pending reconnect timer exists if and only if the browser offers native messaging
  (`Connection.LinkHeldIffAvailable`).
* Memory and store of the debugger leases stay in agreement on a tab if and only if the event is harmless to it
  (`CdpLeases.AgreementKeptIff`, over runs `LastEventDecides`, for a sweep's own delete `DeleteDecides`). Set and
  release calls alone always are (`CallsKeepAgreement`). A sweep loses a renewal that was still queued when it read
  (`QueuedRenewalIsLost`) and one made while it waited for another tab's detach (`RenewalDuringSweepIsLost`).
* An expiry in memory gets shorter if and only if its tab is released, forgotten by a sweep, or restored from a read
  that shows a shorter one (`CdpLeases.NoShorterIff`).
* A reload of the sessions in the same boot restores them all if the earlier worker knew its boot id. If it could not
  learn it, a worker that can restores none of what it wrote (`SessionStore.ReloadRestoresIffSameBoot`).
* A glob and its translation agree on every pattern if and only if the URL has no line terminator
  (`Glob.MeaningPreservedIffOneLine`); the two copies of the comparison agree exactly on patterns that are not blank
  and have a star, equal the URL or do not occur in it (`Glob.CopiesAgreeIff`).
* The name round trip holds if and only if the name has no capitals, every word after the first starts with a
  lower-case letter, and the first word is not empty unless the name is (`Naming.RoundTripIff`); `a_2` is lost.
* A signature with a year up to 99 is never accepted, since Date.UTC moves it to the twentieth century
  (`BuildVersion.AcceptedIff`).
* The count of consecutive failures is independent of the order of the records if and only if no failure started
  together with the newest success (`WorkflowHealth.FailuresIndependentIffUntied`).

Two branches of the code are shown or seen to be dead and are not relied on: the stale-epoch branch for control
callbacks and the suppressed branch of a port's disconnect (`Connection.StaleBranchesAreDead`), and the fallback-host
branch, since there is one candidate host (`extension/src/background.ts:4213-4223`).

## Model

| member | source | states |
|---|---|---|
| Common.NormalizeIsIdempotent | extension/src/background.ts:996-1001 | a normalised session id is not empty and normalising it again changes nothing |
| Common.NormalizeIff | extension/src/background.ts:996-1001 | a raw id names the default session if it is all white space, and otherwise the session called by its text without the white space around it |
| Common.TrimIff | extension/src/background.ts:996-1001 | trimming takes the white space off both ends and nothing else |
| LeaseIndex.LeaseKeyIsInjective | extension/src/background.ts:1286-1295 | the composed key determines request and lease, because lease ids contain no colon, even though request ids may |
| LeaseIndex.AddKeepsCoherent | extension/src/background.ts:1297-1307 | registering keeps the by-key, by-id and per-request maps describing one set of leases |
| LeaseIndex.RemoveKeepsCoherent | extension/src/background.ts:1390-1406 | clearing keeps them so, leaving no dangling key and no empty set |
| LeaseIndex.NothingDangles | extension/src/background.ts:1313-1331 | in a coherent index the clean-up of dangling keys finds nothing to remove |
| LeaseIndex.ActiveIsByRequest | extension/src/background.ts:1313-1331 | the leases found through a request's keys are exactly the registered leases of that request |
| LeaseIndex.ResolveByCorrelationIsUnique | extension/src/background.ts:1333-1357 | a lookup by request id alone yields a lease exactly if it is the only registered one of that request |
| LeaseIndex.LeaseRegistry.IndexLease | extension/src/background.ts:1297-1307 | the three maps become those of the added lease, and stay coherent |
| LeaseIndex.LeaseRegistry.ClearLease | extension/src/background.ts:1390-1408 | the three maps become those without the lease, and stay coherent |
| LeaseIndex.LeaseRegistry.ActiveForRequest | extension/src/background.ts:1313-1331 | returns each active lease of the request once and leaves the maps as they are |
| LeaseIndex.LeaseRegistry.ResolveForResponse | extension/src/background.ts:1333-1357 | returns the lease a reply belongs to, by lease id first, then by a unique request |
| BrokerInvariant.BeginKeepsCore | extension/src/background.ts:4053-4117 | a handler that starts at once, outside the queue, keeps the core invariant |
| BrokerInvariant.EnqueueKeepsCore | extension/src/background.ts:4171-4176 | chaining a message to its session's promise keeps the core invariant, conservation of messages included |
| BrokerInvariant.StartSlotKeepsCore | extension/src/background.ts:4053-4117 | taking a turn on the live port keeps the core invariant |
| BrokerInvariant.DiscardKeepsCore | extension/src/background.ts:4056-4061 | discarding a message of an earlier port keeps the core invariant |
| BrokerInvariant.SettleKeepsCore | extension/src/background.ts:4103-4114 | a handler's finally block keeps the core invariant |
| BrokerInvariant.WatchdogKeepsCore | extension/src/background.ts:4065-4101 | a watchdog that cuts a handler off keeps the core invariant |
| BrokerInvariant.PruneKeepsCore | extension/src/background.ts:1411-1435 | pruning an idle session, whose epoch is then 0 again, keeps the core invariant |
| BrokerInvariant.DropPortCancelsAll | extension/src/background.ts:1459-1466 | a lost port leaves every registered lease cancelled |
| BrokerSafety.StepKeepsCore | extension/src/background.ts:4044-4177 | every step of the broker keeps the core invariant |
| BrokerSafety.StepEvolves | extension/src/background.ts:1359-1466 | no step revives a lease, lowers an epoch, changes a lease's stamps, or replaces the session of a lease that stays registered |
| BrokerTheorems.StepPosts | extension/src/background.ts:6470-6571 | a step posts at most one reply, fenced, and never for a lease whose watchdog has fired |
| BrokerTheorems.Always | extension/src/background.ts:4044-4177 | the invariant holds in every state of every run |
| BrokerTheorems.ReplyFence | extension/src/background.ts:6484-6571 | every posted reply goes out on the live port; a lease it belongs to has the live epoch, and for an ordinary reply is uncancelled and at its session's epoch |
| BrokerTheorems.SpentLeaseIsSilent | extension/src/background.ts:6499-6525 | once a lease is cut off, nothing is posted for it in the rest of any run |
| BrokerTheorems.WatchdogSilencesHandler | extension/src/background.ts:4065-4101 | after the step in which a handler's watchdog fires, nothing is posted for that handler's lease again, whether or not the watchdog's own reply went out |
| BrokerTheorems.WatchdogReplyIsLast | extension/src/background.ts:4086-4096 | in the history of posts a watchdog's reply is the last one of its lease |
| BrokerTheorems.RegisteredLeaseKeepsSession | extension/src/background.ts:1423-1429 | a registered lease's session exists and its epoch has not fallen below the lease's |
| BrokerTheorems.StalenessIsPermanent | extension/src/background.ts:1468-1479 | a lease that is not current is not current in any later state in which it is registered, in spite of pruning; for later states in which it is not, see the next row |
| BrokerPermanence.StaleForEverIff | extension/src/background.ts:1411-1479 | from any reachable state in which a lease, registered or not, is not current, every run leaves it so exactly if it was cancelled, its port is gone, or its session is one of the two that are never pruned |
| BrokerPermanence.HopelessForEver | extension/src/background.ts:1468-1479 | such a lease is hopeless in every state a run leads to |
| BrokerPermanence.OthersComeBack | extension/src/background.ts:1411-1435 | for every other lease there is a run, through settled handlers, a resolved queue, a prune and new epochs, to a state in which it is current |
| BrokerPermanence.StepAdvances | extension/src/background.ts:1411-1419 | no step prunes or lowers the epoch of a permanent session, and a lease of the live epoch means a live port |
| BrokerTheorems.KnownStays | extension/src/background.ts:1359-1388 | over any run a lease keeps its stamps, cancellation sticks, the port epoch never falls, and a cleared lease is never registered again |
| BrokerTheorems.CancelledOrOldPortIsForever | extension/src/background.ts:1468-1479 | a cancelled lease, or one of an earlier port, is never current again, registered or not |
| BrokerEffects.PostedIff | extension/src/background.ts:6484-6571 | a handler's ordinary reply is posted, once and for its lease, exactly if the port is live and takes it, the lease is uncancelled, of the live port and of its session's epoch, has not timed out, and is registered or no registered lease goes by the reply's id; otherwise nothing is posted |
| BrokerEffects.PostedByIdIff | extension/src/background.ts:6482-6571 | a reply without a lease that names one registered lease is posted for that lease exactly if the port is live and takes it and the lease is up to date and has not timed out |
| BrokerEffects.PostedUnclaimedIff | extension/src/background.ts:6482-6571 | a reply that names no registered lease is posted for none exactly if the port is live and takes it and no request of its id has timed out |
| BrokerEffects.WatchdogRepliesIff | extension/src/background.ts:4065-4101 | a watchdog posts one reply for its lease exactly if the port is live and takes it, the request carries an id and the lease is for that port |
| BrokerEffects.CancelRequestCancels | extension/src/background.ts:4404-4420 | a cancel request cancels every lease registered for its target and, unless posting its answer loses the port, changes no other lease that was there |
| BrokerEffects.EveryStepDoes | extension/src/background.ts:4044-4177 | in every reachable state every step has the effect told of it in fields: what is posted, queued, started, cancelled and registered, which epochs rise, what stays |
| BrokerEffects.ReplyDoes | extension/src/background.ts:6470-6571 | a reply adds its one post or none and touches nothing else but, on a failed post, the port and its leases |
| BrokerEffects.CancelDoes | extension/src/background.ts:4404-4420 | a cancel request starts its handler in the control plane, cancels the target leases, its own among them if it names itself, and answers; which lease the answer goes to and when it may not go out |
| BrokerEffects.CloseDoes | extension/src/background.ts:4157-4169 | session_close cancels the session's registered leases and no others, raises its epoch by one and starts its handler at that epoch |
| BrokerEffects.EnqueueDoes | extension/src/background.ts:4171-4176 | a queued message waits at the end of its own session's chain under the epoch of the port it came from; all other chains stay |
| BrokerEffects.TurnDoes | extension/src/background.ts:4053-4063 | a message whose turn has come starts its handler under a lease stamped with live port and session epoch, or leaves a resolved link and at most a cancelled, unregistered lease |
| BrokerEffects.SettleDoes | extension/src/background.ts:4103-4114 | a settled handler is gone, its lease unregistered and a prune scheduled behind the queue as it is now unless the session is permanent |
| BrokerEffects.WatchdogDoes | extension/src/background.ts:4065-4101 | a watchdog cancels and marks the handler's lease alone, raises its session's epoch by one and remembers the timeout by lease or else by id |
| BrokerEffects.PruneDoes | extension/src/background.ts:1411-1435 | a due prune deletes the session exactly if it is the same object, unbound, with nothing queued since and no registered lease |
| BrokerEffects.LossDoes | extension/src/background.ts:1459-1466 | the loss of the port cancels every registered lease and raises each session's epoch once for each of its leases on that port |
| BrokerEffects.RequestIdIs | extension/src/background.ts:1262-1272 | the id of a request is the first of its two ids that is not white space; the id the watchdog uses is the same exactly if it is not white space |
| BrokerStale.UnregisteredLeaseMayComeBack | extension/src/background.ts:1411-1435 | there is a run in which a stale lease, cleared and its session pruned, is current again |
| BrokerQueues.QueueConserved | extension/src/background.ts:4171-4176 | the messages ever sent to a session's queue are those that had their one turn followed by those waiting, in order of arrival |
| BrokerQueues.TurnsAreFinal | extension/src/background.ts:4171-4176 | both logs only grow, so a turn is never taken back |
| BrokerQueues.OneCurrentQueuedLease | extension/src/background.ts:4103-4130 | at most one queued handler of a session holds a current lease, even while cut handlers unwind and session_close runs beside the queue |
| BrokerQueues.HeadCanProceed | extension/src/background.ts:4116-4176 | a queue is never stuck: its head may start, or the link before it may close, or that link's handler may settle or be cut |
| BrokerQueues.CloseCutsSessionOff | extension/src/background.ts:4157-4169 | session_close leaves every lease its session had cancelled |
| BrokerQueues.LivePort | extension/src/background.ts:1459-1466 | every registered uncancelled lease carries the live port's epoch |
| BrokerQueues.StartsOnItsOwnPort | extension/src/background.ts:4056-4061 | a queued message starts only on the port it came from; on any other it is discarded without starting a handler or leaving a lease registered |
| BrokerQueues.IndexesAgree | extension/src/background.ts:1297-1409 | in every reachable state the lease maps agree with each other and with the leases |
| BrokerQueues.RegisteredIffHeld | extension/src/background.ts:4103-4114 | a lease is registered exactly while an unsettled handler holds it |
| BrokerService.PortLoopIs | extension/src/background.ts:1459-1466 | the port-loss loop has the same outcome in whatever order it visits the leases |
| BrokerService.CloseLoopIs | extension/src/background.ts:4160-4164 | so does the loop of session_close |
| BrokerService.CancelLoopIs | extension/src/background.ts:1437-1457 | cancelling leases one after the other cancels exactly them |
| BrokerService.BrokerState.GetSession | extension/src/background.ts:1238-1246 | creates the session, at epoch 0 with an empty queue, exactly if it is missing |
| BrokerService.BrokerState.InvalidateSession | extension/src/background.ts:1668-1678 | raises the session's epoch by one |
| BrokerService.BrokerState.CancelLease | extension/src/background.ts:1437-1457 | marks the lease cancelled once, touching its session |
| BrokerService.BrokerState.CancelLeasesForPort | extension/src/background.ts:1459-1466 | cancels the registered leases of the port and raises their sessions' epochs, once per lease |
| BrokerService.BrokerState.SchedulePruneOf | extension/src/background.ts:1411-1434 | schedules a prune behind the queue as it is now, except for the two permanent sessions |
| BrokerService.BrokerState.PruneIfIdle | extension/src/background.ts:1423-1430 | keeping the invariant, deletes the session exactly if it is the same object, nothing was queued since, it is unbound and no registered lease names it |
| BrokerService.BrokerState.RegisterLease | extension/src/background.ts:1359-1388 | stamps and registers a lease |
| BrokerService.BrokerState.ClearLease | extension/src/background.ts:1390-1409 | unregisters it and schedules the prune |
| BrokerService.BrokerState.RunMessage | extension/src/background.ts:4044-4063 | registers the lease and starts the handler, or cancels and clears the lease if the port is gone |
| BrokerService.BrokerState.EnqueueMessage | extension/src/background.ts:4171-4176 | appends the message to its session's queue, keeping the invariant |
| BrokerService.BrokerState.TakeTurn | extension/src/background.ts:4142-4149 | the chained message starts or is discarded, keeping the invariant |
| BrokerService.BrokerState.ResolveTurn | extension/src/background.ts:4116-4130 | the link's promise resolves, keeping the invariant |
| BrokerService.BrokerState.SettleTask | extension/src/background.ts:4107-4113 | the handler's finally block, keeping the invariant |
| BrokerService.BrokerState.HandlerReplies | extension/src/background.ts:6470-6571 | a handler's reply passes the fence and is posted, with the effect of `ReplyDoes`, keeping the invariant |
| BrokerService.BrokerState.DisconnectPort | extension/src/background.ts:876-897 | a lost port retires its epoch and cancels its leases, keeping the invariant |
| BrokerService.BrokerState.CheckFence | extension/src/background.ts:6484-6541 | passes a reply exactly if none of the four checks before the session's epoch stops it; `PostedIff` says when that is |
| BrokerService.BrokerState.CheckSession | extension/src/background.ts:6542-6558 | passes it exactly if the lease is at its session's epoch or the watchdog sends it |
| BrokerService.BrokerState.PostToNative | extension/src/background.ts:6560-6571 | posts on the live port; a failed post loses the port |
| BrokerService.BrokerState.SendResponse | extension/src/background.ts:6470-6571 | the whole reply path leaves the state the machine's reply step computes, whose effect is that of `ReplyDoes` |
| BrokerService.BrokerState.Dispatch | extension/src/background.ts:4132-4177 | control messages run at once and a cancel request cancels its target's leases, session_close cuts its session off and runs, all others queue; told in fields, and the core invariant stays |
| BrokerService.BrokerState.WatchdogFires | extension/src/background.ts:4065-4101 | cancels, raises the epoch, remembers the timeout, replies once if it may; told in fields, and the core invariant stays |
| CdpLock.StepKeepsInv | extension/src/background.ts:2036-2064 | every arrival, grant, timeout and completion keeps the chain invariant |
| CdpLock.StepDoes | extension/src/background.ts:2036-2064 | an arrival takes the slot behind all others; a grant and the freeing of a timed-out slot happen only with every earlier slot of the tab resolved; a resolved slot's entry stays exactly if a later call of the tab has come; no other call changes |
| CdpLock.MutualExclusion | extension/src/background.ts:2036-2064 | for every interleaving at most one call runs per tab |
| CdpLock.GrantsFollowArrival | extension/src/background.ts:2041-2049 | when a call is granted, every earlier call of its tab was granted before it and is done, or timed out |
| CdpLock.EntryIffOpenSlot | extension/src/background.ts:2053-2062 | the map has an entry for a tab exactly while some slot of the tab is unresolved |
| CdpLock.FirstOpenSlotCanMove | extension/src/background.ts:2050-2056 | with nobody running, the first unresolved slot of a tab can be granted or freed |
| CdpLock.FirstWaiterIsNext | extension/src/background.ts:2050-2056 | with nobody running, freeing the timed-out slots ahead of the first live waiter, one step each, enables its grant |
| CdpLock.Locks.Enter | extension/src/background.ts:2037-2042 | takes the slot behind the tab's latest |
| CdpLock.Locks.Acquire | extension/src/background.ts:2044-2048 | starts the call, and no other of its tab is running |
| CdpLock.Locks.GiveUp | extension/src/background.ts:2047-2057 | a timed-out call keeps its slot unresolved |
| CdpLock.Locks.FreeTimedOut | extension/src/background.ts:2053-2056 | resolves its slot once the one ahead is, and removes the entry if it is the latest |
| CdpLock.Locks.Leave | extension/src/background.ts:2059-2063 | resolves the slot and removes the entry if it is the latest |
| Connection.StepKeepsInv | extension/src/background.ts:736-897 | every event keeps the connection invariant |
| Connection.LinkAlwaysHeld | extension/src/background.ts:736-897 | between handlers exactly one of a live port and a pending reconnect timer exists, the heartbeat timer runs exactly while the port is live, fewer than two heartbeats are missed |
| Connection.LinkHeldIffAvailable | extension/src/background.ts:4235-4252 | that holds in every reachable state exactly if native messaging is available |
| Connection.PendingRequestsAreLive | extension/src/background.ts:619-668 | every pending control request carries the live epoch and has its timeout armed |
| Connection.StepSettlesOnce | extension/src/background.ts:564-601 | a step tells a pending request at most once and a settled one nothing |
| Connection.RequestSettlesOnce | extension/src/background.ts:564-668 | over any run a control request is pending until it is told exactly once, and hears nothing afterwards |
| Connection.StaleBranchesAreDead | extension/src/background.ts:590-594 | the stale-epoch branch of a control callback and the suppressed branch of a live port are never taken |
| Connection.ReplacedPortIsMute | extension/src/background.ts:4184-4197 | messages and the disconnect of a replaced port change nothing |
| Connection.LivePortLost | extension/src/background.ts:4184-4232 | in every reachable state the loss of the live port leaves no port, the reconnect timer armed, the epoch one higher, the heartbeat off and no request pending, and every request that was pending has been told once that it failed |
| Connection.PortOpened | extension/src/background.ts:4255-4331 | in every reachable state without a port, an attempt to connect leaves a new port under a new epoch with its heartbeat and no timer, or, if it throws, no port and an armed timer |
| Connection.AnsweredIff | extension/src/background.ts:579-601 | in every reachable state a message of the live port tells the pending request it names that it was answered exactly if it carries the command that request waits for, and tells no other request anything |
| Connection.StepDoes | extension/src/background.ts:564-906 | every event has the effect told of it in fields: the link lost or opened, requests filed, answered, failed or remembered as late, heartbeats counted, delayed disconnects taken or ignored |
| Connection.RejectOneThenAll | extension/src/background.ts:571-577 | the callbacks may be rejected in any order |
| Connection.NativeConnection.RejectAllCallbacks | extension/src/background.ts:571-577 | every pending request is told it failed, once, and none remains |
| Connection.NativeConnection.DisconnectNativePort | extension/src/background.ts:876-897 | retires the port, its epoch, heartbeat and requests |
| Connection.NativeConnection.ConnectToNative | extension/src/background.ts:4235-4332 | establishes the connection invariant: opens a port under a new epoch and starts its heartbeat, or leaves a reconnect scheduled; changes nothing if a port or an attempt exists; told in fields |
| Connection.NativeConnection.ReconnectTimerFires | extension/src/background.ts:869-873 | counts an attempt and connects, keeping the invariant |
| Connection.NativeConnection.EnsureHostConnected | extension/src/background.ts:603-609 | without a port and outside slow mode trades the timer for an attempt to connect, keeping the invariant |
| Connection.NativeConnection.FlushTimerFires | extension/src/background.ts:899-906 | drops the link exactly if its epoch is still the one the delay was asked for in, keeping the invariant |
| Connection.NativeConnection.HandlePortDisconnect | extension/src/background.ts:4184-4232 | a live port's loss gives it up under a new epoch, clears its heartbeat, fails every pending request once and schedules a reconnect; any other port's changes nothing; told in fields, keeping the invariant |
| Connection.NativeConnection.CallControl | extension/src/background.ts:619-668 | files the request, or on a failed post settles it and drops the link, keeping the invariant |
| Connection.NativeConnection.ControlTimesOut | extension/src/background.ts:634-639 | settles the request as failed and remembers its id for a late answer, keeping the invariant |
| Connection.NativeConnection.ResolveCallback | extension/src/background.ts:579-601 | consumes exactly the answers meant for a request, live or timed out, and settles at most that one |
| Connection.NativeConnection.OnPortMessage | extension/src/background.ts:4272-4302 | listens to the live port only and settles at most the request the message answers |
| Connection.NativeConnection.HeartbeatSettled | extension/src/background.ts:744-784 | an answer on the same port resets the misses, a failure counts one, the second drops the link, a replaced port's outcome is ignored |
| CdpLeases.NormalizePersistedLeases | extension/src/cdpLeaseDurability.ts:12-25 | a lease is in the result exactly if some entry normalises to it, and the result selects the entries with a non-negative integer tab and a finite expiry, each once and in order |
| CdpLeases.NormalizesIff | extension/src/cdpLeaseDurability.ts:12-25 | an entry normalises to a lease exactly if its fields are that tab, that finite expiry and that purpose |
| CdpLeases.NormalizeInvertsEncode | extension/src/cdpLeaseDurability.ts:12-25 | reading back a list that was written loses nothing |
| CdpLeases.SplitIsPartition | extension/src/cdpLeaseDurability.ts:37-51 | splitting by expiry is a partition, each side in the original order |
| CdpLeases.SplitCommutes | extension/src/cdpLeaseDurability.ts:53-68 | splitting commutes with removal, and with upsert on the side the new lease is on |
| CdpLeases.SplitByExpiry | extension/src/cdpLeaseDurability.ts:37-51 | the loop computes both sides |
| CdpLeases.ActiveTabIds | extension/src/cdpLeaseDurability.ts:27-35 | the loop collects exactly the tabs that hold a lease still in the future |
| CdpLeases.StartupKeepsActiveTabs | extension/src/cdpLeaseDurability.ts:70-77 | the expiries restored at startup are those of the tabs with an active lease, each that of such a lease and in the future |
| CdpLeases.StartupDivides | extension/src/cdpLeaseDurability.ts:79-99 | at startup the attached targets divide exactly into those detached and those whose tab had its lease restored |
| CdpLeases.MutateKeepsOnePerTab | extension/src/cdpLeaseDurability.ts:53-68 | no mutation makes a tab appear twice |
| CdpLeases.DrainedStoreIsFold | extension/src/background.ts:92-113 | for every interleaving a drained queue leaves the fold of all mutations in call order, each with the fate its storage calls had; with working storage exactly their fold; one lease per tab if it began so |
| CdpLeases.AgreementKeptIff | extension/src/background.ts:133-165 | where memory and the eventual store agree on a tab, any event, a step of a sweep and a restore included, leaves that so exactly if it is harmless, which memory, the sweeps in progress and the list read tell |
| CdpLeases.LastEventDecides | extension/src/background.ts:133-165 | over runs: any run, one event, then anything that leaves the tab alone until sweeps and queue are done, leaves storage and memory agreeing on the tab exactly if the event was harmless |
| CdpLeases.DeleteDecides | extension/src/background.ts:146-155 | when a sweep deletes a tab on which memory and queue agree, they end in agreement exactly if the lease deleted is absent or has expired by the clock of some sweep in progress |
| CdpLeases.DrainedStoreAgreesWithMemory | extension/src/background.ts:133-237 | over runs of harmless events, sweeps and restores included, storage and memory agree at rest on a tab on which they agreed, or which was set or released first |
| CdpLeases.CallsKeepAgreement | extension/src/background.ts:229-284 | over any run of set and release calls from an agreeing start, drained storage and memory are the same |
| CdpLeases.QueuedRenewalIsLost | extension/src/background.ts:133-156 | a renewal still queued when a sweep reads the old expiry is lost from memory |
| CdpLeases.RenewalDuringSweepIsLost | extension/src/background.ts:146-151 | a renewal made while a sweep waits for another tab's detach is lost from memory, although its read was harmless |
| CdpLeases.NoShorterIff | extension/src/background.ts:133-165 | an event shortens a tab's expiry exactly if it releases the tab, forgets it, or restores it from a read with a shorter one |
| CdpLeases.NeverShortened | extension/src/background.ts:229-237 | over any run without such events the expiry never gets shorter |
| CdpLeases.StepDoes | extension/src/background.ts:72-165 | every event has the effect told of it in fields: what memory holds for each tab, what is queued, what is read and what a saved mutation leaves in storage, in which order |
| CdpLeases.LeaseStore.MutatePersisted | extension/src/background.ts:94-103 | appends a mutation to the queue |
| CdpLeases.LeaseStore.SetLeaseExpiration | extension/src/background.ts:229-237 | memory takes the later of the old and new expiry, and that is what is queued |
| CdpLeases.LeaseStore.ReleaseTab | extension/src/background.ts:275-284 | memory forgets the tab and the removal is queued |
| CdpLeases.LeaseStore.StartSweep | extension/src/background.ts:133-148 | raises the active leases, forgets the first expired tab and keeps the rest for later |
| CdpLeases.LeaseStore.ContinueSweep | extension/src/background.ts:146-155 | forgets the next tab, or with none left queues the removal |
| CdpLeases.LeaseStore.RestoreExpirations | extension/src/background.ts:158-165 | memory takes every unexpired lease read, whatever it held |
| CdpLeases.LeaseStore.LoadStep | extension/src/background.ts:72-80 | a failed load reads as an empty list |
| CdpLeases.LeaseStore.SaveStep | extension/src/background.ts:82-101 | a failed save leaves storage alone and the queue moves on |
| SessionStore.RetainedIsLatestMention | extension/src/workflowTabRetention.ts:11-21 | over any run of reports a flag is what the latest report that mentioned it said, an omitted field keeping the earlier value |
| SessionStore.RestoredIffFromThisBoot | extension/src/background.ts:1059-1088 | a stored session is restored exactly if it is from this boot or no boot id is known |
| SessionStore.StepKeepsInv | extension/src/background.ts:1102-1153 | every event keeps the latest snapshot showing memory |
| SessionStore.StepDoes | extension/src/background.ts:1102-1153 | every event has the effect told of it in fields: which session takes or keeps tab, URL and lifecycle, that all others stay, and that the snapshots chained show memory |
| SessionStore.BindingIsWhatWasSaid | extension/src/background.ts:1137-1153 | over any run a session's tab and URL are what its updates, the removal of its tab, tab updates and prunes said of them, in order |
| SessionStore.TabIsLatestSaid | extension/src/background.ts:1137-1153 | over any run a session's tab is what the latest event that said something of it said, and the first one if none did |
| SessionStore.DrainedStoreMirrorsMemory | extension/src/background.ts:1102-1153 | a drained chain whose last write succeeded leaves storage with tab, URL and lifecycle of every bound session, and no other session but the default one |
| SessionStore.ReloadRestoresIffSameBoot | extension/src/background.ts:1047-1135 | for every pair of boot ids, known or not, what a reload restores: all without an own boot id or in the same boot, none in another or if the earlier worker wrote without knowing its own, and of storage it left untouched exactly the entries of this boot; whatever comes back has the bindings memory had |
| SessionStore.DrainedStoreIsOfBoot | extension/src/background.ts:1118-1135 | a drained worker leaves its boot id on every entry, or, knowing none, entries without any or the storage it found |
| SessionStore.WorkflowSessions.constructor | extension/src/background.ts:1047-1100 | the load loop restores the entries of this boot field by field and schedules a write if it dropped any |
| SessionStore.WorkflowSessions.SchedulePersist | extension/src/background.ts:1102-1119 | the loop takes the snapshot and chains it |
| SessionStore.WorkflowSessions.Update | extension/src/background.ts:1137-1153 | tab, URL and lifecycle of the named session become the given value, or stay if none is given; all other sessions stay; one snapshot that shows memory is chained |
| SessionStore.WorkflowSessions.OnTabRemoved | extension/src/background.ts:2067-2082 | clears tab, URL and lifecycle of every session on the tab and of no other, one snapshot each |
| SessionStore.WorkflowSessions.OnTabUpdated | extension/src/background.ts:2087-2104 | every session on the tab takes the reported flags and URL and keeps the rest, all others stay; one snapshot for all, none if nothing changed |
| SessionStore.WorkflowSessions.PersistStep | extension/src/background.ts:1118-1135 | writes the oldest snapshot under the boot id, or leaves storage if the write fails |
| ShadowWalk.Walk | extension/src/contentScript.ts:277-299 | on any finite graph, cyclic or not, the walk ends and visits exactly the reachable roots, each once, nearer ones first, in the order in which their hosts are met |
| ShadowWalk.Expand | extension/src/contentScript.ts:286-297 | the inner loop queues exactly the new shadow roots of a scope, one level below it |
| ShadowWalk.QueryAllAcrossRoots | extension/src/contentScript.ts:341-354 | the duplicate-free union of the matches of all reachable roots, in order of first occurrence along the walk |
| ShadowWalk.FirstOccurrencesInOrder | extension/src/contentScript.ts:341-354 | of two results the earlier one occurs before the later one first does |
| ShadowWalk.QueryDeep | extension/src/contentScript.ts:320-339 | null exactly if no reachable root has a match; otherwise the first match of the first root, in the order of the walk, that has one |
| ShadowWalk.QueryAllDeep | extension/src/contentScript.ts:301-318 | the light tree's matches if any, else all matches of the shadow roots in the order of the walk; empty exactly if nothing reachable matches |
| ShadowWalk.FirstHitIsNearest | extension/src/contentScript.ts:330-338 | of the roots with a match the one visited first is nearest |
| Glob.EscapeThenPairs | extension/src/background.ts:2190-2204 | replacing escaped star pairs only ever hits whole escapes |
| Glob.PairsThenStars | extension/src/background.ts:2204-2206 | so does replacing the single escaped stars that remain |
| Glob.TranslationParses | extension/src/background.ts:2203-2207 | the result is a well-formed expression, one term per literal and star, so the constructor never throws |
| Glob.TranslationPreservesMeaning | extension/src/background.ts:2190-2208 | the expression accepts a URL exactly if the glob, with stars kept to one line, matches it; on URLs without line terminators exactly if the glob matches |
| Glob.MeaningPreservedIffOneLine | extension/src/background.ts:2203-2208 | expression and glob agree on every pattern exactly for the URLs without line terminators |
| Glob.UrlMatchesIff | extension/src/background.ts:2194-2212 | blank patterns match everything, starless ones substrings, all others as globs |
| Glob.CopiesAgreeIff | extension/src/contentScript.ts:3674-3709 | the content script's copy agrees with the background's exactly if the pattern is not blank and has a star, is the URL, or does not occur in it |
| Cancellation.KeyTextIsInjective | extension/src/contentScript.ts:94-129 | request and lease keys never clash in the map they share |
| Cancellation.ReasonIffCancelled | extension/src/contentScript.ts:104-115 | after pruning, a reason is on record exactly if a matching cancellation of the last two minutes was recorded |
| Cancellation.LogIsHistory | extension/src/contentScript.ts:87-103 | over any run the cancellations recorded are those the cancel events named, request first and then lease |
| Cancellation.StepDoes | extension/src/contentScript.ts:66-172 | every event has the effect told of it in fields: what is on record for each key and until when, which waits are woken with which reason, how a wait begins and ends |
| Cancellation.StepKeepsInv | extension/src/contentScript.ts:66-172 | every step keeps waiters filed exactly under the keys of the waits that listen |
| Cancellation.ReturnsIffNotCancelled | extension/src/contentScript.ts:159-172 | a wait whose work succeeded returns normally exactly if no cancel event named its request or lease in the two minutes before; otherwise it throws |
| Cancellation.ReturnsIffNeverCancelled | extension/src/contentScript.ts:120-172 | told in events alone: in a run that begins a wait, settles its work and comes to resume it, none cancelled it from two minutes before it began until its work settled, and it returns exactly if the work succeeded and none named it in the two minutes before it resumes |
| Cancellation.BeginsIffNotCancelled | extension/src/contentScript.ts:159-161 | a wait is entered exactly if no cancel event named its request or lease in the two minutes before |
| Cancellation.PendingIsNotCancelled | extension/src/contentScript.ts:124-157 | a wait still pending has been named by no cancel event since it began or in the two minutes before |
| Cancellation.FiredOnceAndFiledNowhere | extension/src/contentScript.ts:124-157 | a waiter fires at most once over its two keys, a finished wait is filed nowhere, no empty set is kept |
| Cancellation.Registry.PruneCancelled | extension/src/contentScript.ts:66-74 | forgets exactly the records older than two minutes |
| Cancellation.Registry.Cleanup | extension/src/contentScript.ts:134-140 | takes the wait out of every set and drops the sets that become empty |
| Cancellation.Registry.NotifyWaiters | extension/src/contentScript.ts:76-85 | fires every waiter of the key once and removes it under both of its keys |
| Cancellation.Registry.MarkCancelled | extension/src/contentScript.ts:87-103 | prunes, records the request's and the lease's cancellation under the time given, and wakes every pending wait of either, once; told in fields |
| Cancellation.Registry.BeginWait | extension/src/contentScript.ts:159-161 | throws on a record, else files the wait under its keys |
| Cancellation.Registry.WorkSettles | extension/src/contentScript.ts:162-163 | the race is decided by the work if nothing has cancelled the wait before |
| Cancellation.Registry.ResumeWait | extension/src/contentScript.ts:163-171 | checks again, and cleans up whatever the outcome |
| WorkflowHealth.SortSorts | crates/rzn_browser/src/workflow_health.rs:100-102 | the sort is an ascending permutation |
| WorkflowHealth.SortIsStable | crates/rzn_browser/src/workflow_health.rs:100-102 | runs that start together keep their order |
| WorkflowHealth.OrderDoesNotMatter | crates/rzn_browser/src/workflow_health.rs:99-162 | with distinct start times the health is the same for every order of the records |
| WorkflowHealth.FailuresIndependentIffUntied | crates/rzn_browser/src/workflow_health.rs:99-103 | the count of consecutive failures is the same for every order of the records exactly if no failure started together with the newest success |
| WorkflowHealth.LastOfTies | crates/rzn_browser/src/workflow_health.rs:99-103 | with a run tied with the newest success recorded last, the count is the number of later runs if it succeeded and more if it failed |
| WorkflowHealth.BrokenIffNewestFailedAlike | crates/rzn_browser/src/workflow_health.rs:113-156 | broken exactly if the newest runs, as many as the threshold, all failed with one shared present fingerprint |
| WorkflowHealth.DominantIsLongestRun | crates/rzn_browser/src/workflow_health.rs:118-147 | the count is that of the longest such run, first-seen its oldest start, step and class the newest run's |
| WorkflowHealth.DegradedIff | crates/rzn_browser/src/workflow_health.rs:148-156 | degraded exactly if not broken and at least the threshold of newest runs failed |
| WorkflowHealth.NewerSuccessResets | crates/rzn_browser/src/workflow_health.rs:103-156 | appending a success at least as new as all others makes the flag healthy and the counts zero |
| WorkflowHealth.NewerFailureCounts | crates/rzn_browser/src/workflow_health.rs:103-147 | appending a failure raises the count by one, and a broken flag's count with it if the fingerprint is the same |
| WorkflowHealth.RateIsOneIffNoRecentFailure | crates/rzn_browser/src/workflow_health.rs:104-110 | the rate lies in [0, 1] and is 1 exactly if none of the newest twenty runs failed |
| WorkflowHealth.HealthIs | crates/rzn_browser/src/workflow_health.rs:99-162 | read off the rows newest first: the failures counted are those before the newest success, the rate is the share of successes among the newest twenty, a dominant failure is given exactly if the flag is broken |
| WorkflowHealth.Snapshots | crates/rzn_browser/src/workflow_health.rs:164-177 | one group per workflow and hash, with all of its records in order and the health of each; its latest start is the latest of its records |
| WorkflowHealth.GroupCounts | crates/rzn_browser/src/workflow_health.rs:165-171 | every record is in its group as often as in the input, so grouping loses and doubles nothing |
| MetricWindow.WindowRefinesHistory | extension/src/background.ts:337-348 | after any sequence of records a host's window is the last 200 of all its entries that were no older than five minutes when it was last recorded |
| MetricWindow.WindowHolds | extension/src/background.ts:337-348 | a window has at most 200 entries, all recorded for the host and no older than five minutes, and, if it has fewer, all such entries |
| MetricWindow.TrimIsLastFresh | extension/src/background.ts:344-346 | on entries in time order the shift loop leaves the last 200 fresh ones |
| MetricWindow.Metrics.RecordAction | extension/src/background.ts:337-348 | the host's window becomes the trimmed window with the new entry, other hosts keep theirs |
| Naming.RoundTripIff | extension/scripts/generate-types.ts:300-312 | snake to Pascal and back is the identity exactly on names without capitals whose words after the first start with a letter and whose first word is not empty |
| Naming.GuardsAreFaithful | extension/scripts/generate-types.ts:97-101 | a surviving name's type guard compares with that name, and no two of them share a type name |
| Naming.DigitWordIsLost | extension/scripts/generate-types.ts:300-312 | a word that starts with a digit loses its underscore |
| BuildVersion.GettersInvertDateUTC | scripts/build-ext.ts:80-89 | Date.UTC followed by the UTC getters gives back every calendar date and time of a year from 100 on |
| BuildVersion.AcceptedIff | scripts/build-ext.ts:69-91 | a signature gets a version exactly if it has the right form and names a real date and time of a year from 100 on |
| BuildVersion.VersionsOrderAsInstants | scripts/build-ext.ts:69-93 | versions compare exactly as the instants they come from, and no component exceeds 9999 |
| BuildVersion.VersionTellsSignature | scripts/build-ext.ts:69-93 | the signature can be read back from its version |

## Left out

- Chrome APIs, tab and DOM actions, debugger commands: foreign calls; only their outcomes appear, as steps or parameters.
- Command bodies of the broker and workflow execution: only lease checks, session commits and replies are modelled; the reply step allows any known lease, or none, at any moment.
- Messages without a request id: they get no lease and count as current; lease properties are stated for messages with an id.
- The guarded side effect and its clean-up of late tabs: not modelled.
- Shared request deduplication in the content script: it runs duplicates again by design.
- Worker suspension and alarms: every run stays within one worker lifetime; alarms appear as connect and wake steps.
- Reconnect delays, jitter and time-outs as durations: a timer is armed or not, and fires at any moment while armed.
- Test hooks, logging, badges, cloud and fleet UI, pairing: not modelled.
- The option that lets a reply ignore the port epoch: no caller sets it.
- Uniqueness of ids: lease ids and control request ids are drawn at random and are taken to be fresh, and lease ids to contain no colon.
- SessionStore: the stored snapshot is what this code writes; entries of other shapes, which the load skips, and the lookup that refreshes a session's URL are not modelled. Clock readings are positive.
- SessionStore.PruneKeepsInv: pruning is a step that may happen to any unbound session; the lease checks before it are in the broker's model.
- CdpLeases: timers that end leases are release steps; the detaches a sweep or restore asks for are foreign calls.
- ShadowWalk.Walk: takes no callback; it returns the scopes in visiting order and the queries loop over them, on a document that does not change meanwhile.
- Glob: strings are sequences of characters, and regular expressions are modelled only as far as a translated glob needs them.
- Cancellation: a reason is a string and is never empty; trimming of ids happens before they reach the registry.
- WorkflowHealth.RateIsOneIffNoRecentFailure: the rate is a real number, without floating-point rounding; thresholds are parameters, the environment is not read.
- WorkflowHealth: error classification and fingerprints as hashes; a fingerprint is an opaque string. The library sort is modelled by a function with its specified result.
- MetricWindow and Naming: case mapping is that of ASCII letters.
- BuildVersion: a version is a tuple of numbers; its rendering with dots is left out.
- BrokerService.BrokerState.Dispatch: promises of JavaScript are slots with a status; which microtask runs first is left open.
