# Verified core of the collection service

A Dafny model of the parts of the service in which many actors share state or in which one
piece of code has to agree with another, with proofs about all inputs, all interleavings and
all runs. `dafny verify dfyconfig.toml` checks everything.

* **Link-check queue** (`LinkQueue`, `LinkQueueObject`, `LinkProtocol`, `LinkProof`, `LinkRuns`, `LinkBreaker`,
  `LinkFlow`, `LinkStop`).
  The locked sections of the queue are methods of a class with the queue's own fields, proved
  against functions on its state. The protocol interleaves those functions with workers, the
  one-token wake channel, the result channel and the batch writer, one locked section or channel
  operation per step, and its invariant carries ownership, capacity, platform accounts, circuits and
  wake-ups. The breaker is told from the failures counted on a run, room and settlement from who is engaged and what
  was accepted. After Stop every interleaving is bounded and none gets stuck.
* **Proxy pool** (`Cooldown`, `ProxyPool`, `ProxyHealth`, `ProxyService`, `ProxyRoutes`, `ProxyRetry`). Cooldown
  arithmetic in 64-bit durations, leases that outlive refreshes and probes, which nodes can be leased after what has
  happened to them, sticky routes, and the retry loop of a link check running against arbitrary concurrent steps of
  others.
* **Hot-reload snapshots** (`Snapshots`, `SnapshotRuns`, `SnapshotWindows`, `SnapshotClose`, `SnapshotOnce`,
  `SnapshotCalls`, `SnapshotWitnesses`). Every access to `refs`, `retired`, `closed` and `current` is a step of its own; any number of
  threads, snapshots and leases, and any snapshot may be published any number of times.
* **JSON paths** (`JsonPath`, `JsonQuery`, `JsonFollow`, `JsonIndex`, `JsonTraces`, `JsonAgreement`). The path parser and
  its exact language, the level-by-level evaluator and what it returns node by node, the recursive index of scalar leaves, and the theorem that relates the
  last two. An object lists its entries in the order in which the walk visits its keys; a scalar is
  known by the text it is shown as.
* **Iterated keyword sync** (`Iteration`, `KeywordSync`, `TrackedSync`, `SyncRuns`, `SyncStops`). The 64-bit value sequence, the
  plain loop and the tracked loop over an arbitrary finite sequence of answers. A run whose answers end
  before it does is unfinished, so "the loop ends" is "no long enough sequence leaves it unfinished".
* **Collection runner** (`Runner`, `RunnerProof`, `RunnerItems`, `RunnerClaims`, `Summary`). Executors, external recordings and
  recovery over one item store, each repository call allowed to fail with or without its effect; taking the active
  flag, handing it to the goroutine that a start spawns and giving it back are steps of their own; and the summary of
  one keyword.
* **Search cache** (`SearchMerge`, `SearchScore`, `SearchCache`). The merge of results by key and completeness, what
  completeness counts, and the histories of a cache entry under it.

`Text`, `Collections` and `Sorting` hold what several of these need.

Some promises are not met by the code on all inputs or in all interleavings. Each has a concrete failing case
and the exact condition under which it is met.

* A jittered cooldown stays between the law and the maximum exactly if law plus jitter fits 64 bits
  (`Cooldown.JitterCanWrap`, `Cooldown.JitterStaysInRange`, `Cooldown.FailureNeverShortens`).
* No snapshot is closed while it is leased. Three runs break this: by a Publish, by a Release that resumes late, and
  by publishing a leased snapshot again once the manager is closed (`SnapshotWitnesses.PublisherClosesLeased`,
  `SnapshotWitnesses.ReleaseClosesLeased`, `SnapshotWitnesses.RepublishClosesLeased`). In every run, a lease has its
  snapshot closed under it exactly if it was granted between some thread's reading of a zero count and that thread's
  winning compare-and-swap, or the thread that closed the snapshot was turning it away from a closed manager and had
  read no count (`SnapshotWindows.ClosedWhileLeasedExactly`). If no grant falls between a zero reading and its
  compare-and-swap, and so if calls do not overlap, it happens exactly if the snapshot was turned away by a closed
  manager while leased (`SnapshotWindows.PromptGrantsCloseLeasedExactly`,
  `SnapshotWindows.SerialCallsCloseLeasedExactly`), which never happens to candidates that are published once
  (`SnapshotOnce.NeverClosedUnderLease`).
* The current snapshot is open. It has been retired, or is about to be, exactly if it was made current more than once;
  a run that publishes the current snapshot again leaves it current and closed
  (`SnapshotWitnesses.RepublishClosesCurrent`, `SnapshotRuns.CurrentIsOpenExactly`, `SnapshotOnce.CurrentIsOpen`).
* After Manager.Close everything that was installed is closed in the end, exactly if no Publish swaps its
  candidate in after Close has taken the current snapshot out, or the snapshot left current was made current before or
  turned away (`SnapshotWitnesses.LatePublishLeaks`, `SnapshotClose.CloseLeavesNothingOpen`,
  `SnapshotOnce.NothingOpenExactly`).
* The index lists paths that the query accepts with the same values. This can fail if a leaf is entered under the path
  through a key that cannot be written in a path, such as one with a dot (`JsonAgreement.DottedKeyDisagrees`). If no
  leaf is, wherever else in the document such keys may be, index and query agree on the path exactly if every segment
  meets only nodes it can be applied to and each end node is a scalar, a null, or an array with no scalar and no object
  below it (`JsonAgreement.MixedKindsDisagree`, `JsonAgreement.IndexAgreesWithQuery`).
* The comment at `collection/runner.go:264-266` says that ClaimPending can never pick up an external item. The item
  is left behind unfinished, and can then be claimed, exactly if creating or marking it failed or completing it had
  no effect in the store (`RunnerProof.TerminalAtReleaseExactly`, `RunnerClaims.ClaimableExactly`,
  `RunnerClaims.LeftBehindIsClaimableExactly`; runs in `RunnerClaims.FailedMarkIsClaimed` and
  `RunnerClaims.FailedCompleteIsClaimed`).
* Merging keeps the most complete result of every key exactly if each existing result is matched by the
  last existing one of its key or by a newcomer; lists without repeated keys always qualify
  (`SearchMerge.RepeatedKeyLosesInformation`, `SearchMerge.MergeKeepsBest`, `SearchMerge.UniqueKeysAreMatched`).
* Results without any id are told apart by title and channel. Two different pairs can share a key, and then one of the
  two results is lost; with channels that hold no underscore they share it exactly if both are the same
  (`SearchScore.TitleKeysCollide`, `SearchScore.KeyDecides`, `SearchScore.PlainChannelsDecide`).

## Model

| member | source | states |
|---|---|---|
| LinkQueue.WithDefaults | collection/linkcheck.go:145-182 | each positive setting stays as it is and each other one gets its default value, so all settings are valid |
| LinkQueue.NormalizePlatformIdempotent | collection/linkcheck.go:794-800 | normalising a platform name twice is normalising it once, so a claimed candidate is released on the platform it was claimed on |
| LinkQueue.NormalizePlatformTold | collection/linkcheck.go:794-800 | spaces around a platform name and its case do not matter, and a blank one is unknown |
| LinkQueue.VisitKeeps | collection/linkcheck.go:344-348 | creating missing platform records during a scan changes no platform's state |
| LinkQueue.FirstClaimable | collection/linkcheck.go:336-376 | the scan stops at a platform that may be claimed |
| LinkQueue.FirstClaimableSkips | collection/linkcheck.go:336-376 | and at no later offset than any platform that may be claimed |
| LinkQueue.NextProbeCovers | collection/linkcheck.go:349-354 | the probe time of a scan is no later than the deadline of any open circuit with waiting work |
| LinkQueueObject.LinkCheckQueue.constructor | collection/linkcheck.go:145-193 | an empty, stopped queue with completed settings |
| LinkQueueObject.LinkCheckQueue.Start | collection/linkcheck.go:195-242 | a stopped queue restarts empty, a started one is left alone, a stopping one refuses |
| LinkQueueObject.LinkCheckQueue.Stop | collection/linkcheck.go:244-271 | a started queue becomes stopping and keeps everything else; whether there is anything to wait for |
| LinkQueueObject.LinkCheckQueue.Enqueue | collection/linkcheck.go:285-315 | the five outcomes and, if accepted, exactly the new line, order and queued set |
| LinkQueueObject.LinkCheckQueue.ScanOnce | collection/linkcheck.go:331-402 | one pass under the lock takes the head of the first claimable platform after the cursor, or reports the earliest deadline |
| LinkQueueObject.LinkCheckQueue.FindClaimable | collection/linkcheck.go:336-376 | the cyclic loop stops at the first claimable offset and has seen the earliest deadline before it |
| LinkQueueObject.LinkCheckQueue.TakeHead | collection/linkcheck.go:359-375 | head removed, platform occupied, half-open if its circuit was open, cursor moved past it |
| LinkQueueObject.LinkCheckQueue.Inspect | collection/linkcheck.go:339-362 | whether the head of a platform may be taken now, and until when its circuit is open |
| LinkQueueObject.LinkCheckQueue.ReleasePlatform | collection/linkcheck.go:404-432 | slot and active count returned, streak and circuit advanced or cleared |
| LinkQueueObject.LinkCheckQueue.DropQueued | collection/linkcheck.go:592-608 | a settled completion leaves the queued set, and nothing else changes |
| LinkProof.ShapeStep | collection/linkcheck.go:285-432 | every step keeps platform order, cursor and lines consistent |
| LinkProof.PartitionStep | collection/linkcheck.go:285-329 | every step keeps each queued id in exactly one of: lines, workers, channel, writer |
| LinkProof.AccountingStep | collection/linkcheck.go:331-432 | every step keeps active and inUse equal to the number of engaged workers, in total and per platform |
| LinkProof.CircuitsStep | collection/linkcheck.go:404-432 | every step keeps inUse within its limit, half-open with exactly one probe, and a deadline exactly from the failure threshold on |
| LinkProof.BoundedStep | collection/linkcheck.go:301-311 | every step keeps at most Buffer+Workers ids queued |
| LinkProof.LifecycleStep | collection/linkcheck.go:195-283 | the writer outlives the workers and leaves an empty channel |
| LinkProof.AwakeStep | collection/linkcheck.go:379-432 | every step keeps a parked worker from missing claimable work |
| LinkRuns.ReachableInv | collection/linkcheck.go:195-608 | all of these hold in every state any interleaving reaches |
| LinkRuns.NeverCheckedTwice | collection/linkcheck.go:285-329 | no resource is with two workers at once, and one that is being checked is nowhere else |
| LinkRuns.SendNeverBlocks | collection/linkcheck.go:188-188 | the channel always has room when a worker sends its completion |
| LinkRuns.PlatformAccounts | collection/linkcheck.go:331-432 | active is the sum of inUse, limits are kept, and no release decrements a zero |
| LinkRuns.NoLostWakeup | collection/linkcheck.go:331-432 | with no token, no scan and no signal outstanding, a parked worker means that no closed-circuit candidate is claimable and every free probe has a timer by its deadline |
| LinkRuns.OpenCircuitHolds | collection/linkcheck.go:349-362 | after a circuit opened no claim carries a clock reading before its deadline, unless a check of the platform did not fail in between |
| LinkRuns.ClaimsInEnqueueOrder | collection/linkcheck.go:305-376 | over any run, what was waiting plus what was accepted is what was claimed plus what is still waiting, in this order, per platform |
| LinkRuns.RoundRobinIsFair | collection/linkcheck.go:336-376 | a platform claimable at every claim is claimed within as many claims as there are platforms |
| LinkBreaker.CircuitIsHistory | collection/linkcheck.go:404-432 | in every reachable state the circuit of a platform is what its checks made it on the run: open exactly from CircuitFailures failing releases in a row on, until CircuitCooldown after the latest of them, half open exactly while it is probed |
| LinkBreaker.FailuresKeepCircuitOpen | collection/linkcheck.go:349-362 | after that many failures no continuation claims the platform before the cooldown has passed since the latest, unless a check of it does not fail |
| LinkBreaker.FailureKeepsCircuitOpen | collection/linkcheck.go:416-426 | so a failing probe, or the failing release that completes the row, keeps the platform unclaimed for the whole cooldown from then on |
| LinkBreaker.AnswerDecides | collection/linkcheck.go:491-520 | a failed check and an answer that is not final count as failures of the platform; a final status and a cancelled check clear them |
| LinkBreaker.ScanTakesWhatIsDue | collection/linkcheck.go:336-376 | a scan takes the head of a platform with a free slot below the threshold, or with its cooldown over and nobody engaged from it on, and finds nothing exactly if there is none |
| LinkFlow.AcceptedExactlyWithRoom | collection/linkcheck.go:285-315 | in every reachable state a candidate is accepted exactly if it is valid, the queue started, its id not queued, and fewer than Buffer ids are queued without an engaged worker; a refusal changes nothing |
| LinkFlow.AcceptedIsSettledOnce | collection/linkcheck.go:592-608 | over any run each acceptance of a resource is settled at most once, and it is queued exactly if the last one is not settled |
| LinkFlow.OnlyCancelledIsDropped | collection/linkcheck.go:514-520 | until the context ends every result is written, and afterwards exactly those of cancelled checks are not |
| LinkFlow.CancelledIsNotCollected | collection/linkcheck.go:535-546 | the result of a cancelled check is never among those collected for writing |
| LinkFlow.BatchesAreBounded | collection/linkcheck.go:523-546 | until the workers are done fewer results than a batch are held back, and none if the store takes no batches |
| LinkFlow.StartPutsToWork | collection/linkcheck.go:216-241 | a start puts every worker to work and none leaves before the next stop or the end of the context |
| LinkStop.WorkFalls | collection/linkcheck.go:244-283 | after Stop every productive step of every actor uses up some of a finite amount of work, and no step adds any, timers and failing releases included |
| LinkStop.ShutdownIsBounded | collection/linkcheck.go:244-283 | from every reachable stopping state no interleaving takes more productive steps than that state's work |
| LinkStop.StopFinishesClean | collection/linkcheck.go:273-283 | whenever a stop finishes, in any run, all workers and the writer have gone, no slot is in use, and an id is queued exactly if it waits, once, in a line |
| LinkStop.StopCanAlwaysFinish | collection/linkcheck.go:244-283 | from every reachable stopping state some continuation finishes the stop that cleanly, and a continuation with no productive step left has come to where it can be finished |
| Snapshots.InvStep | sourceconfig/snapshot.go:111-233 | every single atomic access keeps reference counts equal to leases plus pinning threads, and close obligations complete |
| SnapshotRuns.RetiredNeverLeaked | sourceconfig/snapshot.go:111-233 | a retired, unclosed snapshot is still counted or some thread must look again; manager and done channel are closed at most once and never before retirement or rejection |
| SnapshotRuns.QuiescentMeansClosed | sourceconfig/snapshot.go:143-233 | with no call in progress and no lease held, a snapshot is closed exactly if it was retired or turned away, and its manager was then closed exactly once |
| SnapshotRuns.CloseReturns | sourceconfig/snapshot.go:208-223 | a waiting Manager.Close is released once nobody holds the snapshot |
| SnapshotRuns.CurrentIsOpenExactly | sourceconfig/snapshot.go:195-206 | in every run the current snapshot is retired, or about to be, exactly if it was made current more than once; only then, or after it was turned away, is it closed or does Acquire go round without a new one, and at rest it is closed exactly then |
| SnapshotWindows.ClosesLeasedExactly | sourceconfig/snapshot.go:111-119 | the compare-and-swap that closes a snapshot does so while it is leased exactly if a lease is still out that was granted since its thread read a zero count, or any lease if the thread turned the snapshot away and read none |
| SnapshotWindows.ClosedWhileLeasedExactly | sourceconfig/snapshot.go:143-178 | in every run, overlapping or not, a lease that is out has its snapshot closed under it exactly if a thread closed it whose zero reading came before the grant, or that had turned the snapshot away without a reading |
| SnapshotWindows.PromptGrantsCloseLeasedExactly | sourceconfig/snapshot.go:143-233 | in a run in which no grant falls between a zero reading and its compare-and-swap, a lease has its snapshot closed under it only if the snapshot was turned away by a closed manager meanwhile, and once all calls have returned exactly then |
| SnapshotWindows.SerialCallsCloseLeasedExactly | sourceconfig/snapshot.go:143-178 | so also in every run whose calls do not overlap |
| SnapshotOnce.PublishedOnce | sourceconfig/snapshot.go:180-206 | candidates that are published once are made current at most once, not after being turned away, and are never turned away under a lease |
| SnapshotOnce.CurrentIsOpen | sourceconfig/snapshot.go:195-206 | with such candidates the current snapshot is neither closed nor retired nor about to be, and Acquire retries only after the current one has changed |
| SnapshotOnce.NeverClosedUnderLease | sourceconfig/snapshot.go:143-233 | with such candidates no snapshot is closed under a lease unless a grant falls between a zero reading and its compare-and-swap |
| SnapshotCalls.LoneAcquireGrants | sourceconfig/snapshot.go:143-159 | an undisturbed Acquire on an open manager leases the current open snapshot and counts the lease |
| SnapshotCalls.LonePublishInstalls | sourceconfig/snapshot.go:195-206 | an undisturbed Publish makes its candidate current and goes on to retire what was |
| SnapshotCalls.RetireDecides | sourceconfig/snapshot.go:225-233 | retiring closes a snapshot nobody counts on and leaves any other to the last who does |
| SnapshotCalls.LastReleaseCloses | sourceconfig/snapshot.go:169-178 | an undisturbed last release of a retired snapshot closes it |
| SnapshotCalls.ClosedManagerGivesNothing | sourceconfig/snapshot.go:143-223 | once the manager is closed and no call is half done, no call gets a lease or changes the current snapshot in any run |
| SnapshotWitnesses.PublisherClosesLeased | sourceconfig/snapshot.go:225-233 | a run in which a Publish closes a snapshot that was leased after it read the count |
| SnapshotWitnesses.ReleaseClosesLeased | sourceconfig/snapshot.go:169-178 | a run in which a Release does, although no Acquire overlaps the Publish |
| SnapshotWitnesses.RepublishClosesLeased | sourceconfig/snapshot.go:199-202 | a run in which a leased snapshot is published again after Close has set its flag and is closed under the lease, although no thread has read a count |
| SnapshotWitnesses.RepublishClosesCurrent | sourceconfig/snapshot.go:203-205 | a run in which publishing the current snapshot again closes it and leaves it current |
| SnapshotClose.CloseLeavesNothingOpen | sourceconfig/snapshot.go:195-223 | after Close, with all calls returned and all leases released, everything installed is closed exactly if no Publish swapped in after Close took out, or the one left current was made current more than once or turned away |
| SnapshotOnce.NothingOpenExactly | sourceconfig/snapshot.go:195-223 | with candidates published once, exactly if no Publish swapped in after Close took out |
| SnapshotWitnesses.LatePublishLeaks | sourceconfig/snapshot.go:199-204 | a run that ends with an installed open snapshot nobody will retire |
| Cooldown.WithDefaults | proxypool/service.go:197-211 | each usable setting stays, each other one gets its default, and the maximum is never below the cooldown |
| Cooldown.FailureCooldown | proxypool/runtime_state.go:107-129 | the doubling loop computes min(Cooldown*2^(n-threshold), CooldownMax) from the threshold on and 0 below, then the jitter, capped |
| Cooldown.LawIsMonotone | proxypool/runtime_state.go:107-129 | more failures never cool down for less, and never beyond the maximum |
| Cooldown.JitterIsSmall | proxypool/service.go:237-249 | the jitter adds at most a tenth of the wait and at most its maximum, and can reach the smaller |
| Cooldown.JitterStaysInRange | proxypool/service.go:237-249 | jittered values stay between law and maximum if and only if the sum fits 64 bits |
| Cooldown.JitterCanWrap | proxypool/service.go:237-249 | a configuration in which the sum wraps to a negative cooldown |
| Cooldown.FailureNeverShortens | proxypool/runtime_state.go:77-105 | during a cooldown a failure neither moves the deadline earlier nor raises the streak; otherwise it adds one and cools for at least the law exactly if the jitter does not wrap or a longer wait was asked for |
| Cooldown.BurstCountsOnce | proxypool/runtime_state.go:77-96 | any number of failures within one cooldown, each at its own time, leave the streak alone, never move the deadline earlier, and each gets the wait it asked for |
| Cooldown.BeforeDeadlineIsWithin | proxypool/runtime_state.go:77-85 | failures before a running deadline all fall into one cooldown |
| ProxyPool.RefreshKeepsInflight | proxypool/service.go:300-380 | replacing the node map keeps every in-flight count |
| ProxyPool.ProbeKeepsInflight | proxypool/service.go:874-930 | so does a probe result, including one that deletes the node |
| ProxyPool.ReleaseFindsItsLease | proxypool/service.go:492-561 | a release always finds its node with a positive count, so the guards against underflow never act |
| ProxyPool.InvStep | proxypool/service.go:300-561 | acquire, release, refresh and probe keep in-flight counts equal to unreleased leases, within MaxPerNode, and inUse their total |
| ProxyPool.LeasesAreConserved | proxypool/service.go:415-561 | this holds after every interleaving |
| ProxyPool.AllReleasedMeansIdle | proxypool/service.go:128-139 | when all leases are released nothing is in flight anywhere |
| ProxyPool.RefreshKeepsCooldowns | proxypool/service.go:343-365 | a refresh ends no running cooldown of a node or a target |
| ProxyPool.DroppedNodeIsLeasable | proxypool/service.go:366-371 | a node missing from the store but still leased can be leased again exactly if it has a past cooldown |
| ProxyHealth.LeaseNeeds | proxypool/service.go:470-490 | a disabled, expired, excluded, full or unknown node is never leased, nor one that rests or whose target does |
| ProxyHealth.ProbedIsLeasable | proxypool/service.go:874-930 | after a successful probe a node can be leased exactly if it is enabled, not expired, has room, is not excluded, and the target has rested |
| ProxyHealth.FailedProbeCloses | proxypool/service.go:874-930 | after a failed one only if it is leased already and a past cooldown is on record |
| ProxyHealth.SuccessIsLeasable | proxypool/service.go:511-522 | after a release with success the node can be leased exactly if it is enabled, not expired, not excluded, and for other targets if they have rested |
| ProxyHealth.FailureRestsNode | proxypool/service.go:523-537 | after a failure of the node it cannot be leased for anything before its rest is over, and from then on exactly if nothing else is in the way |
| ProxyHealth.FailureRestsTarget | proxypool/service.go:538-546 | after a failure of the target the same holds for that target alone |
| ProxyHealth.RestsExactly | proxypool/runtime_state.go:77-105 | outside a rest a failure starts one exactly from the threshold on or if a wait was asked for, for at least either and at most the maximum or what was asked |
| ProxyHealth.ScopeTold | proxypool/service.go:494-497 | a failure with no scope is the node's; spaces and case do not matter |
| ProxyHealth.RefreshedIsLeasable | proxypool/service.go:300-380 | exactly which nodes can be leased right after a refresh, by what was loaded and what was known |
| ProxyHealth.DroppedIsGone | proxypool/service.go:300-371 | after a refresh a node is known exactly if it was loaded or is leased |
| ProxyHealth.RestingNodeIsNotLeased | proxypool/service.go:470-490 | over any run before its rest is over a node is not leased, unless a success, a successful probe or its return after it was gone revives it |
| ProxyHealth.RestingTargetIsNotLeased | proxypool/service.go:470-490 | the same for one target of a node |
| ProxyHealth.ThresholdFailuresRest | proxypool/runtime_state.go:77-129 | after the threshold-th failure in a row, counted on the run, and after each further one, the node is not leased for as long as the cooldown law says |
| ProxyService.Service.CleanupSticky | proxypool/runtime_state.go:11-44 | when due, unusable routes go and the most recently used ones stay up to the limit |
| ProxyService.Service.CleanupIsRegular | proxypool/runtime_state.go:11-28 | when a clean-up is not due: unforced, within the limit, and less than five minutes and half a route's life after the last |
| ProxyService.Service.DropOldest | proxypool/runtime_state.go:29-42 | no dropped route was used more recently than a kept one |
| ProxyService.Service.InvalidateSticky | proxypool/runtime_state.go:65-75 | exactly the routes to the node, or to the node for the target, are removed |
| ProxyService.Service.Acquire | proxypool/service.go:415-461 | fails exactly if disabled, cancelled or nobody is available; otherwise leases an available node that is not excluded, the one its route leads to if the clean-up left the route and the node is available; the whole route table and the time of the last clean-up afterwards |
| ProxyService.Service.FollowRoute | proxypool/service.go:426-442 | the route table after the clean-up, with the route renewed if it can be followed and forgotten if not |
| ProxyService.Service.RouteIsFollowed | proxypool/service.go:426-442 | with the table within its limit, a route to an available node is followed exactly if no clean-up is due or the target read back from its key is not cooling down |
| ProxyService.Service.PickAny | proxypool/service.go:443-450 | some available node is found if there is one |
| ProxyService.Service.CompleteLease | proxypool/service.go:492-561 | node, counters and routes after success and after failures of either scope |
| ProxyService.Service.Refresh | proxypool/service.go:300-380 | the new node map, leased nodes kept, the new policies, and routes cleaned up |
| ProxyService.Service.RecordProbe | proxypool/service.go:874-930 | the node map and the routes after a probe |
| ProxyService.FreeRouteIsUsable | proxypool/runtime_state.go:46-63 | a route to an available node survives the clean-up exactly if the target read back from its key is not cooling down, which is the request's own target unless that holds a NUL |
| ProxyRoutes.UsableIsLeasable | proxypool/runtime_state.go:46-63 | a route is usable exactly if it has not expired and its node could be leased for its target if it had room |
| ProxyRoutes.RouteLeadsBack | proxypool/service.go:426-460 | the route a grant leaves leads back to the node until it expires, whenever the node can be leased, and nowhere else |
| ProxyRoutes.UselessRouteIsForgotten | proxypool/service.go:432-441 | a route that cannot be followed is forgotten, and no other route changes |
| ProxyRoutes.NodeInvalidated | proxypool/runtime_state.go:65-75 | invalidating a node leaves exactly the routes to other nodes |
| ProxyRoutes.TargetInvalidated | proxypool/runtime_state.go:65-75 | invalidating it for a target leaves exactly the routes to other nodes and for other targets |
| ProxyRoutes.RoutesAreApart | proxypool/service.go:426-431 | two requests share a route exactly if target and sticky key are the same |
| ProxyRoutes.LastPolicyCounts | proxypool/service.go:372-378 | of the policies for one target the last is in force |
| ProxyRetry.FreeIsEnabled | proxypool/service.go:470-490 | the service's test for granting a node is the protocol's guard, by which Take shows that a granted Acquire is the protocol's step and a refused one finds no step possible |
| ProxyRetry.Take | proxypool/service.go:415-461 | a granted Acquire is the protocol's step on the granted node, and it is refused exactly if cancelled or no such step is possible |
| ProxyRetry.AttemptTakesOne | integration/collection_adapter.go:406-430 | whatever others do, one attempt adds exactly one lease of this check, on its node, and has returned it |
| ProxyRetry.CheckWithProxyPolicy | integration/collection_adapter.go:394-437 | on a pool with routes and against any concurrent steps, the check leaves the pool exactly as its attempts on the reported nodes do; all leases it owns are the reported ones, on pairwise different nodes, at most MaxAttempts, each returned; left alone it adds no other lease and leaves the number in use; it goes on only after retryable failures; which answer it gives |
| ProxyRetry.TryOnce | integration/collection_adapter.go:406-430 | a granted turn leaves the pool exactly as one attempt on the granted node does; a refused one as the others' steps alone do, and it is refused exactly if cancelled or no node can be leased |
| ProxyRetry.AnswerLaws | integration/collection_adapter.go:424-436 | a success is always told; without one a mode that may fall back gives the baseline, and one that insists on proxies the last attempt or the refusal |
| ProxyRetry.OnlyStickyUsesRoutes | integration/collection_adapter.go:398-401 | only a sticky policy follows a route and leaves one |
| ProxyRetry.TargetTold | integration/collection_adapter.go:398-398 | a link check leases for the target of its platform |
| JsonPath.ParsePath | keywordsource/path.go:28-84 | the scanning loops accept and reject what the recursive reading of the path does, with the same segments |
| JsonPath.ParseElement | keywordsource/path.go:34-66 | one turn of the loop consumes an optional field and all selectors after it |
| JsonPath.ParseSelectors | keywordsource/path.go:50-66 | the inner loop consumes all consecutive selectors |
| JsonPath.ParsesExactly | keywordsource/path.go:28-84 | the accepted paths are exactly those that, trimmed, are written from names and closed selectors that can all be read |
| JsonPath.PiecesMean | keywordsource/path.go:44-63 | a name is taken without its outer spaces and may have no inner ones; blank brackets are a wildcard, others an index that is not negative |
| JsonPath.RoundTrip | keywordsource/path.go:28-84 | parsing the text of plain segments gives them back |
| JsonPath.RoundTripExactly | keywordsource/path.go:28-84 | exactly the non-empty sequences of plain segments survive the round trip |
| JsonPath.RenderInjective | keywordsource/path.go:28-84 | different segments have different texts |
| JsonPath.AcceptedIsRenderable | keywordsource/path.go:28-84 | an accepted path has at least one segment, all plain, and rendering it anew keeps its meaning |
| JsonQuery.Extract | keywordsource/path.go:88-135 | the level-by-level loop returns the values, or which error, the document and the path determine |
| JsonQuery.NextLevel | keywordsource/path.go:94-126 | one level fails exactly if some node is of the wrong kind, and otherwise lists the children in order |
| JsonQuery.AppendScalarValues | keywordsource/path.go:137-158 | nested arrays are flattened in order, and an object anywhere below fails |
| JsonFollow.QueryFollows | keywordsource/path.go:88-135 | the level-by-level query returns what following the path from node to node does, for every document and path, and invalid paths outweigh objects |
| JsonFollow.IndexPicks | keywordsource/path.go:110-117 | behind a path to an array an index leads on from the item at its place, with any further segments, and nowhere if there is none |
| JsonFollow.WildcardIsAllIndexes | keywordsource/path.go:118-123 | a wildcard returns what all indexes return, in order |
| JsonFollow.EndTold | keywordsource/path.go:128-158 | what a path returns by where it ends: a text, nothing for null, an error for an object, and for an array what the wildcard returns |
| JsonFollow.ExtendedParses | keywordsource/path.go:28-84 | adding the text of segments to an accepted path adds the segments |
| JsonIndex.WalkCandidates | keywordsource/path.go:255-295 | the recursive walk enters the leaves in walk order |
| JsonIndex.EnteredIndexed | keywordsource/path.go:280-293 | entering a leaf keeps count, the first three distinct samples and the seen set of every path |
| JsonIndex.SamplesAreFirst | keywordsource/path.go:280-293 | the samples are the first three distinct texts in the order in which they first occur |
| JsonIndex.WalkIndexed | keywordsource/path.go:255-295 | after the walk a path is known exactly if it has a leaf, with its count and samples |
| JsonIndex.DiscoverFields | keywordsource/path.go:233-253 | sorted, without repetition, one candidate for each path with a leaf, with its count and first three distinct texts |
| JsonTraces.TracesEnd | keywordsource/path.go:255-295 | whatever the keys, the texts the walk meets along a sequence of segments are, in order, the scalars those segments lead to |
| JsonTraces.LeavesAreShown | keywordsource/path.go:255-283 | the paths the walk writes for its leaves, and which leaves it passes over |
| JsonAgreement.PlainKeysReachPlainly | keywordsource/path.go:255-269 | if all keys are plain, every path is reached through plain keys only |
| JsonAgreement.TextsEnd | keywordsource/path.go:255-295 | the texts entered under a path that only plain keys lead to are the scalars it leads to |
| JsonAgreement.DiscoveredPathParses | keywordsource/path.go:233-295 | such a path parses, to fields and wildcards |
| JsonAgreement.IndexAgreesWithQuery | keywordsource/path.go:88-135 | the query returns exactly the texts indexed under such a path if and only if all levels fit and each end node is a scalar, a null, or an array with no scalar and no object below it |
| JsonAgreement.UniformDocsAgree | keywordsource/path.go:88-135 | they agree on every such path of a document in which all nodes at one path share a kind |
| JsonAgreement.PickerMatchesQuery | keywordsource/path.go:229-295 | with plain keys, count is the number of values and samples are their first three distinct ones, for every candidate |
| JsonAgreement.MixedKindsDisagree | keywordsource/path.go:137-158 | an array beside a scalar makes them differ |
| JsonAgreement.DottedKeyDisagrees | keywordsource/path.go:255-269 | so does a dot in a key |
| Iteration.Value | keywordsource/iteration.go:235-247 | start+step*index exactly, failing if and only if the product or the sum leaves int64, with no intermediate overflow |
| Iteration.QuotientBounds | keywordsource/iteration.go:239-241 | the two division guards are exact, also for the truncated division of the minimum |
| Iteration.SmallerIndexesSucceed | keywordsource/iteration.go:235-247 | success at an index implies success at all smaller ones |
| Iteration.IterationValue | keywordsource/iteration.go:172-184 | negative and out-of-range indexes fail, all others give the exact value if it fits |
| Iteration.IterationValues | keywordsource/iteration.go:149-167 | the whole sequence exists exactly if it is finite and its last value fits, and each value is exact |
| Iteration.Validate | keywordsource/iteration.go:77-145 | accepted exactly if disabled, or within all limits, on a fitting target, and representable to its last value |
| Iteration.AcceptedExactly | keywordsource/iteration.go:77-145 | an enabled configuration is accepted exactly within the documented bounds, with a known mode, a place for the value, a way to stop, and all its values representable |
| Iteration.AcceptedSequenceIsTotal | keywordsource/iteration.go:77-145 | an accepted finite sequence never overflows while it runs |
| KeywordSync.EvaluateProgress | keywordsync/service.go:357-394 | new values are the first occurrences not seen before; what counts as progress in either mode; when the store is asked |
| KeywordSync.CollectNew | keywordsync/service.go:364-371 | the loop finds the first occurrences and remembers all names |
| KeywordSync.PlainStep | keywordsync/service.go:238-312 | every branch of the loop body: counts, streak, errors, values and whether the loop goes on |
| KeywordSync.SyncClaimed | keywordsync/service.go:200-338 | the plain loop closes as the run over its answers does |
| TrackedSync.TrackedBody | keywordsync/history.go:149-294 | every branch of the tracked loop body, including refused writes and interruption |
| TrackedSync.ExecuteTrackedRun | keywordsync/history.go:117-322 | the tracked loop closes as the tracked run over its answers does |
| SyncRuns.FirstsConcat | keywordsync/service.go:364-371 | deduplicating response by response is deduplicating all responses at once |
| SyncRuns.SyncedValues | keywordsync/service.go:224-338 | stored values are the first occurrences of everything taken in, one for each normalised name; requests are successes plus failures |
| SyncRuns.AllFailedHasErrors | keywordsync/service.go:315-324 | a run without success has an error to report and only failures |
| SyncRuns.StrictRunIsBounded | keywordsync/service.go:238-313 | a strict run makes at most (D+1)*S requests, even if unlimited |
| SyncRuns.StrictRunEnds | keywordsync/service.go:238-313 | with a finite vocabulary no (V+1)*S answers leave a strict run unfinished |
| SyncRuns.LastsForEverExactly | keywordsync/service.go:238-313 | an accepted configuration can stay unfinished for any number of answers over a vocabulary exactly if it is enabled, unlimited, not strict and its step is zero |
| SyncStops.RunEndsExactly | keywordsync/service.go:238-313 | every run told from its answers: it goes on as long as the count allows, up to the first turn that is cut off, whose new names the store fails to judge, or that is the last of stopCount fruitless ones in a row; fruitful is a turn with any keyword, or in strict mode with a name in no earlier answer and not in the store |
| SyncStops.StopsEarlyExactly | keywordsync/service.go:295-313 | an undisturbed run stops although another turn is allowed exactly after stopCount fruitless turns in a row |
| SyncStops.FullRunMakesCount | keywordsync/service.go:238-240 | a run that nothing ends makes as many requests as configured |
| SyncStops.OutcomeCounts | keywordsync/service.go:315-338 | the closing call counts exactly the successes and lists exactly the errors of the turns made |
| SyncStops.StrictExactly | keywordsync/service.go:372-376 | an accepted configuration is strict exactly if it is enabled, has a stop count and says so |
| SyncStops.DisturbanceDecides | keywordsync/history.go:149-294 | the first disturbance decides how a tracked run is closed: aborted by the context, the wait or an interrupted request, unsaved by a refused write |
| SyncStops.CancelledAtEnd | keywordsync/history.go:296-322 | a context that has ended when the loop is over aborts the run instead of closing it |
| SyncRuns.TrackedRefinesPlain | keywordsync/history.go:142-322 | without cancellation or refused writes both loops close with the same outcome, values, errors and counts |
| SyncRuns.SavedRunIsTraced | keywordsync/history.go:268-316 | value sequences ascend, each record counts the values attributed to it, each value stands in the answer of its iteration, and totals add up |
| RunnerProof.InvStep | collection/runner.go:216-638 | every step keeps one lock holder, one executor, recorded external items terminal, and unfinished recordings with the lock holder |
| RunnerProof.LockStep | collection/runner.go:229-347 | every step keeps the persistence lock with exactly the recording that took it |
| RunnerProof.FlagStep | collection/runner.go:415-470 | every step keeps at most one goroutine answerable for the active flag, only while it is set, and one whenever it is, across the hand-over from a start to the goroutine it spawns |
| RunnerProof.OnlyItsRecorderActs | collection/runner.go:216-347 | an external item that is being recorded or was recorded changes only by the call that records it |
| RunnerProof.ExternalItemsStayExternal | collection/runner.go:793-806 | in every reachable state no claim takes and no recovery resets an external item that is being recorded or was recorded |
| RunnerProof.TerminalWhenReleased | collection/runner.go:229-347 | a recorded item is terminal whenever the persistence lock is free |
| RunnerProof.ClaimsOnlyWhileActive | collection/runner.go:415-447 | ClaimPending is only called by the one executor that holds the active flag |
| RunnerProof.ActiveMeansExecuting | collection/runner.go:823-844 | the active flag is set exactly while some goroutine has taken it or was handed it and has not given it back |
| RunnerProof.TerminalAtReleaseExactly | collection/runner.go:250-341 | when a recording releases the lock its item is terminal exactly if creating and marking it succeeded and completing it took effect |
| RunnerItems.ItemMoves | collection/runner.go:216-638 | what moves an item: starting work makes it running, finishing it terminal, an effective recovery pending again, and nothing else changes its status |
| RunnerItems.FinishedIsFinal | collection/runner.go:415-638 | in every run a finished item stays finished: nothing claims, marks or recovers it again |
| RunnerItems.FailureEndsExecutor | collection/runner.go:548-638 | a failed call ends its executor, which only gives the flag back |
| RunnerItems.FailureIsRecovered | collection/runner.go:793-812 | after a failed call or a restart the next recovery that succeeds makes every running item pending again |
| RunnerItems.RecoveryIsDoneOnce | collection/runner.go:793-812 | without such a cause since the last, a recovery changes nothing |
| RunnerClaims.ClaimableExactly | collection/runner.go:415-447 | once the lock is free, some continuation claims an item exactly if it is not terminal |
| RunnerClaims.LeftBehindIsClaimableExactly | collection/runner.go:264-270 | so what a recording leaves can be claimed exactly if creating or marking it failed or completing it had no effect |
| RunnerClaims.FailedMarkIsClaimed | collection/runner.go:267-270 | a run in which marking fails and an executor claims the item |
| RunnerClaims.FailedCompleteIsClaimed | collection/runner.go:337-340 | a run in which completing fails, recovery makes the item pending and an executor claims it |
| Summary.SourceSummaryKey | collection/runner.go:870-891 | the search ends with a key not taken: the base key or its least free suffix |
| Summary.FreeSuffix | collection/runner.go:884-890 | the unbounded suffix loop stops after at most as many suffixes as keys are taken, plus one |
| Summary.EntryTells | collection/runner.go:684-738 | what an entry tells of its source's answer: status, error and counts, the last only of stored results |
| Summary.StatusTold | collection/runner.go:739-750 | an item has data exactly if one source delivered and has failed exactly if every source did |
| Summary.TotalsTold | collection/runner.go:726-735 | the counts of an item are those of the answers that were stored |
| Summary.FailedKeysTold | collection/runner.go:700-722 | exactly the keys of the failed sources are listed |
| Summary.BaseKeyTold | collection/runner.go:870-880 | sources that name themselves get the name, and those that do not are told apart by their place |
| Summary.CollectSource | collection/runner.go:684-738 | one turn enters the entry its source deserves, under the base key or the least free suffix given the keys before it, and counts it |
| Summary.CollectKeyword | collection/runner.go:640-750 | exactly one entry for each source, each under the base key or the least free suffix given the keys before it, counts that are the sums over the entries, the status and the failed keys in order |
| SearchMerge.MergeSearchResults | service/search_service.go:124-158 | unique keys, newest first, and exactly the table the two lists determine |
| SearchScore.ScoreGains | service/search_service.go:184-217 | an empty result scores nothing, and what each gain adds: 10, 3 and 2 for unique id, content and channel, 6 for a first link, 1 for a further one, for a tag and for ten bytes of title |
| SearchScore.RicherScoresMore | service/search_service.go:184-217 | a result with all that another has scores at least as much, and more exactly if it has more |
| SearchScore.RicherSurvives | service/search_service.go:124-182 | of two results with one key the strictly richer survives, whichever list it is in |
| SearchScore.PoorerIsReplaced | service/search_service.go:124-182 | merging into a list without repeated keys leaves no result for which a strictly richer one of its key was there |
| SearchScore.TieKeepsFirst | service/search_service.go:173-182 | of two equally complete results the one that was there first stays |
| SearchScore.KeyDecides | service/search_service.go:160-170 | which results are taken for the same: by unique id, else by message id, else by title and channel joined |
| SearchScore.TitleKeysCollide | service/search_service.go:169-169 | two different titles in two channels that share a key, one of which the merge drops |
| SearchScore.PlainChannelsDecide | service/search_service.go:169-169 | with channels that hold no underscore only equal titles and channels share one |
| SearchMerge.MergeKeepsBest | service/search_service.go:124-158 | all keys and a most complete result of each, if and only if each existing result is matched by the last of its key or a newcomer |
| SearchMerge.UniqueKeysAreMatched | service/search_service.go:124-158 | which is so for every list without repeated keys |
| SearchMerge.RepeatedKeyLosesInformation | service/search_service.go:129-132 | a concrete list with a repeated key that loses its more complete result |
| SearchMerge.AbsorbedTops | service/search_service.go:135-144 | absorbing newcomers keeps, for each key seen, a most complete result seen |
| SearchMerge.SameSeenSameScores | service/search_service.go:173-182 | tables that saw the same results have the same keys and scores |
| SearchCache.MergeCachedSearch | service/search_cache.go:70-76 | merged results, completeness kept, freshness kept |
| SearchCache.Cache.MergeAndStore | service/search_cache.go:111-135 | under the key's lock the entry becomes the merge of what was there, or stays if loading or storing fails without effect; other keys stay |
| SearchCache.CacheTopsHistory | service/search_cache.go:111-135 | after any history the entry has exactly the keys of all results brought in, each with the maximum score seen, and is complete exactly if one merge was |
| SearchCache.OrderDoesNotMatter | service/search_cache.go:111-135 | histories that brought in the same results, in any order and grouping, end with the same keys and scores |
| SearchCache.NothingIsLost | service/search_cache.go:70-76 | from any entry on, keys stay, scores never fall, completeness never reverts and no merge changes how long it is fresh, while the entry lives |

## Left out

- HTTP handlers, authentication, configuration from the environment, cryptography and the per-disk checkers.
- Databases, HTTP requests, clocks and random draws: they are parameters, arbitrary answers or arbitrary steps.
- Contents of error messages; errors are told apart by their kind only.
- Metrics of the link-check queue (throughput, backlog samples, `Snapshot()`) and its periodic dispatch from the store, whose goroutine a stop waits for too.
- A checker or a repository call of the link-check queue that never returns: each returns at some step.
- `proxyScore` and the selection strategies: the selector is any choice among the available nodes.
- Latency averages, outcome persistence and success counters of proxy nodes.
- `ExtractKeywords` and `NormalizeKeyword`: the sync loops take arbitrary keyword lists, which is more general.
- Injecting the iteration value into query, header or body: whether it fits is a parameter of validation.
- Lease renewal of tracked runs: its only effect on the loop is cancellation, which is an arbitrary answer.
- `searchSource` retries, keyword selection and cooldown of keywords: easy members beside the protocol.
- `mergeCachedSearchWithExecution` and `storeFreshCachedSearch`: the execution record is not part of the merge, and fresh entries are plain overwrites.
- Recovery never touching a running internal item: the code does not promise it, since a tick may recover without holding the active flag.
- Crashes of the process in the middle of an external recording.
- LinkQueue.NormalizePlatformIdempotent: case folding is ASCII only.
- Iteration.Validate: the stop mode is folded in ASCII only, and the target checks are one boolean.
- JsonQuery.Extract: scalars carry their text; the formatting of Go's numeric types is not modelled.
- JsonIndex.WalkCandidates: sorting the keys of an object is part of how an object is listed, not a step.
- KeywordSync.SyncClaimed: the outcome is the closing call to the store, not the store's answer to it.
- TrackedSync.ExecuteTrackedRun: an interrupted run keeps no records in the model, and samples and durations of a record are not modelled.
- SearchMerge.MergeSearchResults: sub-source and images of a result take no part in key or score and are not modelled.
