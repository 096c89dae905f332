# The relay's spot queue and power engine, verified

The relay is a proxy in front of machines that are switched on for a request and switched off
again when nobody needs them. Two parts decide what it does:

* **The spot queue** of an endpoint (`relay/queue.py`): sessions acquire one of `max_spots` spots
  in FIFO order, keep it across requests and lose it by timed rules that differ for known and
  unknown clients. Sessions have in-flight caps, an endpoint may admit one request at a time
  (atomic mode), a child session may run on its parent's spot, and a spot can be released by hand.
* **The power engine** of a server (`relay/servers.py`): who owns the machine, when it is woken,
  and when the proxy may power it off (idle rule, cron rule with deferral), across restarts.

The glue is in `relay/endpoints.py` (admission races, the manager tick), `relay/clients.py`
(parent chains) and `relay/store.py` (the persisted mirror, the bounded request log).

## How the project is organised

The classes (`EndpointQueue.dfy`, `ServerRuntime.dfy`, `Store.dfy`) update their fields in place
as the program does, with its aliasing: one session object is reached from the dictionary, from
queue entries and from running requests. Every method is proved to change the abstract state
`View()` exactly as a function on values does (`QueueModel.dfy`, `ServerModel.dfy`); everything
else is proved about those functions.

A run of the queue is a sequence of events (`QueueSteps.dfy`), one per synchronous stretch of the
program. Every event is a sequence of atoms, so what each atom keeps (`QueueInvariants.dfy`) holds
in every reachable state (`QueueRuns.dfy`). Three history fields carry the whole-run properties:
the running requests, the number of admissions, and the log of promotions with what each one
passed over.

| file | main results |
|---|---|
| `QueueTheorems.dfy` | the counters agree, the clamps never bite, capacity, bounded overtaking |
| `QueuePromotion.dfy` | the restarting scan is a single pass, order is kept, no wake-up is lost |
| `OwnSpots.dfy`, `BusyRelease.dfy`, `SpotWitnesses.dfy` | in flight implies a spot: the bounds, exactly which events break them, and runs that do |
| `NoEarlySurrender.dfy`, `BoundedSurrender.dfy` | a spot is neither taken too early nor kept too long |
| `TickDecisions.dfy`, `SessionFields.dfy` | whose spot a tick frees, exactly, and where the times and reports it looks at come from |
| `Lifecycle.dfy` | each caller releases or abandons exactly once, whatever the interleaving |
| `WebSocketSpots.dfy` | capacity with WebSocket connections |
| `SafePowerOff.dfy` | queues and power engine together: what an automatic power-off can hit |
| `ServerRuns.dfy`, `ServerTheorems.dfy` | ownership provenance, cron accounting, rates, the store as a mirror |
| `ServerMemory.dfy` | ownership, switch and stamps from the log, and exactly when the server is woken, adopted and powered off |
| `Store.dfy`, `Subsequences.dfy` | request-log conservation |
| `SharedSpots.dfy` | the parent-chain walk |

Times are `real`, cron instants `int`. The backend, the store, readiness probes and status reports
answer through arguments and events that may be anything.

## Model

| member | source | states |
|---|---|---|
| QueueTheorems.BookkeepingAgrees | relay/queue.py:153-290 | In every reachable state each waiting or running request has its session registered, every spot belongs to a session, `spot_held` is true exactly for spot owners, `waiting` and `inflight` are the numbers of that session's queued and running requests, and `inflight_total` is both the number of running requests and the sum over sessions |
| QueueTheorems.ClampsNeverBite | relay/queue.py:250-287 | The `max(0, ..)` clamps and the `inflight > 0` guard never change anything: leaving and finishing subtract exactly one from each counter |
| QueueTheorems.CapacityRespected | relay/queue.py:203-248 | At most `max_spots` spots in every reachable state (sharing and manual release included); in atomic mode at most one request in flight |
| QueueTheorems.OvertakingIsBounded | relay/queue.py:215-248 | Whole runs: nothing is promoted twice, a session's requests are promoted in admission order, and a promotion passes a waiting request only if the promoted one needs no new spot or the waiting session is on a spot, and never one on a spot whose requests in flight are below a non-negative cap or whose cap is negative; so new spots go first come, first served |
| QueueTheorems.PassedIsEverythingAhead | relay/queue.py:222-245 | The log tells the truth: everything admitted earlier and still waiting is in what a promotion passed over, with its session's spot and requests in flight at that moment, and a new spot is logged exactly when the promoted session was on none |
| QueueTheorems.ScanTakesFirstFree | relay/queue.py:190-229 | The scan picks the first request not held back by atomic mode with a request in flight, by a non-negative cap on its session's own or shared spot, or by the want of a spot; conditions in the queue's fields |
| QueueTheorems.PromotionRunsOnSpot | relay/queue.py:190-243 | A promoted session ends on a live own or shared spot; a promotion on a live spot leaves the spots alone, any other adds exactly the session's key |
| QueueInvariants.InitialInv | relay/queue.py:121-149 | A new queue satisfies the invariant behind the run theorems |
| QueueInvariants.AtomKeepsInv | relay/queue.py:153-418 | Every atomic step keeps accounting, spot tracking, promotion order and fairness together |
| QueueInvariants.AtomKeepsBooks | relay/queue.py:153-418 | Every atomic step keeps the accounting, also while WebSocket connections count themselves in `inflight` |
| QueueInvariants.WaitingNotRunning | relay/queue.py:230-231 | No request is waiting and running at once |
| QueueRuns.EventTrace | relay/queue.py:153-418 | Every event is a sequence of enabled atomic steps of its own kind ending in the same state; nested promotions during a tick included |
| QueueRuns.StepKeepsInv | relay/queue.py:153-418 | Every event keeps the invariant |
| QueueSteps.PromoteLoopTrace | relay/queue.py:222-248 | The promotion loop is a sequence of promotions of the then first eligible request |
| QueueSteps.TickFreesIdle | relay/queue.py:334-337 | A tick frees only spots of sessions with nothing in flight |
| QueueModel.FirstEligible | relay/queue.py:223-229 | The scan returns the first eligible position, or the length when none is |
| QueueModel.PromoteLoop | relay/queue.py:222-248 | The loop stops with no waiting request eligible and no session gained or lost |
| QueueModel.IndexOf | relay/queue.py:230 | Removal takes the first occurrence of an entry |
| QueueModel.WithoutKey | relay/queue.py:384 | Dropping a record removes exactly that key from the iteration order |
| QueuePromotion.PromotionUnlocksNobody | relay/queue.py:190-243 | Promoting one request never makes an ineligible one eligible, whatever caps, atomic mode and shared spots |
| QueuePromotion.RestartIsSinglePass | relay/queue.py:215-248 | The loop that restarts from the front equals one left-to-right pass that never looks back |
| QueuePromotion.PromotionKeepsQueueOrder | relay/queue.py:215-248 | What remains waiting is an order-preserving subsequence of the queue |
| QueuePromotion.TickKeepsSettled | relay/queue.py:387-414 | A tick over any snapshot leaves nobody eligible waiting if nobody was before |
| QueuePromotion.StepKeepsSettled | relay/queue.py:183-311 | Admission, release and the manager's promotion settle the queue from any state; abandon, manual release, tick and reports keep it settled |
| QueuePromotion.NoLostWakeUp | relay/queue.py:203-232 | After any run, a promotion scan and events that change neither readiness nor sharing, every request waiting on a ready endpoint has one of exactly those three reasons to; with a negative cap and no atomic mode no session on a spot has a request waiting |
| QueuePromotion.ManagerTickSettles | relay/endpoints.py:392-417 | One manager tick settles the queue from any state, and a probe made while requests wait decides readiness |
| OwnSpots.PromotionKeepsIff | relay/queue.py:230-248 | One promotion keeps "in flight owns a spot" if and only if it does not run on another session's spot |
| OwnSpots.SurrenderKeepsIff | relay/queue.py:376-384 | Taking a spot away, before the promotions that follow, keeps it if and only if the session has nothing in flight |
| OwnSpots.StepKeepsOwn | relay/queue.py:203-274 | Every event without sharing and without a manual release of a busy session keeps it, and the cap bound with it |
| BusyRelease.StepKeepsOwnIff | relay/queue.py:153-418 | With no shared spots, an event keeps ownership if and only if it does not release a busy session that then fails to win a spot back, and it keeps the cap bound if and only if it does not release a full session that does win one back |
| BusyRelease.BusyReleaseIff | relay/queue.py:261-274 | After the manual release of a busy session, promotions included, it owns a spot again if and only if the endpoint is ready and not atomic, the session waits, and the spotless sessions waiting ahead of it leave a spot free |
| BusyRelease.PassWins | relay/queue.py:222-248 | A session without a spot comes out of the promotion loop with one if and only if it waits and every spotless session ahead of it leaves one free |
| BusyRelease.SettledWinsSpotBack | relay/queue.py:261-274 | In a settled queue that means: it waits and no spotless session waits ahead of it |
| BusyRelease.InFlightIsBounded | relay/queue.py:203-274 | Over runs without sharing and without a release that leaves a busy session spotless, every session in flight owns a spot and at most `max_spots` sessions run; unless a release overfills a session, each has at most `max(1, cap)` requests (cap 0 included) and the total is at most `max_spots * max(1, cap)` |
| SpotWitnesses.BusyReleaseHidesRequest | relay/queue.py:261-274 | A run without sharing after which a request is in flight and the queue reports no activity |
| SpotWitnesses.SharingHidesRequest | relay/queue.py:196-201 | The same for a run that never releases a busy session by hand but shares a spot |
| SpotWitnesses.BusyReleaseBreaksCap | relay/queue.py:261-274 | A run without sharing in which a release by hand gives a session with cap one a second request in flight, while every session in flight owns a spot |
| NoEarlySurrender.NeverFreedEarly | relay/queue.py:315-366 | After any run a tick frees a known session's spot only if the client does not freshly report busy or retry, and freshly reports "waiting", or freshly "idle" newer than its last request with the flag on, or expiry less the tick's lag has passed since its last request |
| NoEarlySurrender.FreedForAReason | relay/queue.py:315-366 | In any state of such a run, a session's turn in a tick frees a known session's spot only under those conditions |
| NoEarlySurrender.AtomKeepsTimed | relay/queue.py:395-409 | No countdown starts before the last request, up to the lag |
| TickDecisions.HolderFreedIff | relay/queue.py:315-414 | After any run, a tick frees a holder with nothing in flight that no promotion can touch if and only if: known client, no fresh busy or retry report, and a fresh waiting (or flagged, newer idle) report or the expiry counted down; unknown client, its deadline passed. Otherwise the spot stays |
| TickDecisions.HolderStatus | relay/queue.py:315-402 | The status such a holder is left with is its client's fresh report, idle without one, or the busy window's verdict, and the countdown runs exactly in idle and waiting, from where it started |
| TickDecisions.LostSpotsAreListed | relay/queue.py:394-414 | After any run, a tick lists only holders with nothing in flight, and every session that loses its spot in a tick is listed |
| TickDecisions.TickLeavesNoDeadRecord | relay/queue.py:410-413 | After a tick every record left holds a spot or has requests |
| TickDecisions.ManualReleaseDecides | relay/queue.py:261-274 | A release by hand forgets a holder without requests, keeps any other out of its countdown and with a spot only if promoted again, and leaves a session without a spot alone |
| SessionFields.LastRequestIsLatest | relay/queue.py:153-287 | In every reachable state `last_request_at` is the time at which the session's latest request arrived or ended |
| SessionFields.StepWrites | relay/queue.py:153-418 | No event but a request writes that time, none but a report the client's status and its time, none but the poller the shared spot; a new session starts without them |
| SessionFields.NoPromotionUnlessReady | relay/queue.py:215-222 | Only the probe changes readiness, and no event promotes anything on an endpoint that is not ready |
| SessionFields.OrderIsByAdmission | relay/queue.py:158-173 | The records stay in registration order: a new session goes last, every other event only takes records out |
| BoundedSurrender.KnownSpotIsSurrendered | relay/queue.py:387-414 | A known client's session left alone since t loses spot and record before t + 30 + expiry + 2 gap for ticks at most a gap apart, whatever other sessions do; a tick that was polling at t may still be stamped earlier |
| BoundedSurrender.TickFades | relay/queue.py:315-366 | A known session left alone and not yet due counts down from less than t + 30 + gap as soon as a tick is past t + 30, whatever its last report |
| BoundedSurrender.UnknownSpotIsSurrendered | relay/queue.py:364-366 | An unknown client's quiet session is gone if and only if a tick has reached last_request_at + max(busy_window, expiry) |
| BoundedSurrender.StepOnQuiet | relay/queue.py:387-414 | Any event of other sessions leaves a quiet session and its spot as they are; a tick does to it what its own turn does |
| BoundedSurrender.StaysGone | relay/queue.py:376-385 | Once forgotten a session does not come back without a request |
| Lifecycle.NextKeeps | relay/endpoints.py:698-726 | Every interleaved move of callers and background events keeps phases, queue, log and calls consistent |
| Lifecycle.ExactlyOnce | relay/endpoints.py:698-726 | Every finished caller made exactly one call: a release if and only if its request was promoted, an abandon if and only if it never was; unfinished callers made none |
| Lifecycle.NothingLeftBehind | relay/queue.py:289-311 | When all callers have returned, the queue is empty and every in-flight counter is zero |
| WebSocketSpots.CapacityWithWebSockets | relay/endpoints.py:597-641 | Over all HTTP and WebSocket steps, stale session objects included, at most `max_spots` spots; atomic mode still keeps one queued request in flight |
| WebSocketSpots.WsStepKeepsBooks | relay/endpoints.py:613-641 | Each of those steps keeps the accounting, with the open connections counted in `inflight` |
| WebSocketSpots.TakeIff | relay/endpoints.py:613-626 | A connection starts exactly when its session is on a spot or one is free, takes a spot only when on none, and is counted once |
| WebSocketSpots.GiveFreesSpot | relay/endpoints.py:634-641 | Closing it undoes the count, gives the session's own spot away and leaves nobody waiting who could have it |
| SafePowerOff.OffCutsNoRequest | relay/servers.py:333-440 | An automatic power-off happens with no request waiting, no spot held and no unqueued forward on any endpoint; and in every interleaved run without sharing and without a release that leaves a busy session spotless, with no request in flight either |
| SafePowerOff.OffCanCutRequest | relay/servers.py:414-440 | Both hypotheses are needed: a run from boot for each in which the idle pass powers off under a request in flight |
| SafePowerOff.IdlePassDecides | relay/servers.py:414-443 | The idle pass powers off if and only if nothing is visible on any endpoint, the backend reports ON, the server is owned, auto-off is on and the idle time exceeds the timeout |
| SafePowerOff.SiteStepKeepsInv | relay/servers.py:333-335 | Queue, forward and server steps interleave without breaking the queue invariants |
| ServerRuns.AutomaticOffsAreLawful | relay/servers.py:167-239 | Every automatic power-off, restarts included, follows an accepted power-on or an adoption with no accepted power-off since, with the switch on or, where it is not set, auto-off configured, ON reported and no activity |
| ServerMemory.OwnershipAndSwitchAreExact | relay/servers.py:100-259 | In every run with stored writes, reconciled restarts included, the server is owned, in memory and in the row, if and only if an accepted power-on or adoption has not been followed by an accepted power-off; the switch is the latest toggle since the last accepted power-on; and every automatic power-off had that switch on or, unset, auto-off configured |
| ServerMemory.NoSwitchNoOff | relay/servers.py:101-105 | With auto-off not configured and never toggled, no run, whatever restarts and lost writes, has an automatic power-off |
| ServerMemory.MemoryIsRecall | relay/servers.py:159-259 | Until the next restart ownership, switch, cycle, idle clock and wake-up stamp are exactly what the log of actions tells, whatever became of the writes |
| ServerMemory.CronIsRecall | relay/servers.py:366-412 | Until the next restart the cron mark is the latest fire seen since the baseline, and an off is deferred exactly while a fire is owed and every pass since saw activity |
| ServerMemory.PowerIsLatestReading | relay/servers.py:122-158 | Until the next restart the power state is the latest poll, ready service or startup reading |
| ServerMemory.IdleOffIff | relay/servers.py:414-443 | After any run an idle pass powers off if and only if it sees no activity and ON, and by the log the server is owned, auto-off is on and the idle time exceeds the timeout |
| ServerMemory.ScheduleOffIff | relay/servers.py:337-412 | After any run a cron pass powers off if and only if it sees no activity and ON, a fire is owed, and by the log the server is owned and auto-off on |
| ServerMemory.DeferredOffIsIssued | relay/servers.py:376-396 | A fire seen while active is not lost: the first pass after it without activity issues the off if it may |
| ServerMemory.WakeIff | relay/servers.py:159-165 | A wake-up is issued if and only if more than a cooldown has passed since the last one issued |
| ServerMemory.AdoptIff | relay/servers.py:225-239 | Routed traffic adopts if and only if so configured and the server is not owned |
| ServerMemory.NeverAdopts | relay/servers.py:233 | With adoption not configured no run, restarts included, adopts |
| ServerRuns.StepProvenanceIff | relay/servers.py:109-120 | An event keeps that provenance, in memory and in the row, if and only if it does not lose the write that ends a recorded ownership |
| ServerRuns.OffStoredIffLawful | relay/servers.py:202-212 | The hypothesis is exact for runs: an event stores the end of a recorded ownership if and only if every continuation that does so too issues lawful power-offs only |
| ServerRuns.LostOffComesBack | relay/servers.py:109-120 | From every state whose row still claims an ownership that has ended, a restart and an idle pass issue an unlawful power-off |
| ServerRuns.LostWriteBreaksProvenance | relay/servers.py:202-212 | A four-event run with that one write lost, after which an unowned server is powered off |
| ServerTheorems.CronOffsArePaid | relay/servers.py:366-412 | From the first pass after any boot and for any wall clock readings, backward ones too: the scheduled offs issued since plus a pending deferral are at most the cron fires since the baseline |
| ServerTheorems.RunKeepsCronPaid | relay/servers.py:366-412 | The cron mark never moves back |
| ServerTheorems.WakesAreRateLimited | relay/servers.py:159-165 | From any state to the next restart, any k consecutive request-driven power-ons span more than (k - 1) cooldowns, whoever asks for them, and the first comes more than a cooldown after the last attempt |
| ServerTheorems.IdleOffsAreApart | relay/servers.py:414-443 | An idle power-off comes more than idle_timeout after every earlier idle power-off, routed request and pass that saw activity |
| ServerTheorems.StepKeepsMirror | relay/servers.py:177-259 | A stored write leaves the row equal to owned, override, cycle and power state after every operation |
| ServerTheorems.RestoreUndoesPersist | relay/servers.py:109-120 | After any run with stored writes a restart brings those four back as they were |
| ServerTheorems.MemoryIgnoresStore | relay/store.py:312-322 | Between restarts, two runs with the same inputs and different write outcomes agree in memory and in all requests to the backend |
| RequestLog.RequestsAreConserved | relay/store.py:407-455 | For any mix of stagings and flushes: enqueued = inserted + dropped + in the open batch + buffered; dropped is exactly what a buffer of 10 000 shed plus the batches whose transaction failed, so with neither all records are there in order; the buffer is bounded and holds the latest records; rows, batch and buffer are in staging order |
| SharedSpots.ResolveSharedSpot | relay/clients.py:298-316 | The loop returns the live own spot, else live shared spot, else key of the nearest tracked ancestor along resolved non-repeating parents within the depth, and None exactly when there is none |
| SharedSpots.AnswerIsUnique | relay/clients.py:298-316 | That specification has one answer |
| SharedSpots.ChainIsShort | relay/clients.py:299-305 | A walk visits each cached session at most once |
| SharedSpots.DepthDoesNotMatter | relay/clients.py:300 | Any depth from the number of cached sessions on answers like an unbounded walk, on cyclic parent maps too |
| EndpointQueues.EndpointQueue.constructor | relay/queue.py:121-149 | A new queue is empty and not ready, with at least one spot |
| EndpointQueues.EndpointQueue.SpotKeyOf | relay/queue.py:190-201 | Looks at the object's fields and finds the modelled spot |
| EndpointQueues.EndpointQueue.CanRun | relay/queue.py:203-213 | An entry may run exactly when none of the three reasons to wait holds |
| EndpointQueues.EndpointQueue.NextTarget | relay/queue.py:223-229 | The scan loop finds the first eligible entry |
| EndpointQueues.EndpointQueue.Promote | relay/queue.py:230-248 | Moving one entry to running has the modelled effect on all sessions and keeps one session object per key |
| EndpointQueues.EndpointQueue.TryPromote | relay/queue.py:215-248 | The restarting loop does what the model's loop does and terminates |
| EndpointQueues.EndpointQueue.GetOrCreateSession | relay/queue.py:153-179 | The dictionary's object is returned and revived, or a fresh one added |
| EndpointQueues.EndpointQueue.Enqueue | relay/queue.py:183-188 | Appends, counts and promotes as modelled |
| EndpointQueues.EndpointQueue.Abandon | relay/queue.py:250-259 | Drops a waiting entry; leaves a promoted one alone |
| EndpointQueues.EndpointQueue.Release | relay/queue.py:276-287 | Finishes a running request and promotes as modelled |
| EndpointQueues.EndpointQueue.ReleaseSession | relay/queue.py:261-274 | Surrenders by hand; true exactly when the session held a spot |
| EndpointQueues.EndpointQueue.ReleaseSpot | relay/queue.py:376-385 | Frees the spot, forgets the record only without requests, promotes |
| EndpointQueues.EndpointQueue.RefreshSession | relay/queue.py:395-402 | In flight is busy, a known client's fresh report is taken over and a stale one means idle, an unknown client is busy within its window; the countdown is kept or started in idle and waiting and stopped otherwise; no other session changes |
| EndpointQueues.EndpointQueue.TickSession | relay/queue.py:395-413 | A session's turn in a tick, with its nested promotions, has the modelled effect |
| EndpointQueues.EndpointQueue.Tick | relay/queue.py:387-414 | The loop over the snapshot, mutating the dictionary it was taken from, has the modelled effect and returns exactly the keys whose spot it freed |
| EndpointQueues.EndpointQueue.HasActivity | relay/queue.py:416-418 | True exactly when something waits or a spot is held |
| EndpointQueues.EndpointQueue.UniqueTicket | relay/queue.py:250-254 | `done` is set exactly for promoted entries, and an entry object occurs once |
| EndpointQueues.EndpointQueue.SetShared | relay/endpoints.py:334-345 | The poller's write changes that session's shared spot only |
| EndpointQueues.EndpointQueue.ApplyReport | relay/endpoints.py:354-386 | A status report changes that session's report and its time only |
| Runtimes.EndpointRuntime.GiveUp | relay/endpoints.py:698-707 | A caller that lost the race releases, any other abandons; the queue stays valid |
| Runtimes.EndpointRuntime.ManagerTick | relay/endpoints.py:392-417 | Steps 2 and 3 settle the queue and ask for a wake-up exactly when requests wait on an unready endpoint of a server not known to be on |
| Runtimes.ServerRuntime.Restore | relay/servers.py:109-120 | Restores owned, override, cycle and power state from a row |
| Runtimes.ServerRuntime.HasActivity | relay/servers.py:333-335 | True exactly when some endpoint is active |
| Runtimes.ServerRuntime.SyncState | relay/servers.py:122-143 | A ready endpoint implies ON; the state is always written |
| Runtimes.ServerRuntime.PowerOn | relay/servers.py:167-200 | Acceptance takes ownership, resets the override, starts the given cycle and persists the three; refusal changes nothing |
| Runtimes.ServerRuntime.MaybePowerOn | relay/servers.py:159-165 | Issues only past the cooldown and stamps even a refused attempt |
| Runtimes.ServerRuntime.PowerOff | relay/servers.py:202-223 | Acceptance ends ownership and persists that |
| Runtimes.ServerRuntime.OnRoutedTraffic | relay/servers.py:225-239 | Restarts the idle clock; adopts an unowned server if configured, keeping a running cycle |
| Runtimes.ServerRuntime.NotePower | relay/servers.py:295-313 | Only a changed state is applied and persisted |
| Runtimes.ServerRuntime.SetShutdownOverride | relay/servers.py:250-259 | Sets and persists the override |
| Runtimes.ServerRuntime.ScheduleOffTick | relay/servers.py:366-412 | A cron pass issues an off exactly when scheduled, without activity, with a fire owed, owned, auto-off on by switch or configuration, and ON; its memory changes as modelled |
| Runtimes.ServerRuntime.IdleOffTick | relay/servers.py:414-443 | An idle pass issues an off exactly when without activity, ON, owned, auto-off on by switch or configuration, and past the timeout; its memory changes as modelled |
| Stores.Store.SetServerRuntime | relay/store.py:288-322 | Updates exactly the named fields of an existing row; a failed write changes no row and is counted |
| Stores.Store.ReconcileServers | relay/store.py:242-284 | Missing rows are created, existing ones returned unchanged, others kept; on failure nothing changes and every server starts unowned |
| Stores.Store.NoteWrite | relay/store.py:151-173 | Degraded exactly after a dropped write, each one counted |
| Stores.Store.EnqueueRequest | relay/store.py:407-414 | Appends the record; a buffer of 10 000 sheds its oldest record, which is counted |
| Stores.Store.FlushRequests | relay/store.py:416-455 | A stored write inserts the whole buffer in order and returns its size; a failed one drops and counts all of it |

## Hypotheses that are part of the results

* The in-flight bounds and "no request is cut off" need runs without spot sharing and without a
  manual release that leaves a busy session spotless; the cap bound needs that no release by hand
  overfills a session. `StepKeepsOwnIff` shows that without sharing these are exactly the events
  that break the bounds, in conditions on the state before the event. `PromotionKeepsIff` says
  which promotions break ownership when spots are shared. `SpotWitnesses` and `OffCanCutRequest`
  show runs in which each hypothesis fails.
* Ownership provenance needs the write that ends a recorded ownership to be stored, and exactly
  that (`StepProvenanceIff`, `OffStoredIffLawful`).
* Across restarts, that memory follows the log exactly (`OwnershipAndSwitchAreExact`) needs stored
  writes and reconciled restarts; between restarts it needs neither (`MemoryIsRecall`).
* `HolderFreedIff` needs tick stamps that do not decrease, and speaks of holders that no promotion
  in the same tick can set running; `LostSpotsAreListed` and `NeverFreedEarly` speak of all.
* The cooldown stamp starts at 0.0 and a restart resets it, so the rate of wake-ups is bounded
  between restarts, and cron offs are counted from the first scheduler pass after each boot.
* `relay/scheduler.py:35-37` says "at or before"; the library call it makes answers strictly
  before. The cron theorem holds for both: it needs only a fire not after the reading.

## Left out

- Registering a session and enqueueing its request are one step; the program awaits a store write
  between them (relay/endpoints.py:681), in which a tick may forget the session.
- The manager tick and the shutdown passes are one step each; the program awaits the backend, the
  probe and the store in the middle.
- WebSocketSpots.CapacityWithWebSockets: connections are modelled on values, not as methods of the
  class, and only for the spot bound and the accounting, because they raise `inflight` without
  `inflight_total`, so the class invariant of queued HTTP traffic does not cover them.
- Lifecycle.ExactlyOnce: cancellation of a caller's task is not modelled; every caller returns on
  its own.
- Abandoning an entry a second time after it left the queue is not modelled; no caller does it.
- The times at which spots were acquired, their display order, `last_path`, status details, the
  client's address and agent, creation times, release reasons and log messages.
- The transient display state of a server, power-event rows, endpoint and session-history rows.
- RequestLog.RequestsAreConserved: errors that are raised rather than noted, and a flush cancelled
  in the middle, are not modelled; one batch is settled before the next is taken.
- HTTP and SSE forwarding, WebSocket frame pumps, the monitor page, the backend's own protocol.
- The status poller: its reports and recomputed shared spots are arbitrary events.
- Cron parsing: the fires are an arbitrary set of instants.
- Configuration, session-id matching, routing, the unknown-traffic tracker and snapshots.
