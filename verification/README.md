# Archive-At-Home: leases, collapsing, billing

A Dafny model of the server's task protocol and of the worker node's connection and claiming logic, with proofs
of what the protocol keeps over every run.

The server turns an HTTP request for a gallery archive into a task that volunteer nodes compete for. Redis holds
the tasks, one sentinel per user and gallery that lets identical requests collapse into one task, a per-user result
cache and a pending list; a watchdog goroutine reclaims tasks whose lease runs low. A database holds GP balances,
the amounts frozen for tasks under way, and an append-only ledger. Each request is a goroutine that publishes or
collapses, freezes its estimate, announces the work, waits on a channel, and settles or refunds.

## How the model is built

- `TaskStore` gives each Lua script, and the plain `HSET` of UpdateTaskCost, as a function on typed maps with
  deadlines, a queue with duplicates and a clock in whole seconds. `Redis`, `Representation` and `RedisScheduler`
  give the same scripts imperatively, command by command, over one flat string keyspace with `EXPIRE`, `LREM` and
  `RPUSH`, and prove every method equal to its function.
- `SchedulerMachine` lets any caller run any script at any moment, while the watchdog advances one Redis round trip
  at a time and the clock ticks. A step that cannot be taken leaves the state alone, so every list of steps is a run.
  `History` logs the scripts that took effect; its per-trace automaton (waiting, leased, done) mentions no Redis.
  `TaskHistory` tells every hash and every reply from that log and the time alone.
- `GalleryMachine` adds any number of ParseGallery requests, each with a program counter and its local variables,
  HandleTaskResult goroutines, deliveries that run outside the lock, and the ledger. `GalleryService.Server` is the
  code itself over the Redis class, the balance class and the waiter map: each atomic section is proved to be one
  step of the machine, so a Server object's whole life is one of its runs and every theorem about runs holds of it.
  What Redis, the network, the database and the hub answer a request is an argument (`Answers`); deposits, fetches by
  nodes, the clock and the watchdog are methods of the same class.
- `CollapseSafety` and `CollapseSync` say what an existing sentinel promises; `LeaseTiming` what the watchdog
  guarantees with scans in one piece, `ScanReading` and `ScanTiming` what it reads and guarantees with everything else
  running between its round trips.
- `GalleryMoney`, `GalleryBooks`, `GalleryAccounts` and `GalleryReleases` follow the GP, with every transaction free to
  fail. `GalleryContexts` adds what decides that in the code: the one context a request makes all its calls on.
- `GalleryCache`, `GalleryOffers`, `GalleryCash`, `GalleryReplies` and `GalleryFailures` say from the outside, by the
  log, the requests and the steps of a run, when publishing answers from the cache, what a node that claims a task is
  told, where every GP comes from and goes to, what a request answers and why, and who causes failures.
- `Ledger` and `BalanceService`, `ResultWaiter` (slices shifted in place in shared arrays; `WaiterNames` ties them to
  the server machine), `NodeClient` (the reconnect machine and its class, which keeps the list of its steps) and
  `ClaimDelay` stand for the files they are named after.

Facts taken from the surroundings: trace ids are fresh uuids; user ids are uuids and so contain no colon; the lease
and the cache lifetime are at least one second; a resolved estimate is at least 1 GP; deposits are not negative.

## Where the code and its comments differ

The model follows the code.

- `server/internal/scheduler/lua.go:189-191` says that a sentinel never outlives its task's hash and so guarantees a
  live task. A PENDING hash lives three leases and its sentinel two, so a later request can create a second task, and
  claiming the first one then renews the sentinel that names the second. `CollapseCanNameADeadTask` is such a run.
  The claim holds throughout a run iff no fetch of a PENDING task finds its slot's sentinel naming another task that
  expires before the new lease (`SyncedIffNoLateFetch`), and the deadlines it speaks of are what keeps sentinels
  truthful while time passes, no more and no less (`AliveThroughTimeIff`). The stronger bijection of sentinels and
  live tasks has its own condition (`OneToOneIffPrompt`).
- `server/internal/service/gallery.go:144-149` refunds after a failed setup "if balance was frozen". A FreezeGP that
  fails for another reason than want of balance (lines 69-71) is refunded too, though nothing was frozen.
  `SetupRefundsIffFrozen` shows this to be the guard's only wrong case and `UnfundedRefund` what such a refund does. A
  user's account agrees with the ledger throughout a run iff no such refund of that user's commits
  (`AccountAgreesIffFunded`); and where a call fails only because its context has ended, none does
  (`ContextsFundRefunds`).
- `server/internal/service/gallery.go:107-216` makes every call on one context, the refunds after a failed setup, a
  failed task, a timeout or a cancellation included. Where calls fail only because that context has ended, GP stays
  frozen for good iff it was frozen when the context ended (`StrandedIff`): during the setup, at the select, or after a
  result was received.
- `server/internal/handler/handler.go:84` gives that context the same duration as the timer at
  `server/internal/service/gallery.go:208`, but starts it earlier. So when the timer fires the context has ended
  (`TimerFindsContextEnded`), neither the refund "for timeout" nor the one "on cancellation" can commit
  (`UnansweredCreatorsStrand`), and a request strands its GP iff that was still frozen when its time was up
  (`LateCreatorsStrandIff`).
- `server/internal/scheduler/scheduler.go:138-140` says a PENDING task is failed with an empty node id. The script
  accepts any node id, so any report on a waiting task fails it, a success included (`ReportOutcome`); a node whose
  lease was reclaimed fails the task by reporting its success (`LateSuccessFailsItsTask`).
- `server/internal/scheduler/scheduler.go:213-216` says that reclaiming clears the collapse key; the script sets it.
- `server/internal/scheduler/scheduler.go:229-230` collects all ids first to avoid index shifting. That covers the watchdog's
  own removals; a completion in between still shifts the list (`InterruptedScanMisses`). A scan of the whole queue
  misses a trace iff every entry of it slid under the index that way (`ScanMissesIff`).
- `node/internal/ws/client.go:157-158` says that Close is permanent. A dial in flight, or a loop past its check, can
  still install a connection afterwards (`CloseIsPermanentIff`).
- `node/internal/ws/client.go:111-124` reconnects by itself after a drop, but a failed manual Reconnect leaves neither
  a connection nor a loop (`RecoveryEndsIff`, `FailedReconnectStaysOffline`).

## Model

| member | source | states |
|---|---|---|
| RedisScheduler.Scheduler.PublishTask | server/internal/scheduler/lua.go:171-218 | Over the flat keyspace, publishing answers from the cache, collapses, or creates hash, sentinel and queue entry with TTLs 3L and 2L, exactly as the typed script says; the database goes on representing the typed store |
| RedisScheduler.Scheduler.FetchTask | server/internal/scheduler/lua.go:18-46 | Claims exactly a PENDING task, sets both TTLs to L through the key stored in the hash, and returns the gallery |
| RedisScheduler.Scheduler.CompleteTask | server/internal/scheduler/lua.go:58-94 | OK only for a PROCESSING task of that node; then status, cache, sentinel and every queue entry change, following the stored keys, and nothing else |
| RedisScheduler.Scheduler.FinalizeTask | server/internal/scheduler/lua.go:104-152 | All five replies of the fail script, in both modes, with the new store |
| RedisScheduler.Scheduler.ReclaimTask | server/internal/scheduler/lua.go:233-259 | Only a PROCESSING task goes back to PENDING, is queued once more, and gets its sentinel set |
| RedisScheduler.Scheduler.UpdateTaskCost | server/internal/scheduler/scheduler.go:174-183 | Writes two fields; on an expired hash it makes one without status or TTL |
| RedisScheduler.Scheduler.PassSecond | server/internal/scheduler/lua.go:35-41 | Expiry of flat keys and expiry of tasks, sentinels and cache entries agree |
| RedisScheduler.Scheduler.ReclaimExpiredTasks | server/internal/scheduler/scheduler.go:217-276 | The two loops over LINDEX and over the collected ids compute the scan function in one uninterrupted pass |
| Representation.TaskWritten | server/internal/model/model.go:23-38 | Writing a task key leaves every other typed entry of the flat keyspace as it was |
| Keys.ParseInvertsBuilders | server/internal/model/model.go:23-38 | One parser undoes all key builders for colon-free users: they are injective with disjoint ranges, apart from the queue key |
| Keys.SharedCacheKeyIff | server/internal/model/model.go:23-25 | Two users can share a cache key iff one id continues the other past a colon; never when both are colon-free |
| WatchdogPass.PassComputesScan | server/internal/scheduler/scheduler.go:217-276 | The watchdog's round trips, back to back, give the scanned prefix without status-less ids, then the rest, then each reclaimed trace once in first-occurrence order |
| WatchdogPass.ReclaimEachEffect | server/internal/scheduler/lua.go:233-259 | Reclaiming distinct traces rewrites exactly those tasks and appends exactly those entries |
| WatchdogPass.PassByTrace | server/internal/scheduler/scheduler.go:217-276 | Trace by trace: of the first hundred entries a pass drops those of a trace without status, reclaims and queues once more each trace whose lease runs low, and leaves all else |
| LeaseSafety.NextKeepsSafe | server/internal/scheduler/lua.go:18-259 | Every step keeps the store, the log, the lease automaton, the cache and the queue in agreement, with no timing assumption |
| LeaseSafety.RunsAreSafe | server/internal/scheduler/scheduler.go:197-276 | That agreement holds in every state of every interleaving |
| SchedulerTheorems.LeasesAreExclusive | server/internal/scheduler/lua.go:23-33 | Fetches of a trace are at most one more than its reclaims, and between two of them lies a reclaim |
| SchedulerTheorems.OnlyTheHolderCompletes | server/internal/scheduler/lua.go:65-73 | An accepted completion comes from the node of the latest fetch, with nothing about the trace in between |
| SchedulerTheorems.FinalisedForGood | server/internal/scheduler/lua.go:58-152 | A trace is completed, failed or rejected at most once and is never live or queued again, even if UpdateTaskCost recreates its hash |
| SchedulerTheorems.QueueMultiplicity | server/internal/scheduler/lua.go:214-215 | A live trace is queued once, and once more per reclaim |
| SchedulerTheorems.CacheIsLatestCompletion | server/internal/scheduler/lua.go:80-85 | The cache entry of a slot is the URL of the latest completion of a task published for it while younger than the cache lifetime, and is absent otherwise |
| TaskHistory.StatusFollowsHistory | server/internal/scheduler/lua.go:18-259 | In every state of every run there is a hash with a status iff the time its trace's latest event gave it is not over (three leases after publishing or reclaiming, one after a fetch, 300 seconds after a completion or failure, none after a rejection), and its status, deadline and node are those of that event |
| TaskHistory.FetchesIff | server/internal/scheduler/lua.go:23-33 | A fetch goes through iff the latest event is a publication or reclaim less than three leases old; otherwise it changes nothing |
| TaskHistory.CompletesIff | server/internal/scheduler/lua.go:58-94 | A completion goes through iff the latest event is this node's own fetch less than a lease ago; otherwise it changes nothing |
| TaskHistory.FailsIff | server/internal/scheduler/lua.go:104-152 | A failure or rejection goes through iff the task can be claimed or its (named) sender holds the lease; otherwise it changes nothing |
| TaskHistory.RefusalsTell | server/internal/scheduler/lua.go:58-133 | Each refusal of the complete and fail scripts tells, both ways, where the trace stands: with another node, unnamed, over, or gone |
| TaskHistory.RejectedIsGone | server/internal/scheduler/lua.go:143-149 | In every run a hash says FAILED only if a runtime failure of its trace is on the log; once a rejection is, the trace has no status for good and finalising it again finds it gone |
| TaskHistory.WatchdogActsIff | server/internal/scheduler/scheduler.go:246-272 | A checked entry is reclaimed iff it is leased with less than half the lease left, dropped iff its trace has no status, and the reclaim goes through iff it is still leased |
| CollapseSafety.OneToOneIffPrompt | server/internal/scheduler/lua.go:189-212 | Over any run sentinels and live tasks are in bijection, deadlines included, iff no task is ever left PENDING for two leases |
| CollapseSafety.PromptRunsCollapseSoundly | server/internal/scheduler/lua.go:189-212 | What the bijection gives on prompt runs: a slot has at most one live task, COLLAPSED names it, and CREATED means there was none |
| CollapseSync.NextSyncedIff | server/internal/scheduler/lua.go:35-41 | From a store in which every sentinel names a live task of its slot and expires no later, a step leads to another such store iff it is not a late fetch: one of a PENDING task whose slot's sentinel names another task expiring before the new lease |
| CollapseSync.SyncedIffNoLateFetch | server/internal/scheduler/lua.go:189-191 | The comment's claim about sentinels and hashes holds in every state of a run iff no step of it is a late fetch |
| CollapseSync.CollapsesNameLiveTasks | server/internal/scheduler/lua.go:192-195 | After a run without late fetches a COLLAPSED reply always names a live task of the requested slot |
| CollapseSync.AliveThroughTimeIff | server/internal/scheduler/lua.go:189-191 | While nothing but time passes, every sentinel goes on naming a live task of its slot iff none expires after its task |
| CollapseLimits.CollapseCanNameADeadTask | server/internal/scheduler/lua.go:189-195 | For every lease of two seconds or more, a run after which publishing collapses into a trace whose hash is gone |
| LeaseTiming.NothingLostIff | server/internal/scheduler/scheduler.go:240-262 | With uninterrupted scans at most p seconds apart that see the whole queue, no PROCESSING hash ever expires iff p is below half the lease |
| LeaseTiming.TimelyScansLoseNothing | server/internal/scheduler/scheduler.go:197-276 | The safety half, for every run |
| LeaseTiming.SlowScansLoseALease | server/internal/scheduler/scheduler.go:240-241 | The other half: a timely run that loses a task its node is still working on |
| WatchdogLimits.InterruptedScanMisses | server/internal/scheduler/scheduler.go:229-238 | For every lease of four seconds or more, a run in which a completion of a trace already read, between two index reads, makes a whole scan pass over a task whose lease is running low; ScanMissesIff gives the exact condition |
| ScanReading.CleanScanCollects | server/internal/scheduler/scheduler.go:217-238 | In any interleaving, a scan under which no trace it had already read was completed or failed reads all that is left of what it found at its LLEN, in place and first |
| ScanReading.ScanCollectsIff | server/internal/scheduler/scheduler.go:229-238 | A scan that found the whole queue goes on to check exactly what it found iff nothing of it was completed or failed while an entry was still unread |
| ScanReading.ScanMissesIff | server/internal/scheduler/scheduler.go:229-238 | Such a scan reads of every trace still queued as many entries as there were less those that slid under its index, so it misses the trace iff they all slid |
| ScanReading.CleanMissesNone | server/internal/scheduler/scheduler.go:229-238 | A clean scan of the whole queue misses no trace, so it is one of those the timing result counts |
| ScanTiming.CoveredScansLoseNothing | server/internal/scheduler/scheduler.go:197-276 | If at every moment the last finished scan of a whole queue that missed no trace began at most p seconds ago, with p below half the lease, no PROCESSING hash expires, whatever runs between the watchdog's round trips |
| ScanTiming.NothingLostIffCovered | server/internal/scheduler/scheduler.go:240-262 | That bound is exact: interleaved scans lose nothing on every run so covered iff p is below half the lease |
| ScanTiming.TimelyIsCovered | server/internal/scheduler/scheduler.go:197-215 | Uninterrupted scans of whole queues are a special case |
| History.ReclaimBetweenFetches | server/internal/scheduler/lua.go:23-33 | In any lawful log two fetches of one trace are separated by a reclaim |
| History.FetchesWithinReclaims | server/internal/scheduler/lua.go:233-259 | Counting form of exclusivity, with the lease held exactly when fetches are ahead |
| Ledger.DepositAddsItsAmount | server/internal/balance/service.go:63-92 | A deposit adds exactly its amount to the balance and to what can be spent, in one DEPOSIT line, and touches nobody else |
| Ledger.DepositKeepsBalanced | server/internal/balance/service.go:63-92 | A deposit keeps the books balanced iff the frozen amount stays covered |
| Ledger.FreezesIffAffordable | server/internal/balance/service.go:95-129 | An account that agrees with the ledger freezes an amount iff its ledger adds up to that or more, and then has that much less to spend, in one FREEZE line; else nothing changes |
| Ledger.FreezeKeepsBalanced | server/internal/balance/service.go:95-129 | A freeze under a new trace keeps the books balanced and adds exactly that hold |
| Ledger.SettleKeepsBalanced | server/internal/balance/service.go:132-183 | Settling a held amount keeps every account equal to its ledger and turns the hold into a charge |
| Ledger.RefundKeepsBalanced | server/internal/balance/service.go:186-222 | Refunding a held amount does the same and turns the hold into a refund |
| Ledger.UnfundedRefund | server/internal/balance/service.go:186-222 | Refunding a trace that froze nothing frees as much of the user's other holds as there is frozen, leaves those holds uncovered, puts the account at odds with the ledger and breaks the trace's order, and past the clamp the ledger no longer replays to what is available |
| Ledger.UnfundedRefundSparesOthers | server/internal/balance/service.go:186-222 | Such a refund leaves every other user's account in agreement with the ledger |
| Ledger.HoldIsCovered | server/internal/balance/service.go:140-145 | In balanced books a held amount is at most the frozen total, so the reset to 0 does not fire |
| Ledger.OrderlyLines | server/internal/balance/service.go:147-171 | The ledger lines of a trace are exactly those of its hold: a freeze, then at most one charge or one refund of the same amount |
| Ledger.BalanceAfterAt | server/internal/balance/balance.go:42-51 | Every entry's balance_after is the running sum of deposits and deductions up to it |
| BalanceService.Service.Deposit | server/internal/balance/service.go:63-92 | The imperative code, from fetched row to saved row and ledger entry, credits and records exactly the amount and changes no other user |
| BalanceService.Service.FreezeGP | server/internal/balance/service.go:95-129 | Told apart: a database error, too little available, and done; with an agreeing account done iff the amount is at most what the user's ledger adds up to; only that changes anything, by one freeze of the amount |
| BalanceService.Service.SettleTask | server/internal/balance/service.go:132-183 | Unfreezes and deducts the frozen amount, whatever the node reports, with both ledger entries, leaving what can be spent as it was; a rollback changes nothing |
| BalanceService.Service.RefundTask | server/internal/balance/service.go:186-222 | Unfreezes with its clamp, giving the amount back to spend and leaving the balance, with one entry; a rollback changes nothing |
| ResultWaiter.Waiter.Register | server/internal/ws/hub.go:32-39 | A fresh empty channel goes last in its trace's slice, in place or in a grown array; other traces keep theirs |
| ResultWaiter.Waiter.Unregister | server/internal/ws/hub.go:42-58 | The first occurrence of the channel leaves by an in-place shift, the rest keep their order, other traces are untouched |
| ResultWaiter.Waiter.Take | server/internal/ws/hub.go:61-65 | The locked half of Notify hands over exactly the registered channels and gives up their array; when nobody waits the arrays taken before are all there is |
| ResultWaiter.Waiter.Notify | server/internal/ws/hub.go:61-73 | Exactly the registered channels get the result, unless already full, and none stays registered |
| ResultWaiter.Waiter.TakenSliceIsStable | server/internal/ws/hub.go:42-73 | No Register or Unregister alters a slice that a Notify is still walking |
| WaiterNames.NamedWaiter.Register | server/internal/ws/hub.go:32-39 | Seen by the requests' names, the slices change as the server machine's waiters do on registering |
| WaiterNames.NamedWaiter.Unregister | server/internal/ws/hub.go:42-58 | The same for leaving: the name goes, and an empty entry with it |
| WaiterNames.NamedWaiter.Take | server/internal/ws/hub.go:61-65 | The slice Notify takes carries exactly the names with which the machine's delivery starts, in order |
| WaiterNames.NamedWaiter.Notify | server/internal/ws/hub.go:61-73 | Run through, every channel whose name waits for the trace is sent the result, and the entry is gone |
| GalleryService.Server.ParseGallery | server/internal/service/gallery.go:107-156 | From the answers of its surroundings, exactly how a request stands at the select or ends before it (cache hit, publish error, setup error), and exactly which steps of the machine it took, in the code's order |
| GalleryService.Server.SetupCreatedTask | server/internal/service/gallery.go:57-99 | Resolve, freeze, record, announce: which of the five failures is returned, the estimate, and exactly the steps taken |
| GalleryService.Server.AbandonTask | server/internal/service/gallery.go:133-151 | Reject, which Redis may not answer, notify the collapsed waiters, refund where the guard says so: exactly these steps of the machine |
| GalleryService.Server.Wait | server/internal/service/gallery.go:162-216 | Each outcome of the select releases what it should, gives the right reply and unregisters |
| GalleryService.Server.HandleTaskResult | server/internal/ws/hub.go:204-234 | Normalise, complete or fail or both, then notify: the steps taken and the new Redis store |
| GalleryService.Server.HandleFetchTask | server/internal/ws/hub.go:170-201 | A node is assigned a PENDING task, with the gallery and key of the request that created it, and told it is gone otherwise; the Redis store changes as the fetch script says and the step is the machine's |
| GalleryService.Server.ReclaimExpiredTasks | server/internal/scheduler/scheduler.go:217-276 | One firing of the watchdog on a running server is the machine's pass, whatever the server did before |
| GalleryService.Server.Deposit | server/internal/balance/service.go:63-92 | A deposit on a running server is the machine's step and keeps all its invariants |
| GalleryService.ReportOutcome | server/internal/ws/hub.go:208-230 | Exactly when a report completes its task, when it fails it, and when it changes nothing |
| GalleryRaces.SuccessFailsWaitingTask | server/internal/ws/hub.go:208-230 | In any run a waiting task is failed by a success report of any node |
| GalleryRaces.LateSuccessFailsItsTask | server/internal/ws/hub.go:208-230 | For every lease of four seconds or more, a run from the empty server in which a node fetches a task, loses its lease to the watchdog, and fails the task by reporting its success |
| GalleryService.Server.IsRight | server/internal/service/gallery.go:107-216 | Whatever was called on a Server, all the invariants of the machine hold of it |
| GalleryTheorems.ServerRunIsSchedulerRun | server/internal/service/gallery.go:107-216 | Seen from Redis every server run is a scheduler run, so every scheduler theorem holds of it |
| GalleryTheorems.AnswersStayWithTheirUser | server/internal/service/gallery.go:109-206 | Any URL a request answers with, cached, own or collapsed, was submitted in an accepted completion of a task published for the same user and gallery |
| GalleryCache.PublishHitsIff | server/internal/scheduler/lua.go:183-218 | In every run a request that publishes is answered at once with a URL iff it does not force a task and the latest completion of its slot is younger than the cache lifetime and carried that URL; otherwise it creates its task iff the slot has no sentinel, and else collapses |
| GalleryCache.ForcedIsNeverHit | server/internal/scheduler/lua.go:183-188 | No forced request is ever answered from the cache |
| GalleryCache.OnlyCreatorsPay | server/internal/service/gallery.go:131-160 | A request that was answered from the cache or collapsed leaves no line in the ledger |
| GalleryCache.FreshRepeatIsFree | server/internal/service/gallery.go:115-121 | An unforced request for a slot with a fresh completion is answered with its URL for good and leaves no line in the ledger |
| GalleryOffers.OffersAreTrue | server/internal/scheduler/scheduler.go:174-183 | In every state of every run a hash tells the cost its creator recorded, free flag and estimate, the estimate is the creator's own and recorded before it announced; while it has a status it tells the creator's user, gallery, key and force flag |
| GalleryOffers.ClaimsGetTheCreatorsGallery | server/internal/scheduler/lua.go:43-45 | The gallery and key a claim is answered with, and the cost announced for it, are those of the request that created the task |
| GalleryReplies.ReplyFollows | server/internal/service/gallery.go:133-214 | In every run the reply of a request that is over is what its deciding event makes of it: the received URL, at the estimate for the creator and free for the others; an error after a failed setup, a failure or the timer; the context's end |
| GalleryReplies.ChargedIffServed | server/internal/service/gallery.go:182-206 | A creator that is over, and whose GP is not left frozen, was charged its estimate iff it answers with a URL |
| GalleryReplies.WaitersAreToldTheReport | server/internal/ws/hub.go:204-234 | What a handler sends to all who then wait is the report it was given, marked a success iff the completion it asked for was accepted |
| GalleryReplies.InboxesHoldDeliveries | server/internal/ws/hub.go:66-73 | In every run a request's channel holds the very result of the delivery that reached it |
| GalleryReplies.CreatorsWaitForAnnounced | server/internal/service/gallery.go:57-99 | A creator at its select has announced its task, and whatever is announced was frozen for before |
| GalleryFailures.FailuresAreCaused | server/internal/service/gallery.go:133-137 | In every run each runtime failure on the log is a handler's, for the trace and node it was given, and each rejection is the creator's own after a failed setup: setup failures never count as runtime failures |
| GalleryFailures.GivingUpRemovesTheTask | server/internal/service/gallery.go:133-137 | A creator that gives up its setup and reaches Redis removes its hash and its queue entries if the task still waits |
| GalleryTheorems.OneReleasePerTrace | server/internal/service/gallery.go:131-216 | In every run a trace's ledger lines are one freeze and at most one release of exactly that amount, by its creator, and a charge implies an accepted completion whose URL is the creator's answer; a trace whose own failed freeze was refunded has that refund as its only line |
| GalleryTheorems.ReleasesAreCovered | server/internal/balance/service.go:132-222 | At every settlement and refund of something frozen the whole estimate is still held for that trace, and a settlement follows an accepted completion; unless a refund of a failed freeze of the same user's has committed it is also covered, so neither clamp is reachable |
| GalleryReleases.FrozenForeverIff | server/internal/service/gallery.go:145-213 | In general, whatever the database does: a request that is over has its estimate still frozen iff a release of its own was due and did not commit |
| GalleryContexts.StrandedIff | server/internal/service/gallery.go:107-216 | Where calls fail only because the request's context has ended: GP stays frozen for good iff the context ended while it was frozen and the request not over |
| GalleryContexts.GivingUpStrands | server/internal/service/gallery.go:169-215 | A creator whose context has ended while it waits strands its GP, whichever case of the select it then takes |
| GalleryContexts.TimerFindsContextEnded | server/internal/handler/handler.go:84 | The handler's context starts before the select's timer and lasts as long, so it has ended whenever the timer fires |
| GalleryContexts.LateCreatorsStrandIff | server/internal/handler/handler.go:84 | Called by the handler, a request strands its GP iff that was still frozen TaskWaitTimeout after its arrival |
| GalleryContexts.UnansweredCreatorsStrand | server/internal/service/gallery.go:208-214 | Called by the handler, every creator that leaves its select by the timer or by the context strands its GP: neither refund can commit |
| GalleryContexts.ContextsFundRefunds | server/internal/service/gallery.go:144-149 | Where calls fail only because the context has ended, no refund of a failed freeze ever commits, so all accounts and ledgers add up |
| GalleryLimits.CancellingStrands | server/internal/service/gallery.go:212-214 | Any run in which a creator waits goes on, by its context ending, to one in which its GP is frozen for good |
| GalleryLimits.SetupCutShortStrands | server/internal/service/gallery.go:74-149 | Any run in which a request has just frozen its estimate goes on, by its context ending, to an error reply with the GP frozen for good |
| GalleryTheorems.AccountsAddUp | server/internal/balance/balance.go:25-51 | In every run each balance and each balance_after is the sum of deposits and deductions; unless a refund of a failed freeze of this very user's commits, frozen equals what is held, 0 <= frozen <= balance, and available replays from the ledger |
| GalleryCash.BooksFollowSteps | server/internal/balance/service.go:63-222 | In every state of every run, counted from the steps and not from the books: a balance is the user's deposits less the estimates whose settlement committed, and the user's ledger adds up to the deposits less what was frozen plus what was given back |
| GalleryCash.FreezesIffSpendable | server/internal/balance/service.go:102-104 | In every run a freeze the database answers is accepted iff the estimate is at most what its user can spend, counted that way; else the request is told it has too little |
| GalleryAccounts.AccountAgreesIffFunded | server/internal/service/gallery.go:144-149 | A user's account agrees with the ledger in every state of a run iff no refund of a failed freeze of that user's commits, whatever befalls others |
| GalleryAccounts.NextFollowsAccount | server/internal/service/gallery.go:66-149 | From an agreeing account any step leads to an agreeing one iff it is not such a refund |
| GalleryAccounts.RunsKeepLines | server/internal/balance/service.go:95-222 | In every run a trace's lines are those of its hold, or the lone refund of its own failed freeze iff that committed |
| GalleryAccounts.RunsKeepCash | server/internal/balance/balance.go:42-51 | Balances and balance_after add up in every run, failed and unfunded refunds included |
| GalleryBooks.NextFollows | server/internal/service/gallery.go:66-149 | From balanced books any step of the server leads to balanced books iff it does not commit the refund of a failed freeze |
| GalleryBooks.BalancedIffFunded | server/internal/service/gallery.go:144-149 | Over any run the books stay balanced iff no refund of a failed freeze ever commits |
| GalleryLimits.FailedFreezeIsRefunded | server/internal/service/gallery.go:69-71 | Any run in which a request is about to freeze goes on to one that refunds its estimate though no freeze of it was made |
| GalleryLimits.BooksComeApart | server/internal/service/gallery.go:144-149 | A run from the empty server after which the books are not balanced |
| GalleryTheorems.SetupRefundsIffFrozen | server/internal/service/gallery.go:145-149 | The guard on the error and the estimate is right about whether the amount is frozen iff the setup did not fail in FreezeGP for another reason than want of balance |
| GalleryTheorems.EveryWaiterIsReachable | server/internal/ws/hub.go:32-73 | No channel is sent to twice and no send is dropped; an unserved request is either registered or in exactly one delivery |
| GalleryTheorems.CreatorHearsTheFirstResult | server/internal/service/gallery.go:125-169 | If nodes report only announced traces, the first Notify reaches the creator unless it has left, and a URL it answers with is that first result |
| GalleryTheorems.FirstNotifyFindsIff | server/internal/service/gallery.go:125-127 | In every run, the first Notify of a trace finds a request iff it has registered and not left |
| GalleryLimits.UnannouncedReportIsMissed | server/internal/ws/hub.go:61-73 | A run in which a report on an unannounced trace comes before Register and is lost to the creator |
| GalleryWaiters.NextKeepsWired | server/internal/ws/hub.go:32-73 | Every step keeps each channel in at most one place, under its own trace |
| GalleryTruth.NextKeepsSound | server/internal/service/gallery.go:107-216 | Every step keeps what requests, handlers and deliveries believe borne out by the log |
| GalleryMoney.NextKeepsRight | server/internal/service/gallery.go:107-216 | Every step, failed and unfunded refunds included, keeps each trace's hold in line with its request's place in ParseGallery |
| GalleryWakeup.NextKeepsAwake | server/internal/ws/hub.go:204-234 | Every step with honest reports keeps notified creators served with the first result |
| NodeClient.WsClient.OnDisconnect | node/internal/ws/client.go:103-126 | The disconnect closure is one step: cancel, clear if current, start a loop unless shutting down |
| NodeClient.WsClient.InstallConnection | node/internal/ws/client.go:79-90 | The locked section of connect is one step |
| NodeClient.WsClient.Reconnect | node/internal/ws/client.go:137-151 | The locked section of Reconnect, and the dial it starts, is one step |
| NodeClient.WsClient.Close | node/internal/ws/client.go:159-178 | Close is one step |
| NodeClient.WsClient.IsGood | node/internal/ws/client.go:70-178 | Whatever was called on a client object, in whatever order, it is consistent and has at most one loop that is not cancelled |
| NodeClient.AlwaysGood | node/internal/ws/client.go:70-178 | In every interleaving connected iff there is a connection, then no stopReconnect is pending, and at most one loop is not cancelled |
| NodeClient.SupersededForGood | node/internal/ws/client.go:103-126 | A superseded connection never becomes current again, and whenever its disconnect handler fires it changes no field and starts no loop |
| NodeClient.SoleKeptIff | node/internal/ws/client.go:82-91 | A connection is left running behind the current one iff a dial succeeds while still connected |
| NodeClient.RecoveryEndsIff | node/internal/ws/client.go:111-154 | A client that is coming back keeps coming back, except after Close with no dial, after its last dial fails with no loop behind it, or when it is shut down with neither connection nor dial |
| NodeClient.ShutdownIsFinalIff | node/internal/ws/client.go:103-126 | Shut down and left alone, the client makes no further connection iff no dial was in flight and no loop was past its check |
| NodeClient.AttemptsCountTries | node/internal/ws/client.go:278-288 | In every interleaving reconnectAttempts is how often a loop has gone on to wait since a connection was last made |
| NodeClient.FailedReconnectStaysOffline | node/internal/ws/client.go:137-155 | A run in which a failed manual Reconnect leaves the node offline |
| NodeClient.CloseIsPermanentIff | node/internal/ws/client.go:157-178 | Left alone the client stays closed iff no dial was in flight and no loop was past its check |
| ClaimDelay.ClaimsIff | node/internal/node/node.go:195-213 | A paid task is claimed iff that leaves the reserve of 1000 GP; a free-tier task iff it does or free quota is at hand, at once in that case and after two seconds otherwise |
| ClaimDelay.PaidClaims | node/internal/node/node.go:195-232 | Every affordable paid task is claimed after a delay within the base delay, never longer with more balance, none from the base upward; the division is always defined |
| ClaimDelay.QuarterHalfway | node/internal/node/node.go:225-229 | Halfway between the reserve and the base balance the exact delay is a quarter of the base delay |
| ClaimDelay.SlowestAtTheReserve | node/internal/node/node.go:219-232 | At the reserve the delay is the whole base delay |
| ClaimDelay.ExactIsConvex | node/internal/node/node.go:225-229 | Before truncation the delay is convex in the balance |

## Left out

- Redis and database failures: scripts and transactions are atomic steps that take effect or fail; every one that a request runs on its behalf may fail, but those of HandleTaskResult, of a fetch and of the watchdog do not.
- Lost replies: a script whose reply is lost after it took effect is not modelled, nor is a deposit's remark or a timestamp.
- Sub-second time: the clock ticks in whole seconds and keys vanish the moment they expire.
- The watchdog's pipelined TTL and HGET count as one round trip; connection errors in it, which the code reads as a missing task, do not occur.
- TimelyScansLoseNothing: passes are uninterrupted and see the whole queue; `CoveredScansLoseNothing` lifts the first, and neither claims anything of queue entries beyond the first 100.
- ScanMissesIff: speaks of scans that found the whole queue; of a longer queue only `CleanScanCollects` and half of `ScanCollectsIff` are claimed.
- ReclaimExpiredTasks: runs without interruption; the interleaved watchdog is the step machine in SchedulerMachine.
- ParseGallery: the imperative method runs one request without interruption up to the select; interleavings are those of GalleryMachine, whose steps are its sections.
- Channels in GalleryMachine and GalleryService are named by the request that made them; `WaiterNames` shows the slices with shared arrays to be such waiters, but Server does not hold them.
- A context that ends in the middle of a call: calls are atomic, and `GalleryContexts` decides each by whether its context has ended before it.
- HTTP handlers, authentication, signatures, templates, dashboards, the SQL task log and the scraping of gallery pages.
- Daily check-in limits, daily GP limits and re-announcing reclaimed tasks.
- WebSocket pumps, pings and buffers: a message may be lost, and a node may report anything at any time.
- The reconnect back-off times, floating-point rounding and integer overflow.
- The configured base claim delay is taken as non-negative.
- WRONGTYPE replies: one Redis key never holds two kinds of value, because the key builders' ranges are disjoint.
