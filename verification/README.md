# Verified model of the global mail backend

This project models the stateful protocols of the game-mail backend in Dafny and proves what they keep in every
interleaving, with faults and crashes. `dafny verify dfyconfig.toml` checks all of it.

Each protocol is a machine of atomic steps (one channel operation, mutex section or repository call each). A theorem
about it is about every run: every order of steps, every choice a `select` may take, every error with or without
effect, every crash between two steps. Where the program is code that updates tables or fields, there is also a class
with those tables or fields and the program's loops; it carries the run of the machine that explains its state, so the
theorems about runs are theorems about that code.

| Part | Files | Program |
|---|---|---|
| Per-role command queue over the idempotent dispatcher | `RequestQueue*.dfy`, `QueueIdempotence.dfy`, `QueueKeyClash.dfy`, `CommandDispatcher.dfy` | `app/playersrv/request_queue.go`, `command_service.go` |
| Reading, claiming and deleting a mail; reward ledger and backpack | `RewardClaim*.dfy`, `UserMailState.dfy`, `LootIndexes.dfy`, `PlayerMailService.dfy` | `app/playersrv/mail_service.go`, `backpack_service.go`, `data/mysql/repository.go` |
| Publisher, outbox relays, Redis projection, snapshot refresh | `MailPipeline.dfy`, `PublishSafety.dfy`, `LeaseSafety.dfy`, `Projection*.dfy`, `PipelineLimits.dfy`, `PublisherService.dfy`, `OutboxRelay.dfy`, `LocalCache.dfy` | `domain/globalmail/*.go`, `data/mysql/repository.go`, `data/redis/repository.go` |
| What a player sees | `MailVisibility.dfy`, `PublishToPlayer.dfy` | `domain/globalmail/cache.go` |
| Consistent hashing | `Ring.dfy`, `ConsistentHash.dfy` | `app/gatewaysrv/router.go` |
| Gateway sessions | `ConnectionPool.dfy`, `ConnectionManager.dfy`, `ConnectionRuns.dfy` | `app/gatewaysrv/connection.go` |

The clock, the hashes, generated IDs and what another process answers are parameters or free choices. The request hash
stands for the payload itself. Integers are unbounded; no result here depends on 64-bit wrap-around. What the program
calls `published` on an outbox row is `Sent` here, because `Published` is the status of a mail.

## Where the code does less than its documents say

- `docs/request-queue-design.md:24,110` and `README.md:49` say the requests of one role run one after the other. After a
  timeout the lane moves on while the old handler may still run, so with a timeout any number of handlers of one role can
  run at once, in every configuration (`HandlersOfOneRoleMayOverlap`). What holds in every state is that all but the
  latest handler of a role have returned or have an ended context (`AllButLatestAreOver`).
- `docs/request-queue-design.md:170` says the global capacity limits all queued and running requests. A timed-out caller
  gives its token back while its job is still in the lane, so any number of requests can be queued, in every
  configuration with a timeout (`CapacityMayBeExceeded`). What holds is that those with a live context fit the capacity,
  with a timeout always and without one until Close (`CapacityBoundsLiveJobs`); without a timeout Close alone lets any
  number pass (`CloseMayExceedCapacity`).
- A request can still be accepted and run after `Close`, however the queue is configured: `RequestMayRunAfterClose`.
  A lane that has stopped starts nothing any more (`StoppedLaneIsFinal`); one that has not can go on
  (`IdleLaneStillRuns`). `Close` itself can always return (`CloseCanReturn`): by itself with a timeout, because callers
  that leave cancel their contexts, and without one exactly if no handler runs on under a live context
  (`HeldLaneBlocksClose`).
- The idempotency key leaves the role out, so requests of two roles with the same uid, command and sequence meet in one
  key. For every such pair with different payloads a plain retry can be refused although it had succeeded
  (`CrossRoleRetryIsRefused`). A retry is always answered from the record written last (`LaterSendingGetsLastRecord`), so
  it gets the first response exactly if that record still gives it (`PlainRetryGetsFirstIff`): when no other lane has
  written it since (`SparedSendingGetsFirstResponse`), and so when clients use a key for one role only
  (`LaterSendingGetsFirstResponse`).
- A crash between reserving and granting loses the reward although the mail is later marked claimed:
  `CrashLosesReward`. A reward is in the backpack exactly if the call that reserved it made a payment that took effect
  (`PaidIffOwnerPaid`), and it did if it ended without an error (`ClaimedIsGrantedUnlessOwnerBroke`).
- A stale save can undo a claim (`StaleReadUndoesClaim`); saves that are not stale cannot (`CurrentSaveMovesForward`).
- The outbox marks check neither owner nor status, so a late mark reopens a delivered row
  (`LateMarkReopensSentRow`, `SentRowReopensIff`). The first change of a settled row is always such a late mark
  (`FirstChangeIsLate`), and without late marks the leases are exclusive (`LeasesAreExclusive`).
- A forced refresh can lower the snapshot's version (`ForcedRefreshLowersVersion`). A swap does so exactly if another swap
  came since its refresh read the version and stored a higher one (`SwapLowersIff`), so never when none came
  (`UndisturbedRefreshNeverLowers`) and never for a refresh for staleness (`StaleRefreshRaisesVersion`).
- A renewal that is written but reported as failed can leave a store entry that outlives its session
  (`LateWriteOutlivesSession`). The entry of a swept session has expired exactly if its last write lies more than the
  session's lifetime back (`SweptEntryExpiredIff`), as it does when no write for the account was late
  (`SweptEntryHasExpired`).

## Model

| member | source | states |
|---|---|---|
| `RequestQueueSafety.RunKeepsInv` | app/playersrv/request_queue.go:79-229 | in every run every job, lane and semaphore is in a consistent place; the invariant behind the queue's theorems |
| `RequestQueueTheorems.SemaphoresConserved` | app/playersrv/request_queue.go:87-135 | tokens are exactly the admitted jobs whose release has not fired, at most Capacity; worker slots likewise, at most Workers |
| `RequestQueueTheorems.ReleasesAndSendsNeverBlock` | app/playersrv/request_queue.go:184-229 | whoever stands at a release receive or a result send can take it at once |
| `RequestQueueTheorems.ReleasedWhenDone` | app/playersrv/request_queue.go:98-135 | once Dispatch has returned and handle, if entered, is over, a token that was taken is back |
| `RequestQueueTheorems.OneJobInHandle` | app/playersrv/request_queue.go:161-171 | at most one job of a role is between dequeue and the end of handle |
| `RequestQueueTheorems.EarlierHandlersAreOver` | app/playersrv/request_queue.go:199-229 | when a handler of a role is started, each earlier one has returned or has an ended context |
| `RequestQueueTheorems.AllButLatestAreOver` | app/playersrv/request_queue.go:199-229 | in every state, all handlers of a role but the one started last have returned or have an ended context |
| `RequestQueueTheorems.OverlapNeedsEndedContext` | app/playersrv/request_queue.go:216-229 | two handlers of one role run at once only if the one started earlier has an ended context |
| `RequestQueueTheorems.WorkersBoundLiveHandlers` | app/playersrv/request_queue.go:173-186 | at most Workers handlers with a live context run at once |
| `RequestQueueTheorems.LaneIsFifo` | app/playersrv/request_queue.go:144-171 | dequeued then queued jobs are the accepted ones in order; handlers start in a subsequence of it; no job twice; the lane's bound |
| `RequestQueueTheorems.HistoriesGrow` | app/playersrv/request_queue.go:109-171 | what was accepted, dequeued or started only grows at the end, over any stretch of a run |
| `RequestQueueTheorems.QueueFullNeverRuns` | app/playersrv/request_queue.go:98-120 | a request answered with queue-full was never accepted and never runs |
| `RequestQueueTheorems.AnswerIsOwnHandlers` | app/playersrv/request_queue.go:122-134 | a response that came through the queue is the one its own handler produced |
| `RequestQueueLimits.HandlersOfOneRoleMayOverlap` | app/playersrv/request_queue.go:222-228 | for every configuration with a timeout, every request and every n, a run in which n handlers of that request are running at once |
| `RequestQueueLimits.RequestMayRunAfterClose` | app/playersrv/request_queue.go:98-142 | for any request and however the queue is configured, a run in which it is admitted and its handler started after Close |
| `RequestQueueLimits.Drive` | app/playersrv/request_queue.go:98-229 | any run of any configuration, closed or not, goes on to the handler of a new request for which there is room |
| `RequestQueueLimits.IdleLaneStillRuns` | app/playersrv/request_queue.go:161-182 | any run, closed or not, goes on to the handler of the job at the head of a lane that is neither stopped nor busy, if its context is live and a worker is free |
| `RequestQueueLimits.StoppedLaneIsFinal` | app/playersrv/request_queue.go:161-171 | once a lane has stopped it dequeues and starts nothing ever after, in any run |
| `RequestQueueLimits.CapacityBoundsLiveJobs` | app/playersrv/request_queue.go:87-135 | with a timeout always and without one until Close, every job queued or running with a live context holds a token, so they are at most Capacity |
| `RequestQueueLimits.RunKeeps` | app/playersrv/request_queue.go:109-134 | a token comes back before handle is over only for a job with an ended context, or, without a timeout, after Close |
| `RequestQueueLimits.CapacityMayBeExceeded` | app/playersrv/request_queue.go:122-125 | for every configuration with a timeout and every n, a run with n timed-out jobs waiting in their lanes |
| `RequestQueueLimits.CloseMayExceedCapacity` | app/playersrv/request_queue.go:126-128 | for every configuration without a timeout and every n, a run with n jobs waiting under live contexts after Close |
| `RequestQueueClose.CloseCanReturn` | app/playersrv/request_queue.go:137-171 | from any closed state of any run all lanes can come to stop, and without a step of a handler or an end of a context from outside if there is a timeout or no lane is held by a handler running under a live context |
| `RequestQueueClose.HeldLaneBlocksClose` | app/playersrv/request_queue.go:137-229 | without a timeout, a lane held by a handler running under a live context stays held in any run until a handler returns or a context ends from outside |
| `RequestQueueClose.HandleFinishes` | app/playersrv/request_queue.go:199-229 | after Close a job in handle whose handler is not running under a live context is handled by its own steps alone, and its lane is idle |
| `RequestQueueClose.CallerLeaves` | app/playersrv/request_queue.go:79-135 | with a timeout, the caller of a held job can leave after Close, which ends the job's context |
| `RequestQueueClose.WorkerDelivers` | app/playersrv/request_queue.go:216-221 | from any phase of a running handler there are steps that deliver its result |
| `RequestQueueClose.RunKeepsCancelled` | app/playersrv/request_queue.go:82-85 | with a timeout, a job whose Dispatch has returned has an ended context |
| `RequestQueue.Configure` | app/playersrv/request_queue.go:57-77 | whatever the options, workers, capacity and lane capacity are positive |
| `QueueIdempotence.SucceedsAtMostOnce` | app/playersrv/command_service.go:120-165 | in runs where no context ends before its handler returns, two sendings of one request never both succeed in the handler |
| `QueueIdempotence.RecordIsLastRemembered` | app/playersrv/command_service.go:167-174 | in any run the record of a key is the one its last remember step wrote |
| `QueueIdempotence.LaterSendingGetsLastRecord` | app/playersrv/command_service.go:130-138 | in those runs a later sending of a request that succeeded always finds a record, and is answered from the one written last |
| `QueueIdempotence.PlainRetryGetsFirstIff` | app/playersrv/command_service.go:130-138 | a retry with the same payload gets the first response exactly if the record written last has that payload and that response, or the first response was itself the conflict answer |
| `QueueIdempotence.SparedSendingGetsFirstResponse` | app/playersrv/command_service.go:130-138 | unless a job of another lane has written the record since the success, a later sending gets the first response, or 409 for another payload |
| `QueueIdempotence.LaterSendingGetsFirstResponse` | app/playersrv/command_service.go:130-138 | so if the key of the request is used in one lane only, a later sending gets the first response, or 409 for another payload |
| `QueueKeyClash.CrossRoleRetryIsRefused` | app/playersrv/command_service.go:176-178 | for every two keyed requests with the same uid, command and sequence, different lanes and payloads, and every configuration that runs two requests at once, a run in which a plain retry of the first, which had succeeded, is answered 409 |
| `CommandDispatching.PerformedIsReachable` | app/playersrv/request_queue.go:217-221 | whatever a dispatcher call performs, the queue's machine can do from any state of any run, touching nothing else |
| `CommandDispatching.IdempotentCommandDispatcher.Dispatch` | app/playersrv/command_service.go:120-165 | the call performs worker actions of the machine; a recorded key is replayed without the handler; the handler runs exactly for unkeyed requests and keys nobody knows |
| `CommandDispatching.IdempotentCommandDispatcher.Answer` | app/playersrv/command_service.go:124-165 | the same for a keyed request, with the records after it |
| `CommandDispatching.IdempotentCommandDispatcher.AskStore` | app/playersrv/command_service.go:140-152 | each answer of the store: error, miss, conflict, or a record that is remembered |
| `CommandDispatching.IdempotentCommandDispatcher.UseRecord` | app/playersrv/command_service.go:145-151 | a stored record with another payload is a conflict and changes nothing; one with the same payload is remembered and replayed |
| `CommandDispatching.IdempotentCommandDispatcher.Run` | app/playersrv/command_service.go:154-164 | a success is remembered even if saving it fails; a failure leaves the records alone |
| `CommandDispatching.IdempotentCommandDispatcher.Remember` | app/playersrv/command_service.go:167-174 | exactly the key's record is replaced |
| `Decimal.TripleKeyInjective` | app/playersrv/command_service.go:176-178 | a key printed as three decimals with colons determines its three numbers, negative ones included |
| `Decimal.ReadsBack` | app/playersrv/mail_service.go:199-199 | reading a printed decimal gives the number back |
| `LootIndexes.MergeLootIndexes` | app/playersrv/mail_service.go:220-232 | the result is the strictly increasing list of the union, and there is only one |
| `LootIndexes.NewLootIndexes` | app/playersrv/mail_service.go:234-249 | the result is the strictly increasing list of the requested indexes not yet claimed |
| `Sorting.StrictlySortedUnique` | app/playersrv/mail_service.go:230-231 | a strictly increasing list is determined by its elements |
| `RewardClaimSafety.RunKeepsInv` | app/playersrv/mail_service.go:112-205 | in every run the ledger keys fit their rows, backpack rows are paid for, saved rows are covered by the ledger and calls hold what they reserved |
| `RewardClaimTheorems.NoDoubleGrant` | app/playersrv/backpack_service.go:25-57 | in every run each role, mail and index has at most one backpack row, and every backpack row has its ledger row and the loot of that index |
| `RewardClaimTheorems.ClaimedIsReserved` | app/playersrv/mail_service.go:112-135 | every claimed index of a saved state has a ledger row for that role, mail and index |
| `RewardClaimTheorems.LedgerMovesOnce` | data/mysql/repository.go:179-236 | a step leaves a ledger row alone unless the row is pending and the step is a mark by the call that reserved it |
| `RewardClaimTheorems.SettledIsFinal` | data/mysql/repository.go:211-236 | a succeeded or failed ledger row never changes again in any run |
| `RewardClaimTheorems.SucceededIsPaid` | app/playersrv/backpack_service.go:34-57 | a succeeded ledger row has its backpack row |
| `RewardClaimTheorems.RunAccounts` | app/playersrv/backpack_service.go:34-57 | a ledger row is succeeded, in its owner's hands, or its owner ended with an error |
| `RewardClaimTheorems.ClaimedIsGrantedUnlessOwnerBroke` | app/playersrv/mail_service.go:117-127 | in any run a claimed index whose reserving call ended without an error is in the backpack exactly once with its loot |
| `RewardClaimTheorems.PaidIffOwnerPaid` | app/playersrv/backpack_service.go:34-57 | in any run the reward of a reserved key is in the backpack exactly if an earlier payment of it by the call that reserved it took effect |
| `RewardClaimTheorems.ClaimedIsGrantedOnce` | app/playersrv/mail_service.go:117-127 | in runs without faults, once all calls have ended, every claimed index has exactly one backpack row and it holds that index's loot |
| `RewardClaimTheorems.CrashLosesReward` | app/playersrv/backpack_service.go:36-39 | a run with one crash after which the mail is claimed and the reward is in no backpack |
| `UserMailState.DeletedIsFinal` | data/mysql/repository.go:145-170 | once a row is deleted no interleaving of stale saves changes it |
| `UserMailState.TargetMovesForward` | app/playersrv/mail_service.go:99-187 | what each operation makes of a row: status, claimed set and times only move forward, and exactly what it adds |
| `UserMailState.CurrentSaveMovesForward` | app/playersrv/mail_service.go:160-186 | in any run a save whose row has not changed since it was read moves every row forward |
| `UserMailState.SequentialRunsMoveForward` | app/playersrv/mail_service.go:149-187 | when no two calls overlap on a row, status never moves back, the claimed set only grows and stays strictly increasing, and times are set once |
| `UserMailState.ActiveIsCurrent` | app/playersrv/mail_service.go:160-186 | without overlap a call's row is still the one it read when it saves |
| `UserMailState.StaleReadUndoesClaim` | app/playersrv/mail_service.go:149-187 | a run in which a stale read turns a claimed row back to read, while the ledger row stays |
| `PlayerMailService.Service.UpdateGlobalMailState` | app/playersrv/mail_service.go:149-187 | the whole update is a stretch of a run of the protocol, ending done with the saved row, or broken |
| `PlayerMailService.Service.GrantNewIndexes` | app/playersrv/mail_service.go:117-125 | the grant loop is a stretch of the run; it stops at the first failure |
| `PlayerMailService.Service.GrantGlobalMailReward` | app/playersrv/backpack_service.go:25-57 | reserve, grant and mark in the protocol's order, with the early exits |
| `PlayerMailService.Service.ReserveGlobalMailReward` | data/mysql/repository.go:179-209 | insert if absent, as one step with a possible fault |
| `PlayerMailService.Service.GrantBackpackReward` | data/mysql/repository.go:238-255 | insert if absent, as one step with a possible fault |
| `PlayerMailService.Service.MarkGlobalMailRewardSucceeded` | data/mysql/repository.go:211-221 | the mark, as one step with a possible fault |
| `PlayerMailService.Service.MarkGlobalMailRewardFailed` | data/mysql/repository.go:223-236 | the mark, as one step whose error is ignored |
| `PlayerMailService.Service.SaveUserState` | data/mysql/repository.go:145-170 | insert or overwrite unless deleted, as one step with a possible fault |
| `PlayerMailService.Service.ReadRow` | app/playersrv/mail_service.go:150-175 | the row a call works on: the stored one or a new unread one, one version up |
| `PlayerMailService.Service.CloseOver` | app/playersrv/mail_service.go:99-147 | the read, claim and delete closures give the row the protocol saves |
| `PublishSafety.RunKeepsInv` | domain/globalmail/publisher.go:39-128 | in every run mails and outbox rows correspond one to one, receipts and accepted publishes name stored mails |
| `PublishSafety.OneOutboxRowPerMail` | data/mysql/repository.go:45-71 | a mail exists exactly if an outbox row names it, and then exactly one does |
| `PublishSafety.KeyCommitsOnce` | domain/globalmail/publisher.go:50-126 | however publishers race, retry or crash, a non-empty key commits one mail |
| `PublishSafety.MailsComeFromCommits` | data/mysql/repository.go:45-71 | the mails change exactly at a commit, by one mail |
| `PublishSafety.SameKeySameMail` | domain/globalmail/publisher.go:50-127 | all successful publishes of a non-empty key, at any times, returned the same mail |
| `PublishSafety.AcceptedIsStored` | domain/globalmail/publisher.go:102-127 | what a publish returned is stored, unchanged, ever after |
| `Publishing.PublisherService.Publish` | domain/globalmail/publisher.go:39-128 | a known key changes nothing and returns the receipt's mail or refuses; otherwise mail, event and receipt are inserted together |
| `Publishing.PublisherService.CreateMail` | domain/globalmail/publisher.go:102-127 | the create call with its possible fault, all or nothing |
| `Publishing.PublisherService.Submit` | domain/globalmail/publisher.go:40-45 | a mail is refused exactly if a required field or its window is bad; the action defaults to publish |
| `Publishing.CreateGlobalMailWithOutbox` | data/mysql/repository.go:45-71 | commits exactly when no key is taken, and then all four inserts; else nothing |
| `Publishing.InsertConditions` | data/mysql/repository.go:51-59 | the loop succeeds exactly when the condition IDs are new and distinct, and stores each under the mail's ID |
| `LeaseSafety.RunKeepsInv` | data/mysql/repository.go:257-370 | without late marks, every running lease holds its row locked and its own, and the retry columns agree with the marks |
| `LeaseSafety.LeasesAreExclusive` | data/mysql/repository.go:257-312 | without late marks no row is leased to two relays at once, and a leased row is not eligible |
| `LeaseSafety.SettledRowsStay` | data/mysql/repository.go:314-370 | without late marks a sent or failed row never changes again |
| `LeaseSafety.RetriesAreCounted` | data/mysql/repository.go:328-370 | without late marks the retry count is the number of failed marks, at most the limit, and the row is failed exactly when they are equal |
| `LeaseSafety.FailuresAreMarks` | data/mysql/repository.go:328-370 | the failed marks on record are the failing mark steps of the run, in any run |
| `LeaseSafety.SentRowReopensIff` | data/mysql/repository.go:314-370 | in any state a sent row stops being sent exactly at a failed mark of it that takes effect, and is then pending or failed as the count read before says |
| `LeaseSafety.FirstChangeIsLate` | data/mysql/repository.go:314-370 | the first step of any run that changes a sent or failed row is a mark after its lock expired |
| `PipelineLimits.LateMarkReopensSentRow` | data/mysql/repository.go:328-370 | for every lock time and every limit above one, a run in which a late mark puts a sent row back to pending |
| `PipelineLimits.ForcedRefreshLowersVersion` | domain/globalmail/cache.go:90-98 | a run in which a forced refresh lowers the snapshot's version |
| `ProjectionSafety.RunKeepsInv` | domain/globalmail/outbox.go:82-128 | in every run Redis and the snapshots hold only MySQL rows, and each relay has done the stages before its own |
| `ProjectionTheorems.SentMeansProjected` | domain/globalmail/outbox.go:82-128 | in any run a sent row has had its detail written, its mail indexed under its expiry, the version raised to it and its event sent |
| `ProjectionTheorems.SnapshotCoversAdvanced` | domain/globalmail/cache.go:73-142 | a refresh that asks after a mail's advance step and swaps stores the version it read, at a time in between, and the mail if it is in its window then |
| `ProjectionTheorems.SnapshotsAreFaithful` | domain/globalmail/cache.go:122-140 | every mail of every snapshot is its MySQL row |
| `ProjectionTheorems.StaleRefreshRaisesVersion` | domain/globalmail/cache.go:73-88 | steps of other kinds than a forced refresh never lower a snapshot's version, and a snapshot they replace was older |
| `ProjectionTheorems.SwapStoresVersionRead` | domain/globalmail/cache.go:90-142 | a swap stores the version its refresh read before the mutex |
| `ProjectionTheorems.SnapshotIsLastSwap` | domain/globalmail/cache.go:122-140 | a cache has the version of the last swap into it since any earlier time, or what it had then |
| `ProjectionTheorems.SwapLowersIff` | domain/globalmail/cache.go:90-142 | a swap lowers the version exactly if another swap went into the cache since its refresh read the version, and the last such stored a version above the one read |
| `ProjectionTheorems.UndisturbedRefreshNeverLowers` | domain/globalmail/cache.go:90-142 | no refresh, forced or not, lowers the version of a cache that was not swapped between its ask and its swap |
| `ProjectionTheorems.RunKeepsVersions` | domain/globalmail/cache.go:73-98 | no snapshot and no refresh under way has a version above that of Redis |
| `ProjectionTheorems.RunKeepsLocks` | domain/globalmail/cache.go:82-98 | one refresh per cache is inside the mutex, and one for staleness is still newer than the snapshot |
| `ProjectionTheorems.RunRecalls` | domain/globalmail/cache.go:73-101 | a refresh keeps the version it read and fixes its time after reading it |
| `OutboxRelaying.OutboxRelay.Flush` | domain/globalmail/outbox.go:71-122 | the flush is a stretch of a run; it counts exactly the rows it newly marked sent, each of them delivered, leaves settled rows alone, and without faults sends all rows it fetched |
| `OutboxRelaying.OutboxRelay.Begin` | domain/globalmail/outbox.go:72-79 | the rows fetched are the lowest eligible ones, each with its mail |
| `OutboxRelaying.OutboxRelay.HandleAll` | domain/globalmail/outbox.go:81-122 | the loop over the events up to a failing mark |
| `OutboxRelaying.OutboxRelay.Handle` | domain/globalmail/outbox.go:82-121 | one event changes only its own row: marked sent and counted, marked failed with its retry time or left by a failing mark, or the flush aborts with the row as it was or marked sent |
| `OutboxRelaying.OutboxRelay.Project` | domain/globalmail/outbox.go:84-115 | the stages in order, stopping at the first failure |
| `OutboxRelaying.OutboxRelay.FetchPending` | data/mysql/repository.go:257-312 | leases the eligible unheld rows with the lowest IDs up to the limit, and locks exactly those |
| `OutboxRelaying.SelectPending` | data/mysql/repository.go:270-283 | the rows selected are eligible, in order, the lowest, and as many as there are up to the limit |
| `OutboxRelaying.ToEvents` | data/mysql/repository.go:288-297 | one event per row found |
| `OutboxRelaying.OutboxRelay.MarkPublished` | data/mysql/repository.go:314-326 | only this row changes, to sent, unless the call failed without effect |
| `OutboxRelaying.OutboxRelay.MarkFailed` | data/mysql/repository.go:328-370 | only this row changes: one more retry, pending with the retry time or failed at the limit |
| `OutboxRelaying.OutboxRelay.NextRetryTime` | domain/globalmail/outbox.go:132-138 | a minute per attempt, never more than thirty, always in the future |
| `OutboxRelaying.OutboxRelay.SetGlobalMail` | data/redis/repository.go:74-85 | one step of the run; it writes this detail and nothing else, and certainly if it reports no error |
| `OutboxRelaying.OutboxRelay.AddGlobalMailToIndexes` | data/redis/repository.go:106-118 | one step of the run; it writes this entry of the active index, and certainly if it reports no error |
| `OutboxRelaying.OutboxRelay.AdvanceGlobalMailVersion` | data/redis/repository.go:41-57 | one step of the run; it raises the version to the target or leaves it, never lowers it, and has reached the target if it reports no error |
| `LocalCaches.LocalCache.RefreshIfStale` | domain/globalmail/cache.go:73-88 | unless it fails the snapshot is as new as Redis said; a replaced snapshot was older, and the new one holds every advanced mail in its window and only MySQL rows |
| `LocalCaches.LocalCache.ForceRefresh` | domain/globalmail/cache.go:90-98 | unless it fails the snapshot has the version Redis had, complete and faithful |
| `LocalCaches.LocalCache.Renew` | domain/globalmail/cache.go:100-142 | load, build and swap is a stretch of the run; a failure leaves the snapshot alone |
| `LocalCaches.LocalCache.LoadFromSharedCache` | domain/globalmail/cache.go:213-233 | all active mails, each once, or a miss or an error |
| `LocalCaches.LocalCache.GetDetail` | domain/globalmail/cache.go:223-230 | the detail of that ID, a miss, or an error, as one step of the run |
| `LocalCaches.LocalCache.LoadPublishedFromMySQLAndRefill` | domain/globalmail/cache.go:174-188 | the current mails of MySQL, each once, every one written back unless a write fails |
| `LocalCaches.LocalCache.RebuildSharedCache` | domain/globalmail/cache.go:144-211 | a rebuild, or waiting for another process and then a rebuild |
| `LocalCaches.LocalCache.VisibleMails` | domain/globalmail/cache.go:235-259 | what the current snapshot shows the player now |
| `LocalCaches.BuiltHolds` | domain/globalmail/cache.go:122-140 | a snapshot built from a list with distinct IDs holds exactly those mails |
| `MailVisibility.BuildSnapshot` | domain/globalmail/cache.go:122-139 | by-ID maps hold the last mail of each ID with its conditions, the ID list is the mails' IDs, the server index lists each ID as often as its conditions list the server, and the largest ID |
| `MailVisibility.AddToServers` | domain/globalmail/cache.go:136-138 | the ID is appended once per listed server and nothing else changes |
| `MailVisibility.ServerIDsFromConditions` | domain/globalmail/cache.go:273-290 | the servers listed by the conditions in order, list before number |
| `MailVisibility.ServersAreListed` | domain/globalmail/cache.go:273-290 | a server is among them exactly if some condition lists it |
| `MailVisibility.ConditionsMatch` | domain/globalmail/cache.go:292-318 | true exactly if every condition matches |
| `MailVisibility.VisibleMails` | domain/globalmail/cache.go:235-259 | the candidates that are published, in their window and matching, in order |
| `MailVisibility.SelectedMembers` | domain/globalmail/cache.go:244-258 | a mail is selected exactly if it is held for a candidate ID and passes |
| `MailVisibility.SeenPass` | domain/globalmail/cache.go:235-259 | only cached mails that are published, in their window and matching are shown |
| `MailVisibility.SeenIff` | domain/globalmail/cache.go:239-242 | a passing cached mail is shown exactly if it lists the server or no cached mail does |
| `MailVisibility.SeesAllIff` | domain/globalmail/cache.go:239-242 | the result is the plain filter exactly if no cached mail lists the server or every passing one does |
| `MailVisibility.PlainServersSeeAll` | domain/globalmail/cache.go:239-290 | if every cached mail has a server condition that is a list or an equality number, the result is the plain filter |
| `MailVisibility.SeenAsOftenAsListed` | domain/globalmail/cache.go:136-138 | a passing mail is shown once for every time it lists the server |
| `PublishToPlayer.AdvancedMailIsSeen` | domain/globalmail/cache.go:73-142 | after a mail's advance step, a refresh that asks later and swaps makes it visible, while its window lasts, to exactly the matching players its listing reaches |
| `Ring.OwnerIsUnique` | app/gatewaysrv/router.go:54-59 | a point clockwise from an account has one owner, the last instance in the list with that point |
| `Ring.OwnerSurvives` | app/gatewaysrv/router.go:38-64 | an owner whose point stays is still the owner when other points go |
| `Ring.FoundIsClockwise` | app/gatewaysrv/router.go:71-77 | what the binary search with wrap-around finds is the first ring point clockwise |
| `ConsistentHash.NodesAreLast` | app/gatewaysrv/router.go:42-60 | the node map gives each point to the last instance that has it |
| `ConsistentHash.ConsistentHashRouter.constructor` | app/gatewaysrv/router.go:26-36 | the ring of the list, with 100 virtual nodes when none are given |
| `ConsistentHash.ConsistentHashRouter.Update` | app/gatewaysrv/router.go:38-64 | the ring is sorted, holds exactly the points of the list, and the nodes are those of the list |
| `ConsistentHash.ConsistentHashRouter.AddReplicas` | app/gatewaysrv/router.go:50-59 | exactly the instance's virtual points are added, overwriting collisions |
| `ConsistentHash.ConsistentHashRouter.RouteUID` | app/gatewaysrv/router.go:66-78 | the instance that owns the first point clockwise from the account's hash |
| `ConsistentHash.ConsistentHashRouter.FirstNotBelow` | app/gatewaysrv/router.go:71-73 | the binary search splits the ring at the hash |
| `ConsistentHash.RoutedIffUsable` | app/gatewaysrv/router.go:66-69 | routing fails exactly if no instance has a non-empty ID |
| `ConsistentHash.RouteIs` | app/gatewaysrv/router.go:66-78 | the route is the instance at the owning position |
| `ConsistentHash.RemovalKeepsOthers` | app/gatewaysrv/router.go:38-78 | removing instances moves no account of a remaining one, collisions or not |
| `ConsistentHash.AddingMovesOnlyToAdded` | app/gatewaysrv/router.go:38-78 | adding instances anywhere moves an account only to an added one |
| `ConsistentHash.RaisingMovesOnlyToHeavier` | app/gatewaysrv/router.go:46-59 | raising one weight moves an account only to that instance |
| `ConsistentHash.OrderDoesNotMatter` | app/gatewaysrv/router.go:38-78 | without collisions between instances the order of the list does not matter |
| `ConnectionPool.Pool.constructor` | app/gatewaysrv/connection.go:66-76 | an empty pool with the given or the default number of shards |
| `ConnectionPool.Pool.Get` | app/gatewaysrv/connection.go:78-84 | the flat map's entry |
| `ConnectionPool.Pool.GetByConnID` | app/gatewaysrv/connection.go:86-102 | a session found has that connection ID and is live; if live sessions with the ID are indexed, one is found exactly if some live session has it |
| `ConnectionPool.Pool.Set` | app/gatewaysrv/connection.go:104-120 | one entry of the flat map is replaced and a different connection it held is closed |
| `ConnectionPool.Pool.Delete` | app/gatewaysrv/connection.go:122-135 | one entry of the flat map goes and its connection is closed |
| `ConnectionPool.Pool.SweepExpired` | app/gatewaysrv/connection.go:137-157 | exactly the expired entries go, each is returned once, and their connections are closed once |
| `ConnectionPool.Pool.CloseAll` | app/gatewaysrv/connection.go:159-174 | the flat map is empty and every held connection is closed once |
| `ConnectionPool.DeleteAccounts` | app/gatewaysrv/connection.go:122-135 | dropping a session moves its connection from held to closed |
| `ConnectionPool.SetAccounts` | app/gatewaysrv/connection.go:104-120 | storing a session with a new connection adds one holder and moves the replaced one to closed |
| `ConnectionPool.DuplicateConnIdLosesIndex` | app/gatewaysrv/connection.go:122-135 | two live sessions in one shard with one connection ID: dropping the later one loses the index entry of the other |
| `ConnectionManager.Configure` | app/gatewaysrv/connection.go:191-206 | whatever the options, lifetime and renew interval are positive |
| `ConnectionManager.Manager.constructor` | app/gatewaysrv/connection.go:191-206 | an empty pool and store at the start of a run |
| `ConnectionManager.Manager.BindSession` | app/gatewaysrv/connection.go:208-232 | one call of the run: the store entry, then the session, or nothing local when the store fails; an ID that no two live sessions ever shared stays indexed |
| `ConnectionManager.Manager.BeatSession` | app/gatewaysrv/connection.go:234-254 | one call of the run: unknown or mismatching sessions are refused; otherwise the times move and the store is renewed when due; an ID that no two live sessions ever shared stays indexed |
| `ConnectionManager.Manager.DisconnectSession` | app/gatewaysrv/connection.go:256-259 | one call of the run: the session goes first, then the store entry |
| `ConnectionManager.Manager.SweepSessions` | app/gatewaysrv/connection.go:269-271 | one call of the run: exactly the expired sessions go and are returned |
| `ConnectionManager.Manager.CloseSessions` | app/gatewaysrv/connection.go:273-275 | one call of the run: all sessions go |
| `ConnectionManager.Manager.SessionByConnID` | app/gatewaysrv/connection.go:265-267 | in runs in which no two live sessions ever shared this connection ID, the lookup finds a session exactly if some live one has it |
| `ConnectionRuns.RunAccounts` | app/gatewaysrv/connection.go:104-174 | over any run of calls that brings no bound connection again, holders plus closings of a connection are one if it was bound and none otherwise |
| `ConnectionRuns.ConnectionClosedOnceOnLeaving` | app/gatewaysrv/connection.go:104-174 | a bound connection is held by one session and not closed, or held by none and closed exactly once |
| `ConnectionRuns.RunKeepsLeases` | app/gatewaysrv/connection.go:208-259 | with a monotone clock and whatever writes fail, every session has a store entry no older than its last renewal and no newer than now |
| `ConnectionRuns.HeartbeatKeepsEntryLive` | app/gatewaysrv/connection.go:234-254 | with a monotone clock and whatever writes failed before, after a heartbeat the stored expiry lags the local one by less than the renew interval, and is live if that is at most the lifetime |
| `ConnectionRuns.EntryIsLastWrite` | app/gatewaysrv/connection.go:208-259 | the store entry of a live session is that of the last write for its account, reported or not |
| `ConnectionRuns.SweptEntryExpiredIff` | app/gatewaysrv/connection.go:137-157 | in any run the store entry of a swept session has expired exactly if the last write of it lies more than the lifetime back |
| `ConnectionRuns.CleanEntryIsLastRenewal` | app/gatewaysrv/connection.go:208-259 | if no bind or heartbeat of the account was late, the entry is that of the last renewal |
| `ConnectionRuns.SweptEntryHasExpired` | app/gatewaysrv/connection.go:137-157 | if no bind or heartbeat of the account before the sweep was late, the store entry of the swept session has already expired |
| `ConnectionRuns.LateWriteOutlivesSession` | app/gatewaysrv/connection.go:246-251 | for every account and positive lifetime and interval, a run in which a late renewal leaves an entry that is live when its session is swept |

## Left out

- Generated gRPC code, HTTP handlers, configuration, command-line wiring, metrics: no property beyond the code's text.
- Routing stickiness (`RouteService`, `SessionRouteCache`, `CommandForwarder`), accounts, tokens, personal mail: each is one lookup or one insert, with nothing to say beyond its text.
- JSON and protobuf encoding: condition values are numbers, lists, texts, null or other; a list holding null is not modelled, and a stored response or snapshot comes back as it was written.
- CRC-32, FNV and SHA-256: the routing hashes are arbitrary functions, the request hash is the payload.
- Single-flight and the rebuild lock across processes: a rebuild is one MySQL read and its writes, with or without waiting first.
- Redis data loss other than expiry of mail details: the version and the index are taken to survive.
- `WaitGroup` use in Close and the Go memory model: channel, mutex and `Once` operations are atomic steps.
- Heartbeat as a separate read and write of the pool: manager calls are taken not to overlap.
- Clocks that differ between processes: one clock serves every relay and the outbox query, where the code reads each process's own; that leases are exclusive rests on those clocks agreeing.
- Locks inside `FetchPending`: rows other transactions hold are a parameter, and the transaction is one step.
- Zero IDs handed to the database: the database may replace a zero primary key; the model inserts the ID it is given.
- A mail service without a reward repository: the grant is taken to be wired.
- OutboxRelaying.OutboxRelay.Flush: between its own calls no other process steps; interleavings are in the machine, whose theorems cover them.
- LocalCaches.LocalCache.RefreshIfStale: between its own calls no other process steps; interleavings are in the machine, whose theorems cover them.
- RewardClaimTheorems.LedgerMovesOnce: nothing is said about timestamps, failure reasons or the deleting write's version and update time, which depend on the order in which the database assigns columns.
- QueueIdempotence.LaterSendingGetsFirstResponse: assumes the key of the request is used in one lane only, because the key leaves the role out; the exact condition is in PlainRetryGetsFirstIff.
- LocalCaches.LocalCache.ForceRefresh: between its own calls no other process steps; interleavings are in the machine, whose theorems cover them.
- LocalCaches.LocalCache.RebuildSharedCache: whether the rebuild lock is acquired and how often another process is polled are parameters.
- OutboxRelaying.OutboxRelay.AddGlobalMailToIndexes: the per-server sets in Redis are not modelled, because no modelled code reads them.
- PlayerMailService.Service.ReadRow: a failing refresh, a mail that is not visible and a failing read are one free choice.
- ConnectionManager.Manager.BindSession: of the store entry only the expiry is modelled, because no property here looks at its other columns.
- ConnectionManager.Manager.BeatSession: of the store entry only the expiry is modelled, because no property here looks at its other columns.
- QueueIdempotence.SucceedsAtMostOnce: assumes that no context ends before its handler returns, because the lane moves on when one does.
