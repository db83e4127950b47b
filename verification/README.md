# order-sync: a verified model

`order-sync` accepts shop and payment webhooks in any order, stores them in
PostgreSQL, and delivers paid orders to SAP through a transactional outbox. This
project models its order lifecycle, delivery queue, wake-up protocol and SAP
call coalescing in Dafny 4.11 and proves what they keep over every run.
`dafny verify dfyconfig.toml` checks all of it.

## How it is built

- `contracts.dfy`, `tables.dfy`, `webhooks.dfy`: rows, SQL statements and the two
  webhook transactions as functions on one snapshot of the tables.
- `lifecycle.dfy`, `growth.dfy`: the coupling invariant, and the declarative effects
  (`ShopArrives`, `PaymentArrives`) that the transactions are shown to equal.
- `reordering.dfy`: a shop order at any position among any payment events.
- `queue.dfy`, `system.dfy`, `invariant.dfy`: claims, marks and replays, and the whole
  service as a state machine with crashing workers, lost marks and a clock.
- `delivery.dfy`, `lease.dfy`: theorems over runs, without and with the two-minute lease.
- `attempts.dfy`, `origins.dfy`: what every attempt stores, exactly, and which event,
  clock reading or answer every stored value goes back to.
- `finished.dfy`, `witness.dfy`: exactly when SYNCED and DEAD are final without the lease,
  and reachable runs in which they are not.
- `wakeup.dfy`: the worker's main loop beside that state machine.
- `simulation.dfy`: a drain of the worker object is a run of that state machine.
- `coalescing.dfy`: callers that share one in-flight SAP call per key.
- `store.dfy`, `drain.dfy`, `items.dfy`, `backoff.dfy`: the imperative code, statement by
  statement and loop by loop, proved against the functions above.

## Assumptions

- Webhook transactions, claims and marks are atomic steps that follow one another.
  The service opens default-isolation transactions; a first shop and a first payment
  transaction that overlap could each miss the other's uncommitted row.
- There is one clock and it never goes back. A retry delay is any value in [0, 60s],
  which is what `Backoff.RetryDelay` returns.
- The SKU catalogue is fixed during a run, prices are whole cents, and a stored event
  payload reads back as it was written.
- Only `lease.dfy` assumes that every claimant finishes within two minutes of its claim
  and that a mark which reports an error had no effect. Everything in the other
  files holds without both.

## Where code and documentation differ

The model follows the code in each case.

- A false `isHardware` override does take the item out of the catalogue lookup
  (internal/orders/service.go:48-56 against docs/domain.md:31).
- A cancellation stored before the shop order cancels that order without a hardware
  check (internal/shop/service.go:139-147 against docs/domain.md:39). This is why arrival
  order matters for digital-only orders; `Reordering.ArrivalOrder` gives the exact condition.
- No reachable order has both a job and a cancellation, so the documented
  PENDING to CANCELLED move of a job (docs/domain.md:26) never happens.

## Model

| member | source | states |
|---|---|---|
| `Items.SameOrderPayload` | internal/shop/service.go:87-106 | the greedy nested loops return true exactly when the emails are equal and the items are equal as multisets |
| `Items.ClaimFirst` | internal/shop/service.go:93-100 | the inner loop claims one unclaimed equal item if there is one, and otherwise shows there is none |
| `Items.CatalogueSkus` | internal/orders/service.go:48-56 | collects the SKUs of the items without an override, in order and with repetitions |
| `Items.SchedulerSeesHardware` | internal/orders/service.go:23-37 | the scheduler's loop decides: some item has a true override, or no override and a hardware SKU |
| `Items.CancellerSeesHardware` | internal/payment/service.go:148-156 | the canceller's loop decides the same predicate |
| `Items.HardwareIgnoresRowOrder` | internal/infrastructure/postgres/queries/order_queries.go:9 | the hardware decision does not depend on the order in which rows come back |
| `Backoff.RetryDelayMs` | internal/sync/worker.go:314-326 | the doubling loop equals min(60000, 1000 * 2^(attempt-1)) for every 64-bit attempt number, without overflow |
| `Backoff.BackoffMonotone` | internal/sync/worker.go:314-326 | later attempts never wait less; every base delay is between 1s and 60s |
| `Backoff.RetryDelay` | internal/sync/worker.go:328-351 | the header wins over the jitter, the cap is 60s, the result lies in [0, 60s] inside 64 bits |
| `Backoff.RetryAfterSeconds` | internal/infrastructure/sap/http_client.go:45-50 | a number of seconds is dropped exactly when its duration does not fit in 64 bits |
| `Lifecycle.BulkMarkChangesNothing` | internal/infrastructure/postgres/queries/event_queries.go:7 | marking a reference's events processed changes no row, since stored events are processed already |
| `Lifecycle.ShopEffect` | internal/shop/service.go:53-84 | a first shop event is always accepted and equals the declarative effect: order stored, linked and settled by the payment already there |
| `Lifecycle.PaymentEffect` | internal/payment/service.go:90-132 | a new event on an unfinished payment equals the declarative effect unless it cancels a digital-only order |
| `Lifecycle.ShopRepeat` | internal/shop/service.go:38-74 | a further event for a stored order is a duplicate or a conflict; it adds at most its own event row |
| `Lifecycle.PaymentRepeat` | internal/payment/service.go:46-69 | a known event id is a duplicate without effect if reference, status and timestamp text agree with what is stored, and a conflict otherwise |
| `Lifecycle.PaymentAfterEnd` | internal/payment/service.go:74-88 | on a finished payment the same status is recorded and any other refused |
| `Lifecycle.ShopTxKeepsInv` | internal/shop/service.go:33-85 | every shop transaction, committed or not, keeps orders, payments, jobs and events coupled |
| `Lifecycle.PaymentTxKeepsInv` | internal/payment/service.go:41-132 | every payment transaction keeps them coupled |
| `Growth.ShopTxGrows` | internal/shop/service.go:33-85 | rows are never lost, shop data never changes, final states stay final |
| `Growth.PaymentTxGrows` | internal/payment/service.go:41-132 | the same for payment transactions |
| `Growth.LinksAreOneToOne` | migrations/001_initial.sql:48-56 | two payments never point at one order, so the UNIQUE link cannot be violated |
| `Growth.ShopRefusals` | internal/shop/service.go:38-64 | shop events are refused exactly for contradicting a stored order or reusing an id for an unknown one |
| `Growth.PaymentRefusals` | internal/payment/service.go:46-99 | payment events are refused in exactly three cases and take effect in exactly one; the other error branches are unreachable |
| `Growth.CancellationMeetsNoJob` | internal/infrastructure/postgres/repositories/order_repository.go:123-137 | when a cancellation reaches an order the guard passes and cancelling the job changes no row |
| `Growth.CancellableIffHardware` | internal/payment/service.go:142-160 | for any configured delay: an order with an unfinished payment can be cancelled exactly when it is classified as hardware, and then its scheduling would get the hardware delay, else none |
| `Reordering.Exchange` | internal/shop/service.go:126-161 | a payment event and a first shop event commute, up to scheduling times, unless it cancels a digital-only order |
| `Reordering.ArrivalOrder` | internal/payment/service.go:94-131 | for events whose ids are not shared with other references: all positions of the shop event end in the same tables if and only if the order has hardware, or its payment was finished before, or the first event with a new id and a final status on the reference is not a cancellation |
| `Reordering.ArrivalOrderSafe` | internal/shop/service.go:126-161 | with hardware in the order, or no cancellation among its events, every position ends in the same tables, whatever the event ids |
| `Reordering.CancelledByFirst` | internal/payment/service.go:74-88 | before the order arrives, a sequence of events cancels an unfinished payment exactly when the first of them that decides is a cancellation |
| `Reordering.DigitalOrderDisagrees` | internal/payment/service.go:142-160 | otherwise the first and the last position disagree on the payment's cancellation |
| `Reordering.DigitalOrderExample` | internal/shop/service.go:139-147 | one cancellation and one hosting subscription show the disagreement |
| `Queue.ClaimAgreesWithNextWake` | internal/infrastructure/postgres/queries/sync_job_queries.go:4-5 | a job is claimable exactly when the next wake-up is not in the future, and the claimed job attains that minimum |
| `Queue.NoneStranded` | internal/infrastructure/postgres/queries/sync_job_queries.go:4-9 | every paid order's job is SYNCED, DEAD or has a wake-up; PROCESSING holds exactly when locked |
| `Invariant.StepKeeps` | internal/sync/worker.go:144-264 | every step of webhooks, workers, operator and clock keeps the service invariant and takes nothing back |
| `Invariant.RunKeeps` | internal/sync/worker.go:144-264 | the service invariant holds in every state of every run |
| `Invariant.RunAdvances` | internal/infrastructure/postgres/queries/sync_job_queries.go:6-9 | along a run rows stay, finals stay final, and attempts grow within a replay epoch |
| `Delivery.LifecycleCoupling` | internal/payment/service.go:70-132 | in every reachable state, for every order: its payment is linked to it; paid iff payment completed iff a job exists; cancelled iff payment cancelled; dates agree |
| `Delivery.PaymentCoupling` | internal/infrastructure/postgres/queries/payment_queries.go:4-26 | in every reachable state a payment is linked exactly when its order exists, to that order and no other payment with it, and dated exactly when completed |
| `Delivery.QueuedStaysPaid` | internal/infrastructure/postgres/repositories/order_repository.go:123-137 | an order that ever had a job stays paid and its job is never CANCELLED |
| `Delivery.ShopReplay` | internal/shop/service.go:38-74 | a committed shop event sent again at any later point is a duplicate and changes nothing |
| `Delivery.PaymentReplay` | internal/payment/service.go:46-69 | a committed payment event sent again at any later point is a duplicate and changes nothing |
| `Delivery.CallBudget` | internal/sync/worker.go:164-193 | the calls of one job in one replay epoch never exceed the attempt limit, for any crashes, lost marks and takeovers |
| `Delivery.EpochsCountReplays` | cmd/order-sync-admin/main.go:100-121 | the number of replay epochs is the number of effective operator replays |
| `Delivery.StablePayload` | internal/sync/worker.go:185 | calls with one idempotency key carry the same order, email, paid instant and items; different orders never share a key |
| `Delivery.TruthfulPayload` | internal/infrastructure/postgres/repositories/sync_job_repository.go:47-66 | every call describes the stored paid order |
| `Delivery.NoEarlyDispatch` | internal/orders/service.go:38-45 | no call of any attempt or replay starts before the scheduling time plus the hardware delay |
| `Delivery.SyncedMeansAccepted` | internal/sync/worker.go:185-192 | whenever a job shows SYNCED, SAP accepted one of its calls before with the stored id, in every run |
| `Origins.PaymentHistory` | internal/payment/service.go:70-132 | every stored payment shows the status, and when completed the instant, of the latest event on its reference that took effect |
| `Origins.AcceptedIsStored` | internal/payment/service.go:46-54 | an accepted payment event is stored under its id with its reference, status and timestamp text |
| `Origins.AcceptedPaymentsAgree` | internal/payment/service.go:134-136 | two payment events accepted under one id anywhere in a run agree in reference, status and timestamp text |
| `Origins.OrderHistory` | internal/shop/service.go:53-77 | every stored order is, to the item, one that an accepted shop event sent |
| `Origins.AcceptedOrdersAgree` | internal/shop/service.go:38-64 | two shop events accepted for one order id agree in email and items |
| `Origins.ScheduledExactly` | internal/orders/service.go:22-46 | a job appears in the transaction that makes its order paid, untouched and due exactly after the hardware delay, or at once without hardware |
| `Origins.ReopenedExactly` | cmd/order-sync-admin/main.go:100-121 | a replay makes a DEAD job fresh work due now, and changes nothing in any other case |
| `Origins.SapIdsAgree` | internal/infrastructure/postgres/queries/sync_job_queries.go:8 | a job with a SAP id shares it with its order, an order carries only ids with which SAP accepted one of its calls, and a SYNCED job's order carries one |
| `Attempts.ClaimTakes` | internal/infrastructure/postgres/queries/sync_job_queries.go:4-6 | a claim takes a job that is due or locked for two minutes, locks the row, counts the attempt and hands its data to the worker |
| `Attempts.CallDecision` | internal/sync/worker.go:164-185 | SAP is called, once, exactly when the claimed job is inside its recovery window and attempt limit, whatever happens between claim and decision |
| `Attempts.GivenUp` | internal/sync/worker.go:170-181 | otherwise the stored mark makes the job DEAD at the decision time |
| `Attempts.RefusalStored` | internal/sync/worker.go:218-243 | the row after a refusal: DEAD, WAITING or PENDING exactly by retryability and the two attempt limits, due exactly the drawn delay after the decision, recovery stamped or kept |
| `Attempts.AcceptanceStored` | internal/infrastructure/postgres/queries/sync_job_queries.go:8 | the row after an acceptance: SYNCED, out of recovery, with SAP's id on job and order |
| `Attempts.UnsavedStored` | internal/sync/worker.go:245-264 | after an acceptance that could not be stored: DEAD at the limit, else PENDING, due exactly the drawn delay after the decision |
| `Attempts.FreeUntilClaim` | internal/sync/worker.go:164-264 | a worker that crashed or finished holds no job until its next claim, and a crash writes nothing |
| `Attempts.DueCanBeClaimed` | internal/infrastructure/postgres/repositories/sync_job_repository.go:38-71 | in every reachable state a claimable job can be claimed by any free worker, with its items in any order |
| `Attempts.TakeoverWaits` | internal/infrastructure/postgres/queries/sync_job_queries.go:4 | a takeover comes at least two minutes after the claim it takes over |
| `Lease.LeaseSafety` | internal/infrastructure/postgres/queries/sync_job_queries.go:4-6 | under the lease a job has one live claimant, whose attempt number and claim time are the row's |
| `Lease.SyncedIsAbsorbing` | internal/infrastructure/postgres/queries/sync_job_queries.go:8 | under the lease a SYNCED row never changes again |
| `Lease.DeadLeftByReplayOnly` | cmd/order-sync-admin/main.go:100-121 | under the lease only the operator's replay changes a DEAD row |
| `Lease.LimitsRespected` | internal/sync/worker.go:231-243 | a PENDING or WAITING job has attempts left, and WAITING means the configured number was reached |
| `Lease.RetryWaitsForDueTime` | internal/sync/worker.go:231-243 | the next claim after a stored failure does not come before its due time |
| `Lease.RetrySpacing` | internal/sync/worker.go:218-243 | after a retryable refusal with a drawn delay and a mark the worker stored without crashing, the next claim comes no earlier than the decision time plus that delay |
| `Lease.WaitingSinceConstant` | internal/infrastructure/postgres/queries/sync_job_queries.go:9 | waiting_since is constant while the job stays in recovery |
| `Lease.RecoveryStartsAndEnds` | internal/infrastructure/postgres/queries/sync_job_queries.go:6-9 | the first WAITING mark stamps its instant; the stamp is dropped only on the way to PENDING, SYNCED or DEAD |
| `Lease.CallsInsideWindow` | internal/sync/worker.go:170-173 | every call made during recovery is decided strictly before waiting_since plus the window |
| `Finished.FinishedRowChangesExactly` | internal/infrastructure/postgres/queries/sync_job_queries.go:8-9 | without any lease: a SYNCED or DEAD row is written only by a replay of DEAD or a surviving claimant's stored mark, and its status changes exactly when such a write stores another one |
| `Finished.UnclaimedNeverChanges` | internal/infrastructure/postgres/queries/sync_job_queries.go:4-9 | in every run, a SYNCED row without a live claimant never changes again, and a DEAD one only by a replay |
| `Finished.Undone` | internal/sync/worker.go:185-264 | a live claimant that may undo a finished status does so in some continuation of at most three steps |
| `Finished.FinishedForGood` | internal/infrastructure/postgres/queries/sync_job_queries.go:8-9 | a finished status outlasts every replay-free continuation if and only if no live claimant may undo it; for SYNCED, if and only if the job has no live claimant |
| `Witness.LateMarkUndoesSynced` | internal/infrastructure/postgres/queries/sync_job_queries.go:8-9 | a reachable run without the lease in which a late mark turns SYNCED into PENDING |
| `Witness.LateMarkReopensDead` | internal/infrastructure/postgres/queries/sync_job_queries.go:9 | a reachable run without the lease in which a late mark turns DEAD into PENDING without a replay |
| `Wakeup.SilentStepsOnlyDelay` | migrations/001_initial.sql:89-92 | a step for which the trigger does not fire never makes any wake-up earlier |
| `Wakeup.NoLostWakeup` | internal/sync/worker.go:62-142 | a sleeping loop either has nothing claimable and a timer no later than the first wake-up, or a back-off timer within the longest pause |
| `Wakeup.DisconnectedMeansBackoff` | internal/sync/worker.go:77-87 | without a listener the loop always sleeps on a back-off timer |
| `Wakeup.NeverStuck` | internal/sync/worker.go:89-118 | unless asleep, the loop or its listener can take a step of its own |
| `Wakeup.WakingDrains` | internal/sync/worker.go:69-118 | after the start, a token, or a timer with the listener up, the loop drains before it does anything else |
| `Wakeup.Cycle` | internal/sync/worker.go:76-118 | which of its moves the loop makes next, exactly, under any interleaving with the service and the listener |
| `Wakeup.TimerExactly` | internal/sync/worker.go:77-87 | the timer is the next wake-up, now if that has passed, none if there is none, or the current back-off without listener or answer |
| `Wakeup.ReconnectBackoff` | internal/sync/worker.go:103-114 | the pause is 250ms doubled per failure since the last success, up to the configured maximum |
| `Wakeup.UpUntilSeen` | internal/sync/worker.go:63-106 | a connected listener counts as up until the loop sees its channels closed or its error |
| `Wakeup.DownUntilReconnected` | internal/sync/worker.go:91-106 | a listener seen to be lost, or never started, stays down until a reconnection succeeds |
| `Wakeup.TriggerFires` | migrations/001_initial.sql:80-92 | the trigger fires whenever a job row changes and never in steps that write no job |
| `Wakeup.NotificationsBalance` | internal/infrastructure/postgres/repositories/sync_job_repository.go:96-115 | every notification is forwarded or still queued, tokens taken never exceed those forwarded, and a forwarded one is never lost |
| `Coalescing.MapHoldsActiveOwners` | internal/infrastructure/sap/http_client.go:150-162 | a key is in the map exactly when it has an active owner, and never two |
| `Coalescing.OnePostPerKey` | internal/infrastructure/sap/http_client.go:111-140 | at most one POST per key is on the wire |
| `Coalescing.CompletedOnce` | internal/infrastructure/sap/http_client.go:131-137 | a call's result is published once and never changes |
| `Coalescing.WaitersGetTheOwnersResult` | internal/infrastructure/sap/http_client.go:119-130 | whoever returns a result returns the owner's, for a request equal in key and body |
| `Coalescing.ResultsAreSaps` | internal/infrastructure/sap/http_client.go:131-139 | whatever an owner or waiter returns as result, SAP answered to the owner of that call before |
| `Coalescing.OutcomesExplained` | internal/infrastructure/sap/http_client.go:111-130 | a caller is refused exactly for an empty key or another body in flight when it entered, and interrupted exactly when it gave up |
| `Coalescing.SomeoneCanMove` | internal/infrastructure/sap/http_client.go:111-140 | the protocol never deadlocks: an unreturned caller or the owner it waits for can move, for every answer |
| `Coalescing.EnterFollowsVerdict` | internal/infrastructure/sap/http_client.go:150-162 | joining, refusing or opening depends only on the bodies in flight, and opens at most the newcomer's request |
| `Coalescing.FinishCloses` | internal/infrastructure/sap/http_client.go:131-137 | finishing closes the owner's request and no other |
| `Coalescing.Client.StartCall` | internal/infrastructure/sap/http_client.go:150-162 | the client object follows the same verdict and the same change of open bodies as the protocol |
| `Coalescing.Client.Complete` | internal/infrastructure/sap/http_client.go:131-137 | publishes the response, frees the key, leaves other calls alone |
| `Drain.RoundCosts` | internal/sync/worker.go:164-264 | each delivery uses up one of the job's remaining claims unless its last mark is lost |
| `Drain.Worker.ClaimDue` | internal/infrastructure/postgres/repositories/sync_job_repository.go:38-71 | locks a claimable job with the least wake-up instant, or finds none claimable |
| `Drain.Worker.Deliver` | internal/sync/worker.go:164-264 | the tables after the decision, SAP's answer and the marks: the job row the decision functions call for, and SAP's id on the order exactly after a stored success |
| `Drain.Worker.FailureMark` | internal/sync/worker.go:231-243 | the branches compute the status and due time that the state machine stores after a refusal |
| `Drain.Worker.DrainDue` | internal/sync/worker.go:144-160 | runs rounds on least claimable jobs until the claim query fails or finds nothing, and ends in the tables of exactly those rounds; claims are at most the remaining attempts plus lost marks, whatever the delays |
| `Drain.Worker.ReplayDeadJob` | cmd/order-sync-admin/main.go:100-121 | resets exactly a DEAD row and reports whether it did |
| `Simulation.RoundIsRun` | internal/sync/worker.go:164-264 | one round of the worker is a run of the state machine's steps that claims this job once and ends in the same tables |
| `Simulation.DrainIsRun` | internal/sync/worker.go:144-160 | a whole drain from any state of any run is a run of the state machine that claims the picked jobs in order and ends in the same tables |
| `Store.Database.HandleShop` | internal/db/transaction.go:23-43 | the shop webhook commits its whole effect or restores the tables, and reports the transaction's duplicate flag or error |
| `Store.Database.HandlePayment` | internal/db/transaction.go:23-43 | the payment webhook commits its whole effect or restores the tables, and reports the transaction's duplicate flag or error |
| `Store.Database.ProcessShop` | internal/shop/service.go:33-85 | the statements in order compute the shop transaction's tables, duplicate flag and error |
| `Store.Database.ReconcilePayment` | internal/shop/service.go:126-161 | linking, cancelling or paying and scheduling, as the stored payment says |
| `Store.Database.StoredAlike` | internal/infrastructure/postgres/repositories/order_repository.go:44-58 | compares the stored order with the event whatever order its rows come in |
| `Store.Database.ProcessPayment` | internal/payment/service.go:41-132 | the statements in order compute the payment transaction's tables, duplicate flag and error |
| `Store.Database.ApplyCancellation` | internal/payment/service.go:142-182 | hardware check, payment cancellation and order cancellation |
| `Store.Database.ApplyStatus` | internal/payment/service.go:101-132 | upsert and, on completion of an existing order, payment and scheduling |
| `Store.Database.AddItems` | internal/infrastructure/postgres/repositories/order_repository.go:108-115 | the loop of inserts stores exactly the given items in addition |
| `Store.Database.ListItems` | internal/infrastructure/postgres/repositories/order_repository.go:82-100 | returns the stored items in some order |
| `Store.Database.MarkPaidAndSchedule` | internal/orders/service.go:22-46 | marks paid and inserts one job, delayed exactly for hardware |
| `Store.Database.CancelOrder` | internal/infrastructure/postgres/repositories/order_repository.go:123-137 | refuses without effect when the job forbids it, else cancels order and job |
| `Store.Database.MarkPaymentEventsProcessed` | internal/infrastructure/postgres/queries/event_queries.go:7 | marks every open event of the reference |

## Left out

- Overlapping webhook transactions: isolation levels, row locks and serialization failures are not modelled.
- HTTP routing, authentication, JSON decoding, field validation, normalization and result messages.
- Configuration loading, pool creation, migrations, logging and application wiring.
- The HTTP POST, response parsing, transport error classification and the HTTP-date form of Retry-After: a call is answered nondeterministically.
- The `sync_jobs.id` column: a job is identified by its UNIQUE order, so both keys name the same row.
- Gaps in the `orders.id` sequence after conflicts and rollbacks: the next id is the next unused one.
- Bookkeeping columns (`updated_at`, `last_error`, `synced_at`, instants of `processed_at`): a processed mark is a flag.
- Start, stop and cancellation of the worker's context.
- Liveness of the worker loop: the model shows what a sleeping loop may rely on, not that the scheduler runs it.
- Two spellings of one payment timestamp: they are compared as text, as in the code, and each carries the instant it denotes.
