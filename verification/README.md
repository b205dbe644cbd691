# Order fulfilment: a verified model

This project models the parts of the order fulfilment system in which several
processes share state, and proves what every interleaving of them keeps.

**Inventory** (`StockLedger`, `InventoryMachine`, `InventoryInvariant`,
`InventoryRefinement`, `InventoryDeadlock`, `InventoryTwoMovers`, `InventoryDomain`,
`InventoryRepository`). Transactions interleave SQL statement by SQL statement
under READ COMMITTED with row locks and version-guarded updates. The machine is
shown to keep the ledger in agreement with the HELD reservations and to implement
an atomic all-lines ledger. The classes have the form of the Go code; each of their
statements is a step of that machine, so what holds of its runs holds of them.

**Payment** (`PaymentDomain`, `PaymentStore`, `PaymentServices`). Captures, webhooks
and sweeps under the version lock; the saga relies on a refusal being final.

**Order** (`OrderValues`, `OrderAggregate`, `Codec`, `EventStore`,
`EventStoreInvariant`, `OrderHandlers`). Values, the event-sourced aggregate, its
stored form, and racing handlers over the event log and the outbox.

**Publishing and the read model** (`TopicOrder`, `ReadModel`, `EventStream`,
`EventStreamInvariant`, `RelayWorker`, `Projector`). One at-least-once relay, a topic
per key, and a projector that may be set back (`Redelivery` is a run in which its
row goes back).

**Saga** (`OrderClients`, `Saga`, `SagaOutcome`, `SagaRecovery`, `Orchestrator`). The handler goes from statement to statement and may be dropped
between any two; it is started again by redelivery.

**Composition** (`System`, `WholeSystem`, `SystemRecovery`). Sagas, concrete inventory
transactions and concrete payment transactions in one machine; and (`EndToEnd`,
`EndToEndResults`, `EndToEndRecovery`) that machine with the event store, outbox, relay,
topic and read model, where orders come from committed placements, sagas from what the
topic delivers, and confirm and cancel are handlers on the event store. `InventoryAlone`
and `SystemRecovery` say what an order's own steps come to when nobody else is at work;
recovery of the whole rests on them.

**Placement** (`Placement`, `PlaceOrder`, `PlacedEvent`). Submissions under idempotency
keys, and what their event is good for downstream.

`MapSum`, `Results`, `Int64` and `Texts` hold sums over maps, error values, 64-bit
wrap-around and text functions.

A machine is a datatype of steps, a predicate saying when a step may happen and a
function giving the next state; whatever the environment decides (the order of
statements, lost connections, answers of the provider, faults) is part of the step.
A class method takes a list of what others do before each of its statements; its
contract holds for all such lists, and says more for the empty one ("undisturbed").

## Hypotheses

- One release or commit of an order at a time. In the composed system this is
  proved of the sagas; `InventoryTwoMovers.DoubleRelease` shows that it is needed.
- One handler works on an order at a time, and only the saga reserves, releases,
  commits, captures, confirms and cancels for an order; a call that the handler gave up on takes no
  effect later.
- One relay (`deploy/helm/values/order.yaml:57-60`).
- Identifiers are fresh: order ids of submissions and payment ids are not reused.

## Where the code differs from what it says

- `services/order/internal/infra/postgres/projection_repository.go:22-24` says that an
  older event never overwrites newer state. Every placement carries version 1
  (`services/order/internal/app/projection/service.go:62`), so the guard never refuses and a settled row goes back to PENDING (`Redelivery.SettledGoesBack`); the read
  model converges all the same.
- `services/order/internal/infra/inventory/client.go:99-100` says that INVALID_STATE
  means the target state is reached. In inventory it means the opposite terminal state; the reading is sound only because
  the saga never meets that answer (`SagaOutcome.DoneMeansDone`).
- `services/order/internal/infra/inventory/client.go:53-56` takes any permanent 4xx as a
  business decline; for the events that the order service emits it can only be an unknown SKU or too little stock
  (`PlacedEvent.PlacedPassesInventory`, `OrderClients.ReserveReadsTrue`).
- Reserve sorts byte by byte in Go, a transition by the collation of the database;
  deadlocks are excluded exactly when the two agree
  (`InventoryDeadlock.DeadlockFreeIffOrdersAgree`).
- Totals are not checked for overflow: a negative total is stored and announced but
  can never be loaded again (`Codec.OverflowUnreadable`), so the order can be neither
  confirmed nor cancelled and its saga never ends (`EndToEndResults.OverflowNeverEnds`).
- Order measures a currency in bytes (`services/order/internal/domain/order/value_objects.go:73`),
  payment in UTF-16 units
  (`services/payment/src/main/java/com/orderfulfillment/payment/domain/Payment.java:43`):
  "€" is accepted by the one and refused by the other, so its order is never charged. Within ASCII, which is what the
  model covers, the two agree (`EndToEndResults.ChargedUnlessFree`).
- The key of a submission is claimed before the aggregate checks the lines, so a
  refused submission loses its key (`Placement.UnplaceableLosesKey`).
- A saga that is cancelled on a rejection is not always recoverable
  (`SagaRecovery.CancelledThenPaid`).

## Model

| member | source | states |
|---|---|---|
| EndToEndResults.SagasFollowLogs | services/order/internal/infra/postgres/order_repository.go:28-114 | in every run of everything together, the orders that the sagas see are exactly those with a log, with the SKUs, quantities, total and currency of the items of the first event, and CONFIRMED or CANCELLED exactly when the last event says so; and each part is in a state of its own machine |
| EndToEndResults.OnlyItsSaga | services/order/internal/app/command/confirm_cancel.go:31-113 | in every run the log of an order changes only by the confirm or cancel that its own saga is at, by one event, and a cancellation gives the reason of the saga |
| EndToEndResults.ChargedIsPlaced | services/order/internal/app/saga/orchestrator.go:76-82 | every stored payment is for the total of the first event of the log of its order, in its currency |
| EndToEnd.HappeningKeeps | services/order/internal/app/command/confirm_cancel.go:31-113 | every step, with confirm and cancel run statement by statement on the event store, keeps the parts in agreement |
| EndToEndResults.AllEndedLogs | services/order/internal/app/saga/orchestrator.go:36-134 | once all sagas have ended no stock row has reserved units, what has left of each SKU is the quantity over the items of exactly the orders whose last event is OrderConfirmed, and available plus that is what admins put in |
| EndToEndResults.OutcomeInLog | services/order/internal/app/saga/orchestrator.go:104-134 | a COMPLETED saga has a log that ends with OrderConfirmed, a CANCELLED one a log that ends with OrderCancelled |
| EndToEndResults.CustomerSeesOutcome | services/order/internal/app/projection/service.go:47-95 | once a saga has ended, the outbox of its order is drained and the projector has caught up, the read model shows the outcome of the saga and the total that was placed |
| EndToEndResults.DeliveredIsPlaced | services/order/internal/worker/orchestrator/worker.go:85-97 | whatever copy of a placement the topic delivers, it says what the stored order is |
| EndToEndResults.GrantedUnlessHopeless | services/order/internal/app/command/confirm_cancel.go:39-45 | the saga can confirm or cancel an order exactly when its log exists, can be read, and does not have the opposite end |
| EndToEndResults.ChargedUnlessFree | services/payment/src/main/java/com/orderfulfillment/payment/domain/Payment.java:36-48 | payment opens what a stored order is charged exactly when its total is positive: the currency half of its check never fails for an order that the order service has stored |
| EndToEndRecovery.ComposedRecovery | services/order/internal/app/saga/orchestrator.go:36-134 | from every reachable state of everything together with no call in flight, a delivered order has a run of its own steps, statement by statement on inventory rows, payment rows and logs, that does to the world what one redelivery and one handler without faults do, and leaves nothing in flight; it ends the saga exactly when the state is not doomed |
| EndToEndRecovery.RecoverableIff | services/order/internal/app/saga/orchestrator.go:36-134 | from every such state, some run of the order's own steps, with any number of drops, redeliveries and lost replies and one answer of the provider, ends its saga if and only if the state is not doomed |
| EndToEndRecovery.NoOwnRunEnds | services/order/internal/app/saga/orchestrator.go:36-134 | no run of its own steps, with that answer of the provider, leads an order out of a doomed state, whatever the other orders have in flight |
| InventoryAlone.StatementAlone | services/inventory/internal/infra/postgres/inventory_repository.go:56-260 | each statement of a call with no other transaction at work brings it nearer to its end, or ends it with the answer of the atomic ledger (for a refused reserve: another line may be the one that is named) |
| EndToEndResults.NegativeNeverEnds | services/order/internal/infra/postgres/codec.go:119-122 | an order whose accumulated total is negative is refused every confirm and cancel, keeps its one event, and its saga ends in no run |
| EndToEndResults.OverflowNeverEnds | services/order/internal/domain/order/value_objects.go:96-98 | one line of two units at 2^62 validates, is stored with a negative total in some run, and its saga ends in no run |
| WholeSystem.SystemRefinesWorld | services/order/internal/app/saga/orchestrator.go:36-134 | in every run with interleaved SQL statements, captures, webhooks, sweeps, lost replies and crashes, the sagas behave as in a run over an atomic ledger that is exactly the committed inventory rows and the stored payments; at most one release or commit per order is ever in flight |
| WholeSystem.EventKeeps | services/order/internal/app/saga/orchestrator.go:36-134 | every event of the composed system keeps its parts in agreement: the call in flight is the one the handler waits for, and each part is in a state that its own machine can reach |
| WholeSystem.AllEndedRows | services/order/internal/app/saga/orchestrator.go:36-134 | once all sagas have ended no row has reserved stock, what has left of each SKU is the quantity over exactly the confirmed orders, and available plus that is what admins put in |
| WholeSystem.OutcomeOnRows | services/order/internal/app/saga/orchestrator.go:60-134 | on the stored rows: a COMPLETED saga has order CONFIRMED, reservation COMMITTED and its one payment captured for the total under the recorded reference, neither pending nor declined; a CANCELLED saga has order CANCELLED, no reservation or a RELEASED one, and no approved payment |
| WholeSystem.StoredPayment | services/payment/src/main/java/com/orderfulfillment/payment/application/PaymentService.java:44-77 | every stored payment row of an order is the one its saga has seen, for the total and in the currency that were placed |
| WholeSystem.ExecAtomic | services/inventory/internal/infra/postgres/inventory_repository.go:56-260 | a statement that does not end its call changes no committed row, and one that does has the effect of the whole atomic call |
| WholeSystem.ReservesAlone | services/inventory/internal/infra/postgres/inventory_repository.go:63-125 | with a single reserver per order, a reserve that got past its first SELECT finds no reservation until it inserts its own |
| WholeSystem.AnswerSeen | services/payment/src/main/java/com/orderfulfillment/payment/application/PaymentService.java:44-77 | the reply of a capture is an answer that the saga may act on, and leaves it with the payment that is stored |
| StockLedger.HeldIsCovered | services/inventory/internal/domain/inventory/stock_item.go:50-73 | a HELD line never exceeds what the SKU has reserved, so a release or commit is not refused for want of reserved stock |
| StockLedger.ReserveKeepsLedger | services/inventory/internal/infra/postgres/inventory_repository.go:71-132 | granting all lines at once keeps reserved equal to the quantity over HELD reservations, and no counter negative |
| StockLedger.MoveKeepsLedger | services/inventory/internal/infra/postgres/inventory_repository.go:214-252 | releasing or committing a HELD reservation as a whole keeps the same agreement |
| StockLedger.RestockKeepsLedger | services/inventory/internal/infra/postgres/inventory_repository.go:290-299 | overwriting the available stock of any SKU keeps the same agreement |
| StockLedger.MoveConserves | services/inventory/internal/infra/postgres/inventory_repository.go:214-252 | a release or commit keeps available plus reserved plus shipped of every SKU |
| InventoryInvariant.StepKeeps | services/inventory/internal/infra/postgres/inventory_repository.go:56-299 | the inductive invariant of all interleavings: ledger agreement, rows read are older or unchanged, rows written are locked and current, one holder per row |
| InventoryInvariant.LedgerAgreement | services/inventory/internal/infra/postgres/inventory_repository.go:56-299 | in every reachable state reserved equals the quantity over HELD reservations for each SKU, and no counter is negative |
| InventoryInvariant.CommitIsAtomic | services/inventory/internal/infra/postgres/inventory_repository.go:94-133 | rows computed from earlier reads are, at COMMIT, those of the one-step operation on the rows as they are then |
| InventoryInvariant.StorableIffAllowed | services/inventory/internal/infra/postgres/inventory_repository.go:94-101 | the CHECK constraints refuse an UPDATE exactly when a counter would pass int64, and otherwise the row stored is the exact sum |
| InventoryRefinement.StepRefines | services/inventory/internal/infra/postgres/inventory_repository.go:40-260 | each step changes nothing, or is one admin upsert, or is one whole atomic call; whichever statement ends a call, its answer is the one the atomic call gives at that moment |
| InventoryRefinement.ReadAnswers | services/inventory/internal/infra/postgres/inventory_repository.go:74-91 | an unknown-SKU or insufficient-stock answer names a line that the committed row cannot serve at that very read; a release or commit is never refused there |
| InventoryRefinement.OnlyPossibleAnswers | services/inventory/internal/infra/postgres/inventory_repository.go:40-260 | in every run: releases and commits never fail for want of stock, SKU or validation, and every call gets an answer of its own kind |
| InventoryRefinement.ConflictMeansFiveCommits | services/inventory/internal/infra/postgres/inventory_repository.go:40-54 | ErrConcurrency means exactly five attempts, and inside each of them a commit of another transaction on one of the SKUs of the call |
| InventoryRefinement.FailedGuard | services/inventory/internal/infra/postgres/inventory_repository.go:94-104 | a guarded UPDATE that matches no row proves that somebody committed to that row during this attempt |
| InventoryRefinement.StockConserved | services/inventory/internal/infra/postgres/inventory_repository.go:56-299 | in every run available plus reserved plus shipped of a SKU equals the net stock that admin upserts brought in |
| InventoryTwoMovers.DoubleRelease | services/inventory/internal/infra/postgres/inventory_repository.go:177-252 | why one release or commit per order at a time is required: a run in which two releases of one order are both DONE and another order is HELD although nothing is reserved |
| InventoryDeadlock.NoCycle | services/inventory/internal/infra/postgres/inventory_repository.go:41-112 | when all lines are locked in one total order on SKUs, no set of transactions waits in a circle |
| InventoryDeadlock.DeadlockFreeIffOrdersAgree | services/inventory/internal/infra/postgres/inventory_repository.go:41-42 | circular waiting is impossible in every run if and only if the order Go sorts by and the order the database sorts by are the same |
| InventoryDomain.NewSku | services/inventory/internal/domain/inventory/value_objects.go:13-19 | accepts exactly the texts with 1 to 64 characters after trimming, and keeps the trimmed text |
| InventoryDomain.NewQuantity | services/inventory/internal/domain/inventory/value_objects.go:26-31 | accepts exactly 1 to 100000 |
| InventoryDomain.StockItem.Reserve | services/inventory/internal/domain/inventory/stock_item.go:36-46 | all of the hold or, with an error, none of it: a quantity that is not positive is invalid, one above what is available is insufficient stock |
| InventoryDomain.StockItem.Release | services/inventory/internal/domain/inventory/stock_item.go:50-60 | all of the return or, with an error, none of it |
| InventoryDomain.StockItem.Commit | services/inventory/internal/domain/inventory/stock_item.go:64-73 | takes the quantity from reserved only, or, with an error, nothing |
| InventoryDomain.HoldThenSettle | services/inventory/internal/domain/inventory/stock_item.go:36-73 | a hold moves its quantity from available to reserved and is possible exactly within the available stock; released it restores the ledger, committed it removes exactly its quantity |
| InventoryDomain.Reservation.New | services/inventory/internal/domain/inventory/reservation.go:22-34 | creates a HELD reservation exactly for a non-empty list of distinct SKUs |
| InventoryDomain.Reservation.Release | services/inventory/internal/domain/inventory/reservation.go:49-59 | HELD becomes RELEASED, RELEASED is a no-op, COMMITTED is refused and stays |
| InventoryDomain.Reservation.Commit | services/inventory/internal/domain/inventory/reservation.go:63-73 | HELD becomes COMMITTED, COMMITTED is a no-op, RELEASED is refused and stays |
| InventoryDomain.CheckReserve | services/inventory/internal/app/reserve.go:48-68 | exactly the non-empty requests with valid SKUs and quantities and no SKU twice after trimming reach the store, trimmed and in order |
| Texts.LessIff | services/inventory/internal/infra/postgres/inventory_repository.go:42-42 | SKUs are compared byte by byte: the first difference decides, and a proper prefix comes first |
| InventoryDomain.SortLinesSpec | services/inventory/internal/infra/postgres/inventory_repository.go:41-42 | the lines reach the transaction as the same lines, strictly ascending by SKU |
| InventoryRepository.InventoryRepository.Reserve | services/inventory/internal/infra/postgres/inventory_repository.go:40-54 | GRANTED: this call committed, as the last commit, one HELD reservation of the sorted lines; INTERNAL: that, with the acknowledgement lost, or nothing; any other answer: it committed nothing; CONFLICT: five disturbed attempts; undisturbed: the answer and effect of the atomic call, an error only where a counter would pass int64 |
| InventoryRepository.InventoryRepository.ReserveOnce | services/inventory/internal/infra/postgres/inventory_repository.go:56-143 | one attempt asks for another only after a guard that failed, reports an existing reservation with its stored status, and alone on the table behaves as the atomic call |
| InventoryRepository.InventoryRepository.ReserveItems | services/inventory/internal/infra/postgres/inventory_repository.go:71-91 | each aggregate holds what reserving makes of the row that was read, at the version that was read; the first refusal ends the attempt |
| InventoryRepository.InventoryRepository.PersistItems | services/inventory/internal/infra/postgres/inventory_repository.go:93-105 | all rows are written, or the transaction starts over, or it ends with an error; undisturbed it never starts over |
| InventoryRepository.InventoryRepository.FinishReserve | services/inventory/internal/infra/postgres/inventory_repository.go:107-133 | the reservation is stored and committed with the rows, or the reservation of whoever got in first is reported |
| InventoryRepository.InventoryRepository.Transition | services/inventory/internal/infra/postgres/inventory_repository.go:156-167 | DONE: this call moved the whole reservation at its commit; INTERNAL: that, with the acknowledgement lost, or nothing; any other answer: it committed nothing; DONE or already there: the reservation is in the target status; undisturbed: the answer and effect of the atomic call |
| InventoryRepository.InventoryRepository.TransitionOnce | services/inventory/internal/infra/postgres/inventory_repository.go:169-260 | one attempt of the same, which asks for another only after a guard that failed |
| InventoryRepository.InventoryRepository.LoadStockItem | services/inventory/internal/infra/postgres/inventory_repository.go:301-312 | reads the committed row; if that ends the call, the answer is justified by this row |
| InventoryRepository.InventoryRepository.LoadReservation | services/inventory/internal/infra/postgres/inventory_repository.go:176-188 | finds the committed status of the order, and the stored lines in the order of the database |
| InventoryRepository.InventoryRepository.RereadReservation | services/inventory/internal/infra/postgres/inventory_repository.go:113-122 | after a unique violation the other reservation is there, and its status is reported |
| InventoryRepository.InventoryRepository.UpsertStock | services/inventory/internal/infra/postgres/inventory_repository.go:290-299 | sets the available stock of the SKU; undisturbed, exactly that row changes, with reserved kept and the version raised |
| OrderClients.ReserveReadsTrue | services/order/internal/infra/inventory/client.go:66-75 | through status and code, the order service takes a reserve as rejected exactly for an unknown SKU or insufficient stock, and retries exactly when nothing was decided |
| OrderClients.MoveReadsTrue | services/inventory/internal/presentation/http/apierrors.go:35-50 | through status and code, a release or commit reads as success exactly when it is done, already done, or INVALID_STATE |
| Saga.StepKeeps | services/order/internal/app/saga/orchestrator.go:36-134 | the inductive invariant of the sagas: the persisted state agrees with reservation, payment and order in every interleaving of handlers, crashes, provider changes and admin changes |
| Saga.AdvanceAuthorize | services/order/internal/app/saga/orchestrator.go:78-102 | an approved answer always finds the reservation HELD: once stock was released every later answer is a refusal |
| Saga.AnswerMeans | services/order/internal/infra/inventory/client.go:89-105 | a definite answer to a reserve, release or commit tells the status of the reservation afterwards |
| SagaOutcome.OutcomeIsConsistent | services/order/internal/app/saga/orchestrator.go:60-134 | COMPLETED means confirmed, committed and captured under the recorded reference; CANCELLED means cancelled, nothing held and no payment or a refused one |
| SagaOutcome.DoneMeansDone | services/order/internal/infra/inventory/client.go:98-101 | reading INVALID_STATE as success is sound for the saga: whenever it takes a release or commit as done, the reservation is in that status, and it never gets that code |
| SagaOutcome.ReservationMoves | services/order/internal/app/saga/orchestrator.go:60-118 | a reservation is made once, released only while its payment is refused, committed only after PAID was recorded with that payment, and both are final |
| SagaOutcome.ProgressIsKept | services/order/internal/app/saga/instance.go:7-32 | in every run the rank of the persisted state never decreases, and an ended saga and its order never change again |
| SagaOutcome.RedeliveryChangesNothing | services/order/internal/app/saga/orchestrator.go:50-52 | a redelivered event of an ended saga changes nothing |
| SagaOutcome.AllEndedBalance | services/order/internal/app/saga/orchestrator.go:36-134 | the balance of reserved and shipped stock against confirmed orders, over the atomic ledger |
| SagaRecovery.UndroppedHandlerEnds | services/order/internal/app/saga/orchestrator.go:36-134 | a handler that gets to take nine statements without being dropped ends its saga, whatever everybody else does meanwhile |
| SagaRecovery.BlockedIff | services/order/internal/app/saga/orchestrator.go:60-118 | the next statement of a handler can get no definite answer exactly in five cases: an order to charge whose total is not positive or whose currency is not three long, a negative total to cancel, a cancelled order to confirm, an int64 overflow in a reserve or in a release |
| SagaRecovery.HeldAllowsCommit | services/order/internal/app/saga/orchestrator.go:105-108 | committing a HELD reservation is always possible |
| SagaRecovery.GrantThenRelease | services/order/internal/app/saga/orchestrator.go:85-88 | what was just granted can always be given back |
| SagaRecovery.RestartEndsIff | services/order/internal/app/saga/orchestrator.go:36-134 | from every reachable state between handlers, redelivery and one handler without faults end the saga if and only if a condition on rows, payment and order holds, and then further redeliveries change nothing |
| SagaRecovery.ChargeableRecovers | services/order/internal/app/saga/orchestrator.go:36-134 | an order that payment can open a charge for is recoverable whatever the provider says if and only if it is not hindered: a cancelled order with stock held or grantable whose payment can be approved, or a counter that would pass int64 in its reserve or release; the latter cannot be while available plus reserved of every SKU fits int64 |
| SagaRecovery.StuckForever | services/order/internal/app/saga/orchestrator.go:76-118 | with a negative total, once paid for a cancelled order, or holding stock for an order that cannot be charged, no run ever ends the saga |
| SagaRecovery.CancelledThenPaid | services/order/internal/app/saga/orchestrator.go:60-64 | the run to be excluded, for every one-line order that can be charged: rejected and cancelled, not saved, then granted, captured and committed, and never ended |
| SagaRecovery.CancelledUnsaved | services/order/internal/app/saga/orchestrator.go:123-131 | a crash between cancelling the order and saving the saga can leave a cancelled order with a STARTED saga, exactly when the total is not negative |
| Orchestrator.Orchestrator.Handle | services/order/internal/app/saga/orchestrator.go:36-121 | no error means that the saga has ended, as COMPLETED or CANCELLED; undisturbed, the handler has the effect of the statements of the saga one after the other, and returns without an error exactly when the state was recoverable; other orders are left alone |
| Orchestrator.Orchestrator.ReserveStep | services/order/internal/app/saga/orchestrator.go:59-74 | stock held and recorded, or the order cancelled and the saga stored as CANCELLED with the reason "inventory reservation rejected", or an error with nothing of the handler left |
| Orchestrator.Orchestrator.PayStep | services/order/internal/app/saga/orchestrator.go:76-102 | paid and recorded under the reference of the reply, or stock released, order cancelled and saga ended, or an error |
| Orchestrator.Orchestrator.Compensate | services/order/internal/app/saga/orchestrator.go:85-94 | after a decline, without an error the stock is released, the order cancelled and the saga stored as CANCELLED with the reason "payment declined", and what the provider said if anything |
| Orchestrator.Orchestrator.CommitStep | services/order/internal/app/saga/orchestrator.go:104-118 | stock committed, order confirmed and the saga saved as COMPLETED, or an error |
| Orchestrator.Orchestrator.Cancel | services/order/internal/app/saga/orchestrator.go:123-134 | without an error the order is cancelled and the saga stored as CANCELLED with the reason |
| Orchestrator.Orchestrator.Authorize | services/order/internal/infra/payment/client.go:62-92 | an approval or refusal is that of the stored payment; giving up on an order that can be charged after n failed calls means that each but the last was a transport error, a status of at least 500 or 429, and that n is four or the last failed for good; after any fewer than four such failures an answer is the result |
| Orchestrator.Orchestrator.CaptureOnce | services/order/internal/infra/payment/client.go:98-134 | one call: a 2xx reply with a body is the stored payment; any other reply to a charge that can be opened is the failure of this call, although the capture may have taken effect |
| Orchestrator.Orchestrator.LoadSaga | services/order/internal/infra/postgres/saga_repository.go:21-37 | finds the stored instance, or none, and resumes at the step that its state calls for |
| Orchestrator.Orchestrator.SaveSaga | services/order/internal/infra/postgres/saga_repository.go:39-54 | without an error the stored instance is the one saved |
| Orchestrator.Worker.Run | services/order/internal/worker/orchestrator/worker.go:42-97 | every message behind the committed offset has had its effect: its saga has ended, or it is dead lettered when unreadable; undisturbed, only a saga that cannot end stops the loop |
| PaymentDomain.TransitFollowsGraph | services/payment/src/main/java/com/orderfulfillment/payment/domain/Payment.java:56-117 | a transition changes the status exactly along the edges of the lifecycle, is a no-op exactly at its goal, is illegal elsewhere, and never touches identity, order, amount or currency; only a capture sets the reference, only a decline or failure its reason |
| PaymentDomain.RefusedIsFinal | services/payment/src/main/java/com/orderfulfillment/payment/domain/Payment.java:69-121 | declined, refunded and failed are exactly the statuses that are not approved, and nothing leaves them |
| PaymentDomain.Payment.Capture | services/payment/src/main/java/com/orderfulfillment/payment/domain/Payment.java:57-67 | moves the object along the lifecycle or leaves it as it was, and says which |
| PaymentDomain.Payment.Decline | services/payment/src/main/java/com/orderfulfillment/payment/domain/Payment.java:70-80 | the same for decline |
| PaymentDomain.Payment.Settle | services/payment/src/main/java/com/orderfulfillment/payment/domain/Payment.java:83-92 | the same for settle |
| PaymentDomain.Payment.Refund | services/payment/src/main/java/com/orderfulfillment/payment/domain/Payment.java:95-104 | the same for refund, from captured and from settled |
| PaymentDomain.Payment.Fail | services/payment/src/main/java/com/orderfulfillment/payment/domain/Payment.java:107-117 | the same for fail, with its reason |
| PaymentStore.StepKeeps | services/payment/src/main/java/com/orderfulfillment/payment/adapter/out/persistence/PaymentRepositoryAdapter.java:28-53 | the inductive invariant of captures, webhooks and sweeps under the version lock |
| PaymentStore.OnePaymentPerOrder | services/payment/src/main/java/com/orderfulfillment/payment/application/PaymentService.java:44-71 | in every run at most one payment is stored per order |
| PaymentStore.PaymentHistory | services/payment/src/main/java/com/orderfulfillment/payment/domain/Payment.java:57-117 | from any state on, a stored payment is never removed, its order, amount, currency and reference never change, and its status only moves along the lifecycle |
| PaymentStore.WebhookOnce | services/payment/src/main/java/com/orderfulfillment/payment/adapter/out/persistence/WebhookEventStoreAdapter.java:15-22 | in every run each webhook event is applied at most once |
| PaymentStore.StableRefusal | services/payment/src/main/java/com/orderfulfillment/payment/application/PaymentService.java:44-77 | in every run, once a capture of an order is answered with a refusal every later answer is a refusal, and all answers name one reference |
| PaymentServices.PaymentService.Capture | services/payment/src/main/java/com/orderfulfillment/payment/application/PaymentService.java:44-77 | an answer reports the stored payment of the order as it is now; undisturbed, the call answers unless the arguments cannot be opened, a first call stores one row with the order, amount and currency given, captured under the reference or declined for the reason that the provider gives, and a repeated one stores nothing |
| PaymentServices.Database.FindByOrder | services/payment/src/main/java/com/orderfulfillment/payment/adapter/out/persistence/PaymentRepositoryAdapter.java:28-31 | finds the payment of the order exactly when there is one |
| PaymentServices.Database.FindByReference | services/payment/src/main/java/com/orderfulfillment/payment/adapter/out/persistence/PaymentRepositoryAdapter.java:33-36 | finds the only payment under the reference, and tells none from several |
| PaymentServices.Database.CommitTx | services/payment/src/main/java/com/orderfulfillment/payment/adapter/out/persistence/PaymentRepositoryAdapter.java:38-47 | all changed rows are stored, exactly when each still has the version that was read and the event is new; otherwise none |
| PaymentServices.ReconciliationService.LocatePayment | services/payment/src/main/java/com/orderfulfillment/payment/application/ReconciliationService.java:91-102 | a found payment has the given reference if that is not blank and some payment has it, and else is that of the given order |
| PaymentServices.ReconciliationService.HandleWebhook | services/payment/src/main/java/com/orderfulfillment/payment/application/ReconciliationService.java:52-89 | the change and the record of the event id are stored together or not at all; undisturbed, exactly when the event is new and finds a payment that may take it: payment.settled makes a captured one SETTLED, payment.refunded a captured or settled one REFUNDED, payment.failed a captured one FAILED with the reason given, any other kind changes nothing, and no other payment is touched |
| PaymentServices.ReconciliationService.SweepStaleCaptured | services/payment/src/main/java/com/orderfulfillment/payment/application/ReconciliationService.java:104-130 | every definite answer of the provider is stored, as SETTLED or as FAILED with its reason, or, when any row moved meanwhile, none; undisturbed no other payment is touched |
| PaymentServices.ReconciliationService.Settlements | services/payment/src/main/java/com/orderfulfillment/payment/application/ReconciliationService.java:108-129 | the loop makes one update per definite answer, from the row that was read |
| OrderValues.NewSku | services/order/internal/domain/order/value_objects.go:43-49 | accepts exactly 1 to 64 characters after trimming, as the trimmed text; a text is accepted unchanged exactly when it is in stored form |
| Texts.TrimSpaceCuts | services/order/internal/domain/order/value_objects.go:44-44 | what trimming leaves of a text is all of it but its outer spaces |
| Texts.ToUpperIs | services/order/internal/domain/order/value_objects.go:72-72 | each letter becomes its capital at the same place, and nothing else changes |
| OrderValues.NewQuantity | services/order/internal/domain/order/value_objects.go:56-61 | accepts exactly 1 to 10000 |
| OrderValues.NewMoney | services/order/internal/domain/order/value_objects.go:71-80 | accepts exactly three characters after trimming and a non-negative amount, as the trimmed upper-case text and that amount; accepted unchanged exactly when in stored form |
| OrderValues.Add | services/order/internal/domain/order/value_objects.go:82-87 | refuses exactly different currencies, and is exact while the sum fits int64 |
| OrderValues.NewAddress | services/order/internal/domain/order/value_objects.go:110-126 | requires the four mandatory fields and a two-character country, and keeps each field trimmed; accepted unchanged exactly when in stored form |
| OrderValues.NewIdempotencyKey | services/order/internal/domain/order/value_objects.go:140-146 | accepts exactly 8 to 128 characters after trimming, as the whole trimmed text |
| OrderValues.RunningIsWrapped | services/order/internal/domain/order/value_objects.go:82-98 | a total that wraps at every step is the true sum wrapped once |
| OrderValues.TotalExactIff | services/order/internal/domain/order/order.go:32-44 | on validated lines the accumulated total is the true sum if and only if the true sum fits int64 |
| OrderValues.SmallPricesExact | services/order/internal/domain/order/order.go:32-44 | with every price at most (2^63-1)/(10000*n) for n lines the total is exact and non-negative |
| OrderValues.ExactSumPermutes | services/order/internal/domain/order/order.go:32-44 | the sum does not depend on the order of the lines |
| OrderAggregate.GoodLogFolds | services/order/internal/domain/order/order.go:59-93 | a placement followed by at most one terminal event folds to the placement with the status of the last event |
| OrderAggregate.DecideKeepsLog | services/order/internal/domain/order/order.go:98-123 | confirm and cancel raise an event only while pending, keep the log well formed, and afterwards are no-ops or illegal |
| OrderAggregate.PlacementPermutes | services/order/internal/domain/order/order.go:24-56 | neither acceptance nor the total of a placement depends on the order of the lines |
| OrderAggregate.Order.PlaceOrder | services/order/internal/domain/order/order.go:24-56 | accepts exactly a non-nil id with a non-empty list of distinct SKUs in one currency, and stages one event whose fold is the aggregate |
| OrderAggregate.Order.Rehydrate | services/order/internal/domain/order/order.go:59-69 | refuses exactly the empty history; otherwise the state is its fold and the version its length |
| OrderAggregate.Order.Confirm | services/order/internal/domain/order/order.go:98-108 | raises the event, does nothing, or refuses, by the status; staged events and version grow by exactly what was raised |
| OrderAggregate.Order.Cancel | services/order/internal/domain/order/order.go:113-123 | the same for cancel, with its reason |
| Codec.RoundTripIff | services/order/internal/infra/postgres/codec.go:44-150 | an event reads back as itself if and only if its parts are in the form that the value constructors produce |
| Codec.DecodeNormalises | services/order/internal/infra/postgres/codec.go:84-150 | whatever decodes is in that form, so storing and reading it again changes nothing |
| Codec.PlacementReadable | services/order/internal/infra/postgres/codec.go:84-126 | a placement of validated lines can be read back if and only if its accumulated total is not negative, in particular when the true total fits int64 |
| Codec.OverflowUnreadable | services/order/internal/infra/postgres/codec.go:119-122 | a validated line whose price times quantity wraps to a negative total is accepted, and its event cannot be read back |
| Codec.EncodeEvent | services/order/internal/infra/postgres/codec.go:44-82 | the loop stores every line of a placement in order, and the type and fields of each event |
| Codec.DecodeEvent | services/order/internal/infra/postgres/codec.go:84-150 | reads each field through its constructor and stops at the first that is refused |
| EventStoreInvariant.StepKeeps | services/order/internal/infra/postgres/order_repository.go:60-114 | the inductive invariant of any number of racing handlers: logs well formed, one outbox row per event, one holder per version |
| EventStoreInvariant.LogAndOutbox | services/order/internal/infra/postgres/order_repository.go:60-114 | in every run the log of each order is its placement and at most one terminal event, and the outbox holds exactly one row per event, in log order |
| EventStoreInvariant.LogOnlyGrows | services/order/internal/infra/postgres/order_repository.go:60-114 | in every run the log of an order never loses or changes an event |
| EventStoreInvariant.WinnerAgrees | services/order/internal/infra/postgres/order_repository.go:28-114 | whoever commits has in memory the fold of the stored log, at its version, and the log loads back to it unless the placement has a negative total |
| EventStoreInvariant.ConflictIff | services/order/internal/infra/postgres/order_repository.go:78-87 | a handler is told of a conflict exactly when the log of its order has moved on since it loaded |
| EventStoreInvariant.RefusedIffHopeless | services/order/internal/app/command/confirm_cancel.go:39-45 | a load leads to a refusal exactly when there is no log, it cannot be read, or the order has the opposite end |
| EventStoreInvariant.SuccessHasRead | services/order/internal/infra/postgres/order_repository.go:43-46 | a confirm or cancel that succeeds has an order that can be read back, whatever the interleaving |
| EventStoreInvariant.CommandIsAtomic | services/order/internal/app/command/confirm_cancel.go:31-113 | whatever the interleaving, a confirm or cancel that saves appends its own event to a pending order in one step at its commit; one that changes nothing found it there; a refusal is justified by the log as it is |
| OrderHandlers.EveryEventAnnounced | services/order/internal/app/command/confirm_cancel.go:117-155 | the message of every stored event is announced, by whichever of the two outbox builders its handler uses |
| OrderHandlers.OrderRepository.Load | services/order/internal/infra/postgres/order_repository.go:28-56 | the aggregate is the fold of the log as it is now, at its length; it fails only when there is nothing to do |
| OrderHandlers.OrderRepository.Save | services/order/internal/infra/postgres/order_repository.go:60-114 | without an error, or with the acknowledgement of the commit lost, the log ends with the staged events and the aggregate is its fold; undisturbed, that is so exactly when the expected version is the length of the log |
| OrderHandlers.OrderCommands.Confirm | services/order/internal/app/command/confirm_cancel.go:31-64 | without an error the order is confirmed now; if the handler stored anything the log ends with its own event and the aggregate is the fold; undisturbed, it fails only when there is no log, it cannot be read, or the order is cancelled |
| OrderHandlers.OrderCommands.Cancel | services/order/internal/app/command/confirm_cancel.go:80-113 | the same for cancel |
| OrderHandlers.LifecycleOutbox | services/order/internal/app/command/confirm_cancel.go:117-155 | one message for each confirmed or cancelled event, in order |
| TopicOrder.SendKeeps | services/order/internal/infra/postgres/relay_store.go:69-71 | sending the next record of a batch, however often the batch is repeated, keeps first copies in outbox order |
| TopicOrder.MarkKeeps | services/order/internal/infra/postgres/relay_store.go:73-78 | once a whole batch is out and marked, its copies are the last ones of its rows |
| EventStreamInvariant.MarkedWasPublished | services/order/internal/infra/postgres/relay_store.go:69-78 | in every run a row marked published has been on the topic of its order |
| EventStreamInvariant.FailedDrainMarksNothing | services/order/internal/infra/postgres/relay_store.go:69-78 | a drain that ends without its mark, whatever was sent and happened meanwhile, leaves every unpublished row unpublished |
| EventStreamInvariant.FirstAppearInLogOrder | services/order/internal/infra/postgres/relay_store.go:30-36 | in every run with one relay the events of an order first appear in the order of its log |
| EventStreamInvariant.LastCopiesInLogOrder | services/order/internal/infra/postgres/relay_store.go:69-78 | the last copy of an earlier event precedes the last copy of a later one once both are marked |
| EventStreamInvariant.ReadModelConverges | services/order/internal/infra/postgres/projection_repository.go:25-57 | whatever failed, was published twice or read again: once the outbox of an order is drained and the projector has caught up, its row is the fold of its log |
| EventStreamInvariant.ConsumeKeepsIff | services/order/internal/app/projection/service.go:47-95 | in every run, reading a record leaves its own status in the row; a redelivered placement keeps the row exactly while it is PENDING |
| Redelivery.SettledGoesBack | services/order/internal/infra/postgres/projection_repository.go:22-38 | for every readable order and either end of it, a reachable state whose row is the fold of the settled log and is set back to PENDING by the next record |
| RelayWorker.RelayStore.DrainBatch | services/order/internal/infra/postgres/relay_store.go:23-80 | the first unpublished rows are all on the topic and marked, or an error leaves every mark as it was, unless only the acknowledgement of the commit was lost |
| RelayWorker.BatchIsFirst | services/order/internal/infra/postgres/relay_store.go:30-36 | a batch leaves out no unpublished row that precedes one of its own, and a short batch leaves out none |
| RelayWorker.Worker.Run | services/order/internal/worker/relay/relay.go:34-64 | the relayed metric counts only rows that got marked, and all of them unless an acknowledgement was lost, nothing is ever unmarked, and the rows heading the outbox at the start are marked when the first cycle succeeds |
| ReadModel.ProjectKeeps | services/order/internal/app/projection/service.go:47-95 | a message of an order leaves its own status in the row, and the fields of the placement as they are |
| ReadModel.RedeliveryGoesBack | services/order/internal/infra/postgres/projection_repository.go:37-38 | a redelivered placement sets a settled order back to PENDING: the version guard never refuses, as all placements carry version 1; the row is left alone exactly when it is PENDING |
| ReadModel.FoldedIsLast | services/order/internal/domain/order/order.go:59-93 | the fold of a well-formed log is its placement with the status of its last message: customer, total, currency and time of the placement, CONFIRMED or CANCELLED exactly if the last event says so |
| Projector.ProjectionRepository.UpsertOrderPlaced | services/order/internal/infra/postgres/projection_repository.go:25-43 | inserts or refreshes the row of one order, unless the stored one has a higher version |
| Projector.ProjectionRepository.UpdateStatus | services/order/internal/infra/postgres/projection_repository.go:49-57 | sets the status of one order and nothing else; without a row it does nothing |
| Projector.ProjectionRepository.GetOrder | services/order/internal/infra/postgres/projection_repository.go:61-74 | the row, or not found exactly when there is none |
| Projector.Service.Apply | services/order/internal/app/projection/service.go:30-95 | exactly the row of the message changes, as its type says |
| Projector.ReplayIsLast | services/order/internal/app/projection/service.go:47-95 | replaying the messages of an order from its placement on, whatever the row held, ends with the placement and the last status |
| Projector.Worker.Run | services/order/internal/worker/projector/projector.go:43-82 | every message behind the committed offset is applied, or dead lettered when unreadable, and at most one more is applied without being committed |
| Placement.OneOrderPerKey | services/order/internal/infra/postgres/idempotency.go:18-38 | over any concurrent or crashing submissions at most one order is ever stored for a key |
| Placement.RepliesAgree | services/order/internal/app/command/place_order.go:83-90 | all successful replies under a key name one order |
| Placement.LostClaimIsForever | services/order/internal/app/command/place_order.go:83-106 | a submission that claims its key and then fails leaves the key for good to an order that is never stored, and every later reply names it |
| Placement.UnplaceableLosesKey | services/order/internal/app/command/place_order.go:83-95 | lines that repeat a SKU or mix currencies are refused only after the claim, and so lose the key |
| PlacedEvent.MessageCarriesAll | services/order/internal/app/command/place_order.go:140-178 | the message of a validated event carries all of it: the event can be rebuilt from what is announced |
| PlacedEvent.PlacedPassesInventory | services/order/internal/app/command/place_order.go:140-178 | every emitted order.placed payload passes the validation of inventory unchanged, so a rejection can only mean an unknown SKU or too little stock |
| PlaceOrder.BuildLineItems | services/order/internal/app/command/place_order.go:117-138 | accepts exactly a non-empty list of lines that each have a SKU of 1 to 64 characters, a quantity of 1 to 10000, three characters of currency and a price that is not negative; each item has the trimmed SKU, the quantity, the price and the trimmed upper-case currency of its line |
| PlaceOrder.Check | services/order/internal/app/command/place_order.go:64-79 | passes exactly the input whose key, customer, lines and address are each valid, and yields the whole trimmed key and the values of each line and address field; says which error it is otherwise |
| PlaceOrder.ToOutbox | services/order/internal/app/command/place_order.go:140-178 | one message for each placed event, with every line of it, in order |
| PlaceOrder.IdempotencyStore.Reserve | services/order/internal/infra/postgres/idempotency.go:18-38 | afterwards the key names the answer, taken keys keep their order, and a claim succeeds exactly when the key was free |
| PlaceOrder.PlaceOrderHandler.Handle | services/order/internal/app/command/place_order.go:60-115 | unchecked input writes nothing; a replay answers with the order on record; a key is met again exactly when the trimmed texts are equal; a placement is stored as one event of the lines of the submission, its total the wrapped sum of price times quantity, when the reply says so; undisturbed, a first submission is stored exactly when no trimmed SKU is given twice and all currencies agree |

## Left out

- Stock counters wrap at 64 bits in the model; row versions, outbox ids and log versions are unbounded.
- InventoryRepository.InventoryRepository.LoadReservation: the SELECTs of the reservation and of its lines are one statement here, as stored lines never change.
- InventoryRepository.InventoryRepository.FinishReserve: the INSERTs of the reservation and of its lines are one statement here, as only the first can be refused.
- The version-guarded UPDATE waits for the lock holder as a step that is not enabled; the statement timeout and the detection of deadlocks by the database are not modelled.
- PaymentStore.StableRefusal: replies are ordered by the read or insert that determines them, not by their arrival.
- PaymentServices.PaymentService.Capture: the charge at the provider is an arbitrary answer and may be made without a stored row, as the code charges before it stores; payment events, sent before the commit, are not modelled.
- PaymentServices.ReconciliationService.SweepStaleCaptured: the age threshold is part of which payments the query returns.
- Orchestrator.Orchestrator.Authorize: backoff and cancellation of the context between attempts are not modelled.
- PaymentServices.ReconciliationService.HandleWebhook: `committed` is what the database did, not whether its acknowledgement arrived.
- In the composed systems a lost acknowledgement is a call that takes effect followed by the loss of its handler.
- Idempotency keys are a machine of their own (`Placement`); the end-to-end machine starts at PlaceOrder's staged event.
- EventStream: the topic is one sequence per key, and each key may be set back on its own; partitions and consumer groups are not modelled.
- Projector.Service.Apply: event types that the projection does not know are ignored by the code and are not part of the model.
- Codec: JSON text is a record; a field that does not parse is an identifier that is absent, and the kinds of parse errors are not told apart.
- Text is ASCII, one byte per character, which leaves out currencies like "€" that order accepts and payment refuses; UUIDs, times and trace headers are opaque values.
- Two transitions of one order at once, several handlers on one order, and several relays with SKIP LOCKED: outside the hypotheses, except for the run that shows the first one is needed.
- Queries without effect (GetReservation, GetStock, getByOrderId), metrics, logging, tracing, HTTP routing, authentication and configuration.
- Fulfillment and notification services: smaller copies of the same idempotent transitions and deduplication.
- Migrations, deployment files, schemas and the simulated payment gateways.
