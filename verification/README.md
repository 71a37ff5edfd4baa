# ScaleForge: a verified model

A Dafny model of ScaleForge's event pipeline, of the orders and payments that feed it, of the
notification delivery machine behind it, and of the load probe, with proofs of what they guarantee
under every interleaving, crash and retry. `dafny verify dfyconfig.toml` checks everything.

## How the model is built

Concurrent parts are state machines: an `Action` per atomic step of any process, `Enabled` (when it can
happen), `Apply` (what it does), `Run` and `Reachable` (any finite interleaving). A crash or a lost
answer is a step like any other. Results are proved for all reachable states. The processes whose code
is imperative (poller, consumers, services, delivery worker) are given once more as methods that perform
those steps one by one, with any steps of all other processes between any two of them; their contracts
say how each call ends, decided by what the outside world does (parameters such as `MessageIo`, `RowIo`,
`Answer`) and by the states at which the call read and wrote.

| file | content |
|---|---|
| basics, events, sorting | shared notions; the event vocabulary; uniqueness of a sorted sequence |
| topology | exchanges, queues, bindings, topic matching (section 3.1.3.3 of AMQP 0-9-1), declaring them on a channel |
| consumers | broker queues, in-flight copies, retry and dead-letter queues, marker and effect tables |
| retry_bounds, dead_letters | how far the shared retry exchange amplifies one event: amortised bounds, that they are tight, and exactly which numbers of dead letters there can be |
| outbox, lease_times | outbox rows, 30 s leases, poller batches, backoff; exactly when rows can be leased |
| pipeline | outbox and broker joined; exactly-once effects at quiescence |
| progress | from every state without dead letters the pipeline can still finish |
| processes | the poller and the consumers as programs on a shared cluster |
| business, business_results | orders, payments and audit log under concurrent calls, and what holds over whole runs |
| services | order and payment services as programs on a shared database |
| end_to_end | from committed orders and payments to their effects |
| delivery | claims of notification deliveries by racing workers, under the job queue that starts and retries them |
| delivery_exact | exactly when a claim is exclusive, and exactly which rows can still be delivered |
| workers | the recovery query, the job queue and the worker as programs |
| replay | exactly when an event can come back to the notification consumer |
| notifications | consumers, job queue and workers joined: from an order to its delivered notification |
| pricing, pagination | order totals; listing orders page by page |
| load_probe | the open-loop scheduler and its statistics |

## Assumptions

- One monotone clock, in milliseconds; money in integer cents. Timers never fire early.
- A database transaction commits atomically or not at all, with the unique constraints of
  `prisma/schema.prisma` (idempotency key of payments, consumer and event of processed messages, event
  and channel of deliveries). A Serializable payment transaction that wants to confirm an order written
  since its snapshot fails as a whole. The service calls meet no database error but these.
- A message that the broker accepted is durable; an unacknowledged copy goes back to its queue when its
  consumer's process or connection is lost. A handler whose connection is lost may run on: it can still
  commit and enqueue, or end at any point, but not acknowledge or publish.
- The job queue is BullMQ with its defaults and the options of
  `src/notifications/notification-queue.service.ts:35-59`. Jobs are durable; a call starts only for a
  job that is waiting; a job whose worker's lock ran out (a stalled job) is given to another worker
  once, also while the handler of the first one runs on, and fails for good when it stalls once more; a
  handler that has lost its job no longer changes it; a job that returns is completed, one that throws
  is tried five times; the newest 1,000 completed and 5,000 failed jobs are kept, and adding a job whose
  id is still known does nothing.
- A database update without an answer takes effect at once or never. So no statement of a poller is
  still on its way when the same poller leases the row once more; `LeaseFencing` and `TwoHolders` rest on
  that, because the guard of the updates is the instance id and not the lease.
- A restarted poller has a new instance id (`src/queue/outbox-publisher.service.ts:24`).
- Where the transition graph is claimed: no check passes a request whose version is ahead of the order
  it has read, a guard that the code does not have. Clients that send only versions a read has shown
  them (`src/orders/dto/update-order-status.dto.ts:10`), for orders that exist, meet it
  (`ShownVersionsAreGuarded`). `SafeExactlyIfNotAhead` proves that the guard is exactly what a request
  needs, for versions that fit their 32-bit column; `UnshownVersionBreaksTheGraph` gives a run that leaves
  the graph without it.
- Requests of the load probe return a status or an error and never reject, as `executeRequest` does
  (`scripts/scaling-lab.ts:180-203`).

## Where the code and its documentation differ

- `docs/architecture.md:94` and `docs/architecture.md:183` describe a retry queue and a dead-letter
  message per consumer. Both retry queues are bound on one exchange with the same `order.created` key,
  and both return to the event exchange, so one failed `OrderCreated` copy comes back at both consumers.
  `PersistentFailureBuries64` shows the consequence: one publish can end as 64 messages in each
  dead-letter queue. `DeadLettersBounded` shows that it is never more.
- `docs/architecture.md:168` says that pollers do not own a row at the same time. That holds for the
  lock, not for the batches: a poller that stalls for more than 30 s still sends its rows, also one that
  is marked meanwhile. `LateSendExactly` says exactly when, and `LeaseFencing` that the table is safe
  from it.
- `docs/architecture.md:169` says that worker replicas compete safely on the job queue. A claim of a
  delivery is not exclusive, though: a `deliver` that fails before its claim goes on to `markFailed`,
  which can fail the row that another worker is processing. `ClaimedAgainExactly` says exactly when a
  claimed row can be claimed once more, `OrderlyStep` exactly which steps break exclusion, and
  `TwoClaimersAtOnce` is a run that does.
- `docs/architecture.md:95` says that the database status makes recovery explicit. A failed job that
  BullMQ still keeps has a known id, so adding it again does nothing. `RecoverPending` says exactly
  which of the rows found are enqueued; `RecoveryIgnored` is a run in which a PENDING row is found and
  not enqueued.
- `docs/architecture.md:184` and `docs/architecture.md:189` document that a record may remain PROCESSING.
  `WorkerCrashStrands` is such a run, and `AbandonedForever` proves that the row is never delivered then.
  `NotifiedExactly` says for all states which rows that is true of: a job that can still run or stall,
  a recovery that has already found the row, or an event that can still come back saves it.

## Model

| member | source | states |
|---|---|---|
| `Topology.LiteralMatchesOnlyItself` | src/queue/rabbit-topology.ts:8-15 | A binding without wildcards accepts exactly its own routing key. |
| `Topology.TrailingHash` | src/queue/rabbit-topology.ts:42 | A pattern ending in `#` accepts exactly the keys that extend a match of the rest. |
| `Topology.MatchesByPieces` | src/queue/rabbit-topology.ts:25-43 | What topic matching means, without recursion: a key matches if and only if it can be cut into consecutive pieces, one per word of the pattern: any piece for `#`, one word for `*`, the word itself otherwise. |
| `Topology.RetryClosure` | src/queue/rabbit-topology.ts:25-38 | For every routing key the retry exchange reaches the retry queues of exactly the consumers whose main queues the event exchange reaches, and nothing else. |
| `Topology.DeadLetterRouting` | src/queue/rabbit-consumers.service.ts:96 | A dead-letter key `consumer.key` reaches exactly that consumer's dead-letter queue, whatever the key. |
| `Topology.ReceiversAreRouted` | src/queue/rabbit-topology.ts:7-38 | The fan-out used by the protocol is what the declared bindings give for the two event types' routing keys, on the event and on the retry exchange. |
| `Topology.Channel.AssertTopology` | src/queue/rabbit-topology.ts:20-44 | On any channel exactly the three exchanges, the six queues and the declared bindings are added; only retry queues send expired messages on, to the event exchange. |
| `Topology.Channel.AssertConsumer` | src/queue/rabbit-topology.ts:25-43 | One turn of the loop: three queues and exactly this consumer's bindings. |
| `Topology.Channel.BindAll` | src/queue/rabbit-topology.ts:27-29 | Binds the queue with each of the keys, and changes no other binding. |
| `Consumers.StepInv` | src/queue/rabbit-consumers.service.ts:52-115 | Every step of every consumer process and of the broker keeps: effects and markers one to one, every event covered, counts in range, what each in-flight phase implies. |
| `Consumers.CoverStep` | src/queue/rabbit-consumers.service.ts:81-114 | No single step uncovers an event: the copy stays, is replaced by copies that reach the same consumer, or is acknowledged after that consumer finished. |
| `Consumers.NoEventLost` | src/queue/rabbit-consumers.service.ts:73-115 | In every reachable state every event the broker accepted is, for each consumer it is routed to, either done (marker, and job handed on) or has a copy in a queue, in flight, waiting for retry or dead-lettered. |
| `Consumers.RetryCounts` | src/queue/rabbit-consumers.service.ts:79-96 | Live copies carry a retry count of at most 3, dead-lettered ones exactly 4, and every copy is at a consumer its event is routed to. |
| `Consumers.MarkerIffOneEffect` | src/audit/audit.repository.ts:12-33 | However many transactions raced, a consumer's marker for an event exists if and only if exactly one effect row does. |
| `Consumers.RedeliveryFindsTheDelivery` | src/notifications/notifications.repository.ts:14-22 | A redelivered event whose marker was seen gets the id of its one delivery, never null, and changes nothing. |
| `Consumers.NoUserNoMarker` | src/notifications/notifications.repository.ts:24-25 | An event without a user id is never marked as notified. |
| `Consumers.QuiescentExactlyOnce` | src/queue/rabbit-consumers.service.ts:52-115 | Once no copy is left, every accepted event has exactly one audit row and, if an order was created, exactly one delivery, handed to the job queue. |
| `RetryBounds.WeightStep` | src/queue/rabbit-consumers.service.ts:79-106 | An expiry lowers the total weight of all copies by one and a finished consumption by its copy's weight, one if it failed; a publish adds 254 or 7; returning a copy whose retry is already at the broker adds at most 126; no other step changes it. |
| `RetryBounds.RetriesTerminate` | src/queue/rabbit-consumers.service.ts:79-106 | Consumptions and expiries together are at most 254 per OrderCreated publish, 7 per PaymentCompleted publish and 126 per such late return. |
| `RetryBounds.DoomStep` | src/queue/rabbit-consumers.service.ts:83-106 | Failing, retrying and expiring conserve each consumer's potential dead letters exactly; only a publish or a late return creates any. |
| `RetryBounds.DeadLettersBounded` | src/queue/rabbit-consumers.service.ts:96-106 | At most 64 copies per OrderCreated publish, one per PaymentCompleted publish and 32 per late return reach a consumer's dead-letter queue. |
| `RetryBounds.FailForever` | src/queue/rabbit-consumers.service.ts:66-106 | From any state at rest there is a run in which every handler throws and everything ends dead-lettered, conserving potential dead letters and work exactly. |
| `RetryBounds.PersistentFailureBuries64` | src/queue/rabbit-topology.ts:31-38 | The bounds are attained: one publish, no crash, no nack, exactly 254 consumptions and expiries, exactly 64 messages in each dead-letter queue. |
| `DeadLetterCounts.DeadLettersExactly` | src/queue/rabbit-consumers.service.ts:73-106 | With one OrderCreated publish and no late return, the two dead-letter queues can end with n and m messages if and only if both are at most 64. |
| `Outbox.BackoffIsCappedExponential` | src/queue/outbox-publisher.service.ts:90-91 | The doubly capped delay equals min(60, 2^attempts), is monotone and lies between 1 and 60 s. |
| `Outbox.StepInv` | src/queue/outbox-publisher.service.ts:33-105 | Every step of any poller keeps: a held row is exactly as its holder leased it, any other batch entry for it is stale by over 30 s, published rows are confirmed and unlocked. |
| `Outbox.LeaseFencing` | src/queue/outbox-publisher.service.ts:84-102 | A guarded write takes effect only if the row is unpublished and nobody wrote it since this poller leased it; so the attempts it read are the row's and the backoff written fits the new count. |
| `Outbox.TwoHolders` | src/queue/outbox-publisher.service.ts:52-62 | Two pollers both have a row in their batches only if their lease times are more than 30 s apart. |
| `Outbox.PublishedIsFinal` | src/queue/outbox-publisher.service.ts:84-87 | A published row was confirmed by the broker, is unlocked, cannot be leased, and no step changes it. |
| `Outbox.NeverStranded` | src/queue/outbox-publisher.service.ts:50-58 | Wherever pollers stopped, after 60 s without any step every unpublished row satisfies the lease query. |
| `Outbox.LateSendIsStale` | src/queue/outbox-publisher.service.ts:73-87 | A row that is already marked is sent again only by a poller whose lease was over 30 s old when it was marked. |
| `Outbox.LateSendHappens` | src/queue/outbox-publisher.service.ts:38-39 | For every event and all times with the lease over 30 s old at the marking, a reachable state in which the late send is about to happen. |
| `Outbox.LateSendExactly` | src/queue/outbox-publisher.service.ts:54-87 | For all times: some run leads to a late send of a row leased, marked and sent at them if and only if the lease was over 30 s old when the row was marked. |
| `LeaseTimes.LeasedExactly` | src/queue/outbox-publisher.service.ts:50-62 | A lease is possible if and only if its rows are at most 25, different, unpublished, due, and unlocked or locked over 30,000 ms ago; and exactly what it writes. |
| `LeaseTimes.LeasedAfterFailureExactly` | src/queue/outbox-publisher.service.ts:90-102 | After a deferral some run leads to a lease of the row at a time if and only if 2, 4, 8, 16, 32 or, from the sixth failure on, 60 s have passed, by the attempts so far. |
| `LeaseTimes.TakenOverExactly` | src/queue/outbox-publisher.service.ts:50-58 | While the poller that leased a row takes no step, a run leads to a lease by another at a time if and only if more than 30 s have passed. |
| `Pipeline.StepInv` | src/queue/rabbit-publisher.service.ts:25-38 | Every step keeps outbox and broker in agreement: the broker knows only events of outbox rows, and every event that a poller sent or saw confirmed. |
| `Pipeline.SendAlwaysPossible` | src/queue/rabbit-publisher.service.ts:25-38 | The broker can always accept what a poller sends: an id always stands for the same event. |
| `Pipeline.EveryEventIsSomewhere` | src/queue/outbox-publisher.service.ts:73-105 | Every event of the outbox is, for each of its consumers, in a row that can be leased within 60 s, or done, or in a copy. |
| `Pipeline.UserAlwaysPresent` | src/notifications/notification-event.handler.ts:9-12 | The branches for a missing user id and for another event type are never taken. |
| `Pipeline.QuiescentExactlyOnce` | src/queue/rabbit-consumers.service.ts:52-115 | With all rows published and no copy left, each OrderCreated event has exactly one EVENT_ORDERCREATED row for its order and exactly one delivery, each PaymentCompleted event exactly one EVENT_PAYMENTCOMPLETED row for its payment, all naming the user. |
| `Progress.Drain` | src/queue/rabbit-consumers.service.ts:52-71 | From any state without dead letters, some run without publishes empties all queues: copies in flight go back to their queue, and from there no handler fails. |
| `Progress.PublishAll` | src/queue/outbox-publisher.service.ts:33-88 | An idle poller can publish every leasable row, one after another. |
| `Progress.CanAlwaysFinish` | src/queue/outbox-publisher.service.ts:33-105 | Never wedged: from every reachable state without dead letters, whoever holds locks or copies, some continuation ends with every row published and every queue empty. |
| `Processes.OthersLeaveTheBatch` | src/queue/outbox-publisher.service.ts:84-85 | Whatever other processes do, a poller's batch is untouched and it comes to hold no row. |
| `Processes.OthersLeaveTheCopy` | src/queue/rabbit-consumers.service.ts:41-47 | Whatever other processes do, a delivered copy stays with the process it was delivered to. |
| `Processes.OutboxPublisher.Publish` | src/queue/rabbit-publisher.service.ts:25-38 | Returns exactly if the message reached the broker and its confirm came back, throws otherwise; a message that reached the broker is known to it, also if it throws. |
| `Processes.OutboxPublisher.PublishOne` | src/queue/outbox-publisher.service.ts:73-105 | The row is written as published if it was confirmed and marked, otherwise as deferred by the attempts read unless that update is refused too; once written, this poller does not hold it; an error escapes exactly if the deferring update was not answered. |
| `Processes.OutboxPublisher.Defer` | src/queue/outbox-publisher.service.ts:89-104 | The catch block, for each answer of the deferring update, also one that took effect without an answer: one more attempt, due again after the delay by the attempts read, unlocked, if this poller held the row. |
| `Processes.OutboxPublisher.PublishBatch` | src/queue/outbox-publisher.service.ts:33-45 | Never two ticks at once; the tick is a run of protocol steps, uses the batch up, aborts exactly at a lost lease answer or a row for which neither the marking nor the deferring update was answered, and otherwise leaves no row of the tick held. |
| `Processes.OutboxPublisher.Lease` | src/queue/outbox-publisher.service.ts:47-71 | The batch lists exactly the rows that the query picked, in order, or none if the answer was lost; the poller newly holds only those rows. Which rows it may pick is `LeaseTimes.LeasedExactly`. |
| `Processes.RabbitConsumers.Handle` | src/notifications/notifications.repository.ts:12-37 | The handler succeeds exactly if marker lookup and commit are not refused by a constraint or a missing user id, the commit goes through and a notification is enqueued; a commit that went through leaves its marker, also if enqueuing fails. |
| `Processes.RabbitConsumers.HandleAndAck` | src/queue/rabbit-consumers.service.ts:55-65 | Acknowledged exactly if the handler succeeded and the acknowledgement went through, and then its consumer is done with the event. |
| `Processes.RabbitConsumers.RetryOrDeadLetter` | src/queue/rabbit-consumers.service.ts:73-115 | The failed copy is acknowledged exactly if its retry or dead-letter copy was confirmed, and otherwise goes back unchanged, as a late return if the new copy had reached the broker; the event stays covered. |
| `Processes.RabbitConsumers.Consume` | src/queue/rabbit-consumers.service.ts:52-71 | How one delivery ends, exactly: handled, deferred or returned; it never ends unacknowledged and unreturned, and is a run of protocol steps. |
| `Processes.Result` | src/notifications/notifications.repository.ts:17-35 | The delivery id that the transaction returns: the new one, or that of the event's one delivery if the marker was seen; and exactly when it can commit. |
| `Business.StepInv` | src/orders/orders.repository.ts:123-150 | Every step of every call keeps all tables consistent (orders, audit log, payments, outbox), and orders only move to later versions. |
| `Business.CreateTables` | src/orders/orders.repository.ts:52-84 | Creating an order keeps them: one order, its audit row and its event together. |
| `Business.WriteTables` | src/orders/orders.repository.ts:131-147 | A version-guarded status write keeps them. |
| `Business.CompleteTables` | src/payments/payments.repository.ts:22-66 | A payment transaction keeps them: payment, conditional confirmation, audit row and event together. |
| `Business.EdgesExactly` | src/orders/orders.service.ts:15-22 | The transition table is exactly: one place on along PENDING, CONFIRMED, PREPARING, READY, COMPLETED, or CANCELLED from one of the first three. |
| `BusinessResults.AuditReplays` | src/orders/orders.repository.ts:138-147 | Folding the audit rows in commit order rebuilds each order's status, version and total, and each recorded previousVersion is the version the fold had reached. |
| `BusinessResults.UsersOnlyCancelOwn` | src/orders/orders.service.ts:50-54 | Every status change made by a plain user is that user cancelling an own order (the role is provenance kept beside the row). |
| `BusinessResults.UsersPayOwn` | src/payments/payments.service.ts:32-36 | Every creation is recorded for the order's owner, and every payment recorded for a plain user is for an own order (the role is provenance). |
| `BusinessResults.InsertOnce` | src/payments/payments.repository.ts:20-70 | Payments refine an insert-once map: a key has at most one payment and keeps it; a step adds one only under a key that had none, and the call that did it returns that payment. |
| `BusinessResults.SameKeySamePayment` | src/payments/payments.service.ts:37-49 | All calls that return for one key return the same payment, of the order they asked for. |
| `BusinessResults.PaymentLedger` | src/payments/payments.repository.ts:23-66 | No key occurs twice; payments, PAYMENT_COMPLETED rows and PaymentCompleted events agree one to one and in order; each amount is the sum of the order's line totals. |
| `BusinessResults.GuardedWriteTakesEdge` | src/orders/orders.repository.ts:131-134 | In every reachable state, whatever versions others send: a write whose version is at most the one checked takes an edge or does nothing. |
| `BusinessResults.StatusChangesAreEdges` | src/orders/orders.service.ts:15-22 | As long as no check passes a version ahead, no step of any racing update or payment changes a status except along an edge, with the next version. |
| `BusinessResults.VersionCountsEdges` | src/orders/orders.service.ts:15-22 | Then PENDING, CONFIRMED, PREPARING, READY and COMPLETED have versions 1 to 5, CANCELLED 2 to 4; an order is written at most four times. |
| `BusinessResults.StatusVersionsExactly` | src/orders/orders.service.ts:15-22 | As long as no check passes a version ahead: some run leads to an order with this status and version if and only if they are PENDING 1, CONFIRMED 2, PREPARING 3, READY 4, COMPLETED 5, or CANCELLED 2, 3 or 4. |
| `BusinessResults.ShownVersionsAreGuarded` | src/orders/dto/update-order-status.dto.ts:10 | Runs in which clients send only versions they were shown pass no version ahead. |
| `BusinessResults.SafeExactlyIfNotAhead` | src/orders/orders.service.ts:46-67 | For every reachable state and every request that passes the check there: its write takes an edge or does nothing, whatever any other calls do in between, if and only if its version is at most that of the order read, or the next version does not fit the 32-bit column. |
| `BusinessResults.SafeExactlyAmongGuarded` | src/orders/orders.service.ts:46-67 | If all other calls are guarded, the same holds if and only if its version is at most that of the order read or above 5. |
| `BusinessResults.AheadGoesWrong` | src/orders/orders.repository.ts:131-134 | From every state in which a request passes the check with a version ahead whose successor fits the column, a run of other calls makes its write leave the graph. |
| `BusinessResults.UnshownVersionBreaksTheGraph` | src/orders/orders.service.ts:46-67 | A run from the start in which a version sent before it was shown leaves the graph. |
| `Services.OrdersService.Create` | src/orders/orders.service.ts:31-39 | Each failure exactly when it should be and without a trace; otherwise exactly one order, one line per item with the menu's price and the quantity asked for, the sum of price times quantity, its audit row and its event. |
| `Services.OrdersService.UpdateStatus` | src/orders/orders.service.ts:46-67 | The outcome (not found, forbidden for a user who is not the owner or does not cancel, bad request off the graph, conflict, a version that does not fit its column, or success) is decided exactly by the states at read and write, for every version; success writes the next version over the one sent, one step on in the graph if that is not ahead of the one read; nothing is written otherwise. |
| `Services.OrdersService.GuardedWrite` | src/orders/orders.repository.ts:123-150 | The transaction: the status and the next version with its audit row if the version sent is the row's, otherwise a conflict, or an error if it does not fit, and nothing written. |
| `Services.WriteIsSafe` | src/orders/orders.repository.ts:131-134 | At the write, a version that still matches leaves the permission checked in force, and pins the status checked if it is not ahead of the version read. |
| `Services.PaymentsService.Complete` | src/payments/payments.service.ts:23-50 | The outcome is decided exactly by the states at the read, at the key lookup, at the transaction's read and at the commit, in particular success; a returned payment is the only one its key has and is for this order. |
| `Services.PaymentsService.Transact` | src/payments/payments.repository.ts:20-70 | It succeeds if and only if the ids are new, the key is unused at the commit, and an order that was PENDING when read has not been written since; then there is one payment of the order's total with audit row and event, and the order is confirmed exactly if it is still PENDING; otherwise no trace. |
| `EndToEnd.StepInv` | src/orders/orders.repository.ts:71-84 | What business transactions insert is exactly what the outbox holds, and each insert is a step the pipeline allows: a new id, a user, one event per order or payment. |
| `EndToEnd.EffectsExactlyOnce` | src/payments/payments.repository.ts:52-66 | In every reachable state with all rows published and no copy left, every order has exactly one EVENT_ORDERCREATED row and one delivery, every payment exactly one EVENT_PAYMENTCOMPLETED row, all naming the order's user. |
| `EndToEnd.EffectsWithinReach` | src/queue/outbox-publisher.service.ts:33-105 | From every reachable state of the whole system without dead letters, some continuation without further business transactions ends with all these effects there exactly once. |
| `Delivery.DeliveryBounds` | src/notifications/notifications.repository.ts:48-72 | Under any interleaving of workers and crashes, attempts are the successful claims and at most 5, delivered implies claimed, and a row changes status at most 11 times. |
| `Delivery.StatusChangeLowers` | src/notifications/notifications.repository.ts:48-72 | DELIVERED is final, and every status change strictly lowers the measure. |
| `Delivery.OrderlyStep` | src/notifications/notifications.repository.ts:63-66 | Exactly one kind of step breaks the exclusiveness of claims: a call that has not claimed the row marks it as failed under a call that has. |
| `Delivery.OrderlyRunsExclude` | src/notifications/notification-queue.service.ts:68-75 | In runs without such a step at most one call at a time has a claim on a row. |
| `DeliveryExact.ClaimedAgainExactly` | src/notifications/notifications.repository.ts:48-53 | In every reachable state with a claimer: without a step of it, and without its job being enqueued again, another call can come to claim the row as well if and only if the row is not DELIVERED, has attempts left and, while it is PROCESSING, another call for it is under way, its job is waiting or may stall once more, or a recovery has found it. |
| `DeliveryExact.TwoClaimersAtOnce` | src/notifications/notification-queue.service.ts:68-75 | A run from the start that ends with two claimers of one row: the first one's job stalls, a second call throws before its claim, and the row it fails is claimed once more. |
| `DeliveryExact.DeliverableExactly` | src/notifications/notification-queue.service.ts:61-75 | As long as no consumer enqueues its job again, a row can still be delivered if and only if it is DELIVERED, a call has claimed it, or it has attempts left and is PENDING or FAILED, or PROCESSING with a call under way, a job that can run, or a recovery that has found it. |
| `DeliveryExact.StuckStays` | src/notifications/notifications.repository.ts:39-72 | No step of any worker, of the queue or of the recovery frees a row that is stuck; only a consumer's enqueue can, and only while the row has attempts left. |
| `DeliveryExact.WorkerCrashStrands` | src/notifications/notifications.repository.ts:49-54 | A run from the start in which a worker dies after its claim, the job is run once more, finds nothing to claim and is completed, and the row is stuck with four attempts left. |
| `DeliveryExact.RecoveryIgnored` | src/notifications/notification-queue.service.ts:62-66 | A run from the start after which the recovery has found a claimable row and its enqueue changes nothing, because the failed job is still kept. |
| `Workers.FindPendingIsOldest` | src/notifications/notifications.repository.ts:39-46 | The recovery query returns rows that are PENDING or FAILED with fewer than five attempts, oldest first, and leaves one out only for as many that are no younger. |
| `Workers.FoundIsInWindow` | src/notifications/notifications.repository.ts:39-46 | Every row it returns has fewer than a hundred older claimable ones: what the claim machine lets a recovery find. |
| `Workers.NotificationQueue.Enqueue` | src/notifications/notification-queue.service.ts:48-59 | Adds a job at the end unless one with this delivery id is waiting, active or still kept as finished; no id is ever there twice. |
| `Workers.NotificationQueue.Settle` | src/notifications/notification-queue.service.ts:35-38 | A finished job is kept, the newest 1,000 completed and 5,000 failed ones; older ones are forgotten. |
| `Workers.NotificationQueue.RecoverPending` | src/notifications/notification-queue.service.ts:62-66 | Exactly the pending deliveries found whose jobs are not kept as finished are added; jobs already there keep their places and counts; no id twice. |
| `Workers.JobEnds` | src/notifications/notification-queue.service.ts:52-56 | A job whose call returned is completed; one whose call threw waits to be tried once more, or has failed for good after the fifth time; a call that has lost its job changes nothing. |
| `Workers.JobStalls` | src/notifications/notification-queue.service.ts:40-43 | In every reachable state a job in the queue has failed at most four times and stalled at most once; the second stall fails it for good. |
| `Workers.Worker.TryClaim` | src/notifications/notifications.repository.ts:49-54 | The guarded claim: what it does to the row, exactly when the worker goes on, and that the job is completed otherwise. |
| `Workers.Worker.Complete` | src/notifications/notifications.repository.ts:57-60 | The unguarded update to DELIVERED, exactly when it throws, and that the job is completed otherwise. |
| `Workers.Worker.Catch` | src/notifications/notifications.repository.ts:63-72 | The row becomes FAILED exactly if it was PROCESSING at that update, and the job is tried again or fails for good. |
| `Workers.Worker.Process` | src/notifications/notification-queue.service.ts:68-75 | How a call ends, exactly, what its last update does to the row, and what becomes of its job; a row is left PROCESSING only by a failed last update, and other workers never undo a delivery. |
| `Replay.NotReturnableStays` | src/queue/rabbit-consumers.service.ts:73-115 | An event that was processed and is published, with no unsent batch entry, no copy that can lead to the notification consumer and no handler that can still enqueue, never comes back. |
| `Replay.Returns` | src/queue/rabbit-consumers.service.ts:52-71 | The converse: otherwise some continuation brings it back up to the hand-over of its one delivery to the job queue, also by way of the audit consumer's retry. |
| `Notifications.RowsAreDeliveries` | src/notifications/notifications.repository.ts:26-33 | The rows that workers claim are exactly the deliveries that consumers have created, each claimed at most five times. |
| `Notifications.OneRowPerOrder` | src/notifications/notifications.repository.ts:12-37 | Once the pipeline is quiescent, every order has exactly one delivery row, and its job has been enqueued. |
| `Notifications.OneDeliveryPerOrder` | src/notifications/notifications.repository.ts:14-35 | In every reachable state no order has two deliveries, however its event was redelivered. |
| `Notifications.NotifiedExactly` | src/notifications/notification-queue.service.ts:48-75 | From every reachable state without dead letters, over consumers, job queue, recovery and workers together: a committed order can still be notified if and only if it has no delivery row that is stuck (no claimer, and no attempts left; or PROCESSING with no call, no job that can run, not found by a recovery, and an event that cannot come back). |
| `Notifications.AbandonedForever` | docs/architecture.md:184-189 | The documented loss, as a guarantee: PROCESSING, no call, no job waiting or active, not found by a recovery, no copy or handler of its event, and the event published and in no batch: no continuation notifies the order. |
| `Pricing.LengthCheck` | src/orders/orders.repository.ts:25-33 | As many rows found as ids asked for if and only if all ids are distinct and orderable, so the non-null lookup is safe. |
| `Pricing.PriceOrder` | src/orders/orders.repository.ts:17-50 | Each failure exactly when it should be, by the items' ids, restaurant and availability; otherwise one line per item, in order, with the item, the menu's price, the quantity asked for and their product, and the sum of price times quantity over the request. |
| `Pricing.TotalIsOrderIndependent` | src/orders/orders.repository.ts:47-50 | Lines in any order give the same total. |
| `Pricing.TotalsFitExactlyUpTo` | src/orders/dto/create-order.dto.ts:19-34 | The total of every request that can be priced (1 to 50 different orderable items, quantities 1 to 50) fits DECIMAL(12,2) if and only if no price may exceed 3,999,999.99. |
| `Pagination.PagesPartition` | src/orders/orders.repository.ts:93-121 | The announced pages, concatenated, are exactly the orders that meet every condition given, each as often as in the table, newest first and by descending id; later pages are empty; no page exceeds the limit. |
| `Pagination.PagesAreDetermined` | src/orders/orders.repository.ts:111 | With distinct ids there is only one such sequence, however the database sorts. |
| `LoadProbe.AwaitSlot` | scripts/scaling-lab.ts:220-223 | Returns no earlier than the slot is due; requests meanwhile finish into samples one to one. |
| `LoadProbe.RunPhase` | scripts/scaling-lab.ts:205-246 | The loop ends; scheduled = samples + drops; a slot is dropped exactly if the limit is full at its turn; never more than the limit in flight; at most ceil(duration * rate) slots, and at least duration * rate - 1 if nothing is late by more than half an interval; the phase lasts its duration. |
| `LoadProbe.PercentileIsNearestRank` | scripts/scaling-lab.ts:248-253 | At least the asked fraction of the values is at most the percentile, less than that lies below it, and it is one of them. |
| `LoadProbe.SummaryIsOrdered` | scripts/scaling-lab.ts:255-265 | min <= p50 <= p95 <= p99 <= max, min and max are attained bounds, each percentile is the one it is called; all absent exactly for no samples. |
| `LoadProbe.ClassesPartition` | scripts/scaling-lab.ts:268-276 | Successes and the three failure classes partition the samples. |
| `LoadProbe.CountStatuses` | scripts/scaling-lab.ts:278-284 | The histogram counts every status exactly and sums to the samples that have one. |
| `LoadProbe.Verdict` | scripts/scaling-lab.ts:286-305 | Passes exactly if nothing was dropped and each threshold that is set holds. |
| `LoadProbe.Summarize` | scripts/scaling-lab.ts:267-333 | Classes, histogram and verdict together: it passes exactly if nothing was dropped, at least 99 of 100 requests with a status of 200 to 399 are within the objective, and the share with an error or another status is within the limit. |

## Left out

- NestJS wiring, controllers, guards, DTO decorators, Swagger, logging, metrics, health, deployment: no hard invariant.
- Authentication and refresh tokens: they rest on opaque libraries.
- The Redis catalog cache: only a TTL bound would be left to state.
- Internals of BullMQ, amqplib, Prisma and PostgreSQL: only what the code relies on is assumed (see Assumptions). Backoff times of jobs are not modelled: a job that failed may be tried again at any time.
- Connection management of the publisher (`ensureConnected`, `connect`): a failed connection is a send that does not reach the broker.
- Expiry times of retry copies and their order in the retry queue: any retry copy may expire at any time.
- Which rows a lease picks among the leasable ones: any 25 or fewer, in any order, which covers ORDER BY created_at with SKIP LOCKED.
- Clock differences between hosts, truncation to milliseconds, rounding by `toFixed`, floating-point percentile products: one clock, exact numbers.
- Fields that no claim is about: restaurant and item names, currency, provider reference, correlation id, last error, message properties, metadata of EVENT_ rows.
- Eventual delivery of a row stuck in PROCESSING, one payment per order, a payment only for a live order, publication order across a batch: the code does not give them.
- `parseArgs`, `collectArguments`, `formatReport`, `executeRequest`: command line and HTTP.
- Liveness under fairness: Progress.CanAlwaysFinish and Notifications.NotifiedExactly show that a finishing continuation exists, not that schedulers choose it.
- Topology.Channel.AssertTopology: an existing queue with other arguments, which the broker refuses, is not modelled.
