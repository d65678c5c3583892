# Notification delivery, verified

A Dafny model of the notification service: its guarded `notifications` table, its at-least-once
broker with retry tiers, the workers, the scheduler's recovery sweeps, the producers, and six
smaller components with state of their own (consumer pool, listing, WebSocket hub, metric merge,
template cache, provider override). `dafny verify dfyconfig.toml` checks everything.

## How it is built

**The protocol.** `Statements` has each SQL statement as one atomic, guarded function from table to
table. `Protocol` has one total step function `Next` over 23 kinds of action: inserts, cancels,
queued marks, the three sweeps, publishes, and for each consumed message the worker's claim, release,
send, outcome write, retry or dead-letter publish and settlement, and the broker's own steps: handing
out a delivery, expiring a tier message, taking a delivery back, and a crash at any point. `Sweeps`
derives what the sweeps may take from their ORDER BY and SKIP LOCKED. A statement can commit and still
report an error (`LostReply`), a publish can be accepted and still report an error (`Unconfirmed`). An
action that is not possible changes nothing, so *any* sequence of actions is a run, and the theorems
quantify over all of them: any number of workers, schedulers, cancels and creates, in any interleaving.
There are no fairness or scheduling assumptions, and none on the clocks, except in `Ages`, which bounds how
soon a sweep may take a row when the database clock does not run backwards. The runs that are shown to exist
(losses, deliveries, exact bounds) keep to a database clock that never runs backwards (`Clock`).

**History.** Every notification has a ledger with one entry per claim that says what became of it.
`LedgerCountsTheRun` proves that the ledger counts exactly what an observer of the run would count
(claims, sends, successes, releases, retries, tier messages, recoveries); `Invariant.RunInv` bounds the
ledger. The outcome writes carry no claim number, so a slow worker whose row was recovered can write
over a later claim; the bounds are counting arguments that survive this.

**The code.** `Repository` has the persistence client and the publisher as classes with mutable state,
`Deployment.Cluster` a running system, and `Worker`, `Scheduler`, `Service` and `BatchService` the
components' code statement by statement, with an arbitrary run of all the other components between any
two statements. Each method is proved to leave the system in a state that the protocol reaches, and its
contract lists its own steps, in order, for each course it can take, and on which tables they acted. So
all theorems about runs hold for the code. Contracts give statuses, columns, limits and conditions as
they are, and not through functions that only describe the method.

**Names.** R is the number of stale-processing recoveries that hit a notification, L the number of
interrupted deliveries released back to retrying, and the limit is max(1, maxAttempts).

## What was found

* `README.md:109-110` of the repository says that concurrent workers can never double-deliver. The exact
  guarantee is: at most 1 + R Send calls return success (`EffectivelyOnce`), and for every R there is a
  run that reaches 1 + R (`PriceIsExact`). The other bounds on claims, Send calls, retries, tier messages
  and status changes are exact too, and one run reaches all of them at once (`EveryBoundIsReached`).
* A template body that does not parse is parsed again for every batch item that uses it, unlike one that
  does (`RenderBatch`): only successful parses are cached.
* Accepted work can be lost, in six ways. A recovery can lose the row it moved to retrying if its republish
  is refused by the broker or cut off, by a crash or by a lost reply to the sweep. A handler whose delivery
  the broker has already taken back can lose the row it moves to retrying: its retry publish is refused,
  it crashes while it owes that publish, it releases the claim, or the reply to its retry mark is lost.
  The comment at `internal/worker/worker.go:251-254` relies on a redelivery that has by then happened too
  early. Each of the six really happens, in a run given for each (`EveryLossIsReal`), and strands a row
  that reads retrying afterwards if and only if it has nothing else (`LossStrands`); a run with none of
  them strands nothing (`LosslessRunsStrandNothing`). A stranded row is one that no sweep looks at and for which no
  message can come about. An open notification can still be sent and recorded as sent if and only if it
  is not stranded (`DeliverableUnlessStranded`), and a Send call can still follow if and only if that
  holds or a handler has already claimed the row (`SendsLaterIff`).
* A batch item reported as a duplicate can point at a notification that is never created: the first item
  with its key is tracked before it is validated (`DuplicateOfNothing`). It points at a created one if and
  only if that first item is valid (`DuplicatePointsAt`).
* `sameLabels` reads an absent label as the empty string. It is equality of label sets exactly for those
  without an empty value (`AlikeIsEqualityIff`).
* The comment at `internal/delivery/switchable.go:11-13` has a provider switch take effect within the TTL.
  A call later than that still misses the new target if and only if a lookup that began before the switch
  found another URL and returned within the TTL before the call, or the call's own lookup fails and none
  has found the new URL yet (`MissesSwitchIff`). Both happen (`TtlAloneIsNotEnough`,
  `FailedLookupsKeepTheOld`), and in the second case no bound on the delay helps. Once a lookup begun since
  the switch has succeeded every call uses the new target (`OnceFoundItStays`), and past the TTL plus the
  time one lookup can take every call does whose own lookup does not fail (`SwitchTakesEffect`).

## Model

| member | source | states |
|---|---|---|
| Domain.StatusesAllowedInto | internal/domain/notification.go:100-108 | The slice built by the loop lists exactly the statuses with a legal step into the target, each once. |
| Domain.CancellableStatuses | internal/domain/notification.go:110-113 | Derived from the table, the cancellable statuses are pending, scheduled and queued. |
| Statements.DraftRowsAt | internal/storage/postgres/repository.go:109-141 | What a batch insert adds: exactly the given rows under their ids. |
| Repository.NotificationRepository.Create | internal/storage/postgres/repository.go:46-75 | An insert under the unique index: success exactly if id and key are new, a duplicate key exactly if only the key is taken; the table gains that row or stays as it was, and may gain it although the reply is lost. |
| Repository.NotificationRepository.CreateBatch | internal/storage/postgres/repository.go:105-141 | All rows or none, row by row; a refused insert reports a duplicate key if only keys clash, another error if only ids do, and either if both do; an empty batch does not reach the database. |
| Repository.NotificationRepository.MarkQueuedBulk | internal/storage/postgres/repository.go:143-156 | Exactly the pending rows among the ids become queued and every other row is as it was; an empty list does not reach the database. |
| Repository.NotificationRepository.GetByIdempotencyKey | internal/storage/postgres/repository.go:77-90 | Finds a row with the key if and only if there is one and the database answers. |
| Repository.NotificationRepository.UpdateStatus | internal/storage/postgres/repository.go:192-222 | The guarded update moves the row exactly when its status is allowed; otherwise the error tells missing from rejected. |
| Repository.NotificationRepository.ClaimForProcessing | internal/storage/postgres/repository.go:229-261 | The claim takes the row, counts the attempt and returns it exactly when the guard passes. |
| Repository.NotificationRepository.RecordOutcome | internal/storage/postgres/repository.go:274-288 | The outcome write takes effect exactly on a processing row, whoever claimed it, and sets its status, error and timestamp and nothing else. |
| Repository.NotificationRepository.MarkSent | internal/storage/postgres/repository.go:290-306 | Processing becomes sent with the provider id and time; any other row is untouched. |
| Repository.NotificationRepository.ClaimDueForQueue | internal/storage/postgres/repository.go:398-417 | Scheduled rows whose time has come and pending rows created more than staleAfter ago, at most 100 and without repetition, become queued and are returned: which ones is decided by what others have locked. |
| Repository.NotificationRepository.RecoverStaleProcessing | internal/storage/postgres/repository.go:419-443 | The same for rows that are processing and were last written more than staleAfter ago, which become retrying. |
| Repository.NotificationRepository.ListStaleQueued | internal/storage/postgres/repository.go:445-461 | The queued rows last written more than staleAfter ago, those untouched for longest, at most 100, oldest first and unchanged; an error if the query fails. |
| Sweeps.SweepsSkipLocked | internal/storage/postgres/repository.go:398-443 | The choices of the two writing sweeps are exactly those of their queries over the due and the stale rows: for some set of locked rows, the first 100 of the others by the ORDER BY column, returned in any order. |
| Repository.NotificationRepository.TouchQueued | internal/storage/postgres/repository.go:463-473 | Refreshes the timestamp of a row that is still queued. |
| Repository.Publisher.PublishRetry | internal/queue/rabbit/publisher.go:76-80 | The message is parked in the first tier on its first attempt, the second on its second and the third after that, unless the broker refuses it. |
| Structure.NextKeeps | internal/worker/worker.go:154-278 | Every step keeps the structure of the deployment: one open ledger entry per working handler, attempts equal to claims, every message naming a row of its channel. |
| Ledger.RowBounds | internal/worker/worker.go:233-259 | From the row invariant: claims, sends, successes and retries of one row against R and L. |
| Ledger.PhaseStepOk | internal/storage/postgres/repository.go:274-306 | An outcome write, even one by a worker whose row was recovered, keeps the balance of the ledger. |
| Ledger.RecoveryOk | internal/storage/postgres/repository.go:419-443 | A recovery keeps it, at the price of one. |
| Invariant.RunInv | internal/storage/postgres/repository.go:145-461 | Every row of every reachable state satisfies the row invariant. |
| Bounds.LedgerCountsTheRun | internal/worker/worker.go:154-278 | The ledger counts exactly the claims, sends, successes, releases, retries, tier messages and recoveries of the run. |
| Bounds.EffectivelyOnce | internal/worker/worker.go:163-226 | Over any run at most 1 + R Send calls for one notification return success. |
| Bounds.BoundedEffort | internal/worker/worker.go:233-259 | Claims are at most the limit + R + L, Send calls at most the limit + R, marked retries at most the limit - 1. |
| Tightness.PriceIsExact | internal/scheduler/scheduler.go:91-114 | For every n there is a run, on a clock that never runs backwards, with n recoveries and n + 1 successful Send calls: the bound is the best possible. |
| Tightness.EveryBoundIsReached | internal/worker/worker.go:154-278 | For every limit, R and L there is such a run with exactly R recoveries and L releases, limit + R + L claims, limit + R Send calls, 1 + R successes, limit - 1 retries and tier messages, and 1 + 2 (limit + R + L) status changes. |
| Lifecycle.EveryWriteIsLegal | internal/domain/notification.go:70-98 | Every step of every component leaves status and attempts of a row alone, or claims it, queues it, cancels it or records an outcome, each only from the statuses given; a claim counts one attempt and nothing else does. |
| Lifecycle.TerminalIsFinal | internal/domain/notification.go:76-78 | Over whole runs sent, failed and cancelled are absorbing and the identity columns are immutable. |
| Lifecycle.TerminalColumns | internal/storage/postgres/repository.go:274-306 | sent_at and provider_message_id are set exactly on sent rows, attempts counts the claims, a sent row had a successful Send, and for a failed row the run has a Send that was refused for good or the attempts are at the limit. |
| Lifecycle.CancelledIsNeverSent | internal/service/notification.go:193-211 | A cancelled notification was never claimed or sent and never will be, in any continuation. |
| Lifecycle.CancelTakesUnclaimedRows | internal/storage/postgres/repository.go:192-222 | After the cancel statement a row reads cancelled if and only if it was never claimed. |
| Lifecycle.ExclusiveOwnership | internal/worker/worker.go:163-226 | With no recovery of the row, at most one handler holds an unsettled claim, and the row reads processing with that handler's attempt number. |
| Lifecycle.OutcomeWritesTakeEffect | internal/worker/worker.go:212-218 | So without a recovery an acknowledged outcome write always moves the row: the three branches for a concurrent status change are not reached. |
| Lifecycle.FiniteLife | internal/domain/notification.go:70-79 | A row changes status at most 1 + 2 (limit + R + L) times. |
| NoLostWork.RetryingRowsHaveAMessage | internal/worker/worker.go:243-258 | In every run in which no recovery republish of a notification is refused or cut off, and no handler whose delivery the broker has taken back loses its retry publish or moves the row to retrying by a release or an unacknowledged mark, a retrying row has a message in a work queue, a tier, a live delivery or a step that still owes one. |
| Recoverability.StrandedForever | internal/scheduler/scheduler.go:85-114 | A stranded row is never claimed again and its record never changes again, in any continuation. A handler that had claimed it before may still call Send. |
| Recoverability.DeliverableUnlessStranded | internal/scheduler/scheduler.go:85-177 | Whatever time it is, an open notification of a reachable state has a continuation in which it is sent and recorded as sent if and only if it is not stranded: every pending, scheduled, queued or processing row is found by a sweep, even if each sweep takes its rows strictly in order and the clock never runs backwards. |
| Recoverability.SendsLaterIff | internal/worker/worker.go:163-226 | A Send call for a notification can still follow, on a clock that never runs backwards, if and only if it is open and not stranded, or a handler has claimed it and not yet sent it. |
| Recoverability.LosslessRunsStrandNothing | internal/worker/worker.go:180-191 | A row is stranded only after a loss step of its own: a recovery republish refused or cut off, or a detached handler's refused retry publish, crash while owing one, release, or retry mark with a lost reply. |
| Losses.LossStrands | internal/worker/worker.go:251-258 | A loss step, of any of the six kinds, strands a row that reads retrying after it if and only if the row has no other message, handler or publish. |
| Losses.EveryLossIsReal | internal/scheduler/scheduler.go:95-114 | Each kind of loss step is the last step of some run, in every configuration and on a clock that never runs backwards, and strands a row there that was not stranded before; those after a retry mark in every configuration that allows a retry, and in no run of any other. Four of them need no recovery. |
| Schedule.NoEarlyDelivery | internal/storage/postgres/repository.go:398-417 | A notification with a schedule time has no queue message, claim or Send until a sweep that moved it from scheduled to queued with the database clock at or past that time. |
| Schedule.QueuedOnce | internal/storage/postgres/repository.go:398-417 | However many schedulers and producers race, a row enters the queued status at most once. |
| Ages.RecoveryIsLate | internal/storage/postgres/repository.go:419-443 | While the database clock does not run backwards, a recovery of a row comes more than staleAfter after every earlier claim of it. |
| Ages.SweepsLeaveFreshRows | internal/storage/postgres/repository.go:419-461 | More generally neither the recovery nor the republish sweep takes a row within staleAfter of any write of it. |
| Ages.PendingIsLate | internal/storage/postgres/repository.go:398-417 | The due sweep leaves a pending row alone until more than staleAfter after its creation. |
| Routing.MessagesAreRouted | internal/queue/rabbit/topology.go:140-160 | After any hops, requeues and republishes a message names an existing row whose channel is its routing key. |
| Routing.RetryDelayIsBounded | internal/queue/rabbit/topology.go:46-63 | A notification gets at most limit - 1 tier messages, with total delay at most the tier delays of attempts 1 to limit - 1. |
| Routing.DeadLettersAreFailedRows | internal/worker/worker.go:260-275 | A dead letter implies a failed row, at most one per row. |
| Conservation.MessagesAreConserved | internal/worker/consume.go:222-252 | Over any run, with any crashes, redeliveries, expiries and requeues, the copies of a message in the work queues, the tiers and the outstanding deliveries, and those acknowledged, are together exactly as many as the broker accepted. |
| Conservation.DeadLettersAreConserved | internal/worker/worker.go:260-275 | There are as many dead letters for a notification as the broker accepted. |
| Idempotency.OneRowPerKey | internal/storage/postgres/migrations/0001_create_notifications.up.sql:24-25 | In every reachable state at most one row has an idempotency key. |
| Idempotency.ReplayNeverMisses | internal/service/notification.go:170-177 | The lookup behind a replay always finds a row: a key once taken stays taken. |
| Idempotency.CreateIsIdempotent | internal/service/notification.go:157-191 | Any two successful creates with one key answer with the same notification, and at most one of them created it. |
| Deployment.Cluster.Others | internal/worker/consume.go:138-202 | Whatever the other components do meanwhile, the system stays on a run of the protocol and a component stays where it was. |
| Deployment.PublishEnqueues | internal/queue/rabbit/publisher.go:169-180 | A publishing step of the contracts below puts exactly its message into the work queue, unless the broker refuses it. |
| Worker.ProcessNotification | internal/worker/worker.go:154-226 | The claim takes the row exactly if it is pending, queued or retrying at that step; if not, nothing else is done. After an interrupted wait nothing is sent, the row is released and an error comes back. Otherwise there is exactly one Send, before the outcome write, whose effect is decided by the row at that step, and an error comes back exactly if the write was not acknowledged or a due retry message not confirmed. |
| Worker.HandleSendFailure | internal/worker/worker.go:233-278 | Marked for a retry exactly if retryable with attempts left, else failed; the retry message or dead letter is published only after a mark that took effect; an error exactly for an unacknowledged mark or an unconfirmed retry message. |
| Worker.HandleDelivery | internal/worker/consume.go:222-252 | The same steps and then the settlement, once: put back exactly when processing failed and the broker still counts it as outstanding; otherwise the queue is left alone. |
| Worker.SettleDelivery | internal/worker/consume.go:238-251 | A nack puts back a delivery that is still outstanding; an ack leaves the queue alone. |
| Scheduler.QueueDue | internal/scheduler/scheduler.go:116-151 | The sweep takes rows due at the moment it runs, and each is published once, in order, as a message for its channel, failures skipped; the count is the number of confirms. |
| Scheduler.RecoverStaleProcessing | internal/scheduler/scheduler.go:91-114 | The sweep takes rows stale in processing at the moment it runs, and each is published once, in order, as a message for its channel. |
| Scheduler.RepublishStale | internal/scheduler/scheduler.go:153-177 | The sweep finds the rows stale in queued for longest at the moment it runs; each is published once, in order, as a message for its channel, and touched exactly when the broker confirmed; a failed query does nothing. |
| Scheduler.RepublishTurn | internal/scheduler/scheduler.go:160-172 | A republished row is touched once the broker has confirmed, and not otherwise. |
| Service.Create | internal/service/notification.go:157-191 | Invalid exactly for invalid input, which changes nothing; fresh exactly when id and key are new at the insert; a replay exactly when only the key is taken and the lookup works, and it names the row that holds it. A fresh scheduled notification is not published. A fresh immediate one is published once, after the insert, as a message for its channel; it is reported queued if and only if the broker confirmed and the mark found it pending, and then the mark is the last step and the row reads queued. |
| Service.PublishForDelivery | internal/service/notification.go:213-238 | Publish first, then the queued mark; queued is reported if and only if the broker confirmed, the statement took effect and the row was still pending at that moment, and the row then reads queued. |
| Service.CancelNotification | internal/service/notification.go:193-211 | The answer is decided by the row at the moment of the statement: cancelled from pending, scheduled or queued, else an invalid transition or not found. If it takes effect the notification is read back cancelled, and no Send was ever made for it or will be, whatever follows. |
| Creation.NewNotification | internal/service/notification.go:123-144 | A new notification carries the recipient, channel, content, key, schedule time and batch of its input and starts unclaimed, scheduled if it has a schedule time and pending otherwise. |
| Batch.Classify | internal/service/batch.go:60-121 | Result i has index i; duplicate if and only if the content resolves and the key is stored or was carried by an earlier item whose content resolved; accepted if and only if it resolves, is no duplicate and is valid, with the new notification under its id; accepted and rejected add up; the rows to insert are the accepted items in order. |
| Batch.AcceptedInOrder | internal/service/batch.go:124-128 | The rows to insert are those of the accepted items, one each, in request order. |
| Batch.AcceptedAreDistinct | internal/service/batch.go:91-103 | The rows to insert have pairwise distinct ids and keys. |
| Batch.OnlyARaceRefusesTheInsert | internal/service/batch.go:65-67 | The insert is refused if and only if a row already in the table has one of the ids or keys, and none of those keys was found by the lookup. |
| Batch.DuplicatePointsAt | internal/service/batch.go:91-103 | A duplicate of a stored key points at the notification that holds it; one within the request at the first item with its key, which is being created if and only if it is valid. |
| Batch.DuplicateOfNothing | internal/service/batch.go:43-45 | A request whose duplicate points at a notification that is never created. |
| Batch.ExistingKeysFor | internal/service/batch.go:177-189 | The lookup returns exactly the request's keys that the table holds, each with its row. |
| BatchService.PublishCreatedAll | internal/queue/rabbit/publisher.go:117-164 | Publishes in order until the channel breaks and returns exactly the ids of the messages that were confirmed, in order. |
| BatchService.ConfirmedAreASubsequence | internal/queue/rabbit/publisher.go:157-163 | The confirmed ids are an order-preserving subsequence of the published ones. |
| BatchService.ToPublish | internal/service/batch.go:130-141 | The burst is the pending rows among the accepted items, in order. |
| BatchService.ReportQueued | internal/service/batch.go:154-172 | In place, exactly the confirmed items get status queued; nothing else about any result changes. |
| BatchService.CreateBatch | internal/service/batch.go:60-175 | The keys are those the table held at the lookup; the insert goes through exactly when the table then allows it; nothing is published before it commits, and nothing at all if it is refused. The accepted items that are not scheduled are published in request order until the channel breaks, each as a message for its channel, and then the confirmed ones are marked. Each result is its classification, with queued if and only if published, confirmed and marked; with nothing to insert or mark the database is not called. |
| Pagination.Serve | internal/api/notifications.go:138-172 | A bad request exactly for a limit below 1 or a range that ends before it starts. Otherwise the page holds rows that pass every filter given and lie past the cursor, newest first, at most 50 or the limit given up to 100; there is a next cursor, at its last row, exactly when it is full, and every such row left out lies past it. |
| Pagination.Ordered | internal/storage/postgres/repository.go:349-391 | The ordered answer holds exactly the selected rows in strictly descending key order. |
| Pagination.OneOrder | internal/storage/postgres/repository.go:349-391 | Order by (created_at, id) leaves one possible listing. |
| Pagination.Walk | internal/api/notifications.go:152-171 | For every limit the endpoint accepts, on a table that changes between requests: nothing appears twice, and every row that matched in each table read appears once the walk ends, in rows/(clamped limit) + 1 requests. |
| Pagination.WalkFixed | internal/api/notifications.go:152-171 | For every such limit, on a fixed table the walk is exactly the filtered rows in order. |
| Pagination.RowKeysNeverChange | internal/domain/list.go:11-13 | No step of any component changes a row's place in the listing order. |
| Hub.Hub.Deliver | internal/api/hub.go:80-92 | Every client without a filter or with this notification as its filter gets the event, except those whose buffer of 32 is full, which are dropped and closed with their backlog intact. |
| Hub.Hub.Unregister | internal/api/hub.go:75-79 | A known client is removed and closed; an unknown one is left alone. |
| Hub.Hub.Stop | internal/api/hub.go:67-72 | Every remaining client is closed once. |
| Hub.Run | internal/api/hub.go:61-95 | After any sequence of connects, disconnects, events, reads and shutdown: which connections are held, what each was sent and has not read, and which channels are closed, are exactly those of its link. No channel is closed twice or sent to after closing. |
| Hub.HeldIffNotEnded | internal/api/hub.go:61-95 | A connection is held if and only if it has joined, has not left, the hub has not stopped, and no event it wants ever found its buffer full. |
| Hub.SentIsDue | internal/api/hub.go:80-92 | A held connection was sent exactly the matching events since it joined; one that was let go a prefix of them; one that never joined nothing. |
| Hub.SentUntilItsEnd | internal/api/hub.go:80-92 | A connection that was let go was sent exactly what it was due by the step that ended it: no gaps. |
| Metrics.SameLabels | internal/api/metrics_summary.go:205-215 | The loop decides the comparison, which for label sets without empty values is equality. |
| Metrics.AlikeIsEqualityIff | internal/api/metrics_summary.go:205-215 | The comparison is equality with every other label set if and only if no label value is empty. |
| Metrics.MergeCounters | internal/api/metrics_summary.go:217-234 | The nested loops compute the one-by-one sum into the first matching entry. |
| Metrics.CountersConserved | internal/api/metrics_summary.go:217-234 | Per label set the total is the sum of both sides; label sets stay distinct, none is invented or lost. |
| Metrics.CountersInAnyOrder | internal/api/metrics_summary.go:118-132 | Any permutation of the series, from however many sources, gives the same entries. |
| Metrics.MergeHistograms | internal/api/metrics_summary.go:236-261 | The nested loops pool counts and averages into the first matching entry. |
| Metrics.HistogramsConserved | internal/api/metrics_summary.go:236-261 | Per label set the number of samples and their sum are conserved. |
| Metrics.AverageIsTheMean | internal/api/metrics_summary.go:243-257 | A reported average is the mean over all samples of its label set. |
| Metrics.HistogramsInAnyOrder | internal/api/metrics_summary.go:118-132 | The same for histograms. |
| Metrics.SourcesInAnyOrder | internal/api/metrics_summary.go:118-132 | In particular two sources give the same entries whichever is merged first. |
| Metrics.MetricsSummary.Accumulate | internal/api/metrics_summary.go:168-195 | Each field takes up the series of its own family, in order, and no others. |
| Templates.TemplateResolver.Render | internal/service/template.go:96-132 | The template is found if the store is reachable and has it or it was fetched before; the answer is then decided by the channel, the parser and the renderer, as without caches. It is fetched only if it was not before, and parsed only if it was not parsed successfully before. |
| Templates.RenderBatch | internal/service/template.go:80-132 | Over a store that grows from the one before the batch to the one after it, reachable or not for each item, every item is rendered as without caches. By the store's own count each name found is fetched exactly once and no other is. By the parser's own count of calls a body that parses is parsed exactly once for each template compiled from it, and one that does not once for every item that needs it. |
| Switchable.SwitchableSender.CurrentTarget | internal/delivery/switchable.go:53-72 | A lookup is made if there was none or the last successful one is more than 2000 ms old; the target is that of the last successful lookup, which is no older than that unless this call's lookup failed. |
| Switchable.LatestLookupWins | internal/delivery/switchable.go:59-70 | Over any run of calls the cached URL and time are those of the latest lookup that was made and succeeded. |
| Switchable.MissesSwitchIff | internal/delivery/switchable.go:51-72 | More than the TTL after a switch a call misses the new URL if and only if a lookup begun before the switch found another URL and returned within the TTL before the call, or the call's own lookup fails, none begun since the switch has succeeded and the latest success found another URL. Only lookups that are made and succeed are assumed to find the new URL. |
| Switchable.OnceFoundItStays | internal/delivery/switchable.go:51-72 | Once a lookup begun since the switch has succeeded every later call uses the new URL, however many lookups fail. |
| Switchable.SwitchTakesEffect | internal/delivery/switchable.go:11-13 | Past the TTL plus the longest lookup every call uses the new URL unless its own lookup fails. |
| Switchable.TtlAloneIsNotEnough | internal/delivery/switchable.go:59-70 | A run in which a call later than the TTL still gets the old target. |
| Switchable.FailedLookupsKeepTheOld | internal/delivery/switchable.go:51-72 | For any delay, a run with instant lookups in which a call that late still gets the old target. |
| Consumer.DrainConserves | internal/worker/consume.go:138-202 | When the subscription returns every delivery handed to the pool, and with a handler at all every delivery pushed, has had exactly one settle call; never more than one before. |
| Consumer.SettledAsDecided | internal/worker/consume.go:222-252 | A delivery is acknowledged if and only if it parses and a handler that was processing it returned nil, dropped if and only if it was handled and does not parse, and requeued if and only if processing failed or a handler that held it found the pool draining. |
| Consumer.DrainingOnlyRequeues | internal/worker/consume.go:138-158 | Once draining is set, a delivery not yet being handled can only be requeued. |
| Consumer.FailsIffNotCancelled | internal/worker/consume.go:198-202 | The subscription returns an error if and only if neither a pause nor a shutdown cancelled it. |
| Consumer.ClosedPoolsRunDown | internal/worker/consume.go:138-164 | Once the deliveries channel is closed, every effective step uses up a finite measure. |
| Consumer.ClosedPoolsMove | internal/worker/consume.go:182-202 | And until the subscription has returned some step is possible: it cannot get stuck. |

## Left out

- Protocol.Next: the disambiguating read after a rejected guarded update is part of the same step, and its failure counts as a lost reply; unbounded integers stand for the INT columns.
- Repository.NotificationRepository.ClaimDueForQueue: who holds which row lock is not modelled; any set of rows may be locked, and `Sweeps.SweepsSkipLocked` says that this leaves exactly the choices in the contract.
- Repository.NotificationRepository.RecoverStaleProcessing: the same.
- Scheduler.QueueDue: the status events published beside each message are left out, here and everywhere; they are best-effort by design.
- Batch.Classify: an error from content resolution or validation that is not a validation error aborts the whole request in the code; every such error in these functions is a validation error, so only that path is modelled. A batch item's content is a parameter; Templates shows how it is resolved.
- BatchService.CreateBatch: a failed key lookup ends the request before anything is written and is not modelled.
- Bounds.EffectivelyOnce: success means that the worker saw no error from Send; what the provider did with a request whose reply was lost is outside the model.
- Pagination.Walk: a row that is inserted or starts to match during the walk may or may not appear, which is what keyset paging promises. Cursors are the (created_at, id) pair; their encoding is left out.
- Metrics.CountersConserved: holds for label values that are not empty, the exact condition of `AlikeIsEqualityIff`. Values are reals and counts unbounded: float64 rounding and uint64 wrap-around are left out.
- Metrics.HistogramsConserved: assumes that a histogram without samples has sum zero; the code drops the sum of one that has not and meets no earlier entry.
- Hub.Run: the hub's own inbox of 64 events may drop events before the hub sees them; only processed events count. Frame writes to the socket are left out.
- Consumer.DrainConserves: waitWhilePaused, isPaused and the outer superviseQueue loop are left out, as is a failing Nack or Ack call; a settle call is counted when it is made.
- The order of the three sweeps within one scheduler tick: each is proved on its own with anything in between.
- The clocks of the components themselves (created_at, sent_at): any values; only the database clock is kept in order in the runs shown to exist.
- The token bucket: waiting for the rate limiter succeeds or is interrupted, nondeterministically.
- Message priorities, Prometheus instrumentation, logging, correlation ids, HTTP transport, readiness, configuration and the mock provider.
- Text of error messages, recipient rules and template syntax: functions passed in as parameters.
