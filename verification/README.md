# Proofs about the betting-advice platform

The platform commits an advice row together with an outbox event, relays the event to
a queue from any number of workers, and consumes it behind an idempotent inbox. This
project models that pipeline as a protocol of small steps, proves what every
interleaving, failing call and crash leaves true, and proves the domain arithmetic and
state machines that feed it.

## How it is built

- `OutboxProtocol` and `InboxProtocol` give the two halves as state machines: one step
  per database write or queue call, taken by any worker or consumer, with failures and
  crashes as steps of their own. `Enabled` says when a step can happen, `Apply` what it
  does; a run is any sequence of enabled steps, of any length.
- `OutboxRelay` and `SqsConsumer` are the services as imperative classes, with fields
  updated in place and loops over batches and messages. Between any two of their calls
  every other process may take any steps it likes. Their methods are proved to leave
  the rows, the queue and the inbox in the states the source promises, and to take
  exactly the steps of their program, in order; so every theorem about runs of the
  protocol holds of the services.
- `Pipeline` joins the halves with the advice transaction and one clock. Its runs
  project onto runs of both halves.
- `OutboxTheorems`, `OutboxTiming`, `OutboxDelivery`, `InboxAtMostOnce`, `InboxNoLoss`
  and `InboxUpsert` hold the theorems over whole runs; `OutboxInvariants` the inductive
  invariant of the relay.
- `TenantKeys`, `AdviceRepository`, `UuidV7`, `CouponDraft`, `AdviceEvaluation`,
  `MatchLifecycle` and `JwksCache` each follow one source file.

History variables (`claimedAt`, `unrecorded`, `done`, `eventOf`) only record; no
branch of the modelled code depends on them.

## Assumptions

- The claim transaction is atomic, and a database write that reports an error was not
  applied. A publish that reports an error may still have enqueued the message.
- The inbox reservation inserts or fails on its primary key, as the consumer relies on
  (src/shared/infrastructure/queue/sqs-consumer.service.ts:164-180). TypeORM's `save`
  alone is an upsert; `InboxUpsert` shows that under an upsert the inbox stops nothing.
  The rows of `createWithOutbox` are inserts in the same sense.
- One clock in whole milliseconds is shared by all processes and the database. It may
  move between any two steps. The jitter of a back-off is its whole part.
- Advice ids and event ids are fresh and not empty.
- The relay and the inbox can read and write the rows they address.
- Odds, probabilities and expected values are exact reals.

## Where the code is weaker than its documentation

The repository's README (section 8) and ADR-006 promise at-least-once delivery, and an
inbox record in one transaction with the effect. The code differs, the model follows
the code, and the exact condition is proved in each case.

- `lease_until` is written by every claim and read by nothing. A worker that dies
  leaves its rows CLAIMED for ever (`CrashLosesEvent`, `CrashLosesEventReached`,
  `LeaseIsInert`). An event can still reach the queue if and only if it is PENDING in a
  relay that claims at all, or held by a live worker that has not used up its last
  attempt, or already there (`DeliveryExactly`).
- When publishing succeeds and the PUBLISHED write fails, the same catch block puts the
  event back to PENDING or FAILED: it may be published again, and a FAILED event may
  have been delivered. A settled event has the copies its status promises if and only
  if no step of the run hid one in this way (`ExactCopies`).
- Reservation, effect and rollback are separate writes. At most one effect per key and
  week holds as long as no prune removes the reservation of a handler still in flight,
  and that condition is exact for each prune (`PruneIsSafeExactly`): the slow handler's
  rollback deletes by key, whoever made the row (`DoubleEffect`, `DoubleEffectReached`).
- Every reservation error counts as a duplicate, and a duplicate is deleted whether or
  not the first delivery ever completes. Four things lose messages: a failing
  reservation, a failing rollback, a crash, and a delivery that overlaps another one of
  the same key. Any number of consumers without them loses nothing (`OrderlyNeverLoses`),
  each of them alone loses any message (`EachCauseLoses`), so a deployment is free of
  losses if and only if it rules out all four (`LossFreeExactly`).

## Model

| member | source | states |
|---|---|---|
| OutboxTheorems.AttemptAccounting | src/outbox/application/outbox-relay.service.ts:79-192 | In every reachable state an event's claims equal its attemptCount, plus one while CLAIMED or PUBLISHED; claims and queued copies never exceed the attempt budget; PENDING has attempts left, FAILED has none; PUBLISHED has one copy more than the faults recorded, PENDING and FAILED exactly as many. |
| OutboxTheorems.ExclusiveOwnership | src/outbox/application/outbox-relay.service.ts:77-124 | For any interleaving, batches in flight are disjoint and without repetition, and what a worker read at claim time still stands in the table when it writes back: no lost update. |
| OutboxTheorems.NeverClaimedAgain | src/outbox/application/outbox-relay.service.ts:79-85 | A PUBLISHED or FAILED event, and a CLAIMED one that no worker holds, keeps its row, its claims and its copies through every later run. |
| OutboxTheorems.LeaseIsInert | src/outbox/application/outbox-relay.service.ts:93-105 | Two states that differ in claim_owner and lease_until alone allow exactly the same runs, and those end in states that differ in nothing else. |
| OutboxTheorems.SelectionsTie | src/outbox/application/outbox-relay.service.ts:79-85 | Two answers of the claim query to one table differ in rows of equal created_at only. |
| OutboxTheorems.SelectionIsDetermined | src/outbox/application/outbox-relay.service.ts:79-85 | Without ties in created_at the claimed set is unique. |
| OutboxInvariants.StepKeepsInv | src/outbox/application/outbox-relay.service.ts:69-193 | Ownership, attempt counts, conservation of copies, message contents and claim spacing survive every step of every worker, including failing writes and crashes. |
| OutboxInvariants.RunKeepsInv | src/outbox/application/outbox-relay.service.ts:69-193 | The same over runs of any length. |
| OutboxTiming.RetryTiming | src/outbox/application/outbox-relay.service.ts:168-192 | The (n+1)-th claim of an event comes at least the sum of its first n back-offs after its first claim: 4000 * (2^n - 1) ms for n <= 4 and 60000 * (n - 3) ms for n >= 4. |
| OutboxTiming.BackoffSumClosed | src/outbox/application/outbox-relay.service.ts:172-175 | The closed form of the sum of min(60000, 2000 * 2^k), both cases. |
| OutboxTiming.SingleDelay | src/outbox/application/outbox-relay.service.ts:167-192 | The n-th recorded failure sets next_attempt_at to the time the error was caught plus the jitter plus 4000, 8000, 16000 or 32000 ms for n = 1 to 4 and 60000 ms from then on; it counts one attempt, and is FAILED if and only if that was the last one. |
| OutboxInvariants.DelayTable | src/outbox/application/outbox-relay.service.ts:172-175 | min(60000, 2000 * 2^n) is 4000, 8000, 16000, 32000 for n = 1 to 4 and 60000 for every n from 5 on. |
| OutboxTiming.BoundedWork | src/outbox/application/outbox-relay.service.ts:77-192 | Over any run the row claims and finishes, plus what the events may still cost, are at most 2 * N * budget for the N events there are. |
| OutboxTiming.StepUsesTotal | src/outbox/application/outbox-relay.service.ts:96-192 | The measure falls by at least the work of every claim and every finish; only a new event raises it, by twice the budget. |
| OutboxDelivery.SettledOutcome | src/outbox/application/outbox-relay.service.ts:158-192 | If status writes succeed, failed publishes enqueue nothing and no worker dies, then a PUBLISHED event has exactly one copy, a FAILED or PENDING one has none, and a CLAIMED one is in some worker's batch; so once nothing is waiting and no worker is busy each event is PUBLISHED with one copy or FAILED with none. |
| OutboxDelivery.ExactCopies | src/outbox/application/outbox-relay.service.ts:158-192 | In any run whatever, a settled event has exactly one copy if PUBLISHED and none if FAILED, if and only if no step of the run hid one: no failed publish that enqueued it, and no failed mark or crash between its publish and its mark. |
| OutboxDelivery.CopiesCounted | src/outbox/application/outbox-relay.service.ts:158-192 | In every reachable state an event has as many copies as the run has steps that hid one, plus one if it is PUBLISHED or about to be marked. |
| OutboxDelivery.DeliveryExactly | src/outbox/application/outbox-relay.service.ts:69-193 | From any reachable state: if the event is Deliverable, a continuation with no fault and no row locks takes it to the queue; if it is not, no continuation at all does. |
| OutboxDelivery.NeverDelivered | src/outbox/application/outbox-relay.service.ts:69-193 | An event that is not Deliverable has no copy in any continuation. |
| OutboxDelivery.CrashLosesEvent | src/outbox/application/outbox-relay.service.ts:93-124 | A worker that dies holding an unsent event leaves it CLAIMED and unsent in every continuation, although its lease runs out. |
| OutboxDelivery.CrashLosesEventReached | src/outbox/application/outbox-relay.service.ts:93-124 | For every event and every batch size of at least one there is such a run from the empty platform. |
| OutboxRelay.Cluster.SelectForUpdate | src/outbox/application/outbox-relay.service.ts:79-86 | The loop that picks the oldest unlocked due row until the limit meets the specification of the claim query. |
| OutboxRelay.OutboxRelayService.ClaimBatch | src/outbox/application/outbox-relay.service.ts:77-112 | The batch transaction takes exactly min(batchSize, free) distinct rows that are PENDING, due and unlocked, and none while an older free one is left; it makes them CLAIMED by this worker for 60 seconds, changes no other row and enqueues nothing, and returns them as they stood. To the protocol it is one Claim step, or a ClaimNothing step. |
| OutboxRelay.OutboxRelayService.Publish | src/outbox/application/outbox-relay.service.ts:134-158 | On success one copy of the event, with its id, type, tenant and advice, is enqueued and the worker goes on to mark; on error it enters the catch block, with or without a copy. No row changes; to the protocol it is one step. |
| OutboxRelay.OutboxRelayService.MarkPublished | src/outbox/application/outbox-relay.service.ts:160-164 | The row becomes PUBLISHED and nothing else of the table changes, or the write fails, the table is as it was, and the worker enters the catch block with the copy unrecorded. One step. |
| OutboxRelay.OutboxRelayService.RecordFailure | src/outbox/application/outbox-relay.service.ts:167-192 | The row gets one attempt more than the worker's snapshot, FAILED when that reaches maxAttempts and PENDING otherwise, and the exact back-off from the time of the error (4, 8, 16, 32, then 60 seconds, plus jitter); no other row changes. If the write fails nothing changes and the exception ends the batch. One step. |
| OutboxRelay.OutboxRelayService.CatchError | src/outbox/application/outbox-relay.service.ts:167-192 | After a failed publish or mark and whatever the other processes do meanwhile, the row is as a recorded failure leaves it, or still CLAIMED as before if it could not be recorded, and the rows of the rest of the batch are as they were. |
| OutboxRelay.OutboxRelayService.RelayEvent | src/outbox/application/outbox-relay.service.ts:132-193 | Whatever other processes do between its calls: the event has one more copy if and only if the queue took it; its row is PUBLISHED with nothing else changed if publish and mark succeed, has one more attempt and is FAILED or PENDING with the exact back-off if a failure was recorded, and is as it was if not even that could be written, which is exactly when it throws. The rest of the batch is untouched, and the own steps are publish, mark and, on any error, record. |
| OutboxRelay.OutboxRelayService.RelayBatch | src/outbox/application/outbox-relay.service.ts:122-124 | Every event up to the first that throws is delivered and PUBLISHED, or has its attempt recorded; the one that throws and all after it are still CLAIMED with the attempts they had, the rows of those after it untouched, and the worker has dropped them. |
| OutboxRelay.OutboxRelayService.ProcessOutbox | src/outbox/application/outbox-relay.service.ts:69-130 | A cycle started while another is under way does nothing. Otherwise it takes the oldest due free rows at the moment of its claim, or none if the transaction fails; at its end every claimed event before the first that throws is settled as its answers say and the others are still CLAIMED; the whole is a run that keeps the invariant, and the flag is cleared on every way out. |
| InboxAtMostOnce.AtMostOnce | src/shared/infrastructure/queue/sqs-consumer.service.ts:88-219 | In every run whose prunes spare handlers in flight, two committed effects for one inbox key have reservation times more than seven days apart, for any number of consumers, redeliveries, failing writes and crashes. |
| InboxAtMostOnce.AtMostOnceIfTimely | src/shared/infrastructure/queue/sqs-consumer.service.ts:88-219 | The same for every run in which no handler is in flight for more than seven days. |
| InboxAtMostOnce.StepKeepsInv | src/shared/infrastructure/queue/sqs-consumer.service.ts:88-219 | Active handlers own their reservations, one per key, and every committed effect is covered by its reservation or by a week gone by; every sparing step keeps this. |
| InboxAtMostOnce.PruneIsSafeExactly | src/shared/infrastructure/queue/sqs-consumer.service.ts:88-105 | A prune keeps the promise for all continuations if and only if it is no later than the reservation of any handler in flight. |
| InboxAtMostOnce.DoubleEffect | src/shared/infrastructure/queue/sqs-consumer.service.ts:206-217 | Once a reservation in flight is gone, a continuation commits two effects for its key with the same reservation time: the rollback checks no owner. |
| InboxAtMostOnce.DoubleEffectReached | src/shared/infrastructure/queue/sqs-consumer.service.ts:88-217 | For every message with a type and a tenant there is such a run from the empty platform. |
| InboxNoLoss.LossFreeExactly | src/shared/infrastructure/queue/sqs-consumer.service.ts:133-219 | Of a failing reservation, a failing rollback, a crash and an overlapping delivery of one key: a set of causes that a deployment permits keeps all its runs, of any number of consumers, free of losses if and only if it is empty. |
| InboxNoLoss.OrderlyNeverLoses | src/shared/infrastructure/queue/sqs-consumer.service.ts:133-219 | Any number of consumers, without these four causes: every deleted message with a type and a tenant has had its handler run, at every moment, however the queue redelivers, handlers fail and prunes fall; every key in the inbox is that of a completed run or of a handler in flight. |
| InboxNoLoss.EachCauseLoses | src/shared/infrastructure/queue/sqs-consumer.service.ts:164-217 | Each of the four causes, with none of the others, has a run from the empty platform that deletes any given message with a type and a tenant unhandled. |
| InboxNoLoss.FaultLosesExactly | src/shared/infrastructure/queue/sqs-consumer.service.ts:164-180 | Where nobody crashes, fails to roll back or overlaps, the one step after which a message is lost or about to be is a reservation that fails for a key without a completed run. |
| InboxNoLoss.LossExactly | src/shared/infrastructure/queue/sqs-consumer.service.ts:166-217 | In any run whatever, no message is ever deleted unhandled if and only if every refused message that is deleted is so after a completed handler for its key. |
| InboxNoLoss.StepLosesExactly | src/shared/infrastructure/queue/sqs-consumer.service.ts:166-217 | Step by step: deleting a refused message whose key has no completed handler is the one step that loses a message; finishing, discarding and rolling back never do. |
| InboxNoLoss.TwoConsumersLose | src/shared/infrastructure/queue/sqs-consumer.service.ts:166-217 | The overlapping delivery: the second consumer deletes the message as a duplicate, then the first one's handler fails. |
| InboxNoLoss.FailedReservationLoses | src/shared/infrastructure/queue/sqs-consumer.service.ts:166-180 | The failing reservation: the message is deleted as a duplicate of nothing. |
| InboxNoLoss.CrashLoses | src/shared/infrastructure/queue/sqs-consumer.service.ts:166-180 | The crash: the reservation of the dead consumer refuses the redelivered message. |
| InboxNoLoss.FailedRollbackLoses | src/shared/infrastructure/queue/sqs-consumer.service.ts:208-217 | The failing rollback: the reservation left behind refuses the redelivered message. |
| InboxNoLoss.NoLoss | src/shared/infrastructure/queue/sqs-consumer.service.ts:107-219 | A single consumer overlaps with nobody: without crash, failing rollback and failing reservation it loses nothing, and between messages every key in the inbox is that of a completed run. |
| InboxUpsert.EveryDeliveryIsHandled | src/shared/infrastructure/queue/sqs-consumer.service.ts:166-173 | Were the reservation the upsert that TypeORM's save is by itself, every delivery would be handled, whatever the inbox holds. |
| InboxUpsert.UpsertHandlesTwice | src/shared/infrastructure/queue/sqs-consumer.service.ts:166-173 | Under that upsert every message with a type and a tenant has a run from the empty platform, with no prune and no crash, that handles it twice with the same reservation time. |
| InboxProtocol.ProperExactly | src/shared/infrastructure/queue/sqs-consumer.service.ts:134-160 | A message is reserved, and not discarded, if and only if it has a type under either name and some character of its tenant is left after sanitising; without a tenant it is. |
| InboxProtocol.ReadsExactly | src/shared/infrastructure/queue/sqs-consumer.service.ts:134-161 | The message's own event id comes before that of the queue, `type` before `eventType`; the tenant is "default" if there is none, itself if canonical; the key is tenant:event:SqsConsumerService. |
| InboxNoLoss.InboxIsExact | src/shared/infrastructure/queue/sqs-consumer.service.ts:88-219 | A single consumer without crash, failing rollback and failing reservation, never overtaken by a prune: between messages a key is in the inbox if and only if some step of the run completed a handler for it and no later prune has a cutoff past its reservation time. |
| InboxNoLoss.PruneKeepsInboxExactly | src/shared/infrastructure/queue/sqs-consumer.service.ts:88-105 | A prune keeps the inbox equal to the completed keys, plus the one in hand, if and only if it spares the reservation in hand. |
| SqsConsumer.SqsConsumerService.Reserve | src/shared/infrastructure/queue/sqs-consumer.service.ts:161-180 | The key gets a row with the present time if it is free and the database answers; the message is refused as a duplicate if the key is taken, and just the same if the database fails, and then the inbox is as it was. Nothing is handled or deleted. One step. |
| SqsConsumer.SqsConsumerService.RunCallback | src/shared/infrastructure/queue/sqs-consumer.service.ts:183-202 | The callback runs in a tenant context of its own, reads its audit tenant from there, and has the effect of the message: an audit row of tenant, advice and event for ADVICE_GENERATED, none for any other type; afterwards the context is as it was found. |
| SqsConsumer.SqsConsumerService.AwaitDelete | src/shared/infrastructure/queue/sqs-consumer.service.ts:174-180 | A message that is not wanted, was refused, or is done is deleted by one call of its own, after anything the other processes do in between. |
| SqsConsumer.SqsConsumerService.Handle | src/shared/infrastructure/queue/sqs-consumer.service.ts:183-202 | One run of the handler is added, with the key, reservation time and audit row of this message written out, or none if the callback fails; inbox and queue are as they were, and so is the tenant context. One step. |
| SqsConsumer.SqsConsumerService.Rollback | src/shared/infrastructure/queue/sqs-consumer.service.ts:206-217 | The row under the key is gone, whoever made it, and no other; or nothing changes if the call fails. The message is not deleted. |
| SqsConsumer.SqsConsumerService.HandleReserved | src/shared/infrastructure/queue/sqs-consumer.service.ts:182-218 | After any interference: if the callback succeeds, a run for this message was added and the message is deleted if the call works; if it fails, the key is free again if the rollback works. The own steps are handle then delete, or handle error then rollback. |
| SqsConsumer.SqsConsumerService.ProcessParsed | src/shared/infrastructure/queue/sqs-consumer.service.ts:135-219 | A message without type or usable tenant is deleted unhandled; any other is reserved under tenant:event:handler, its handler is called if and only if the reservation was made, and it is deleted whenever the call works, except after a failed handler. |
| SqsConsumer.SqsConsumerService.ProcessMessageWithRetry | src/shared/infrastructure/queue/sqs-consumer.service.ts:133-219 | Throws exactly on a body that does not parse, and then nothing has changed. Otherwise this consumer handles the message if and only if it was freshly reserved and the callback succeeded, and then a new run of it exists; it deletes it if and only if the call works and it was handled, refused or unusable; after a failed callback its key is free if the rollback works; and the consumer is idle again. |
| SqsConsumer.SqsConsumerService.Poll | src/shared/infrastructure/queue/sqs-consumer.service.ts:120-125 | The received messages are processed in order up to the first that does not parse, each with the reservation that its content and the answers allow; at the end each handled one has its run, and each handled, refused or unusable one is deleted if the call works. |
| SqsConsumer.SqsConsumerService.PollLoop | src/shared/infrastructure/queue/sqs-consumer.service.ts:107-131 | Turn after turn for exactly as long as no process has cleared the flag, which may happen at any call of a turn and ends the loop with that turn. Each turn handles what the queue offers of the messages sent by then, in the order of the offer, with the outcomes of Poll still standing at the end of the loop; a failed receive or a message that does not parse ends its turn and not the loop; all turns together are one run. |
| SqsConsumer.SqsConsumerService.DeleteMessage | src/shared/infrastructure/queue/sqs-consumer.service.ts:221-232 | The message is gone or, when the call fails, still there; no error reaches the caller. |
| SqsConsumer.SqsConsumerService.PruneOldInboxMessages | src/shared/infrastructure/queue/sqs-consumer.service.ts:88-105 | After whatever any process does meanwhile, this service's own handler included, exactly the rows from before the cutoff are gone, which lies 604800000 ms before the call began; no run and no message is touched, and nothing is pruned when the delete fails. |
| Pipeline.Projection | src/outbox/application/outbox-relay.service.ts:158 | Every pipeline run is a relay run and a consumer run over one queue and one clock, ending in the two halves of its final state. |
| Pipeline.AdviceEventBijection | src/advice/infrastructure/typeorm-advice.repository.ts:62-132 | In every reachable state each advice row has exactly one outbox event and each event exactly one advice row, with the same id and tenant. |
| Pipeline.NoPhantomEffects | src/shared/infrastructure/queue/sqs-consumer.service.ts:183-202 | Every ADVICE_MESSAGE_PROCESSED row names a committed advice of the same tenant and that advice's own event, which was claimed and of which a copy was sent. |
| Pipeline.EndToEndAtMostOnce | src/shared/infrastructure/queue/sqs-consumer.service.ts:161-219 | Two audit rows for one advice come from reservations more than seven days apart, however often the relay published and the queue delivered. |
| Pipeline.DeletedIsAudited | src/shared/infrastructure/queue/sqs-consumer.service.ts:166-205 | Whatever the relay goes through: if the consumers lost no message, every advice whose message was deleted has its audit row, with its own id, tenant and event. |
| Pipeline.EndToEnd | src/outbox/application/outbox-relay.service.ts:158-164 | With a relay that meets no fault, any number of consumers that meet none and never overlap on a key, and prunes that spare handlers in flight: a PUBLISHED advice event is in the queue exactly once and no other more than once, an advice whose message was deleted has its audit row, and its audit rows are more than seven days apart. |
| Pipeline.NoCrossSuppression | src/shared/infrastructure/queue/sqs-consumer.service.ts:135-161 | Two messages in the queue share an inbox key if and only if they are about the same advice. |
| AdviceRepository.TypeOrmAdviceRepository.CreateWithOutbox | src/advice/infrastructure/typeorm-advice.repository.ts:47-141 | Succeeds if and only if a tenant is set, nothing fails and both keys are free; then both rows appear, the outbox row PENDING, due at once, with no attempt, no owner and no lease, for the tenant in context; else no table changes; the connection is released in any case. With ids and a tenant as the platform makes them, a successful call is exactly one Commit step of the pipeline, whatever the consumers are doing. |
| AdviceRepository.TypeOrmAdviceRepository.CommitTransaction | src/advice/infrastructure/typeorm-advice.repository.ts:131 | The transaction's two rows become visible together or not at all. |
| TenantKeys.SanitizeIdempotent | src/shared/infrastructure/tenant/tenant-context.ts:13-27 | Sanitising is idempotent and its fixed points are the canonical tenants, so the consumer, the context and the filter of the database session see the same tenant. |
| TenantKeys.SanitizeIsCharacterwise | src/shared/infrastructure/tenant/tenant-context.ts:13-17 | Sanitising replaces each character by its image, in order: itself if canonical, the small letter for a capital one, nothing for most others. |
| TenantKeys.SanitizeKeepsCharacters | src/shared/infrastructure/tenant/tenant-context.ts:13-17 | Of letters, digits, _ and - none is dropped, moved or changed, but capital letters become the matching small ones. |
| TenantKeys.KeyRoundTrip | src/shared/infrastructure/queue/sqs-consumer.service.ts:147-161 | Tenant and event id can be read back from an inbox key, even when the event id contains a colon. |
| TenantKeys.KeysInjective | src/shared/infrastructure/queue/sqs-consumer.service.ts:161 | Two inbox keys are equal if and only if tenant and event id are. |
| TenantKeys.TenantContext.Enter | src/shared/infrastructure/tenant/tenant-context.ts:13-27 | Installs the sanitised tenant, or fails and installs nothing when nothing is left of it. |
| TenantKeys.TenantContext.GetTenantId | src/shared/infrastructure/tenant/tenant-context.ts:29-37 | Answers the innermost tenant, and fails if and only if there is none. |
| UuidV7.Layout | src/shared/domain/uuid.ts:8-26 | 8-4-4-4-12 lower-case hexadecimal digits, version digit 7, variant digit 8 to b (RFC 9562 sections 4.1 and 4.2), for every timestamp below 2^48 and all ten bytes. |
| UuidV7.RoundTrip | src/shared/domain/uuid.ts:8-26 | Timestamp, rand_a and rand_b can be read back from the text: rand_a is (random[0] % 16) * 256 + random[1], rand_b the six low bits of random[2] followed by the seven bytes after it, most significant first. |
| UuidV7.TimestampSurvivesExactly | src/shared/domain/uuid.ts:9-10 | The timestamp can be read back if and only if it is below 2^48. |
| UuidV7.Ordered | src/shared/domain/uuid.ts:8-26 | A smaller timestamp gives a lexicographically smaller identifier, whatever the random bytes (RFC 9562 section 5.7). |
| UuidV7.PrintsDigits | src/shared/domain/uuid.ts:10-18 | toString(16) with padStart is the fixed-width positional form of every number that fits. |
| UuidV7.MasksAreRemainders | src/shared/domain/uuid.ts:16-21 | The bit masks of version and variant are the remainders the model computes with, for all 16-bit and 8-bit inputs. |
| CouponDraft.Create | src/coupons/domain/coupon-draft.entity.ts:31-101 | The draft carries the legs, their combined odds, their average EV (both pinned by NoLegs, OneLeg and Together), and the reasons of the rules in order; it is REJECTED exactly when there is one. |
| CouponDraft.CheckRules | src/coupons/domain/coupon-draft.entity.ts:38-80 | The reasons found by the dictionaries and the set are those of the rules stated over occurrences. |
| CouponDraft.CountBy | src/coupons/domain/coupon-draft.entity.ts:58-72 | The dictionary holds exactly the values that occur, each with the number of positions in the list at which it stands. |
| CouponDraft.SetSize | src/coupons/domain/coupon-draft.entity.ts:48-52 | The set of match ids is as large as the list if and only if the matches are pairwise distinct. |
| CouponDraft.ApprovedExactly | src/coupons/domain/coupon-draft.entity.ts:38-98 | APPROVED if and only if there are one to five legs of pairwise distinct matches and no sport or competition stands at more than three positions. |
| CouponDraft.ReasonsExactly | src/coupons/domain/coupon-draft.entity.ts:38-80 | Each reason is reported exactly when its own rule is broken, each at most once and in the order of the rules; there are reasons if and only if the draft is REJECTED. |
| CouponDraft.OrderDoesNotMatter | src/coupons/domain/coupon-draft.entity.ts:38-98 | A permutation of the legs changes neither decision, nor reasons, nor odds, nor EV. |
| CouponDraft.NoLegs | src/coupons/domain/coupon-draft.entity.ts:83-86 | A coupon without legs reports odds of 1 and an EV of 0. |
| CouponDraft.OneLeg | src/coupons/domain/coupon-draft.entity.ts:83-86 | A coupon of one leg reports the odds and the EV of that leg. |
| CouponDraft.Together | src/coupons/domain/coupon-draft.entity.ts:83-86 | Of the drafts of two lists and of both lists joined, the odds multiply and the EVs average, weighted by the number of legs. |
| CouponDraft.ApprovalIsHereditary | src/coupons/domain/coupon-draft.entity.ts:38-98 | Dropping any leg of an approved coupon of two or more leaves it approved. |
| CouponDraft.AverageIsBetween | src/coupons/domain/coupon-draft.entity.ts:84-86 | The reported EV lies between the least and the greatest EV of a leg. |
| CouponDraft.ConservativeEv | src/coupons/domain/coupon-draft.entity.ts:82-95 | For legs from RECOMMENDED advice: 0.05 <= reported EV <= sum of EVs <= product(1 + ev) - 1, and combined odds >= 1.05^n. |
| AdviceEvaluation.RecommendedExactly | src/advice/domain/advice.entity.ts:262-321 | After gates 1 to 6: RECOMMENDED if and only if p >= 1/odds + 0.03 and p >= 1.05/odds, and which of the two price reasons applies otherwise. |
| AdviceEvaluation.EvIsOddsTimesEdge | src/advice/domain/advice.entity.ts:263-265 | The two price figures computed from a prediction and a quote satisfy EV = odds * edge; FiguresExactly states it of the fields of the advice. |
| AdviceEvaluation.FiguresExactly | src/advice/domain/advice.entity.ts:92-321 | Past gates 1 to 6 an advice carries the calibrated probability p, the EV p * odds - 1, and the edge that gives the EV when multiplied by the odds, whatever the decision; before, it carries none of the three. |
| AdviceEvaluation.ReferencesExactly | src/advice/domain/advice.entity.ts:92-321 | The advice names the match it was given, or "unknown"; the quote if and only if prediction and quote were there to look at; and the model if and only if the prediction was reached. |
| AdviceEvaluation.ThresholdsCross | src/advice/domain/advice.entity.ts:267-285 | The EV threshold is the stricter one exactly below odds of 5/3; each threshold can be met by a probability exactly from 100/97 and 1.05 on. |
| AdviceEvaluation.EvReasonReachableExactly | src/advice/domain/advice.entity.ts:285-303 | Some evaluation at these odds is rejected with EXPECTED_VALUE_BELOW_THRESHOLD if and only if the odds are from 100/97 up to but excluding 5/3. |
| AdviceEvaluation.RecommendableExactly | src/advice/domain/advice.entity.ts:263-321 | Some evaluation at these odds, of those a quote may carry, is RECOMMENDED if and only if they are at least 1.05. |
| AdviceEvaluation.Monotone | src/advice/domain/advice.entity.ts:262-321 | A higher probability or higher odds never withdraws a recommendation. |
| AdviceEvaluation.RecommendedLeg | src/advice/domain/advice.entity.ts:307-321 | A leg taken from RECOMMENDED advice meets what the coupon's EV bounds rely on, with odds of at least 1.05. |
| AdviceEvaluation.NotRecommendedAgain | src/advice/domain/advice.entity.ts:130-146 | Once a match went LIVE or was cancelled, no later version of it is ever RECOMMENDED. |
| AdviceEvaluation.FirstFailingGateDecides | src/advice/domain/advice.entity.ts:92-321 | Decision and reason are those of the first failing gate in the policy's order; RECOMMENDED if and only if none fails. |
| AdviceEvaluation.EachReasonExactly | src/advice/domain/advice.entity.ts:92-305 | Each reason is given exactly in its own circumstances, written out reason by reason; there is none exactly for RECOMMENDED, and REJECTED goes with three of them. |
| MatchLifecycle.VersionCounts | src/matches/domain/match.entity.ts:52-88 | The version counts the transitions of a run of any length; the last request fixes status and time; no other field moves. |
| MatchLifecycle.RunsExactly | src/matches/domain/match.entity.ts:52-71 | The runs from a new match are exactly any number of postponements with a new date followed by one of seven endings. |
| MatchLifecycle.VersionParity | src/matches/domain/match.entity.ts:52-88 | SCHEDULED, FINISHED and ABANDONED have odd versions, POSTPONED and LIVE even ones. |
| MatchLifecycle.LiveOnceBeforeTheEnd | src/matches/domain/match.entity.ts:52-71 | A history that ends FINISHED or ABANDONED contains LIVE exactly once, immediately before. |
| MatchLifecycle.NeverScheduledAgain | src/matches/domain/match.entity.ts:52-71 | From LIVE, CANCELLED and the end states no run returns to SCHEDULED or POSTPONED. |
| JwksCache.JwtTokenService.FetchJwks | src/auth/infrastructure/services/jwt-token.service.ts:125-141 | A failed fetch leaves keys and timestamp as they are; keys and timestamp are always those of the latest successful fetch. |
| JwksCache.JwtTokenService.GetSigningKey | src/auth/infrastructure/services/jwt-token.service.ts:103-123 | What is returned is the first certificate of the chain of the first key with the kid in the latest fetched set, fetched during the call or at most cacheDuration old when it began. The cache sees the fetches of other lookups and at most two of this one: the first exactly if the cache is empty or stale, and none at all if a fresh cache has the kid. Every failure has one of three causes. |
| JwksCache.FindIsFirst | src/auth/infrastructure/services/jwt-token.service.ts:112-115 | The lookup answers the first key with the kid, and nothing if and only if there is none. |
| JwksCache.LatestGoodIsLatest | src/auth/infrastructure/services/jwt-token.service.ts:132-135 | The set the cache is compared with is the last successful fetch of the history. |

## Left out

- AdviceRepository.TypeOrmAdviceRepository.CreateWithOutbox: other processes do not act between its writes, which are private to the transaction until the commit; the commit is the one step the pipeline interleaves. Of the advice columns the model keeps id and tenant.
- SqsConsumer.SqsConsumerService.PollLoop: stated for any number of turns; a loop that is never stopped is every finite beginning of it. The five-second pause after an error is time that passes among the other processes' steps.
- Pipeline.AdviceEventBijection: the pipeline commits ADVICE_GENERATED events only, the one type the platform writes to its outbox.
- OutboxTiming.RetryTiming: a lower bound only; nothing makes a worker claim a due event.
- Order of publishing: claimed rows are re-read without an ORDER BY, so first-in first-out order is not claimed.
- Fields of a message that JSON allows to be something other than a string, and message bodies that parse to something other than an object.
- Queue internals, retention and the dead-letter queue; S3, Redis, HTTP controllers, guards, interceptors, configuration and logging: plumbing around the modelled logic.
- Row-level security and database roles: whether they let the relay and the inbox see their rows depends on the deployment.
- JWT signing and verification, SHA-256 checksums, JSON encoding and the source of random bytes: calls into code that is not modelled.
- Line wrapping and PEM markers of a certificate in formatPublicKey.
- Floating-point rounding, infinite results of the coupon's folds, rationale strings, and coupon counters for names that are properties of every JavaScript object.
- The advice mapper, the no-vig calculator, the point-in-time filter, publishBatch chunking, S3 key normalisation and the cache's remember: easy or not used by the pipeline.
- The filter of the database session variable is covered by the third clause of TenantKeys.SanitizeIdempotent; the subscriber's checks on insert, update and remove are not part of this model.
