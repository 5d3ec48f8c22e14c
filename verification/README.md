# Reliable mail delivery, verified

A Dafny model of the delivery core of the mail service and proofs of what it is for: a logical mail
is handed to the mail server at most once, whatever workers, brokers and relays do, and every table
agrees with every other table in every committed state. Around that core the project models the
outbox lease protocol, the provider guard (circuit breaker, bulkhead, token bucket, gauge), the
publish/parse round trip and the backoff arithmetic.

`dafny verify dfyconfig.toml` checks the whole project.

## How it is organised

Every operation exists as a function on values; the theorems are about those functions. Where the
service works in place (the message aggregate, the tables and transactions, the scheduler's batch,
the outbox table, the relay's tally, breaker, bucket, guard, gauge, backoff loops) there is also a
class or a loop, proved to do exactly what the function says. Concurrency is a state machine whose
steps are those functions, taken in any interleaving.

| files | content |
|---|---|
| Common, Statuses, Messages | result types and text checks; the state graph; the aggregate and its operations |
| MessageRuns, MessageEffects, DeliveryFacts | invariant, counters, termination and restorability on all runs; operations against the state graph, and replay of their events; the closed form for provider facts |
| MessageObject | the aggregate as a mutable object |
| EventMapping, Wire | events to outbox rows and journal entries; publisher, router and both parsers |
| Providers, Smtp, Backoff | provider results and what they do to a message; the SMTP adapter's classification; retry delays |
| Store, Constraints, Worker | the tables of one message and the statements on them; what the schema's constraints guarantee; the decisions of the four transactions |
| Cells, CellSteps | what the tables of one message say about each other, and that each transaction keeps it |
| Dispatch, DispatchInvariant | the concurrent system and its global invariant |
| DispatchTheorems, DispatchHistory | what follows for every reachable state and between any two states of a run |
| DispatchRecords, DispatchPacing | what the tables keep of a provider result; the distance between attempts over every run |
| DispatchProgress | what can still happen from every reachable state, and a run that does it |
| Database, Transactions, DueScheduler | tables, transactions and the scheduler's batch as objects and methods |
| Outbox, OutboxProtocol, OutboxRuns, OutboxRelay | lease protocol: statements, invariant, theorems, table and relay as objects |
| Circuit, CircuitObject, Bucket, Guarding, GuardRuns, GuardObject, Gauge | the provider guard and its metrics gauge |

## Reading the model

- Reading a record and committing what follows from it are separate steps, so any other transaction
  can come in between; the commit is the version-guarded update of the source. A transaction's
  timestamp is the database clock when it began and may lie anywhere before its commit; it is only
  known to lie after the events that made the transaction begin.
- A worker can die between any two steps. A commit whose acknowledgement is lost is a commit followed
  by such a death. Every outbox row can be published at any time and any number of times, and every
  published command can be consumed again at any later time; this includes all that the relays do.
- Each unique constraint of the schema names the message, so the tables are kept per message. The
  scheduler's row locks make its batch one step.
- The provider contract (internal/application/ports/email_provider.go:108-110) is a condition on the
  provider step: a valid FAILED result means that the mail was not accepted. For the SMTP adapter it
  is proved equivalent to the rule of RFC 5321, sections 4.2.1 and 4.3.2, that 250 is the positive
  reply to the end of DATA.
- Event ids are name-based UUIDs of (message, kind, sequence, generation) and are represented by that
  tuple, which makes them injective. A JSON body is represented by the object it encodes.
- Lease tokens and attempt ids are fresh values. Times are integers in nanoseconds, tokens of the
  bucket are real numbers, mutex-protected methods are single steps.

## What turned out not to hold

- Nominal lease intervals of one outbox event can overlap. A retry may make the event available again
  before the lease it gave back would have run out, and nothing else does that. The leases actually in
  force never overlap (`OutboxRuns.NominalLeasesCanOverlap`, `OutboxRuns.OnlyEarlyRetriesOverlap`,
  `OutboxRuns.NominalLeasesOverlapExactly`, `OutboxRuns.LeasesNeverOverlap`).
- Restoring a snapshot can fail after a delivery fact dated before acceptance
  (`MessageRuns.EarlyFactBreaksTheRoundTrip`, `MessageRuns.EveryRunIsRestorable`).
- The order of provider facts matters if and only if a bounce meets a delivery or complaint
  (`DeliveryFacts.OrderIrrelevantExactly`).
- A positive SMTP reply other than 250 to the end of DATA is retried although the mail was accepted
  (`Smtp.OtherPositiveReplyIsRetried`, `Smtp.SubmitIsHonestExactly`).
- The CHECK constraints of the message table do not quite say what the domain's validation says: `btrim` removes
  space characters only, so a failure code made of other white space would be stored and never restored. It is
  the only gap, and no operation of the service writes such a code (`Constraints.ChecksAreTheDomainRules`,
  `Constraints.TabCodeIsStoredButNotRestored`, `DispatchTheorems.EveryRecordRestores`).
- A message whose worker dies while sending stays SENDING for good
  (`DispatchHistory.AbandonedMessagesStay`).

## Model

| member | source | states |
|---|---|---|
| `MessageObject.Message.constructor` | internal/domain/message/message.go:107-129 | a new object shows exactly the aggregate it is built from |
| `MessageObject.Message.CreateNew` | internal/domain/message/message.go:61-105 | creates a fresh object holding the new message with its first events, or reports the rejection, case by case as `New` does |
| `MessageObject.Message.Rehydrate` | internal/domain/message/message.go:107-174 | accepts exactly the snapshots `validateSnapshot` accepts; the object shows the snapshot unchanged and has no pending events |
| `MessageObject.Message.PullEvents` | internal/domain/message/message.go:218-222 | returns the buffered events and empties the buffer, nothing else |
| `MessageObject.Message.SetStatus` | internal/domain/message/message.go:224-242 | status, update time and sequence move together and one event with the old and new status is appended |
| `MessageObject.Message.Queue` | internal/domain/message/transition.go:11-28 | in place: new generation, no retry time, status event and dispatch request appended; a rejected call changes nothing |
| `MessageObject.Message.StartSending` | internal/domain/message/transition.go:30-50 | in place: one attempt more, only from QUEUED, for the current generation, before the deadline and inside the budget; otherwise unchanged with the source's error |
| `MessageObject.Message.ScheduleRetry` | internal/domain/message/transition.go:52-76 | in place: retry time and failure recorded; each of the five rejections leaves the object unchanged |
| `MessageObject.Message.MarkSubmissionUnknown` | internal/domain/message/transition.go:78-93 | only from SENDING and only with an ambiguous failure; otherwise unchanged |
| `MessageObject.Message.MarkPermanentlyFailed` | internal/domain/message/transition.go:95-108 | in place: failure recorded, retry time cleared; otherwise unchanged |
| `MessageObject.Message.MarkDeadLettered` | internal/domain/message/transition.go:110-123 | in place: failure recorded, retry time cleared; otherwise unchanged |
| `MessageObject.Message.MarkUnknownFinal` | internal/domain/message/transition.go:125-138 | only from SUBMISSION_UNKNOWN; otherwise unchanged |
| `MessageObject.Message.Cancel` | internal/domain/message/transition.go:140-155 | repeated cancel is a no-op, a started message is too late; `changed` reports exactly whether an event was emitted |
| `MessageObject.Message.Expire` | internal/domain/message/transition.go:157-172 | repeated expiry is a no-op, too early is rejected; `changed` reports exactly whether an event was emitted |
| `MessageObject.Message.ApplyDeliveryFact` | internal/domain/message/transition.go:201-233 | applied, duplicate or ignored regression are told apart exactly, and only an applied fact changes the object |
| `MessageRuns.StepKeepsCoherence` | internal/domain/message/transition.go:11-233 | every operation keeps the inductive invariant (counters, retry time, sequence ceiling per state), and either changes nothing or moves along one edge of the state graph under the next sequence number |
| `MessageRuns.RunKeepsCoherence` | internal/domain/message/transition.go:11-233 | the invariant holds, and identity columns stay, after every run of operations, with pulls and reloads in between |
| `MessageRuns.NewIsCoherent` | internal/domain/message/message.go:61-105 | every accepted new message satisfies the invariant |
| `MessageRuns.CountersOnEveryRun` | internal/domain/message/message.go:131-174 | on every run from `New`: generation = attempts + 1 when QUEUED, generation = attempts in the other dispatch states, attempts below the limit before sending, and at most 4 * maxAttempts + 4 events |
| `MessageRuns.SequenceCountsEffectiveOps` | internal/domain/message/message.go:224-242 | the sequence number grows by exactly the number of operations that changed something |
| `MessageRuns.RunsSettle` | internal/domain/message/status.go:50-105 | any run, however long, contains at most 4 * maxAttempts + 2 effective operations: the retry cycle terminates |
| `MessageRuns.SequenceBoundIsReached` | internal/domain/message/transition.go:11-233 | the event bound is exact: for every attempt limit there is a run that reaches it |
| `MessageRuns.TerminalIsAbsorbing` | internal/domain/message/status.go:50-63 | from a terminal status no run of operations changes the snapshot |
| `MessageRuns.RestoreAcceptsExactly` | internal/domain/message/message.go:131-174 | a reachable snapshot is restorable if and only if its update time is set and not before acceptance |
| `MessageRuns.StepIsRestorableExactly` | internal/domain/message/message.go:131-174 | one operation on a reachable message leaves it restorable if and only if it changed nothing and the message was, or it is dated and not before acceptance |
| `MessageRuns.RunIsRestorableExactly` | internal/domain/message/message.go:131-174 | the same for every run, through its last effective operation |
| `MessageRuns.EveryRunIsRestorable` | internal/domain/message/message.go:107-174 | a run from `New` survives Snapshot/Restore if and only if its last effective operation is dated and not before acceptance; the round trip is then the identity, and dating all operations so is enough |
| `MessageRuns.ReloadIsInvisible` | internal/domain/message/message.go:107-208 | saving and reloading between any two operations of a run makes no difference to any later snapshot |
| `MessageRuns.EarlyFactBreaksTheRoundTrip` | internal/domain/message/transition.go:201-233 | the time condition is needed: a delivery fact dated before acceptance yields a snapshot that cannot be restored |
| `MessageEffects.OperationsFollowTheGraph` | internal/domain/message/transition.go:11-233 | on every coherent message each of the ten operations succeeds if and only if it repeats what is already so, or the state graph has its edge and its own side condition holds; no hand-written guard strays from the graph |
| `MessageEffects.OperationsTellTheirEffect` | internal/domain/message/transition.go:11-233 | an accepted operation that repeats changes nothing; any other one changes exactly the columns named, and its event carries edge, date, counters, failure, reason and provider id |
| `MessageEffects.EventsRebuildTheMessage` | internal/domain/message/message.go:224-255 | folding the events that any run emits over the first snapshot gives the last one, retry time aside, whatever was rejected, pulled or reloaded in between |
| `DeliveryFacts.FactsReachTheClosedForm` | internal/domain/message/transition.go:201-263 | for every finite sequence of facts from SENDING, SUBMISSION_UNKNOWN or PROVIDER_ACCEPTED no fact is rejected, and the final status is BOUNCED if the first fact other than provider-accepted is a bounce, else the highest of accepted, delivered, complained seen |
| `DeliveryFacts.OrderIrrelevant` | internal/domain/message/transition.go:250-263 | two orders of the same facts end in the same status unless a bounce and a delivery or complaint are both among them |
| `DeliveryFacts.OrderIrrelevantExactly` | internal/domain/message/transition.go:250-263 | order matters if and only if a bounce and a delivery or complaint both occur |
| `Providers.Normalize` | internal/application/delivery/dispatch_worker.go:203-236 | a valid result is kept as it is; an invalid one becomes ambiguous if the context ended and is not recorded otherwise, so only a valid failure is ever recorded as a failure |
| `Providers.MaterialBuildResult` | internal/application/delivery/dispatch_worker.go:354-375 | every material error becomes a valid internal failure; it is final if and only if the error is typed and says so or carries an unstable code, and a stable code is kept |
| `Providers.ProviderResultsAreTotal` | internal/application/delivery/dispatch_worker.go:455-513 | every valid result advances every reachable SENDING message; the completion record is valid; message status, attempt status and disposition correspond; dead letter if and only if a retryable failure meets an exhausted budget or deadline |
| `Smtp.ClassifyFailure` | internal/provider/smtp/provider.go:53-107 | every transport error becomes a valid result, and it is the ambiguous one if and only if the reply to the end of DATA was lost; which failures are final is `Smtp.SessionsAreReportedExactly` |
| `Smtp.Submit` | internal/provider/smtp/provider.go:39-51 | every session yields a valid provider result |
| `Smtp.SubmitIsHonestExactly` | internal/provider/smtp/provider.go:39-107 | FAILED implies that the server did not take the mail if and only if a positive reply to the end of DATA is 250, as sections 4.2.1 and 4.3.2 of RFC 5321 demand |
| `Smtp.OtherPositiveReplyIsRetried` | internal/provider/smtp/provider.go:53-107 | any other 2yz reply there is reported as a retryable network failure although the mail was accepted |
| `Smtp.SessionsAreReportedExactly` | internal/provider/smtp/provider.go:39-107 | for every session: accepted, under the attempt's id, if and only if the reply was 250; ambiguous if and only if it was lost; a failure is final if and only if the request was invalid, the reply 5yz, or authentication broke off outside 4yz; rate limits, refused recipients and refused content are told exactly |
| `Smtp.SessionsDecideTheFate` | internal/application/delivery/dispatch_worker.go:455-513 | adapter and worker together: the session alone, with the attempts and time left, decides the state of a sending message; a 4yz reply, timeout, cancellation or network loss never ends it as permanently failed |
| `EventMapping.MapAllEvents` | internal/application/delivery/reliable_message_store.go:114-154 | the loop maps every event to one outbox row and every lifecycle event to one journal entry, in order, and fails on the first unmappable event or on an empty buffer |
| `Wire.NoDeliveryPassesBothParsers` | internal/consumer/rabbitmq/parser.go:36-209 | no delivery whatever is accepted by both the dispatch and the lifecycle parser |
| `Wire.ParsersAcceptOnlyPublications` | internal/consumer/rabbitmq/parser.go:36-209 | whatever either parser accepts agrees, in exchange, route, properties and all five headers, with the publication of a valid outbox row, and its body agrees with its headers |
| `Wire.RunEventsAreNumbered` | internal/domain/message/message.go:224-255 | every event of every run whose callers read a clock, facts of any date included, has the positive sequence, for dispatch requests the positive generation, and the valid failure that mapping and parsers demand |
| `Wire.EventsSurviveTheWire` | internal/application/delivery/reliable_message_store.go:154-211 | every field of an event can be read back from the body of its published outbox row |
| `Wire.EventRoundTrip` | internal/application/delivery/reliable_message_store.go:114-211 | an event maps if and only if it is a dispatch request or fits the journal; its outbox row, published and parsed, is accepted by exactly one parser and comes back with id, tenant, message, sequence and generation (id only for lifecycle events) |
| `Wire.EveryEmittedEventComesBack` | internal/consumer/rabbitmq/parser.go:36-209 | the round trip, and the exact condition for mapping, hold for every event of every such run from `New` |
| `Backoff.Maximum` | internal/application/delivery/delivery_backoff.go:31-44 | the doubling loop equals min(cap, base * 2^(attempt - 1)), stays within the cap so that 64 bits suffice, and stops after at most 47 rounds for any attempt number |
| `Backoff.CeilingIsMonotone` | internal/application/delivery/outbox_backoff.go:30-43 | a later attempt never has a smaller ceiling |
| `Backoff.EveryDelayIsDrawn` | internal/application/delivery/delivery_backoff.go:21-44 | every delay between the least one and the ceiling is the one that some legal draw yields, for worker and relay alike |
| `Backoff.NextDeliveryDelay` | internal/application/delivery/delivery_backoff.go:21-44 | the delay is one millisecond plus the draw, lies between that and the ceiling, and passes the worker's range check for every draw |
| `Backoff.NextOutboxDelay` | internal/application/delivery/outbox_backoff.go:20-43 | the delay is the draw itself, at most the ceiling, and passes the relay's range check for every draw |
| `Store.FindStarted` | internal/storage/postgres/delivery_attempt_queries.go:16-27 | the row the guarded completion matches: started, with the given id, and the first such row |
| `Constraints.ChecksAreTheDomainRules` | db/migrations/sql/00001_create_delivery_core.sql:73-127 | given the column types, the CHECK constraints hold of a row if and only if the domain would restore it, except for failure codes of white space other than the space character |
| `Constraints.TabCodeIsStoredButNotRestored` | db/migrations/sql/00001_create_delivery_core.sql:116-127 | from any restorable row, a row in that gap: it passes every CHECK and is never restored |
| `Constraints.StoredRowsArePublishable` | internal/storage/postgres/outbox_repository.go:29-66 | the rows the outbox repository accepts are exactly those the publisher can send, up to the column lengths |
| `Constraints.OneEntryPerNumber` | db/migrations/sql/00004_create_delivery_events.sql:17 | an entry is accepted if and only if no other entry has its number; it is then in the journal, and repeating it changes nothing |
| `Constraints.OneRowPerId` | db/migrations/sql/00001_create_delivery_core.sql:172-178 | the same for outbox rows and their ids |
| `Constraints.WritePhaseKeepsConstraints` | db/migrations/sql/00002_create_delivery_attempts.sql:16-28 | any successful write phase, of whatever aggregate and record, keeps the unique and time constraints of attempts, journal and outbox, the row's CHECK constraints and column ranges, withdraws nothing, and moves the version it was guarded by on by one |
| `Worker.ClaimsWriteOnlyWhenCurrent` | internal/application/delivery/dispatch_worker.go:253-331 | whatever command arrives and whatever was read, a claim writes only for a command naming tenant, generation and sequence of a queued record unmoved since, in that message only; the deadline alone decides between starting the next attempt and expiring |
| `Worker.ClaimsAcknowledgeExactly` | internal/application/delivery/dispatch_worker.go:266-282 | stale, duplicate and command-ahead are answered exactly when the command was overtaken, names a present state that is not queued, or names a future one |
| `Worker.FinalizesWriteOnlyInAttempt` | internal/application/delivery/dispatch_worker.go:386-437 | a finalize writes only for the attempt a record is sending, unmoved since; it reports a duplicate if and only if that attempt was settled before; otherwise it leaves no trace |
| `Cells.DispatchRequestsAreBehind` | internal/application/delivery/dispatch_worker.go:265-281 | a committed dispatch request is never ahead of its message, and names the current sequence only while the message is QUEUED under its generation |
| `Cells.CommitKeepsHistory` | internal/application/delivery/dispatch_worker.go:515-553 | the write phase of a transaction cannot fail once its attempt write succeeds, and keeps journal, outbox and message in agreement by extending them only |
| `CellSteps.ScheduleKeepsCell` | internal/application/delivery/due_message_scheduler.go:73-112 | a due message is always advanced: queued, dated by the transaction, inside its deadline, expired after it, keeping all its tables in agreement; when it is due is `DispatchPacing.DueFromItsTimeOn` |
| `CellSteps.StartKeepsCell` | internal/application/delivery/dispatch_worker.go:300-318 | a claim of a queued message inside its deadline always starts the next attempt and keeps the tables in agreement |
| `CellSteps.SettleKeepsCell` | internal/application/delivery/dispatch_worker.go:386-445 | finalizing a sending message always succeeds, settles its last attempt row and keeps the tables in agreement |
| `CellSteps.NewCellOk` | internal/application/delivery/email_submission.go:134-192 | the rows a submission inserts satisfy the invariant of one message's tables |
| `DispatchInvariant.StaleReadLoses` | internal/storage/postgres/message_queries.go:60-80 | a write phase built on a version that has moved on fails with a concurrent update and nothing else |
| `DispatchInvariant.ClaimCases` | internal/application/delivery/dispatch_worker.go:247-339 | the claim of a genuine command, from any former state of the record, is exactly one of stale, lost, expired or started, with the exact condition and effect of each |
| `DispatchInvariant.FinalizeSucceeds` | internal/application/delivery/dispatch_worker.go:377-453 | the holder of a claim always finalizes, and a failed attempt row results if and only if the provider result was a failure |
| `DispatchInvariant.StepKeepsInv` | internal/application/delivery/dispatch_worker.go:172-453 | every step of the system (submit, schedule, publish, read, commit, provider call, crash, time) keeps the global invariant |
| `DispatchInvariant.RunKeepsInv` | internal/application/delivery/dispatch_worker.go:172-453 | so does every run |
| `DispatchTheorems.AtMostOnceAcceptance` | internal/application/delivery/dispatch_worker.go:172-513 | in every reachable state no message occurs twice among the mails the server accepted, and each of them belongs to a stored message that is sending, ambiguous or accepted |
| `DispatchTheorems.SmtpContactIsHonestExactly` | internal/application/ports/email_provider.go:108-114 | the SMTP adapter meets the provider contract that at-most-once relies on if and only if a positive reply is 250 |
| `DispatchTheorems.OneCallPerGeneration` | internal/application/delivery/dispatch_worker.go:247-339 | no (message, generation) is submitted twice, every call belongs to an attempt made, and calls per message never exceed attempts, the attempt limit, or 10 |
| `DispatchTheorems.OneHolderPerMessage` | internal/storage/postgres/message_queries.go:60-80 | two workers never hold the same message, and a holder's attempt is the last row, still STARTED, of a SENDING message |
| `DispatchTheorems.AttemptTable` | internal/application/delivery/dispatch_worker.go:300-318 | attempt rows are numbered 1..attemptCount with equal generations, and a row is STARTED if and only if it is the last and the message is SENDING |
| `DispatchTheorems.TimeSafety` | internal/application/delivery/dispatch_worker.go:283-310 | every attempt starts before the deadline and not before the scheduled time, and after every earlier attempt has finished |
| `DispatchPacing.RetriesKeepTheirDistance` | internal/application/delivery/dispatch_worker.go:489-502 | over every run, attempt k + 1 starts no earlier than attempt k finished plus the delay drawn at that finalize, and a message waiting for a retry is due exactly then |
| `DispatchPacing.NothingIsQueuedEarly` | internal/storage/postgres/due_message_queries.go:13-16 | from every reachable state, the only step that moves a SCHEDULED or RETRY_SCHEDULED message is a scheduler run dated at or after its scheduled or retry time; it is queued before its deadline and expired otherwise |
| `DispatchPacing.DueFromItsTimeOn` | internal/storage/postgres/due_message_queries.go:13-16 | a scheduler run can take a message if and only if it waits and the time it waits for has come; every waiting message has such a time |
| `DispatchRecords.FinalizeRecordsTheResult` | internal/application/delivery/dispatch_worker.go:386-513 | after the finalize of any claim holder, message, attempt row and newest journal entry all carry the provider's id or failure and the transaction's time; the first provider id and acceptance time stay, and the retry time is the transaction's time plus the delay |
| `DispatchTheorems.JournalAndOutbox` | internal/application/delivery/reliable_message_store.go:114-211 | one journal entry per sequence number along a legal path ending in the message's status; the outbox holds exactly the entries' ids and one dispatch request per generation, each once |
| `DispatchTheorems.PayloadsTellTheHistory` | internal/application/delivery/reliable_message_store.go:154-211 | in every reachable state each outbox payload agrees with its journal entry field by field, and starts from the state in which the payload of the number before it ended, back to the acceptance |
| `DispatchTheorems.GenuineCommandsAreNeverPoison` | internal/application/delivery/dispatch_worker.go:253-331 | the missing-message, tenant, ahead, duplicate and invariant branches of a claim are unreachable; stale and lost claims change nothing |
| `DispatchTheorems.HoldersAlwaysFinalize` | internal/application/delivery/dispatch_worker.go:386-403 | the attempt fence never rejects a claim holder, and status, attempt and disposition correspond |
| `DispatchTheorems.EveryRecordRestores` | internal/domain/message/message.go:107-174 | every record any transaction can read is restorable |
| `DispatchProgress.SubmissionsSucceedExactly` | internal/application/delivery/email_submission.go:134-192 | a submission yields a message if and only if id and key are valid, the deadline lies ahead, and a schedule lies before it and at most 365 days ahead; no later check or constraint refuses it |
| `DispatchProgress.SubmittedRecord` | internal/application/delivery/email_submission.go:134-192 | the stored record says everything the request says: times, key, fingerprint, the limit of its category (3, 5, 8 or 10 attempts), scheduled if and only if its time lies ahead, and nothing that has not happened yet |
| `DispatchProgress.CallsStayWithinTheCategory` | internal/application/delivery/email_submission.go:430-443 | over every run after a submission the provider is called for the message at most 3, 5, 8 or 10 times, as its category says |
| `DispatchProgress.QueuedCanBeDelivered` | internal/application/delivery/dispatch_worker.go:172-245 | from every reachable state a queued message inside its deadline can still be published, claimed and accepted by the server |
| `DispatchProgress.RetriedCanBeDelivered` | internal/application/delivery/dispatch_worker.go:455-513 | with budget and time left it can also fail transiently, be rescheduled, queued again and then be accepted |
| `DispatchProgress.MailIsAcceptedAfterARetry` | internal/application/delivery/dispatch_worker.go:172-513 | such a run exists from empty tables, so the theorems over reachable states are not vacuous |
| `DispatchHistory.HistoryIsAppendOnly` | internal/application/delivery/reliable_message_store.go:39-104 | between any two states of a run journal, outbox and settled attempts are extended only, and tenant, key, attempt limit and deadline stay |
| `DispatchHistory.SettledMessagesStay` | internal/storage/postgres/due_message_queries.go:13-16 | a message that was accepted, may have been accepted, failed, expired or was dead-lettered is never touched again by any run |
| `DispatchHistory.AbandonedMessagesStay` | internal/application/delivery/dispatch_worker.go:172-245 | a SENDING message whose worker died is never moved again: the price of at-most-once |
| `DispatchHistory.ResubmissionChangesNothing` | internal/storage/postgres/message_repository.go:39-85 | at any time after a (tenant, idempotency key) was taken, submitting under it again changes no table |
| `DispatchHistory.OneMessagePerKey` | internal/storage/postgres/message_queries.go:36-45 | a (tenant, idempotency key) names at most one message in every reachable state |
| `DispatchHistory.OneMailPerKey` | internal/storage/postgres/message_queries.go:36-45 | at most one accepted mail per (tenant, idempotency key) in every reachable state |
| `Transactions.ClaimUninterrupted` | internal/application/delivery/dispatch_worker.go:247-339 | a claim whose read and write nobody separates has the effect of the claim decision on the stored record, never meets a concurrent update, and misses the message if and only if it is not stored |
| `Database.Tables.Save` | internal/storage/postgres/message_repository.go:131-161 | updates the row with that id and version and increments the version; out of range, no such row and violated checks are reported |
| `Database.Tables.CreateStarted` | internal/storage/postgres/delivery_attempt_repository.go:25-56 | inserts the attempt unless id, number or generation is taken |
| `Database.Tables.CompleteStarted` | internal/storage/postgres/delivery_attempt_repository.go:58-105 | completes exactly the started row with that id, or reports a conflict |
| `Database.Tables.AppendEntries` | internal/storage/postgres/delivery_event_repository.go:30-59 | the loop validates and inserts entries one by one, accepts identical repeats and stops at the first invalid or conflicting entry |
| `Database.Tables.AppendRows` | internal/storage/postgres/outbox_repository.go:29-65 | all rows are validated before the first is written; then they are inserted one by one, identical repeats accepted, up to the first conflict |
| `Database.InsertsAreIndependent` | internal/storage/postgres/delivery_event_repository.go:30-59 | a list of inserts for many messages succeeds if and only if each message's own inserts do, and does to each message exactly those |
| `Transactions.SaveWithEvents` | internal/application/delivery/dispatch_worker.go:515-553 | map, save, write the attempt, append: all of it or nothing |
| `Transactions.CommitClaim` | internal/application/delivery/dispatch_worker.go:247-339 | for any tables and any record read earlier, in-place changes and statements have exactly the effect and outcome of the claim decision that the theorems are about |
| `Transactions.ResolveWith` | internal/application/delivery/dispatch_worker.go:455-513 | the aggregate is advanced in place exactly as the result demands |
| `Transactions.Settle` | internal/application/delivery/dispatch_worker.go:410-445 | the advanced message and the completed attempt are written together or not at all |
| `Transactions.CommitFinalize` | internal/application/delivery/dispatch_worker.go:377-453 | for any tables and any record read earlier, the effect and outcome of the finalize decision |
| `Transactions.Create` | internal/storage/postgres/message_repository.go:39-85 | an invalid record is refused; a taken key yields the stored record for the same payload and a conflict for another; only a free key and free id insert |
| `Transactions.InsertMessage` | internal/application/delivery/email_submission.go:171-192 | the new message's row, journal entries and outbox rows are inserted together or not at all |
| `Transactions.ReliableSave` | internal/application/delivery/reliable_message_store.go:75-104 | a valid record and its events are stored together and the event buffer is cleared, or tables and buffer stay as they were |
| `Transactions.ReliableCreate` | internal/application/delivery/reliable_message_store.go:39-73 | a new message is inserted with its events and its buffer cleared exactly if key and id are free and its rows are valid; otherwise tables and buffer stay |
| `Transactions.CommitSubmit` | internal/application/delivery/email_submission.go:134-199 | the submission has exactly the effect the theorems are about, and reports accepted if and only if the message was inserted |
| `DueScheduler.AdvanceOne` | internal/application/delivery/due_message_scheduler.go:73-103 | one locked record is advanced in place, mapped and saved, or the reason why not is reported |
| `DueScheduler.AdvanceAll` | internal/application/delivery/due_message_scheduler.go:68-104 | the loop advances and saves the records, collects their events in order and counts queued and expired, up to the first record that cannot be advanced |
| `DueScheduler.BatchIsAtomic` | internal/application/delivery/due_message_scheduler.go:73-112 | saving record by record and appending all collected events at the end equals a transaction per record for all of them, or fails if and only if one of those would |
| `DueScheduler.RunOnce` | internal/application/delivery/due_message_scheduler.go:47-124 | the batch advances every locked message or none, and claimed = queued + expired with queued counting the messages inside their deadline |
| `Outbox.ClassifyPublishFailure` | internal/application/delivery/outbox_relay.go:330-345 | every publish error gets a stable code, and it is final if and only if a valid typed error says so and no context ended |
| `OutboxProtocol.ClaimKeeps` | internal/storage/postgres/outbox_delivery_queries.go:3-30 | a claim with a fresh token keeps the invariant of an event's row, granted leases and outstanding tasks |
| `OutboxProtocol.CompleteKeeps` | internal/storage/postgres/outbox_delivery_queries.go:32-78 | so does a completion, fenced off or not |
| `OutboxProtocol.FenceIsLatestClaim` | internal/storage/postgres/outbox_delivery_queries.go:32-78 | for an outstanding task the update guard holds if and only if its token is that of the event's most recent claim |
| `OutboxRuns.StepKeepsInv` | internal/application/delivery/outbox_relay.go:121-323 | every step of any number of relays keeps the invariant of every event |
| `OutboxRuns.OnlyTheLatestClaimCompletes` | internal/storage/postgres/outbox_delivery_queries.go:32-78 | in every reachable state a completion succeeds if and only if its token is that of the most recent claim |
| `OutboxRuns.AttemptsCountCompletions` | internal/storage/postgres/outbox_delivery_repository.go:180-206 | attempt_count equals the number of successful completions |
| `OutboxRuns.CompletionsCountOnce` | internal/storage/postgres/outbox_delivery_queries.go:32-78 | a step raises attempt_count by one if it is a successful completion and leaves it alone otherwise |
| `OutboxRuns.LeasesNeverOverlap` | internal/storage/postgres/outbox_delivery_queries.go:3-30 | at no time two leases of one event, each ending when it is given back or runs out, are both in force |
| `OutboxRuns.OnlyEarlyRetriesOverlap` | internal/storage/postgres/outbox_delivery_queries.go:3-63 | in every reachable state a later lease lies inside the nominal time of an earlier one only if that one was given back by a retry available before its end |
| `OutboxRuns.NominalLeasesOverlapExactly` | internal/storage/postgres/outbox_delivery_queries.go:3-63 | for a waiting event of a reachable state the next lease can begin inside the nominal time of the last one if and only if that retry was early |
| `OutboxRuns.NominalLeasesCanOverlap` | internal/storage/postgres/outbox_delivery_queries.go:3-63 | a reachable state, built step by step, in which two nominal leases of one event overlap |
| `OutboxRuns.EveryEventHasOneFate` | internal/application/delivery/outbox_relay.go:213-258 | in every reachable state an event is pending with attempts left after retryable failures only, or published with a confirmed publication and the time of its completion, or dead-lettered because its last failure was final or its budget is spent; the stored error code is that of the last failure |
| `OutboxRuns.OnlyRefusalsDeadLetter` | internal/application/delivery/outbox_relay.go:238-246 | only the completion of a refused publication dead-letters an event, and only if the refusal was final or came with the last allowed attempt |
| `OutboxRuns.TerminalRowsStay` | internal/storage/postgres/outbox_delivery_queries.go:32-78 | PUBLISHED and DEAD_LETTERED rows are never changed by any run, and no event disappears |
| `OutboxRuns.CrashesAreTakenOver` | internal/storage/postgres/outbox_delivery_queries.go:3-30 | a relay that dies with a lease changes nothing in the row; the event can be claimed again if and only if that lease has run out, and then for the very attempt that was not completed |
| `OutboxRuns.RetriesWait` | internal/storage/postgres/outbox_delivery_queries.go:50-63 | in every reachable state a lease granted after a retry begins no earlier than the completion plus the drawn delay in whole milliseconds |
| `OutboxRuns.RetryIsClaimableExactly` | internal/storage/postgres/outbox_delivery_repository.go:104-122 | after a completion that leaves the event pending, a claim is enabled if and only if it is dated at or after the completion plus that delay |
| `OutboxRuns.LeaseLastsItsDuration` | internal/storage/postgres/outbox_delivery_queries.go:3-30 | after a claim the event can be claimed again if and only if the lease's duration, in whole milliseconds, has passed |
| `OutboxRelay.OutboxTable.ClaimPending` | internal/storage/postgres/outbox_delivery_repository.go:29-84 | all locked rows are leased and returned with attempt number attempt_count + 1, each passing the fence, or none is |
| `OutboxRelay.OutboxTable.MarkPublished` | internal/storage/postgres/outbox_delivery_repository.go:86-102 | the row becomes PUBLISHED if and only if the fence holds; no other row changes |
| `OutboxRelay.OutboxTable.Reschedule` | internal/storage/postgres/outbox_delivery_repository.go:104-122 | the row is released and postponed by the drawn delay if and only if the fence holds; no other row changes; when it can be claimed again is `OutboxRuns.RetryIsClaimableExactly` |
| `OutboxRelay.OutboxTable.DeadLetter` | internal/storage/postgres/outbox_delivery_repository.go:124-141 | the row becomes DEAD_LETTERED if and only if the fence holds; no other row changes |
| `OutboxRelay.PublishOne` | internal/application/delivery/outbox_relay.go:213-323 | the completion decided for the publish result is applied exactly when no shutdown and no storage failure prevent it and the fence holds; the outcome says which of these happened |
| `OutboxRelay.Tally` | internal/application/delivery/outbox_relay.go:166-189 | the loop counts every outcome once under its kind or as an error |
| `OutboxRelay.TallyIgnoresOrder` | internal/application/delivery/outbox_relay.go:166-189 | any other order of the same outcomes gives the same counts |
| `OutboxRelay.Process` | internal/application/delivery/outbox_relay.go:146-165 | every leased event of a batch is published and completed once, for every processing order, while other relays write rows in between; undisturbed, each outcome and row is that of the event alone |
| `OutboxRelay.RunOnce` | internal/application/delivery/outbox_relay.go:121-190 | claim, publications and tally together: claimed = number of locked rows = published + retried + dead-lettered + lease-lost + errors for every order, publish result, storage failure and interference; undisturbed, the effect on every row, the exact counts, and no lease lost |
| `Circuit.SmtpHealth` | internal/provider/resilience/circuit_breaker.go:205-234 | across adapter and breaker: a reply about the mail itself is healthy, refused credentials trip the circuit at once, everything else counts as one failure |
| `Circuit.TransitionsTell` | internal/provider/resilience/circuit_breaker.go:88-203 | a transition is reported if and only if the state changes, with both states, the new epoch and the reason that belongs to them |
| `Circuit.LocalTroubleIsIgnored` | internal/provider/resilience/circuit_breaker.go:205-234 | invalid results and mails that could not be built say nothing about the provider |
| `CircuitObject.CircuitBreaker.constructor` | internal/provider/resilience/circuit_breaker.go:79-84 | a new breaker is closed in epoch 0 |
| `CircuitObject.CircuitBreaker.Acquire` | internal/provider/resilience/circuit_breaker.go:88-117 | in place: admission, probe flag, epoch and transition exactly as the value-level breaker of the theorems |
| `CircuitObject.CircuitBreaker.Cancel` | internal/provider/resilience/circuit_breaker.go:121-130 | gives back a probe of the current epoch and nothing else |
| `CircuitObject.CircuitBreaker.Record` | internal/provider/resilience/circuit_breaker.go:132-174 | in place: stale tickets are ignored, a healthy probe closes and any other reopens, failures count and trip, as in the value-level breaker; what it does is `GuardRuns.ResultsMoveExactly` |
| `CircuitObject.CircuitBreaker.Trip` | internal/provider/resilience/circuit_breaker.go:182-193 | opens a new epoch with its cooldown and reports the transition |
| `CircuitObject.CircuitBreaker.Close` | internal/provider/resilience/circuit_breaker.go:195-203 | closes a new epoch with a clean counter and reports the transition |
| `Bucket.TokenBucket.Allow` | internal/provider/resilience/guard.go:239-255 | in place: refill up to the burst, never backwards, then take one token if there is one; when there is one is `Bucket.GrantedExactly` |
| `Bucket.AskKeepsBudget` | internal/provider/resilience/guard.go:239-255 | tokens stay within [0, burst], and tokens plus grants never exceed what the elapsed time paid for |
| `Bucket.GrantedExactly` | internal/provider/resilience/guard.go:239-255 | a call is granted if and only if min(burst, tokens + rate * seconds since last) is at least one; it then takes one token, and time never runs backwards |
| `Bucket.AskEarns` | internal/provider/resilience/guard.go:239-255 | no request loses any of the elapsed time, except what a full bucket cannot hold |
| `Guarding.RejectionResult` | internal/provider/resilience/guard.go:257-291 | every local rejection is a valid, retryable failure |
| `GuardObject.ProviderGuard.constructor` | internal/provider/resilience/guard.go:105-148 | a new guard has a closed breaker, a full bucket and no slot taken, and has reported CLOSED under sequence 0 |
| `GuardObject.ProviderGuard.Submit` | internal/provider/resilience/guard.go:155-230 | the provider's answer is returned exactly if it was called; the slot is given back on every path, the ticket settled once, and every breaker transition reported in order |
| `GuardRuns.BreakerKept` | internal/provider/resilience/circuit_breaker.go:88-203 | every step of every concurrent call keeps the breaker's invariant: tickets, probe flag, failure counter, one observation per epoch |
| `GuardRuns.LimitsKept` | internal/provider/resilience/guard.go:155-205 | every step keeps slots equal to the calls inside, and grants equal to calls made or about to be made |
| `GuardRuns.ProbeFlagIsExact` | internal/provider/resilience/circuit_breaker.go:88-130 | the in-flight flag is set if and only if exactly one half-open ticket of the current epoch is outstanding |
| `GuardRuns.NoTicketOfAnOpenEpoch` | internal/provider/resilience/circuit_breaker.go:88-117 | no unsettled ticket belongs to an epoch in which the circuit was OPEN |
| `GuardRuns.CounterIsTrailingFailures` | internal/provider/resilience/circuit_breaker.go:132-174 | while CLOSED the counter is the number of failures since the last healthy result of this epoch, and below the threshold |
| `GuardRuns.OpenCircuitRefuses` | internal/provider/resilience/circuit_breaker.go:88-174 | until the cooldown has passed nobody is admitted and the breaker does not change, whatever late results arrive |
| `GuardRuns.OpeningStartsTheCooldown` | internal/provider/resilience/circuit_breaker.go:182-193 | the circuit opens only on a recorded result, with the cooldown counted from that moment |
| `GuardRuns.ResultsMoveExactly` | internal/provider/resilience/circuit_breaker.go:132-203 | in every reachable guard a returning probe of the current epoch closes the circuit if and only if its result is healthy and opens it otherwise; a CLOSED circuit opens if and only if the result trips it at once or is the threshold-th consecutive failure; nothing else moves it |
| `GuardRuns.AdmissionIsExact` | internal/provider/resilience/circuit_breaker.go:88-117 | a call is admitted if and only if the circuit is CLOSED, or OPEN with its cooldown over, or HALF_OPEN with no probe outstanding; an OPEN circuit then becomes HALF_OPEN |
| `GuardRuns.ConcurrencyIsBounded` | internal/provider/resilience/guard.go:155-205 | calls in flight never exceed the slots taken, slots never exceed MaxConcurrent, and giving a slot back never blocks |
| `GuardRuns.CallsAreGrants` | internal/provider/resilience/guard.go:155-205 | grants equal provider calls made plus calls that hold a grant and are about to be made |
| `GuardRuns.RateIsBounded` | internal/provider/resilience/guard.go:239-255 | between any two points of any run, grants are at most burst + rate * advance of `last`, even if the clock steps back |
| `GuardRuns.RateIsEarned` | internal/provider/resilience/guard.go:239-255 | the other half: between any two points of any run, grants plus tokens left are at least min(burst, tokens before + rate * advance of `last`) |
| `GuardRuns.RestedGuardGrants` | internal/provider/resilience/guard.go:239-255 | between any two points of any run with no grant in between, a request is granted once the rate has paid for one token, and the full burst is in stock once it has paid for that |
| `Gauge.StateGauge.RecordCircuitState` | internal/observability/providermetrics/observer.go:118-134 | in place: only a newer observation of a provider replaces the one shown |
| `Gauge.GaugeShowsTheNewest` | internal/observability/providermetrics/observer.go:118-134 | for every order of delivery, with repeats and gaps, the gauge shows the state of the highest sequence delivered |
| `Gauge.GaugeConverges` | internal/provider/resilience/guard.go:214-230 | once the newest observation has arrived, in whatever order, the gauge shows the breaker's current state |

## Left out

- Eventual delivery: no reconciler moves an abandoned SENDING message, so only safety is stated.
- Publishing only under a live lease and publishing once: batches can outlast their lease and crashes repeat publications, so only fencing and at-least-once are stated.
- AMQP, SMTP, gRPC and PostgreSQL connections, pools, TLS, dialing and reconnects; only their contracts appear, as guarded steps.
- Configuration loading, template rendering, MIME building, payload encryption, address and locale normalisation, catalog lookups: inputs of the modelled transactions.
- Syntax of UUIDs, provider keys and lease tokens, the 64 KiB size limits of payload and body, and JSON encoding itself.
- Truncation of stored instants to microseconds, and the tenant-is-active filter, order and LIMIT of the due query (any set of due rows can be a batch).
- Status, category and outcome strings outside their enumerations, which validation refuses at the boundary; the unexpected provider outcome is modelled.
- Primary-key conflicts of journal and outbox rows: ids are functions of the unique columns.
- Delivery facts, cancellation, UNKNOWN_FINAL and ACCEPTED-to-CANCELED paths in the concurrent system: no wired component performs them; they are covered by the aggregate's runs.
- Two guards reporting to one observer under the same provider key, and the sanitising of invalid keys: a guard is only built with a valid key.
- Poller, readiness monitor, supervisor, publisher lane pool, subscription service, gRPC error mapping and query service: easier members around the core.
- Byte lengths: limits on text count characters where the source counts bytes.
- Transactions.Create: of a record's validation the idempotency key, the version and the counter ranges are modelled; submission details, category, priority and risk policy are not part of the model's record.
- Transactions.ReliableCreate: validates the same parts of the record as Transactions.Create.
- Transactions.ReliableSave: of a record's validation the idempotency key is modelled, for the same reason.
- Database.Tables.AppendRows: the check that a payload is a JSON object holds by its type.
- OutboxRelay.RunOnce: the worker pool is a processing order and, per event, the rows other relays have written by then; what interference can do is the subject of OutboxRuns.
- Bucket.TokenBucket.Allow: computes on real numbers; float64 rounding is not modelled, because the bound is about the arithmetic and not about its last bits.
- Backoff.NextDeliveryDelay: the random draw is a parameter bounded as the generator promises.
- Backoff.NextOutboxDelay: the random draw is a parameter bounded as the generator promises.
- DueScheduler.RunOnce: the rows locked by the query are a parameter; that they are due is used where the batch is a step of the system.
- OutboxRelay.OutboxTable.ClaimPending: the rows locked by the query are a parameter, required to be claimable as its WHERE clause says.
- GuardObject.ProviderGuard.Submit: one uninterrupted call; interleavings of many calls are the subject of GuardRuns.
