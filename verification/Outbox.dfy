/** Outbox rows as the relay sees them: the claim and the three fenced completions, and the decision after a publish. */
module Outbox {
  import opened Common

  datatype OutboxStatus = Pending | Published | DeadLettered

  datatype Lease = Lease(owner: string, until: Time)

  datatype OutboxRow = OutboxRow(
    status: OutboxStatus,
    attemptCount: nat,
    availableAt: Time,
    lease: Option<Lease>,
    lastError: Option<string>,
    publishedAt: Option<Time>)

  function NewRow(at: Time): OutboxRow {
    OutboxRow(Pending, 0, at, None, None, None)
  }

  // ----- claim

  predicate Claimable(row: OutboxRow, now: Time) {
    && row.status == Pending && row.availableAt <= now
    && (row.lease.None? || row.lease.value.until <= now)
  }

  const MIN_LEASE: int := SECOND
  const MAX_LEASE: int := 3600 * SECOND

  /** Durations are handed to the database in whole milliseconds. */
  function WholeMillis(d: int): int {
    if d < 0 then -((-d) / MILLISECOND) * MILLISECOND else d / MILLISECOND * MILLISECOND
  }

  function ClaimRow(row: OutboxRow, token: string, now: Time, duration: int): OutboxRow {
    row.(lease := Some(Lease(token, now + WholeMillis(duration))))
  }

  // ----- completions

  /** The guard every completion shares. */
  predicate Fenced(row: OutboxRow, token: string, attempt: nat) {
    && row.status == Pending && row.lease.Some? && row.lease.value.owner == token
    && row.attemptCount == attempt - 1
  }

  function PublishedRow(row: OutboxRow, attempt: nat, now: Time): OutboxRow {
    OutboxRow(Published, attempt, row.availableAt, None, None, Some(now))
  }

  function RescheduledRow(row: OutboxRow, attempt: nat, code: string, now: Time, delay: int): OutboxRow {
    OutboxRow(row.status, attempt, now + WholeMillis(delay), None, Some(code), row.publishedAt)
  }

  function DeadLetteredRow(row: OutboxRow, attempt: nat, code: string): OutboxRow {
    OutboxRow(DeadLettered, attempt, row.availableAt, None, Some(code), row.publishedAt)
  }

  // ----- what the relay does after a publish

  datatype PublishError = TypedPublishError(code: string, retryable: bool) | OtherPublishError

  datatype PublishContext = NoContextError | PublishDeadline | PublishCanceled

  datatype PublishFailure = PublishFailure(code: string, retryable: bool)

  function ClassifyPublishFailure(e: PublishError, context: PublishContext): (f: PublishFailure)
    ensures StableCode(f.code)
    ensures !f.retryable <==> context.NoContextError? && e.TypedPublishError? && StableCode(e.code) && !e.retryable
    ensures context.NoContextError? && e.TypedPublishError? && StableCode(e.code) ==> f.code == e.code
  {
    match context
    case PublishDeadline => PublishFailure("PUBLISH_TIMEOUT", true)
    case PublishCanceled => PublishFailure("PUBLISH_CANCELED", true)
    case NoContextError =>
      if e.TypedPublishError? && StableCode(e.code) then PublishFailure(e.code, e.retryable)
      else PublishFailure("PUBLISH_INTERNAL", true)
  }

  datatype Completion =
    | MarkPublished
    | DeadLetterWith(code: string)
    | RescheduleWith(code: string, delay: int)
    | NoCompletion

  /** delay is what the retry policy drew for this attempt number. */
  function Decide(failure: Option<PublishFailure>, attempt: nat, maxAttempts: nat, delay: int): Completion {
    if failure.None? then MarkPublished
    else if !failure.value.retryable || attempt >= maxAttempts then DeadLetterWith(failure.value.code)
    else if delay < 0 || delay > DAY then NoCompletion
    else RescheduleWith(failure.value.code, delay)
  }

  /** The row after a completion, when the fence lets it through. */
  function Complete(row: OutboxRow, token: string, attempt: nat, c: Completion, now: Time): Option<OutboxRow> {
    if !Fenced(row, token, attempt) then None
    else
      match c
      case MarkPublished => Some(PublishedRow(row, attempt, now))
      case DeadLetterWith(code) => Some(DeadLetteredRow(row, attempt, code))
      case RescheduleWith(code, delay) => Some(RescheduledRow(row, attempt, code, now, delay))
      case NoCompletion => None
  }
}
