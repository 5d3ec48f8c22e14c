/**
 The message aggregate as a value: its persisted snapshot, its buffer of pending
 domain events, and one function for every operation of the domain package.
 */
module Messages {
  import opened Common
  import opened Statuses

  datatype Category =
    | Validation
    | Authentication
    | RateLimited
    | RecipientRejected
    | ContentRejected
    | ProviderDown
    | Network
    | TimeoutBeforeSend
    | AmbiguousSubmission
    | Internal

  datatype Fault = Fault(category: Category, code: string, retryable: bool)

  predicate ValidFault(f: Fault) {
    !Blank(f.code) && |f.code| <= 128
  }

  datatype EventKind = MessageAccepted | StatusChanged | DispatchRequested

  datatype Event = Event(
    kind: EventKind,
    messageId: string,
    from: Option<Status>,
    to: Status,
    occurredAt: Time,
    sequence: nat,
    generation: nat,
    attemptNumber: nat,
    providerMessageId: string,
    reasonCode: string,
    fault: Option<Fault>)

  datatype Snapshot = Snapshot(
    id: string,
    status: Status,
    scheduledAt: Option<Time>,
    dispatchDeadline: Time,
    nextAttemptAt: Option<Time>,
    attemptCount: nat,
    maxAttempts: nat,
    generation: nat,
    providerAcceptedAt: Option<Time>,
    providerMessageId: string,
    latestSequence: nat,
    version: nat,
    acceptedAt: Time,
    updatedAt: Time,
    lastFault: Option<Fault>)

  datatype Aggregate = Aggregate(data: Snapshot, pending: seq<Event>)

  datatype DomainError =
    | InvalidMessage
    | InvalidTransition(from: Status, to: Status)
    | DispatchDeadlineExceeded
    | DispatchDeadlineNotMet
    | StaleDispatchGeneration
    | AttemptLimitReached
    | FaultNotRetryable
    | InvalidRetryTime
    | TooLateToCancel
    | InvalidDeliveryFact

  datatype NewParams = NewParams(
    id: string,
    now: Time,
    scheduledAt: Option<Time>,
    dispatchDeadline: Time,
    maxAttempts: nat)

  datatype FactKind = FactProviderAccepted | FactDelivered | FactBounced | FactComplained

  datatype Fact = Fact(kind: FactKind, occurredAt: Time, providerMessageId: string)

  // ----- event buffer

  function ChangeStatus(a: Aggregate, to: Status, at: Time, providerMessageId: string, reasonCode: string,
                        fault: Option<Fault>): Aggregate
  {
    var d := a.data.(status := to, updatedAt := at, latestSequence := a.data.latestSequence + 1);
    var e := Event(StatusChanged, d.id, Some(a.data.status), to, at, d.latestSequence, d.generation,
                   d.attemptCount, providerMessageId, reasonCode, fault);
    Aggregate(d, a.pending + [e])
  }

  function RequestDispatch(a: Aggregate, now: Time): Aggregate {
    var d := a.data;
    a.(pending := a.pending + [Event(DispatchRequested, d.id, Some(d.status), d.status, now, d.latestSequence,
                                     d.generation, d.attemptCount, "", "", None)])
  }

  // ----- construction, persistence

  /** The accepted message before it is routed to Scheduled or Queued. */
  function AcceptedMessage(p: NewParams): Aggregate {
    Aggregate(
      Snapshot(p.id, Accepted, p.scheduledAt, p.dispatchDeadline, None, 0, p.maxAttempts, 0, None, "", 1, 0,
               p.now, p.now, None),
      [Event(MessageAccepted, p.id, None, Accepted, p.now, 1, 0, 0, "", "", None)])
  }

  function New(p: NewParams): Result<Aggregate, DomainError> {
    if Blank(p.id) then Failure(InvalidMessage)
    else if p.now == ZERO_TIME || p.dispatchDeadline == ZERO_TIME then Failure(InvalidMessage)
    else if p.dispatchDeadline <= p.now then Failure(InvalidMessage)
    else if p.maxAttempts == 0 then Failure(InvalidMessage)
    else if p.scheduledAt.Some? && p.scheduledAt.value >= p.dispatchDeadline then Failure(InvalidMessage)
    else
      var a := AcceptedMessage(p);
      if p.scheduledAt.Some? && p.scheduledAt.value > p.now then
        Success(ChangeStatus(a, Scheduled, p.now, "", "", None))
      else
        Queue(a, p.now)
  }

  predicate ValidSnapshot(s: Snapshot) {
    && !Blank(s.id)
    && s.acceptedAt != ZERO_TIME && s.updatedAt != ZERO_TIME && s.dispatchDeadline != ZERO_TIME
    && s.dispatchDeadline > s.acceptedAt
    && s.updatedAt >= s.acceptedAt
    && s.maxAttempts != 0 && s.attemptCount <= s.maxAttempts
    && (s.scheduledAt.Some? ==> s.scheduledAt.value < s.dispatchDeadline)
    && (s.nextAttemptAt.Some? ==> s.nextAttemptAt.value < s.dispatchDeadline)
    && (RequiresGeneration(s.status) ==> s.generation != 0)
    && (RequiresAttempt(s.status) ==> s.attemptCount != 0)
    && (s.status == RetryScheduled ==> s.nextAttemptAt.Some?)
    && s.latestSequence != 0
    && (s.lastFault.Some? ==> ValidFault(s.lastFault.value))
  }

  function Restore(s: Snapshot): Result<Aggregate, DomainError> {
    if ValidSnapshot(s) then Success(Aggregate(s, [])) else Failure(InvalidMessage)
  }

  function Pull(a: Aggregate): Aggregate {
    a.(pending := [])
  }

  // ----- transitions

  function Queue(a: Aggregate, now: Time): Result<Aggregate, DomainError> {
    var d := a.data;
    if now >= d.dispatchDeadline then Failure(DispatchDeadlineExceeded)
    else if !CanTransition(d.status, Queued) then Failure(InvalidTransition(d.status, Queued))
    else
      var next := a.(data := d.(generation := d.generation + 1, nextAttemptAt := None));
      Success(RequestDispatch(ChangeStatus(next, Queued, now, "", "", None), now))
  }

  function StartSending(a: Aggregate, generation: nat, now: Time): Result<Aggregate, DomainError> {
    var d := a.data;
    if d.status != Queued then Failure(InvalidTransition(d.status, Sending))
    else if generation != d.generation then Failure(StaleDispatchGeneration)
    else if now >= d.dispatchDeadline then Failure(DispatchDeadlineExceeded)
    else if d.attemptCount >= d.maxAttempts then Failure(AttemptLimitReached)
    else
      Success(ChangeStatus(a.(data := d.(attemptCount := d.attemptCount + 1)), Sending, now, "", "", None))
  }

  function ScheduleRetry(a: Aggregate, f: Fault, nextAttemptAt: Time, now: Time): Result<Aggregate, DomainError> {
    var d := a.data;
    if !d.status.Sending? && !d.status.SubmissionUnknown? then Failure(InvalidTransition(d.status, RetryScheduled))
    else if !ValidFault(f) then Failure(InvalidMessage)
    else if !f.retryable then Failure(FaultNotRetryable)
    else if d.attemptCount >= d.maxAttempts then Failure(AttemptLimitReached)
    else if nextAttemptAt <= now || nextAttemptAt >= d.dispatchDeadline then Failure(InvalidRetryTime)
    else
      var next := a.(data := d.(nextAttemptAt := Some(nextAttemptAt), lastFault := Some(f)));
      Success(ChangeStatus(next, RetryScheduled, now, "", "", Some(f)))
  }

  function MarkSubmissionUnknown(a: Aggregate, f: Fault, now: Time): Result<Aggregate, DomainError> {
    var d := a.data;
    if d.status != Sending then Failure(InvalidTransition(d.status, SubmissionUnknown))
    else if !ValidFault(f) || f.category != AmbiguousSubmission then Failure(InvalidMessage)
    else
      Success(ChangeStatus(a.(data := d.(lastFault := Some(f))), SubmissionUnknown, now, "", "", Some(f)))
  }

  function MarkPermanentlyFailed(a: Aggregate, f: Fault, now: Time): Result<Aggregate, DomainError> {
    var d := a.data;
    if !d.status.Sending? && !d.status.SubmissionUnknown? then Failure(InvalidTransition(d.status, PermanentlyFailed))
    else if !ValidFault(f) then Failure(InvalidMessage)
    else
      var next := a.(data := d.(lastFault := Some(f), nextAttemptAt := None));
      Success(ChangeStatus(next, PermanentlyFailed, now, "", "", Some(f)))
  }

  function MarkDeadLettered(a: Aggregate, f: Fault, now: Time): Result<Aggregate, DomainError> {
    var d := a.data;
    if !d.status.Sending? && !d.status.RetryScheduled? then Failure(InvalidTransition(d.status, DeadLettered))
    else if !ValidFault(f) then Failure(InvalidMessage)
    else
      var next := a.(data := d.(lastFault := Some(f), nextAttemptAt := None));
      Success(ChangeStatus(next, DeadLettered, now, "", "", Some(f)))
  }

  function MarkUnknownFinal(a: Aggregate, f: Fault, now: Time): Result<Aggregate, DomainError> {
    var d := a.data;
    if d.status != SubmissionUnknown then Failure(InvalidTransition(d.status, UnknownFinal))
    else if !ValidFault(f) then Failure(InvalidMessage)
    else
      Success(ChangeStatus(a.(data := d.(lastFault := Some(f))), UnknownFinal, now, "", "", Some(f)))
  }

  predicate NotStarted(s: Status) {
    s.Accepted? || s.Scheduled? || s.Queued? || s.RetryScheduled?
  }

  predicate ValidReasonCode(reasonCode: string) {
    |reasonCode| <= 128 && '\r' !in reasonCode && '\n' !in reasonCode
  }

  function Cancel(a: Aggregate, reasonCode: string, now: Time): Result<Aggregate, DomainError> {
    var d := a.data;
    if d.status == Canceled then Success(a)
    else if !NotStarted(d.status) then Failure(TooLateToCancel)
    else if !ValidReasonCode(reasonCode) then Failure(InvalidMessage)
    else
      Success(ChangeStatus(a.(data := d.(nextAttemptAt := None)), Canceled, now, "", reasonCode, None))
  }

  function Expire(a: Aggregate, now: Time): Result<Aggregate, DomainError> {
    var d := a.data;
    if d.status == Expired then Success(a)
    else if now < d.dispatchDeadline then Failure(DispatchDeadlineNotMet)
    else if !NotStarted(d.status) then Failure(InvalidTransition(d.status, Expired))
    else
      Success(ChangeStatus(a.(data := d.(nextAttemptAt := None)), Expired, now, "", "", None))
  }

  // ----- provider observations

  function FactTarget(k: FactKind): Status {
    match k
    case FactProviderAccepted => ProviderAccepted
    case FactDelivered => Delivered
    case FactBounced => Bounced
    case FactComplained => Complained
  }

  predicate WouldRegress(current: Status, target: Status) {
    match current
    case ProviderAccepted => target == ProviderAccepted
    case Delivered => target.ProviderAccepted? || target.Delivered? || target.Bounced?
    case Bounced => target.ProviderAccepted? || target.Delivered? || target.Bounced? || target.Complained?
    case Complained => true
    case _ => false
  }

  function ApplyFact(a: Aggregate, fact: Fact): Result<Aggregate, DomainError> {
    var d := a.data;
    var target := FactTarget(fact.kind);
    if fact.occurredAt == ZERO_TIME then Failure(InvalidDeliveryFact)
    else if d.status == target then Success(a)
    else if WouldRegress(d.status, target) then Success(a)
    else if !CanTransition(d.status, target) then Failure(InvalidTransition(d.status, target))
    else
      var messageId := if fact.providerMessageId != "" && d.providerMessageId == "" then fact.providerMessageId
                       else d.providerMessageId;
      var acceptedAt := if target == ProviderAccepted && d.providerAcceptedAt.None? then Some(fact.occurredAt)
                        else d.providerAcceptedAt;
      var next := a.(data := d.(providerMessageId := messageId, providerAcceptedAt := acceptedAt,
                                lastFault := None, nextAttemptAt := None));
      Success(ChangeStatus(next, target, fact.occurredAt, fact.providerMessageId, "", None))
  }
}
