/**
 Provider results, the attempt record they complete, and the worker's decision
 what a result means for the message.
 */
module Providers {
  import opened Common
  import opened Statuses
  import opened Messages
  import opened MessageRuns

  datatype Outcome = OutcomeAccepted | OutcomeFailed | OutcomeSubmissionUnknown | OutcomeOther

  datatype ProviderResult = ProviderResult(outcome: Outcome, providerMessageId: string, fault: Option<Fault>)

  predicate ValidProviderMessageId(s: string) {
    Trimmed(s) && |s| <= 512
  }

  predicate ValidResult(r: ProviderResult) {
    match r.outcome
    case OutcomeAccepted => ValidProviderMessageId(r.providerMessageId) && r.fault.None?
    case OutcomeFailed =>
      && r.providerMessageId == "" && r.fault.Some? && ValidFault(r.fault.value)
      && r.fault.value.category != AmbiguousSubmission
    case OutcomeSubmissionUnknown =>
      && r.providerMessageId == "" && r.fault.Some? && ValidFault(r.fault.value)
      && r.fault.value.category == AmbiguousSubmission
    case OutcomeOther => false
  }

  function FailedResult(category: Category, code: string, retryable: bool): ProviderResult {
    ProviderResult(OutcomeFailed, "", Some(Fault(category, code, retryable)))
  }

  lemma FailedResultIsValid(category: Category, code: string, retryable: bool)
    requires category != AmbiguousSubmission && 0 < |code| <= 128 && !IsSpace(code[0])
    ensures ValidResult(FailedResult(category, code, retryable))
  {
  }

  // ----- the attempt record

  datatype AttemptStatus = Started | AttemptAccepted | AttemptFailed | AttemptUnknown

  datatype Completion = Completion(
    attemptId: string,
    status: AttemptStatus,
    finishedAt: Time,
    providerMessageId: string,
    fault: Option<Fault>)

  predicate ValidCompletion(c: Completion) {
    && c.finishedAt != ZERO_TIME
    && match c.status
       case Started => false
       case AttemptAccepted => ValidProviderMessageId(c.providerMessageId) && c.fault.None?
       case AttemptFailed =>
         && c.providerMessageId == "" && c.fault.Some? && ValidFault(c.fault.value)
         && c.fault.value.category != AmbiguousSubmission
       case AttemptUnknown =>
         && c.providerMessageId == "" && c.fault.Some? && ValidFault(c.fault.value)
         && c.fault.value.category == AmbiguousSubmission
  }

  // ----- results the worker makes itself

  datatype MaterialError =
    | TypedMaterialError(code: string, retryable: bool)
    | MaterialTimeout
    | MaterialCanceled
    | OtherMaterialError

  /** The failed result recorded when the mail could not even be built; the provider is not called. */
  function MaterialBuildResult(e: MaterialError): (r: ProviderResult)
    ensures ValidResult(r) && r.outcome == OutcomeFailed && r.fault.value.category == Internal
    ensures !r.fault.value.retryable <==> e.TypedMaterialError? && (!StableCode(e.code) || !e.retryable)
    ensures e.TypedMaterialError? && StableCode(e.code) ==> r.fault.value.code == e.code
  {
    match e
    case TypedMaterialError(code, retryable) =>
      if StableCode(code) then
        assert StableChar(code[0]);
        FailedResultIsValid(Internal, code, retryable);
        FailedResult(Internal, code, retryable)
      else
        FailedResultIsValid(Internal, "MATERIAL_ERROR_INVALID", false);
        FailedResult(Internal, "MATERIAL_ERROR_INVALID", false)
    case MaterialTimeout =>
      FailedResultIsValid(Internal, "MATERIAL_BUILD_TIMEOUT", true);
      FailedResult(Internal, "MATERIAL_BUILD_TIMEOUT", true)
    case MaterialCanceled =>
      FailedResultIsValid(Internal, "MATERIAL_BUILD_CANCELED", true);
      FailedResult(Internal, "MATERIAL_BUILD_CANCELED", true)
    case OtherMaterialError =>
      FailedResultIsValid(Internal, "MATERIAL_BUILD_INTERNAL", true);
      FailedResult(Internal, "MATERIAL_BUILD_INTERNAL", true)
  }

  datatype ContextError = DeadlineExceeded | ContextCanceled

  /**
   A valid result is kept. An invalid one counts as ambiguous when the call's
   context ended, and otherwise stops the worker before it records anything.
   */
  function Normalize(raw: ProviderResult, contextError: Option<ContextError>): (r: Option<ProviderResult>)
    ensures r.Some? ==> ValidResult(r.value)
    ensures r.Some? && r.value.outcome == OutcomeFailed ==> r.value == raw
    ensures r.None? <==> !ValidResult(raw) && contextError.None?
    ensures ValidResult(raw) ==> r == Some(raw)
    ensures r.Some? && !ValidResult(raw) ==>
              && r.value.outcome == OutcomeSubmissionUnknown && !r.value.fault.value.retryable
              && (r.value.fault.value.code == "PROVIDER_TIMEOUT_UNKNOWN" <==> contextError == Some(DeadlineExceeded))
  {
    if ValidResult(raw) then Some(raw)
    else if contextError.None? then None
    else
      var code := if contextError.value.DeadlineExceeded? then "PROVIDER_TIMEOUT_UNKNOWN"
                  else "PROVIDER_CANCELED_UNKNOWN";
      assert !IsSpace(code[0]) && code[9] == (if contextError.value.DeadlineExceeded? then 'T' else 'C');
      Some(ProviderResult(OutcomeSubmissionUnknown, "", Some(Fault(AmbiguousSubmission, code, false))))
  }

  // ----- what a result does to the message

  datatype Disposition =
    | DispatchProviderAccepted
    | DispatchRetryScheduled
    | DispatchPermanentlyFailed
    | DispatchSubmissionUnknown
    | DispatchDeadLettered
    | DispatchExpired
    | DispatchDuplicate
    | DispatchStale

  datatype ResolveError = DomainRejected(error: DomainError) | InvalidRetryDelay | UnexpectedOutcome

  datatype Resolution = Resolution(aggregate: Aggregate, completion: Completion, disposition: Disposition)

  function Advance(r: Result<Aggregate, DomainError>, c: Completion, d: Disposition): Result<Resolution, ResolveError> {
    match r
    case Success(a) => Success(Resolution(a, c, d))
    case Failure(e) => Failure(DomainRejected(e))
  }

  /** delay is what the retry policy drew for the current attempt number. */
  function ApplyProviderResult(a: Aggregate, attemptId: string, r: ProviderResult, now: Time, delay: int)
    : Result<Resolution, ResolveError>
    requires ValidResult(r)
  {
    var done := Completion(attemptId, Started, now, r.providerMessageId, r.fault);
    match r.outcome
    case OutcomeAccepted =>
      Advance(ApplyFact(a, Fact(FactProviderAccepted, now, r.providerMessageId)),
              done.(status := AttemptAccepted), DispatchProviderAccepted)
    case OutcomeSubmissionUnknown =>
      Advance(MarkSubmissionUnknown(a, r.fault.value, now), done.(status := AttemptUnknown), DispatchSubmissionUnknown)
    case OutcomeFailed =>
      var failed := done.(status := AttemptFailed);
      var fault := r.fault.value;
      if !fault.retryable then
        Advance(MarkPermanentlyFailed(a, fault, now), failed, DispatchPermanentlyFailed)
      else if a.data.attemptCount < a.data.maxAttempts && (delay <= 0 || delay > DAY) then
        Failure(InvalidRetryDelay)
      else if a.data.attemptCount < a.data.maxAttempts && now + delay < a.data.dispatchDeadline then
        Advance(ScheduleRetry(a, fault, now + delay, now), failed, DispatchRetryScheduled)
      else
        Advance(MarkDeadLettered(a, fault, now), failed, DispatchDeadLettered)
    case OutcomeOther => Failure(UnexpectedOutcome)
  }

  /** How the message state, the attempt state and the reported disposition belong together. */
  predicate Corresponds(s: Status, attempt: AttemptStatus, d: Disposition) {
    || (s == ProviderAccepted && attempt == AttemptAccepted && d == DispatchProviderAccepted)
    || (s == SubmissionUnknown && attempt == AttemptUnknown && d == DispatchSubmissionUnknown)
    || (s == PermanentlyFailed && attempt == AttemptFailed && d == DispatchPermanentlyFailed)
    || (s == RetryScheduled && attempt == AttemptFailed && d == DispatchRetryScheduled)
    || (s == DeadLettered && attempt == AttemptFailed && d == DispatchDeadLettered)
  }

  predicate RetryExhausted(d: Snapshot, now: Time, delay: int) {
    d.attemptCount == d.maxAttempts || now + delay >= d.dispatchDeadline
  }

  /**
   Every valid result advances every reachable sending message: nothing is rejected, the
   completion record is valid, the three states correspond, and a retryable failure
   ends in the dead letters exactly when attempts or time are exhausted.
   */
  lemma ProviderResultsAreTotal(a: Aggregate, attemptId: string, r: ProviderResult, now: Time, delay: int)
    requires Coherent(a.data) && a.data.status == Sending
    requires ValidResult(r) && now != ZERO_TIME && 0 < delay <= DAY
    ensures var x := ApplyProviderResult(a, attemptId, r, now, delay);
            && x.Success?
            && Coherent(x.value.aggregate.data)
            && Advances(a.data, x.value.aggregate.data)
            && ValidCompletion(x.value.completion)
            && x.value.completion.attemptId == attemptId && x.value.completion.finishedAt == now
            && Corresponds(x.value.aggregate.data.status, x.value.completion.status, x.value.disposition)
            && (x.value.disposition == DispatchProviderAccepted <==> r.outcome == OutcomeAccepted)
            && (x.value.disposition == DispatchSubmissionUnknown <==> r.outcome == OutcomeSubmissionUnknown)
            && (x.value.disposition == DispatchDeadLettered <==>
                  r.outcome == OutcomeFailed && r.fault.value.retryable && RetryExhausted(a.data, now, delay))
            && (x.value.disposition == DispatchRetryScheduled <==>
                  r.outcome == OutcomeFailed && r.fault.value.retryable && !RetryExhausted(a.data, now, delay))
            && (x.value.disposition == DispatchRetryScheduled ==>
                  x.value.aggregate.data.nextAttemptAt == Some(now + delay))
  {
    match r.outcome
    case OutcomeAccepted => ApplyFactKeeps(a, Fact(FactProviderAccepted, now, r.providerMessageId));
    case OutcomeSubmissionUnknown => MarkSubmissionUnknownKeeps(a, r.fault.value, now);
    case OutcomeFailed =>
      MarkPermanentlyFailedKeeps(a, r.fault.value, now);
      ScheduleRetryKeeps(a, r.fault.value, now + delay, now);
      MarkDeadLetteredKeeps(a, r.fault.value, now);
  }
}
