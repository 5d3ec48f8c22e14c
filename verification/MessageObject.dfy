/**
 The aggregate as the mutable object the service works with. Every method updates
 the fields in place and is proved to do to View() what the corresponding function
 of module Messages does; a rejected call changes nothing.
 */
module MessageObject {
  import opened Common
  import opened Statuses
  import opened Messages

  datatype ApplyResult = Applied | Duplicate | IgnoredRegression

  /** err reports exactly the rejection of r, and the object then shows either r's aggregate or what it showed before. */
  predicate Follows(before: Aggregate, r: Result<Aggregate, DomainError>, after: Aggregate, err: Option<DomainError>) {
    match r
    case Success(a) => err.None? && after == a
    case Failure(e) => err == Some(e) && after == before
  }

  class Message {
    var id: string
    var status: Status
    var scheduledAt: Option<Time>
    var dispatchDeadline: Time
    var nextAttemptAt: Option<Time>
    var attemptCount: nat
    var maxAttempts: nat
    var dispatchGeneration: nat
    var providerAcceptedAt: Option<Time>
    var providerMessageId: string
    var latestSequence: nat
    var version: nat
    var acceptedAt: Time
    var updatedAt: Time
    var lastFault: Option<Fault>
    var pendingEvents: seq<Event>

    function View(): Aggregate
      reads this
    {
      Aggregate(ToSnapshot(), pendingEvents)
    }

    function ToSnapshot(): Snapshot
      reads this
    {
      Snapshot(id, status, scheduledAt, dispatchDeadline, nextAttemptAt, attemptCount, maxAttempts,
               dispatchGeneration, providerAcceptedAt, providerMessageId, latestSequence, version, acceptedAt,
               updatedAt, lastFault)
    }

    /** The object New and Restore fill in. */
    constructor (a: Aggregate)
      ensures View() == a
    {
      id, status, scheduledAt, dispatchDeadline :=
        a.data.id, a.data.status, a.data.scheduledAt, a.data.dispatchDeadline;
      nextAttemptAt, attemptCount, maxAttempts, dispatchGeneration :=
        a.data.nextAttemptAt, a.data.attemptCount, a.data.maxAttempts, a.data.generation;
      providerAcceptedAt, providerMessageId, latestSequence, version :=
        a.data.providerAcceptedAt, a.data.providerMessageId, a.data.latestSequence, a.data.version;
      acceptedAt, updatedAt, lastFault, pendingEvents :=
        a.data.acceptedAt, a.data.updatedAt, a.data.lastFault, a.pending;
    }

    static method CreateNew(p: NewParams) returns (r: Result<Message, DomainError>)
      ensures r.Success? <==> New(p).Success?
      ensures r.Success? ==> fresh(r.value) && r.value.View() == New(p).value
      ensures r.Failure? ==> r.error == New(p).error
    {
      if Blank(p.id) || p.now == ZERO_TIME || p.dispatchDeadline == ZERO_TIME || p.dispatchDeadline <= p.now
         || p.maxAttempts == 0 {
        return Failure(InvalidMessage);
      }
      if p.scheduledAt.Some? && p.scheduledAt.value >= p.dispatchDeadline {
        return Failure(InvalidMessage);
      }
      var m := new Message(AcceptedMessage(p));
      if p.scheduledAt.Some? && p.scheduledAt.value > p.now {
        m.SetStatus(Scheduled, p.now, "", "", None);
        return Success(m);
      }
      var err := m.Queue(p.now);
      if err.Some? {
        return Failure(err.value);
      }
      return Success(m);
    }

    static method Rehydrate(s: Snapshot) returns (r: Result<Message, DomainError>)
      ensures r.Success? <==> ValidSnapshot(s)
      ensures r.Success? ==> fresh(r.value) && r.value.View() == Aggregate(s, [])
    {
      if !ValidSnapshot(s) {
        return Failure(InvalidMessage);
      }
      var m := new Message(Aggregate(s, []));
      return Success(m);
    }

    method PullEvents() returns (events: seq<Event>)
      modifies this
      ensures events == old(pendingEvents)
      ensures View() == Pull(old(View()))
    {
      events := pendingEvents;
      pendingEvents := [];
    }

    method SetStatus(to: Status, at: Time, messageId: string, reasonCode: string, fault: Option<Fault>)
      modifies this
      ensures View() == ChangeStatus(old(View()), to, at, messageId, reasonCode, fault)
    {
      var from := status;
      status := to;
      updatedAt := at;
      latestSequence := latestSequence + 1;
      pendingEvents := pendingEvents + [
        Event(StatusChanged, id, Some(from), to, at, latestSequence, dispatchGeneration, attemptCount, messageId,
              reasonCode, fault)];
    }

    method Queue(now: Time) returns (err: Option<DomainError>)
      modifies this
      ensures Follows(old(View()), Messages.Queue(old(View()), now), View(), err)
    {
      if now >= dispatchDeadline {
        return Some(DispatchDeadlineExceeded);
      }
      if !CanTransition(status, Queued) {
        return Some(InvalidTransition(status, Queued));
      }
      dispatchGeneration := dispatchGeneration + 1;
      nextAttemptAt := None;
      SetStatus(Queued, now, "", "", None);
      pendingEvents := pendingEvents + [
        Event(DispatchRequested, id, Some(status), status, now, latestSequence, dispatchGeneration, attemptCount,
              "", "", None)];
      return None;
    }

    method StartSending(generation: nat, now: Time) returns (err: Option<DomainError>)
      modifies this
      ensures Follows(old(View()), Messages.StartSending(old(View()), generation, now), View(), err)
    {
      if status != Queued {
        return Some(InvalidTransition(status, Sending));
      }
      if generation != dispatchGeneration {
        return Some(StaleDispatchGeneration);
      }
      if now >= dispatchDeadline {
        return Some(DispatchDeadlineExceeded);
      }
      if attemptCount >= maxAttempts {
        return Some(AttemptLimitReached);
      }
      attemptCount := attemptCount + 1;
      SetStatus(Sending, now, "", "", None);
      return None;
    }

    method ScheduleRetry(fault: Fault, next: Time, now: Time) returns (err: Option<DomainError>)
      modifies this
      ensures Follows(old(View()), Messages.ScheduleRetry(old(View()), fault, next, now), View(), err)
    {
      if status != Sending && status != SubmissionUnknown {
        return Some(InvalidTransition(status, RetryScheduled));
      }
      if !ValidFault(fault) {
        return Some(InvalidMessage);
      }
      if !fault.retryable {
        return Some(FaultNotRetryable);
      }
      if attemptCount >= maxAttempts {
        return Some(AttemptLimitReached);
      }
      if next <= now || next >= dispatchDeadline {
        return Some(InvalidRetryTime);
      }
      nextAttemptAt := Some(next);
      lastFault := Some(fault);
      SetStatus(RetryScheduled, now, "", "", Some(fault));
      return None;
    }

    method MarkSubmissionUnknown(fault: Fault, now: Time) returns (err: Option<DomainError>)
      modifies this
      ensures Follows(old(View()), Messages.MarkSubmissionUnknown(old(View()), fault, now), View(), err)
    {
      if status != Sending {
        return Some(InvalidTransition(status, SubmissionUnknown));
      }
      if !ValidFault(fault) || fault.category != AmbiguousSubmission {
        return Some(InvalidMessage);
      }
      lastFault := Some(fault);
      SetStatus(SubmissionUnknown, now, "", "", Some(fault));
      return None;
    }

    method MarkPermanentlyFailed(fault: Fault, now: Time) returns (err: Option<DomainError>)
      modifies this
      ensures Follows(old(View()), Messages.MarkPermanentlyFailed(old(View()), fault, now), View(), err)
    {
      if status != Sending && status != SubmissionUnknown {
        return Some(InvalidTransition(status, PermanentlyFailed));
      }
      if !ValidFault(fault) {
        return Some(InvalidMessage);
      }
      lastFault := Some(fault);
      nextAttemptAt := None;
      SetStatus(PermanentlyFailed, now, "", "", Some(fault));
      return None;
    }

    method MarkDeadLettered(fault: Fault, now: Time) returns (err: Option<DomainError>)
      modifies this
      ensures Follows(old(View()), Messages.MarkDeadLettered(old(View()), fault, now), View(), err)
    {
      if status != Sending && status != RetryScheduled {
        return Some(InvalidTransition(status, DeadLettered));
      }
      if !ValidFault(fault) {
        return Some(InvalidMessage);
      }
      lastFault := Some(fault);
      nextAttemptAt := None;
      SetStatus(DeadLettered, now, "", "", Some(fault));
      return None;
    }

    method MarkUnknownFinal(fault: Fault, now: Time) returns (err: Option<DomainError>)
      modifies this
      ensures Follows(old(View()), Messages.MarkUnknownFinal(old(View()), fault, now), View(), err)
    {
      if status != SubmissionUnknown {
        return Some(InvalidTransition(status, UnknownFinal));
      }
      if !ValidFault(fault) {
        return Some(InvalidMessage);
      }
      lastFault := Some(fault);
      SetStatus(UnknownFinal, now, "", "", Some(fault));
      return None;
    }

    method Cancel(reasonCode: string, now: Time) returns (changed: bool, err: Option<DomainError>)
      modifies this
      ensures Follows(old(View()), Messages.Cancel(old(View()), reasonCode, now), View(), err)
      ensures changed <==> latestSequence != old(latestSequence)
    {
      if status == Canceled {
        return false, None;
      }
      if !NotStarted(status) {
        return false, Some(TooLateToCancel);
      }
      if !ValidReasonCode(reasonCode) {
        return false, Some(InvalidMessage);
      }
      nextAttemptAt := None;
      SetStatus(Canceled, now, "", reasonCode, None);
      return true, None;
    }

    method Expire(now: Time) returns (changed: bool, err: Option<DomainError>)
      modifies this
      ensures Follows(old(View()), Messages.Expire(old(View()), now), View(), err)
      ensures changed <==> latestSequence != old(latestSequence)
    {
      if status == Expired {
        return false, None;
      }
      if now < dispatchDeadline {
        return false, Some(DispatchDeadlineNotMet);
      }
      if !NotStarted(status) {
        return false, Some(InvalidTransition(status, Expired));
      }
      nextAttemptAt := None;
      SetStatus(Expired, now, "", "", None);
      return true, None;
    }

    method ApplyDeliveryFact(fact: Fact) returns (result: ApplyResult, err: Option<DomainError>)
      modifies this
      ensures Follows(old(View()), ApplyFact(old(View()), fact), View(), err)
      ensures err.None? ==> (result == Applied <==> latestSequence != old(latestSequence))
      ensures err.None? ==> (result == Duplicate <==> old(status) == FactTarget(fact.kind))
    {
      result := IgnoredRegression;
      if fact.occurredAt == ZERO_TIME {
        return result, Some(InvalidDeliveryFact);
      }
      var target := FactTarget(fact.kind);
      if status == target {
        return Duplicate, None;
      }
      if WouldRegress(status, target) {
        return IgnoredRegression, None;
      }
      if !CanTransition(status, target) {
        return result, Some(InvalidTransition(status, target));
      }
      NoteObservation(fact, target);
      lastFault := None;
      nextAttemptAt := None;
      SetStatus(target, fact.occurredAt, fact.providerMessageId, "", None);
      return Applied, None;
    }

    /** The first provider id and the first acceptance time seen are kept. */
    method NoteObservation(fact: Fact, target: Status)
      modifies this`providerMessageId, this`providerAcceptedAt
      ensures providerMessageId == (if fact.providerMessageId != "" && old(providerMessageId) == ""
                                    then fact.providerMessageId else old(providerMessageId))
      ensures providerAcceptedAt == (if target == ProviderAccepted && old(providerAcceptedAt).None?
                                     then Some(fact.occurredAt) else old(providerAcceptedAt))
    {
      if fact.providerMessageId != "" && providerMessageId == "" {
        providerMessageId := fact.providerMessageId;
      }
      if target == ProviderAccepted && providerAcceptedAt.None? {
        providerAcceptedAt := Some(fact.occurredAt);
      }
    }
  }
}
