/** The guard as the object that decorates the provider: one call from admission to the slot given back. */
module GuardObject {
  import opened Common
  import opened Providers
  import opened Circuit
  import opened CircuitObject
  import opened Bucket
  import opened Guarding

  /** What a call meets on its way: clock readings, the caller's context, and the provider's answer if it is asked. */
  datatype Visit = Visit(
    canceled: bool,
    enteredAt: Time,
    canceledInSlot: bool,
    askedAt: Time,
    answer: ProviderResult,
    answeredAt: Time)

  datatype Ending = Rejected(reason: Rejection) | Answered

  /** How the call ends, from the state it finds. */
  function EndingOf(b: Breaker, k: Bucket, full: bool, v: Visit): Ending {
    if v.canceled then Rejected(ContextDone)
    else if Acquire(b, v.enteredAt).ticket.None? then Rejected(CircuitIsOpen)
    else if full then Rejected(BulkheadFull)
    else if v.canceledInSlot then Rejected(ContextDone)
    else if !Allowed(k, v.askedAt) then Rejected(RateExceeded)
    else Answered
  }

  class ProviderGuard {
    const breaker: CircuitBreaker
    const bucket: TokenBucket
    const maxConcurrent: nat
    var slots: nat
    // the state observations handed to the observer so far
    var reported: seq<StateNote>

    constructor (maxConcurrent: nat, threshold: nat, openDuration: int, rate: real, burst: real, now: Time)
      requires ValidGuard(maxConcurrent, threshold, openDuration, rate, burst)
      ensures fresh(breaker) && fresh(bucket) && slots == 0 && this.maxConcurrent == maxConcurrent
      ensures reported == [StateNote(Closed, 0)]
      ensures breaker.View() == NewBreaker(threshold, openDuration) && bucket.View() == NewBucket(rate, burst, now)
    {
      breaker := new CircuitBreaker(threshold, openDuration);
      bucket := new TokenBucket(rate, burst, now);
      this.maxConcurrent, slots, reported := maxConcurrent, 0, [StateNote(Closed, 0)];
    }

    /**
     The call returns the provider's answer exactly if it reached the provider, and a retryable local failure
     otherwise. Its slot is given back on every path, and its ticket is settled once: recorded after an
     answer, canceled after a rejection. Only a call that got as far as the bucket can change it. Every
     transition of the breaker is reported, in the order in which the call causes them.
     */
    method Submit(v: Visit) returns (result: ProviderResult, called: bool)
      requires slots <= maxConcurrent
      modifies this, breaker, bucket
      ensures slots == old(slots)
      ensures var b, k := old(breaker.View()), old(bucket.View());
              var admission := Acquire(b, v.enteredAt);
              match EndingOf(b, k, old(slots) == maxConcurrent, v)
              case Answered =>
                && called && result == v.answer && bucket.View() == Asked(k, v.askedAt)
                && var r := Circuit.Record(admission.breaker, admission.ticket.value, Classify(v.answer), v.answeredAt);
                   && breaker.View() == r.breaker
                   && reported == Emit(Emit(old(reported), admission.transition), r.transition)
              case Rejected(reason) =>
                && !called && result == RejectionResult(reason)
                && bucket.View() == (if reason == RateExceeded then Asked(k, v.askedAt) else k)
                && breaker.View() ==
                   (if v.canceled || admission.ticket.None? then b
                    else Circuit.Cancel(admission.breaker, admission.ticket.value))
                && reported == (if v.canceled then old(reported) else Emit(old(reported), admission.transition))
    {
      if v.canceled {
        return RejectionResult(ContextDone), false;
      }
      var ticket, probing := breaker.Acquire(v.enteredAt);
      reported := Emit(reported, probing);
      if ticket.None? {
        return RejectionResult(CircuitIsOpen), false;
      }
      if slots == maxConcurrent {
        breaker.Cancel(ticket.value);
        return RejectionResult(BulkheadFull), false;
      }
      slots := slots + 1;
      if v.canceledInSlot {
        breaker.Cancel(ticket.value);
        slots := slots - 1;
        return RejectionResult(ContextDone), false;
      }
      var granted := bucket.Allow(v.askedAt);
      if !granted {
        breaker.Cancel(ticket.value);
        slots := slots - 1;
        return RejectionResult(RateExceeded), false;
      }
      var settled := breaker.Record(ticket.value, v.answer, v.answeredAt);
      reported := Emit(reported, settled);
      slots := slots - 1;
      return v.answer, true;
    }
  }
}
