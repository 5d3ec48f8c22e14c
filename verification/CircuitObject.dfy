/**
 The breaker as the mutex-protected object the guard shares between calls. Every method is proved to
 do to View() what the function of the same name in module Circuit does.
 */
module CircuitObject {
  import opened Common
  import opened Providers
  import opened Circuit

  class CircuitBreaker {
    var threshold: nat
    var openDuration: int
    var state: CircuitState
    var epoch: nat
    var consecutiveFails: nat
    var openUntil: Time
    var halfOpenInFlight: bool

    function View(): Breaker
      reads this
    {
      Breaker(threshold, openDuration, state, epoch, consecutiveFails, openUntil, halfOpenInFlight)
    }

    constructor (threshold: nat, openDuration: int)
      requires ValidConfig(threshold, openDuration)
      ensures View() == NewBreaker(threshold, openDuration)
    {
      this.threshold, this.openDuration := threshold, openDuration;
      state, epoch, consecutiveFails, openUntil, halfOpenInFlight := Closed, 0, 0, ZERO_TIME, false;
    }

    method Acquire(now: Time) returns (ticket: Option<Ticket>, transition: Option<Transition>)
      modifies this
      ensures Admission(View(), ticket, transition) == Circuit.Acquire(old(View()), now)
    {
      if state == Open {
        if now < openUntil {
          return None, None;
        }
        state := HalfOpen;
        epoch := epoch + 1;
        halfOpenInFlight := true;
        return Some(Ticket(epoch, true)), Some(Transition(Open, HalfOpen, CooldownElapsed, epoch));
      }
      if state == HalfOpen {
        if halfOpenInFlight {
          return None, None;
        }
        halfOpenInFlight := true;
        return Some(Ticket(epoch, true)), None;
      }
      return Some(Ticket(epoch, false)), None;
    }

    method Cancel(ticket: Ticket)
      modifies this
      ensures View() == Circuit.Cancel(old(View()), ticket)
    {
      if !ticket.halfOpen {
        return;
      }
      if state == HalfOpen && epoch == ticket.epoch {
        halfOpenInFlight := false;
      }
    }

    method Record(ticket: Ticket, result: ProviderResult, now: Time) returns (transition: Option<Transition>)
      modifies this
      ensures Recording(View(), transition) == Circuit.Record(old(View()), ticket, Classify(result), now)
    {
      var observation := Classify(result);
      if ticket.epoch != epoch {
        return None;
      }
      if ticket.halfOpen {
        if state != HalfOpen || !halfOpenInFlight {
          return None;
        }
        halfOpenInFlight := false;
        if observation == Healthy {
          transition := Close(ProbeSucceeded);
        } else {
          transition := Trip(now, ProbeFailed);
        }
        return;
      }
      if state != Closed {
        return None;
      }
      match observation
      case Healthy =>
        consecutiveFails := 0;
        return None;
      case Failing =>
        consecutiveFails := consecutiveFails + 1;
        if consecutiveFails >= threshold {
          transition := Trip(now, FailureThreshold);
          return;
        }
        return None;
      case ImmediateFailing =>
        transition := Trip(now, AuthenticationFailed);
      case Ignored =>
        return None;
    }

    method Trip(now: Time, reason: Reason) returns (transition: Option<Transition>)
      modifies this
      ensures View() == Opened(old(View()), now)
      ensures transition == Some(Transition(old(state), Open, reason, old(epoch) + 1))
    {
      var from := state;
      state := Open;
      epoch := epoch + 1;
      consecutiveFails := 0;
      openUntil := now + openDuration;
      halfOpenInFlight := false;
      return Some(Transition(from, Open, reason, epoch));
    }

    method Close(reason: Reason) returns (transition: Option<Transition>)
      modifies this
      ensures View() == Reclosed(old(View()))
      ensures transition == Some(Transition(old(state), Closed, reason, old(epoch) + 1))
    {
      var from := state;
      state := Closed;
      epoch := epoch + 1;
      consecutiveFails := 0;
      openUntil := ZERO_TIME;
      halfOpenInFlight := false;
      return Some(Transition(from, Closed, reason, epoch));
    }
  }
}
