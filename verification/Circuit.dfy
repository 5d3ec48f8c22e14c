/** The circuit breaker with epoch-stamped tickets. */
module Circuit {
  import opened Common
  import opened Messages
  import opened Providers
  import Smtp

  datatype CircuitState = Closed | Open | HalfOpen

  datatype Reason = CooldownElapsed | ProbeSucceeded | ProbeFailed | FailureThreshold | AuthenticationFailed

  datatype Ticket = Ticket(epoch: nat, halfOpen: bool)

  datatype Transition = Transition(from: CircuitState, to: CircuitState, reason: Reason, epoch: nat)

  datatype Observation = Ignored | Healthy | Failing | ImmediateFailing

  datatype Breaker = Breaker(
    threshold: nat,
    openDuration: int,
    state: CircuitState,
    epoch: nat,
    fails: nat,
    openUntil: Time,
    inFlight: bool)

  predicate ValidConfig(threshold: nat, openDuration: int) {
    0 < threshold <= 100_000 && 100 * MILLISECOND <= openDuration <= DAY
  }

  function NewBreaker(threshold: nat, openDuration: int): Breaker {
    Breaker(threshold, openDuration, Closed, 0, 0, ZERO_TIME, false)
  }

  /** What a failure category says about the provider's health. */
  function HealthOf(c: Category): Observation {
    match c
    case Authentication => ImmediateFailing
    case RateLimited => Failing
    case ProviderDown => Failing
    case Network => Failing
    case TimeoutBeforeSend => Failing
    case Validation => Healthy
    case RecipientRejected => Healthy
    case ContentRejected => Healthy
    case AmbiguousSubmission => Failing
    case Internal => Ignored
  }

  function Classify(r: ProviderResult): Observation {
    if !ValidResult(r) then Ignored
    else
      match r.outcome
      case OutcomeAccepted => Healthy
      case OutcomeSubmissionUnknown => Failing
      case OutcomeFailed => HealthOf(r.fault.value.category)
      case OutcomeOther => Ignored
  }

  /** The server, or the adapter before it, settled the fate of this one mail; the service itself is fine. */
  predicate SettledByReply(s: Smtp.Session) {
    match s
    case InvalidRequest => true
    case Ended(phase, code, _) =>
      code == 503 || (500 <= code <= 599 && (phase.MailFrom? || phase.Recipient? || phase.Data?))
    case Committed(reply, _) => reply == 250 || 500 <= reply <= 599
    case _ => false
  }

  predicate CredentialsRefused(s: Smtp.Session) {
    s.Ended? && s.phase.Auth? && s.code != 503 && (500 <= s.code <= 599 || (s.flags.protocol && !(400 <= s.code <= 499)))
  }

  lemma ExchangeHealth(e: Smtp.TransportError)
    requires e.ExchangeError? ==> e.statusCode == 0 || 100 <= e.statusCode <= 999
    ensures Classify(Smtp.ClassifyFailure(e)) ==
            if e.ExchangeError? && (e.statusCode == 503
                                    || (500 <= e.statusCode <= 599 && (e.phase.MailFrom? || e.phase.Recipient?
                                                                       || e.phase.Data? || e.phase.DataCommit?))) then
              Healthy
            else if e.ExchangeError? && e.phase.Auth? && (500 <= e.statusCode <= 599
                                                          || (e.flags.protocol && !(400 <= e.statusCode <= 499))) then
              ImmediateFailing
            else Failing
  {
    var r := Smtp.ClassifyFailure(e);
    assert ValidResult(r);
  }

  /**
   Which SMTP sessions count for and against the provider: a reply about the mail itself is healthy, refused
   credentials open the circuit at once, and everything else, a lost reply included, is one failure.
   */
  lemma SmtpHealth(s: Smtp.Session, attemptId: string)
    requires Smtp.WellFormed(s) && Trimmed(attemptId) && |attemptId| <= 36
    ensures Classify(Smtp.Submit(s, attemptId)) ==
            if SettledByReply(s) then Healthy else if CredentialsRefused(s) then ImmediateFailing else Failing
  {
    var r := Smtp.Submit(s, attemptId);
    if !s.InvalidRequest? && Smtp.Deliver(s).Some? {
      assert r == Smtp.ClassifyFailure(Smtp.Deliver(s).value);
      ExchangeHealth(Smtp.Deliver(s).value);
    }
  }

  // ----- operations

  datatype Admission = Admission(breaker: Breaker, ticket: Option<Ticket>, transition: Option<Transition>)

  function Acquire(b: Breaker, now: Time): Admission {
    match b.state
    case Open =>
      if now < b.openUntil then Admission(b, None, None)
      else
        var e := b.epoch + 1;
        Admission(b.(state := HalfOpen, epoch := e, inFlight := true), Some(Ticket(e, true)),
                  Some(Transition(Open, HalfOpen, CooldownElapsed, e)))
    case HalfOpen =>
      if b.inFlight then Admission(b, None, None)
      else Admission(b.(inFlight := true), Some(Ticket(b.epoch, true)), None)
    case Closed => Admission(b, Some(Ticket(b.epoch, false)), None)
  }

  function Cancel(b: Breaker, ticket: Ticket): Breaker {
    if ticket.halfOpen && b.state == HalfOpen && b.epoch == ticket.epoch then b.(inFlight := false) else b
  }

  function Opened(b: Breaker, now: Time): Breaker {
    b.(state := Open, epoch := b.epoch + 1, fails := 0, openUntil := now + b.openDuration, inFlight := false)
  }

  function Reclosed(b: Breaker): Breaker {
    b.(state := Closed, epoch := b.epoch + 1, fails := 0, openUntil := ZERO_TIME, inFlight := false)
  }

  datatype Recording = Recording(breaker: Breaker, transition: Option<Transition>)

  function OpenWith(b: Breaker, now: Time, reason: Reason): Recording {
    Recording(Opened(b, now), Some(Transition(b.state, Open, reason, b.epoch + 1)))
  }

  function Record(b: Breaker, ticket: Ticket, o: Observation, now: Time): Recording {
    if ticket.epoch != b.epoch then Recording(b, None)
    else if ticket.halfOpen then
      if b.state != HalfOpen || !b.inFlight then Recording(b, None)
      else if o == Healthy then
        Recording(Reclosed(b), Some(Transition(b.state, Closed, ProbeSucceeded, b.epoch + 1)))
      else OpenWith(b, now, ProbeFailed)
    else if b.state != Closed then Recording(b, None)
    else
      match o
      case Healthy => Recording(b.(fails := 0), None)
      case Failing =>
        if b.fails + 1 >= b.threshold then OpenWith(b, now, FailureThreshold)
        else Recording(b.(fails := b.fails + 1), None)
      case ImmediateFailing => OpenWith(b, now, AuthenticationFailed)
      case Ignored => Recording(b, None)
  }

  /** A transition is reported exactly when the state changes, with both states, the new epoch and its reason. */
  lemma TransitionsTell(b: Breaker, ticket: Ticket, o: Observation, now: Time)
    ensures var r := Record(b, ticket, o, now);
            && (r.transition.Some? <==> r.breaker.state != b.state)
            && (r.transition.None? ==> r.breaker.epoch == b.epoch)
            && (r.transition.Some? ==>
                  var t := r.transition.value;
                  && t.from == b.state && t.to == r.breaker.state && t.epoch == r.breaker.epoch == b.epoch + 1
                  && t.reason == (if t.from == HalfOpen then (if t.to == Closed then ProbeSucceeded else ProbeFailed)
                                  else if o == ImmediateFailing then AuthenticationFailed else FailureThreshold))
    ensures var a := Acquire(b, now);
            && (a.transition.Some? <==> a.breaker.state != b.state)
            && (a.transition.None? ==> a.breaker.epoch == b.epoch)
            && (a.transition.Some? ==> a.transition.value == Transition(Open, HalfOpen, CooldownElapsed, b.epoch + 1)
                                       && a.breaker.epoch == b.epoch + 1)
  {
  }

  /** What says nothing about the provider is ignored: invalid results, and mails that could not even be built. */
  lemma LocalTroubleIsIgnored(r: ProviderResult, e: MaterialError)
    ensures !ValidResult(r) ==> Classify(r) == Ignored
    ensures Classify(MaterialBuildResult(e)) == Ignored
  {
  }
}
