/**
 The SMTP adapter: what it reports about a session, and what the server did with
 the mail. Sections 4.2.1 and 4.3.2 of RFC 5321 make a 2yz reply after the end of
 DATA the server's acceptance, and 250 the only one it may send there.
 */
module Smtp {
  import opened Common
  import opened Statuses
  import opened Messages
  import opened MessageRuns
  import opened Providers

  datatype Phase =
    | Connect
    | Tls
    | Greeting
    | Auth
    | MailFrom
    | Recipient
    | Data
    | DataWrite
    | DataCommit

  datatype Flags = Flags(timedOut: bool, canceled: bool, protocol: bool)

  datatype TransportError =
    | ExchangeError(phase: Phase, statusCode: nat, flags: Flags)
    | UnexpectedError

  /**
   One session as both ends see it. Before the final dot is sent the server cannot
   have taken the mail; after it, the reply decides, and a lost reply leaves the
   server's decision unknown to the client.
   */
  datatype Session =
    | InvalidRequest
    | Broken
    | Ended(phase: Phase, code: nat, flags: Flags)
    | Committed(reply: nat, flags: Flags)
    | ReplyLost(serverAccepted: bool, flags: Flags)

  /** Ended names a phase before the final dot; reply codes have three digits and 0 means none was read. */
  predicate WellFormed(s: Session) {
    && (s.Ended? ==> s.phase != DataCommit && (s.code == 0 || 100 <= s.code <= 999))
    && (s.Committed? ==> 100 <= s.reply <= 999)
  }

  predicate Accepted(s: Session) {
    match s
    case Committed(reply, _) => 200 <= reply <= 299
    case ReplyLost(accepted, _) => accepted
    case _ => false
  }

  /** What the transport returns; only reply 250 counts as success. */
  function Deliver(s: Session): Option<TransportError>
    requires !s.InvalidRequest?
  {
    match s
    case Broken => Some(UnexpectedError)
    case Ended(phase, code, flags) => Some(ExchangeError(phase, code, flags))
    case Committed(reply, flags) => if reply == 250 then None else Some(ExchangeError(DataCommit, reply, flags))
    case ReplyLost(_, flags) => Some(ExchangeError(DataCommit, 0, flags))
  }

  function PhaseName(p: Phase): (s: string)
    ensures |s| <= 11
  {
    match p
    case Connect => "CONNECT"
    case Tls => "TLS"
    case Greeting => "GREETING"
    case Auth => "AUTH"
    case MailFrom => "MAIL_FROM"
    case Recipient => "RECIPIENT"
    case Data => "DATA"
    case DataWrite => "DATA_WRITE"
    case DataCommit => "DATA_COMMIT"
  }

  function Digit(n: nat): char
    requires n <= 9
  {
    "0123456789"[n]
  }

  function StatusCode(phase: Phase, code: nat): (s: string)
    requires 100 <= code <= 999
    ensures 0 < |s| <= 128 && !IsSpace(s[0])
  {
    var s := "SMTP_" + PhaseName(phase) + "_" + [Digit(code / 100), Digit(code / 10 % 10), Digit(code % 10)];
    assert s[0] == 'S';
    s
  }

  function ClassifyFailure(e: TransportError): (r: ProviderResult)
    ensures ValidResult(r) && r.outcome != OutcomeAccepted
    ensures r.outcome == OutcomeSubmissionUnknown <==> e.ExchangeError? && e.phase == DataCommit && e.statusCode == 0
  {
    match e
    case UnexpectedError =>
      FailedResultIsValid(ProviderDown, "SMTP_TRANSPORT_INTERNAL", true);
      FailedResult(ProviderDown, "SMTP_TRANSPORT_INTERNAL", true)
    case ExchangeError(phase, code, flags) =>
      if phase == DataCommit && code == 0 then
        var unknown := "SMTP_DATA_COMMIT_RESULT_UNKNOWN";
        assert !IsSpace(unknown[0]);
        ProviderResult(OutcomeSubmissionUnknown, "", Some(Fault(AmbiguousSubmission, unknown, false)))
      else if 400 <= code <= 499 then
        var category := if code == 450 || code == 452 then RateLimited else ProviderDown;
        FailedResultIsValid(category, StatusCode(phase, code), true);
        FailedResult(category, StatusCode(phase, code), true)
      else if code == 503 then
        FailedResultIsValid(Validation, "SMTP_PROTOCOL_503", false);
        FailedResult(Validation, "SMTP_PROTOCOL_503", false)
      else if 500 <= code <= 599 then
        var category :=
          match phase
          case Auth => Authentication
          case MailFrom => Validation
          case Recipient => RecipientRejected
          case Data => ContentRejected
          case DataCommit => ContentRejected
          case _ => ProviderDown;
        FailedResultIsValid(category, StatusCode(phase, code), false);
        FailedResult(category, StatusCode(phase, code), false)
      else if phase == Auth && flags.protocol then
        FailedResultIsValid(Authentication, "SMTP_AUTH_MECHANISM_UNAVAILABLE", false);
        FailedResult(Authentication, "SMTP_AUTH_MECHANISM_UNAVAILABLE", false)
      else if flags.timedOut then
        FailedResultIsValid(TimeoutBeforeSend, "SMTP_TIMEOUT_BEFORE_COMMIT", true);
        FailedResult(TimeoutBeforeSend, "SMTP_TIMEOUT_BEFORE_COMMIT", true)
      else if flags.canceled then
        FailedResultIsValid(Network, "SMTP_CANCELED_BEFORE_COMMIT", true);
        FailedResult(Network, "SMTP_CANCELED_BEFORE_COMMIT", true)
      else
        FailedResultIsValid(Network, "SMTP_NETWORK_BEFORE_COMMIT", true);
        FailedResult(Network, "SMTP_NETWORK_BEFORE_COMMIT", true)
  }

  /** attemptId is the UUID of the attempt row. */
  function Submit(s: Session, attemptId: string): (r: ProviderResult)
    requires WellFormed(s)
    requires Trimmed(attemptId) && |attemptId| <= 36
    ensures ValidResult(r)
  {
    if s.InvalidRequest? then
      FailedResultIsValid(Validation, "SMTP_REQUEST_INVALID", false);
      FailedResult(Validation, "SMTP_REQUEST_INVALID", false)
    else
      match Deliver(s)
      case None =>
        var id := "smtp/" + attemptId;
        assert id[0] == 's' && id[|id| - 1] == attemptId[|attemptId| - 1];
        ProviderResult(OutcomeAccepted, id, None)
      case Some(e) => ClassifyFailure(e)
  }

  /** The contract the retry logic relies on: a failed result means the server did not take the mail. */
  predicate Honest(accepted: bool, r: ProviderResult) {
    r.outcome == OutcomeFailed ==> !accepted
  }

  /** The server's positive reply to the end of DATA, when it reaches the client, is 250. */
  predicate PositiveReplyIs250(s: Session) {
    s.Committed? && 200 <= s.reply <= 299 ==> s.reply == 250
  }

  /**
   The adapter reports failure honestly exactly on the sessions where a positive reply is 250. A lost
   reply is never reported as a failure, whatever the server decided.
   */
  lemma SubmitIsHonestExactly(s: Session, attemptId: string)
    requires WellFormed(s) && Trimmed(attemptId) && |attemptId| <= 36
    ensures Honest(Accepted(s), Submit(s, attemptId)) <==> PositiveReplyIs250(s)
    ensures Submit(s, attemptId).outcome == OutcomeAccepted ==> Accepted(s)
  {
  }

  /** Any other positive reply is taken for a network fault and retried, so the mail could be accepted twice. */
  lemma OtherPositiveReplyIsRetried(reply: nat, attemptId: string)
    requires 200 <= reply <= 299 && reply != 250
    requires Trimmed(attemptId) && |attemptId| <= 36
    ensures var s := Committed(reply, Flags(false, false, false));
            && Accepted(s)
            && Submit(s, attemptId) == FailedResult(Network, "SMTP_NETWORK_BEFORE_COMMIT", true)
  {
  }

  // ----- which sessions are retried

  predicate Permanent(code: nat) {
    500 <= code <= 599
  }

  predicate Transient(code: nat) {
    400 <= code <= 499
  }

  /** The verdict is final: the request was refused, the server said so, or it speaks no usable authentication. */
  predicate FinalVerdict(s: Session) {
    match s
    case InvalidRequest => true
    case Ended(phase, code, flags) => Permanent(code) || (phase == Auth && flags.protocol && !Transient(code))
    case Committed(reply, _) => Permanent(reply)
    case _ => false
  }

  predicate Throttled(s: Session) {
    match s
    case Ended(_, code, _) => code == 450 || code == 452
    case Committed(reply, _) => reply == 450 || reply == 452
    case _ => false
  }

  /** A 5yz reply other than 503, which complains about the command sequence instead. */
  predicate Refused(code: nat) {
    500 <= code <= 599 && code != 503
  }

  /** The server refused this recipient, or this mail's content. */
  predicate RecipientRefused(s: Session) {
    s.Ended? && s.phase == Recipient && Refused(s.code)
  }

  predicate ContentRefused(s: Session) {
    (s.Ended? && s.phase == Data && Refused(s.code)) || (s.Committed? && Refused(s.reply))
  }

  lemma ExchangeVerdict(e: TransportError)
    requires e.ExchangeError? ==> e.statusCode == 0 || 100 <= e.statusCode <= 999
    ensures var r := ClassifyFailure(e);
            r.outcome == OutcomeFailed ==>
              && (!r.fault.value.retryable <==>
                    e.ExchangeError? && (Permanent(e.statusCode)
                                         || (e.phase == Auth && e.flags.protocol && !Transient(e.statusCode))))
              && (r.fault.value.category == RateLimited <==>
                    e.ExchangeError? && (e.statusCode == 450 || e.statusCode == 452))
              && (r.fault.value.category == RecipientRejected <==>
                    e.ExchangeError? && e.phase == Recipient && Refused(e.statusCode))
              && (r.fault.value.category == ContentRejected <==>
                    e.ExchangeError? && (e.phase == Data || e.phase == DataCommit) && Refused(e.statusCode))
  {
  }

  /**
   What is reported of a session: accepted exactly for the reply 250, under the attempt's id; ambiguous exactly if
   the reply was lost; otherwise a failure, which is final exactly for a final verdict. So every 4yz reply,
   timeout, cancellation and network loss can be retried.
   */
  lemma SessionsAreReportedExactly(s: Session, attemptId: string)
    requires WellFormed(s) && Trimmed(attemptId) && |attemptId| <= 36
    ensures var r := Submit(s, attemptId);
            && (r.outcome == OutcomeAccepted <==> s.Committed? && s.reply == 250)
            && (r.outcome == OutcomeAccepted ==> r.providerMessageId == "smtp/" + attemptId)
            && (r.outcome == OutcomeSubmissionUnknown <==> s.ReplyLost?)
            && (r.outcome == OutcomeFailed ==>
                  && (!r.fault.value.retryable <==> FinalVerdict(s))
                  && (r.fault.value.category == RateLimited <==> Throttled(s))
                  && (r.fault.value.category == RecipientRejected <==> RecipientRefused(s))
                  && (r.fault.value.category == ContentRejected <==> ContentRefused(s)))
  {
    if !s.InvalidRequest? && Deliver(s).Some? {
      ExchangeVerdict(Deliver(s).value);
    }
  }

  /** Where a session leaves a sending message, from the session alone. */
  function Fate(s: Session, d: Snapshot, now: Time, delay: int): Status {
    if s.Committed? && s.reply == 250 then ProviderAccepted
    else if s.ReplyLost? then SubmissionUnknown
    else if FinalVerdict(s) then PermanentlyFailed
    else if RetryExhausted(d, now, delay) then DeadLettered
    else RetryScheduled
  }

  /** Adapter and worker together: the session decides the message's state, and only a final verdict ends it for good. */
  lemma SessionsDecideTheFate(s: Session, a: Aggregate, attemptId: string, now: Time, delay: int)
    requires WellFormed(s) && Trimmed(attemptId) && |attemptId| <= 36
    requires Coherent(a.data) && a.data.status == Sending && now != ZERO_TIME && 0 < delay <= DAY
    ensures var x := ApplyProviderResult(a, attemptId, Submit(s, attemptId), now, delay);
            x.Success? && x.value.aggregate.data.status == Fate(s, a.data, now, delay)
  {
    SessionsAreReportedExactly(s, attemptId);
    ProviderResultsAreTotal(a, attemptId, Submit(s, attemptId), now, delay);
  }
}
