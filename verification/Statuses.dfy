/** The lifecycle states of one logical email and the edges between them. */
module Statuses {

  datatype Status =
    | Accepted
    | Scheduled
    | Queued
    | Sending
    | RetryScheduled
    | SubmissionUnknown
    | ProviderAccepted
    | Delivered
    | Bounced
    | Complained
    | Canceled
    | Expired
    | PermanentlyFailed
    | DeadLettered
    | UnknownFinal

  /** The states without an outgoing edge. A delivered mail can still draw a complaint, so it is not among them. */
  predicate Terminal(s: Status) {
    || s.Bounced? || s.Complained? || s.Canceled? || s.Expired?
    || s.PermanentlyFailed? || s.DeadLettered? || s.UnknownFinal?
  }

  predicate CanTransition(from: Status, to: Status) {
    match from
    case Accepted => to.Scheduled? || to.Queued? || to.Canceled? || to.Expired?
    case Scheduled => to.Queued? || to.Canceled? || to.Expired?
    case Queued => to.Sending? || to.Canceled? || to.Expired?
    case Sending =>
      || to.RetryScheduled? || to.SubmissionUnknown? || to.ProviderAccepted? || to.Delivered?
      || to.Bounced? || to.Complained? || to.PermanentlyFailed? || to.DeadLettered?
    case RetryScheduled => to.Queued? || to.Canceled? || to.Expired? || to.DeadLettered?
    case SubmissionUnknown =>
      || to.RetryScheduled? || to.ProviderAccepted? || to.Delivered? || to.Bounced?
      || to.Complained? || to.PermanentlyFailed? || to.UnknownFinal?
    case ProviderAccepted => to.Delivered? || to.Bounced? || to.Complained?
    case Delivered => to.Complained?
    case _ => false
  }

  /** States a persisted message can only be in after at least one provider attempt. */
  predicate RequiresAttempt(s: Status) {
    || s.Sending? || s.RetryScheduled? || s.SubmissionUnknown? || s.ProviderAccepted? || s.Delivered?
    || s.Bounced? || s.Complained? || s.PermanentlyFailed? || s.DeadLettered? || s.UnknownFinal?
  }

  predicate RequiresGeneration(s: Status) {
    s.Queued? || RequiresAttempt(s)
  }
}
