/**
 What every run of the aggregate keeps: a run starts at New and applies any
 operations in any order, with rejected operations and with Snapshot/Restore
 round trips anywhere in between.
 */
module MessageRuns {
  import opened Common
  import opened Statuses
  import opened Messages

  datatype Op =
    | OpQueue(now: Time)
    | OpStartSending(generation: nat, now: Time)
    | OpScheduleRetry(fault: Fault, nextAttemptAt: Time, now: Time)
    | OpMarkSubmissionUnknown(fault: Fault, now: Time)
    | OpMarkPermanentlyFailed(fault: Fault, now: Time)
    | OpMarkDeadLettered(fault: Fault, now: Time)
    | OpMarkUnknownFinal(fault: Fault, now: Time)
    | OpCancel(reasonCode: string, now: Time)
    | OpExpire(now: Time)
    | OpApplyFact(fact: Fact)
    | OpPull
    | OpReload

  function Perform(a: Aggregate, op: Op): Result<Aggregate, DomainError> {
    match op
    case OpQueue(now) => Queue(a, now)
    case OpStartSending(g, now) => StartSending(a, g, now)
    case OpScheduleRetry(f, next, now) => ScheduleRetry(a, f, next, now)
    case OpMarkSubmissionUnknown(f, now) => MarkSubmissionUnknown(a, f, now)
    case OpMarkPermanentlyFailed(f, now) => MarkPermanentlyFailed(a, f, now)
    case OpMarkDeadLettered(f, now) => MarkDeadLettered(a, f, now)
    case OpMarkUnknownFinal(f, now) => MarkUnknownFinal(a, f, now)
    case OpCancel(reason, now) => Cancel(a, reason, now)
    case OpExpire(now) => Expire(a, now)
    case OpApplyFact(fact) => ApplyFact(a, fact)
    case OpPull => Success(Pull(a))
    case OpReload => Restore(a.data)
  }

  /** A rejected operation leaves the aggregate as it was. */
  function Next(a: Aggregate, op: Op): Aggregate {
    var r := Perform(a, op);
    if r.Success? then r.value else a
  }

  function Run(a: Aggregate, ops: seq<Op>): Aggregate
    decreases |ops|
  {
    if ops == [] then a else Run(Next(a, ops[0]), ops[1..])
  }

  // ----- the inductive invariant

  /** Provider attempts and dispatch generations move in lock step. */
  predicate CountersAgree(d: Snapshot) {
    && d.attemptCount <= d.maxAttempts
    && match d.status
       case Accepted => false
       case Scheduled => d.generation == d.attemptCount == 0
       case Queued => d.generation == d.attemptCount + 1 && d.attemptCount < d.maxAttempts
       case RetryScheduled => d.generation == d.attemptCount && 0 < d.attemptCount < d.maxAttempts
       case Canceled =>
         d.attemptCount < d.maxAttempts && d.attemptCount <= d.generation <= d.attemptCount + 1
       case Expired =>
         d.attemptCount < d.maxAttempts && d.attemptCount <= d.generation <= d.attemptCount + 1
       case _ => d.generation == d.attemptCount && 0 < d.attemptCount
  }

  /** How many events a message can have emitted when it is in the given state after that many attempts. */
  function SequenceCeiling(s: Status, attempts: nat): int {
    match s
    case Accepted => 1
    case Scheduled => 2
    case Queued => 4 * attempts + 3
    case Sending => 4 * attempts
    case SubmissionUnknown => 4 * attempts + 1
    case RetryScheduled => 4 * attempts + 2
    case ProviderAccepted => 4 * attempts + 2
    case PermanentlyFailed => 4 * attempts + 2
    case UnknownFinal => 4 * attempts + 2
    case Delivered => 4 * attempts + 3
    case Bounced => 4 * attempts + 3
    case DeadLettered => 4 * attempts + 3
    case Complained => 4 * attempts + 4
    case Canceled => 4 * attempts + 4
    case Expired => 4 * attempts + 4
  }

  predicate Coherent(d: Snapshot) {
    && !Blank(d.id)
    && d.acceptedAt != ZERO_TIME && d.dispatchDeadline != ZERO_TIME
    && d.acceptedAt < d.dispatchDeadline
    && d.maxAttempts > 0
    && CountersAgree(d)
    && 2 <= d.latestSequence <= SequenceCeiling(d.status, d.attemptCount)
    && (d.scheduledAt.Some? ==> d.scheduledAt.value < d.dispatchDeadline)
    && (d.status == Scheduled ==> d.scheduledAt.Some?)
    && (d.nextAttemptAt.Some? <==> d.status == RetryScheduled)
    && (d.nextAttemptAt.Some? ==> d.nextAttemptAt.value < d.dispatchDeadline)
    && (d.lastFault.Some? ==> ValidFault(d.lastFault.value))
  }

  /** The columns no operation writes. */
  predicate SameIdentity(d: Snapshot, e: Snapshot) {
    && e.id == d.id && e.maxAttempts == d.maxAttempts && e.dispatchDeadline == d.dispatchDeadline
    && e.scheduledAt == d.scheduledAt && e.acceptedAt == d.acceptedAt && e.version == d.version
  }

  /** One operation changes the snapshot along one edge of the state graph, under the next sequence number. */
  predicate Advances(d: Snapshot, e: Snapshot) {
    && SameIdentity(d, e)
    && CanTransition(d.status, e.status)
    && e.latestSequence == d.latestSequence + 1
    && d.attemptCount <= e.attemptCount && d.generation <= e.generation
  }

  predicate Kept(d: Snapshot, r: Result<Aggregate, DomainError>) {
    r.Success? ==> Coherent(r.value.data) && (r.value.data == d || Advances(d, r.value.data))
  }

  lemma QueueKeeps(a: Aggregate, now: Time)
    requires Coherent(a.data)
    ensures Kept(a.data, Queue(a, now))
  {
  }

  lemma StartSendingKeeps(a: Aggregate, generation: nat, now: Time)
    requires Coherent(a.data)
    ensures Kept(a.data, StartSending(a, generation, now))
  {
  }

  lemma ScheduleRetryKeeps(a: Aggregate, f: Fault, next: Time, now: Time)
    requires Coherent(a.data)
    ensures Kept(a.data, ScheduleRetry(a, f, next, now))
  {
  }

  lemma MarkSubmissionUnknownKeeps(a: Aggregate, f: Fault, now: Time)
    requires Coherent(a.data)
    ensures Kept(a.data, MarkSubmissionUnknown(a, f, now))
  {
  }

  lemma MarkPermanentlyFailedKeeps(a: Aggregate, f: Fault, now: Time)
    requires Coherent(a.data)
    ensures Kept(a.data, MarkPermanentlyFailed(a, f, now))
  {
  }

  lemma MarkDeadLetteredKeeps(a: Aggregate, f: Fault, now: Time)
    requires Coherent(a.data)
    ensures Kept(a.data, MarkDeadLettered(a, f, now))
  {
  }

  lemma MarkUnknownFinalKeeps(a: Aggregate, f: Fault, now: Time)
    requires Coherent(a.data)
    ensures Kept(a.data, MarkUnknownFinal(a, f, now))
  {
  }

  lemma CancelKeeps(a: Aggregate, reason: string, now: Time)
    requires Coherent(a.data)
    ensures Kept(a.data, Cancel(a, reason, now))
  {
  }

  lemma ExpireKeeps(a: Aggregate, now: Time)
    requires Coherent(a.data)
    ensures Kept(a.data, Expire(a, now))
  {
  }

  lemma ApplyFactKeeps(a: Aggregate, fact: Fact)
    requires Coherent(a.data)
    ensures Kept(a.data, ApplyFact(a, fact))
  {
  }

  lemma StepKeepsCoherence(a: Aggregate, op: Op)
    requires Coherent(a.data)
    ensures Coherent(Next(a, op).data)
    ensures Next(a, op).data == a.data || Advances(a.data, Next(a, op).data)
  {
    match op
    case OpQueue(now) => QueueKeeps(a, now);
    case OpStartSending(g, now) => StartSendingKeeps(a, g, now);
    case OpScheduleRetry(f, next, now) => ScheduleRetryKeeps(a, f, next, now);
    case OpMarkSubmissionUnknown(f, now) => MarkSubmissionUnknownKeeps(a, f, now);
    case OpMarkPermanentlyFailed(f, now) => MarkPermanentlyFailedKeeps(a, f, now);
    case OpMarkDeadLettered(f, now) => MarkDeadLetteredKeeps(a, f, now);
    case OpMarkUnknownFinal(f, now) => MarkUnknownFinalKeeps(a, f, now);
    case OpCancel(reason, now) => CancelKeeps(a, reason, now);
    case OpExpire(now) => ExpireKeeps(a, now);
    case OpApplyFact(fact) => ApplyFactKeeps(a, fact);
    case OpPull =>
    case OpReload =>
  }

  lemma {:induction false} RunKeepsCoherence(a: Aggregate, ops: seq<Op>)
    requires Coherent(a.data)
    ensures Coherent(Run(a, ops).data)
    ensures SameIdentity(a.data, Run(a, ops).data)
    ensures a.data.latestSequence <= Run(a, ops).data.latestSequence
    decreases |ops|
  {
    if ops == [] {
    } else {
      StepKeepsCoherence(a, ops[0]);
      RunKeepsCoherence(Next(a, ops[0]), ops[1..]);
    }
  }

  lemma NewIsCoherent(p: NewParams)
    requires New(p).Success?
    ensures Coherent(New(p).value.data)
    ensures New(p).value.data.maxAttempts == p.maxAttempts
    ensures New(p).value.data.status == (if p.scheduledAt.Some? && p.scheduledAt.value > p.now then Scheduled
                                         else Queued)
    ensures New(p).value.data.latestSequence == 2
  {
  }

  // ----- counters on every run

  /** Counter agreement, the event bound and the absence of integer wrap-around, on every run from New. */
  lemma {:induction false} CountersOnEveryRun(p: NewParams, ops: seq<Op>)
    requires New(p).Success?
    ensures var d := Run(New(p).value, ops).data;
            && CountersAgree(d)
            && d.maxAttempts == p.maxAttempts
            && d.latestSequence <= 4 * p.maxAttempts + 4
            && (p.maxAttempts <= MAX_UINT32 ==>
                  && d.attemptCount <= MAX_UINT32
                  && d.generation < MAX_INT64 && d.latestSequence < MAX_INT64)
  {
    NewIsCoherent(p);
    RunKeepsCoherence(New(p).value, ops);
  }

  /** The number of operations of a run that changed the message. */
  function EffectiveOps(a: Aggregate, ops: seq<Op>): nat
    decreases |ops|
  {
    if ops == [] then 0
    else (if Next(a, ops[0]).data == a.data then 0 else 1) + EffectiveOps(Next(a, ops[0]), ops[1..])
  }

  lemma {:induction false} SequenceCountsEffectiveOps(a: Aggregate, ops: seq<Op>)
    requires Coherent(a.data)
    ensures Run(a, ops).data.latestSequence == a.data.latestSequence + EffectiveOps(a, ops)
    decreases |ops|
  {
    if ops == [] {
    } else {
      StepKeepsCoherence(a, ops[0]);
      SequenceCountsEffectiveOps(Next(a, ops[0]), ops[1..]);
    }
  }

  /** Every run settles: however long it is, at most 4 * maxAttempts + 2 operations change the message. */
  lemma {:induction false} RunsSettle(p: NewParams, ops: seq<Op>)
    requires New(p).Success?
    ensures EffectiveOps(New(p).value, ops) <= 4 * p.maxAttempts + 2
  {
    NewIsCoherent(p);
    CountersOnEveryRun(p, ops);
    SequenceCountsEffectiveOps(New(p).value, ops);
  }

  lemma {:induction false} TerminalIsAbsorbing(a: Aggregate, ops: seq<Op>)
    requires Terminal(a.data.status)
    ensures Run(a, ops).data == a.data
    decreases |ops|
  {
    if ops == [] {
    } else {
      assert Next(a, ops[0]).data == a.data;
      TerminalIsAbsorbing(Next(a, ops[0]), ops[1..]);
    }
  }

  // ----- the bound is reached

  const TRANSIENT := Fault(Network, "N", true)
  const AMBIGUOUS := Fault(AmbiguousSubmission, "A", false)

  const PROVIDER_ACCEPTS := OpApplyFact(Fact(FactProviderAccepted, 1, ""))
  const PROVIDER_DELIVERS := OpApplyFact(Fact(FactDelivered, 1, ""))
  const RECIPIENT_COMPLAINS := OpApplyFact(Fact(FactComplained, 1, ""))

  /** Every attempt ends ambiguous; all but the last are then retried, the last is accepted, delivered, complained about. */
  function LongestRun(generation: nat, maxAttempts: nat): seq<Op>
    requires 1 <= generation <= maxAttempts
    decreases maxAttempts - generation, 1
  {
    [OpStartSending(generation, 1)] + ([OpMarkSubmissionUnknown(AMBIGUOUS, 1)]
                                       + AfterAmbiguity(generation, maxAttempts))
  }

  /** What LongestRun does after the ambiguous result of one attempt. */
  function AfterAmbiguity(generation: nat, maxAttempts: nat): seq<Op>
    requires 1 <= generation <= maxAttempts
    decreases maxAttempts - generation, 0
  {
    if generation == maxAttempts then
      [PROVIDER_ACCEPTS] + ([PROVIDER_DELIVERS] + ([RECIPIENT_COMPLAINS] + []))
    else
      [OpScheduleRetry(TRANSIENT, 2, 1)] + ([OpQueue(1)] + LongestRun(generation + 1, maxAttempts))
  }

  lemma RunCons(a: Aggregate, op: Op, ops: seq<Op>)
    ensures Run(a, [op] + ops) == Run(Next(a, op), ops)
  {
    assert ([op] + ops)[1..] == ops;
  }

  predicate At(a: Aggregate, s: Status, generation: nat, attempts: nat, maxAttempts: nat, sequence: nat) {
    var d := a.data;
    && d.status == s && d.generation == generation && d.attemptCount == attempts && d.maxAttempts == maxAttempts
    && d.latestSequence == sequence && d.dispatchDeadline == 10
  }

  lemma AmbiguousAttempt(a: Aggregate, g: nat, maxAttempts: nat) returns (b: Aggregate)
    requires 1 <= g <= maxAttempts && At(a, Queued, g, g - 1, maxAttempts, 4 * g - 1)
    ensures b == Next(Next(a, OpStartSending(g, 1)), OpMarkSubmissionUnknown(AMBIGUOUS, 1))
    ensures At(b, SubmissionUnknown, g, g, maxAttempts, 4 * g + 1)
  {
    assert ValidFault(AMBIGUOUS) by { assert !IsSpace(AMBIGUOUS.code[0]); }
    var started := Next(a, OpStartSending(g, 1));
    assert At(started, Sending, g, g, maxAttempts, 4 * g);
    b := Next(started, OpMarkSubmissionUnknown(AMBIGUOUS, 1));
  }

  lemma RetryAfterAmbiguity(b: Aggregate, g: nat, maxAttempts: nat) returns (c: Aggregate)
    requires 1 <= g < maxAttempts && At(b, SubmissionUnknown, g, g, maxAttempts, 4 * g + 1)
    ensures c == Next(Next(b, OpScheduleRetry(TRANSIENT, 2, 1)), OpQueue(1))
    ensures At(c, Queued, g + 1, g, maxAttempts, 4 * g + 3)
  {
    assert ValidFault(TRANSIENT) by { assert !IsSpace(TRANSIENT.code[0]); }
    var retry := Next(b, OpScheduleRetry(TRANSIENT, 2, 1));
    assert At(retry, RetryScheduled, g, g, maxAttempts, 4 * g + 2);
    c := Next(retry, OpQueue(1));
  }

  lemma LateFacts(b: Aggregate, g: nat) returns (c: Aggregate)
    requires At(b, SubmissionUnknown, g, g, g, 4 * g + 1)
    ensures c == Next(Next(Next(b, PROVIDER_ACCEPTS), PROVIDER_DELIVERS), RECIPIENT_COMPLAINS)
    ensures c.data.latestSequence == 4 * g + 4
  {
    var accepted := Next(b, PROVIDER_ACCEPTS);
    assert At(accepted, ProviderAccepted, g, g, g, 4 * g + 2);
    var delivered := Next(accepted, PROVIDER_DELIVERS);
    assert At(delivered, Delivered, g, g, g, 4 * g + 3);
    c := Next(delivered, RECIPIENT_COMPLAINS);
  }

  lemma RunTwo(a: Aggregate, op: Op, op': Op, ops: seq<Op>)
    ensures Run(a, [op] + ([op'] + ops)) == Run(Next(Next(a, op), op'), ops)
  {
    RunCons(a, op, [op'] + ops);
    RunCons(Next(a, op), op', ops);
  }

  lemma {:induction false} LongestRunReaches(a: Aggregate, g: nat, maxAttempts: nat)
    requires 1 <= g <= maxAttempts && At(a, Queued, g, g - 1, maxAttempts, 4 * g - 1)
    ensures Run(a, LongestRun(g, maxAttempts)).data.latestSequence == 4 * maxAttempts + 4
    decreases maxAttempts - g, 1
  {
    var unknown := AmbiguousAttempt(a, g, maxAttempts);
    RunTwo(a, OpStartSending(g, 1), OpMarkSubmissionUnknown(AMBIGUOUS, 1), AfterAmbiguity(g, maxAttempts));
    AmbiguityReaches(unknown, g, maxAttempts);
  }

  lemma {:induction false} AmbiguityReaches(unknown: Aggregate, g: nat, maxAttempts: nat)
    requires 1 <= g <= maxAttempts && At(unknown, SubmissionUnknown, g, g, maxAttempts, 4 * g + 1)
    ensures Run(unknown, AfterAmbiguity(g, maxAttempts)).data.latestSequence == 4 * maxAttempts + 4
    decreases maxAttempts - g, 0
  {
    if g == maxAttempts {
      var complained := LateFacts(unknown, g);
      RunTwo(unknown, PROVIDER_ACCEPTS, PROVIDER_DELIVERS, [RECIPIENT_COMPLAINS] + []);
      RunCons(Next(Next(unknown, PROVIDER_ACCEPTS), PROVIDER_DELIVERS), RECIPIENT_COMPLAINS, []);
    } else {
      var queued := RetryAfterAmbiguity(unknown, g, maxAttempts);
      RunTwo(unknown, OpScheduleRetry(TRANSIENT, 2, 1), OpQueue(1), LongestRun(g + 1, maxAttempts));
      LongestRunReaches(queued, g + 1, maxAttempts);
    }
  }

  /** The event bound is exact: for every attempt limit some run emits 4 * maxAttempts + 4 events. */
  lemma SequenceBoundIsReached(maxAttempts: nat) returns (p: NewParams, ops: seq<Op>)
    requires maxAttempts > 0
    ensures p.maxAttempts == maxAttempts && New(p).Success?
    ensures Run(New(p).value, ops).data.latestSequence == 4 * maxAttempts + 4
  {
    p := NewParams("m", 1, Some(2), 10, maxAttempts);
    assert !IsSpace(p.id[0]);
    var scheduled := New(p).value;
    var queued := Next(scheduled, OpQueue(2));
    assert At(queued, Queued, 1, 0, maxAttempts, 3);
    ops := [OpQueue(2)] + LongestRun(1, maxAttempts);
    RunCons(scheduled, OpQueue(2), LongestRun(1, maxAttempts));
    LongestRunReaches(queued, 1, maxAttempts);
  }

  // ----- persistence round trip

  /** A snapshot of a reachable message can be restored exactly when its update time is real and not before acceptance. */
  lemma RestoreAcceptsExactly(d: Snapshot)
    requires Coherent(d)
    ensures ValidSnapshot(d) <==> d.updatedAt != ZERO_TIME && d.updatedAt >= d.acceptedAt
    ensures ValidSnapshot(d) ==> Restore(d) == Success(Aggregate(d, []))
  {
  }

  /** The caller read a clock; delivery facts carry a date of their own, and an undated one is rejected. */
  predicate Clocked(op: Op) {
    op.OpApplyFact? || op.OpPull? || op.OpReload? || op.now != ZERO_TIME
  }

  predicate AllClocked(ops: seq<Op>) {
    forall i :: 0 <= i < |ops| ==> Clocked(ops[i])
  }

  predicate TimedAfter(op: Op, t: Time) {
    match op
    case OpApplyFact(fact) => fact.occurredAt != ZERO_TIME && fact.occurredAt >= t
    case OpPull => true
    case OpReload => true
    case _ => op.now != ZERO_TIME && op.now >= t
  }

  predicate AllTimedAfter(ops: seq<Op>, t: Time) {
    forall i :: 0 <= i < |ops| ==> TimedAfter(ops[i], t)
  }

  /** Only the date of an operation that changes a message decides whether the result can be restored. */
  lemma StepIsRestorableExactly(a: Aggregate, op: Op)
    requires Coherent(a.data)
    ensures var d := Next(a, op).data;
            ValidSnapshot(d) <==> if d == a.data then ValidSnapshot(a.data) else TimedAfter(op, a.data.acceptedAt)
  {
    StepKeepsCoherence(a, op);
    RestoreAcceptsExactly(Next(a, op).data);
  }

  /** The last operation of a run that changed the message. */
  function LastEffective(a: Aggregate, ops: seq<Op>): Option<Op>
    decreases |ops|
  {
    if ops == [] then None
    else
      match LastEffective(Next(a, ops[0]), ops[1..])
      case Some(op) => Some(op)
      case None => if Next(a, ops[0]).data == a.data then None else Some(ops[0])
  }

  lemma {:induction false} RunIsRestorableExactly(a: Aggregate, ops: seq<Op>)
    requires Coherent(a.data)
    ensures match LastEffective(a, ops)
            case None => Run(a, ops).data == a.data
            case Some(op) => ValidSnapshot(Run(a, ops).data) <==> TimedAfter(op, a.data.acceptedAt)
    decreases |ops|
  {
    if ops == [] {
    } else {
      StepKeepsCoherence(a, ops[0]);
      StepIsRestorableExactly(a, ops[0]);
      RunIsRestorableExactly(Next(a, ops[0]), ops[1..]);
    }
  }

  lemma {:induction false} LastEffectiveIsAmong(a: Aggregate, ops: seq<Op>)
    requires LastEffective(a, ops).Some?
    ensures LastEffective(a, ops).value in ops
    decreases |ops|
  {
    if LastEffective(Next(a, ops[0]), ops[1..]).None? {
      assert LastEffective(a, ops).value == ops[0];
    } else {
      LastEffectiveIsAmong(Next(a, ops[0]), ops[1..]);
    }
  }

  /**
   A run from New survives a Snapshot/Restore round trip exactly when the last operation that changed the
   message is dated, and not before acceptance; the round trip is then the identity.
   */
  lemma {:induction false} EveryRunIsRestorable(p: NewParams, ops: seq<Op>)
    requires New(p).Success?
    ensures var a := Run(New(p).value, ops);
            var last := LastEffective(New(p).value, ops);
            && (Restore(a.data).Success? <==> last.None? || TimedAfter(last.value, p.now))
            && (Restore(a.data).Success? ==> Restore(a.data).value == Pull(a))
    ensures AllTimedAfter(ops, p.now) ==> Restore(Run(New(p).value, ops).data).Success?
  {
    NewIsCoherent(p);
    RestoreAcceptsExactly(New(p).value.data);
    RunIsRestorableExactly(New(p).value, ops);
    if LastEffective(New(p).value, ops).Some? {
      LastEffectiveIsAmong(New(p).value, ops);
    }
  }

  /** Reloading between any two operations never changes what the run does to the snapshot. */
  lemma {:induction false} ReloadIsInvisible(a: Aggregate, b: Aggregate, ops: seq<Op>)
    requires a.data == b.data
    ensures Run(a, ops).data == Run(b, ops).data
    decreases |ops|
  {
    if ops == [] {
    } else {
      StepIgnoresPending(a, b, ops[0]);
      ReloadIsInvisible(Next(a, ops[0]), Next(b, ops[0]), ops[1..]);
    }
  }

  lemma StepIgnoresPending(a: Aggregate, b: Aggregate, op: Op)
    requires a.data == b.data
    ensures Next(a, op).data == Next(b, op).data
  {
    match op
    case OpApplyFact(fact) =>
    case OpScheduleRetry(f, next, now) =>
    case _ =>
  }

  lemma EarlyFactIsTaken(sending: Aggregate)
    requires sending.data.status == Sending && sending.data.acceptedAt == 5
    ensures Restore(Next(sending, OpApplyFact(Fact(FactDelivered, 4, ""))).data).Failure?
  {
  }

  /** Without that condition the round trip fails: a provider fact dated before acceptance makes the row unreadable. */
  lemma EarlyFactBreaksTheRoundTrip() returns (p: NewParams, ops: seq<Op>)
    ensures New(p).Success? && Restore(Run(New(p).value, ops).data).Failure?
  {
    p := NewParams("m", 5, None, 10, 1);
    assert !IsSpace(p.id[0]);
    var start, fact := OpStartSending(1, 6), OpApplyFact(Fact(FactDelivered, 4, ""));
    ops := [start] + ([fact] + []);
    var queued := New(p).value;
    assert At(queued, Queued, 1, 0, 1, 2) && queued.data.acceptedAt == 5;
    RunTwo(queued, start, fact, []);
    EarlyFactIsTaken(Next(queued, start));
  }
}
