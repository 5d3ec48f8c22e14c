/**
 The ten operations of the aggregate against the state graph: each is accepted exactly when the graph has its edge
 and its own side condition holds, each tells its whole effect in its event, and replaying the events of any run
 rebuilds the message.
 */
module MessageEffects {
  import opened Common
  import opened Statuses
  import opened Messages
  import opened MessageRuns
  import opened Wire

  predicate Changes(op: Op) {
    !op.OpPull? && !op.OpReload?
  }

  function Target(op: Op): Status
    requires Changes(op)
  {
    match op
    case OpQueue(_) => Queued
    case OpStartSending(_, _) => Sending
    case OpScheduleRetry(_, _, _) => RetryScheduled
    case OpMarkSubmissionUnknown(_, _) => SubmissionUnknown
    case OpMarkPermanentlyFailed(_, _) => PermanentlyFailed
    case OpMarkDeadLettered(_, _) => DeadLettered
    case OpMarkUnknownFinal(_, _) => UnknownFinal
    case OpCancel(_, _) => Canceled
    case OpExpire(_) => Expired
    case OpApplyFact(fact) =>
      match fact.kind
      case FactProviderAccepted => ProviderAccepted
      case FactDelivered => Delivered
      case FactBounced => Bounced
      case FactComplained => Complained
  }

  /** What an operation demands beyond the edge of the state graph. */
  predicate SideCondition(d: Snapshot, op: Op)
    requires Changes(op)
  {
    match op
    case OpQueue(now) => now < d.dispatchDeadline
    case OpStartSending(generation, now) => generation == d.generation && now < d.dispatchDeadline
    case OpScheduleRetry(f, next, now) =>
      ValidFault(f) && f.retryable && d.attemptCount < d.maxAttempts && now < next < d.dispatchDeadline
    case OpMarkSubmissionUnknown(f, _) => ValidFault(f) && f.category == AmbiguousSubmission
    case OpMarkPermanentlyFailed(f, _) => ValidFault(f)
    case OpMarkDeadLettered(f, _) => ValidFault(f)
    case OpMarkUnknownFinal(f, _) => ValidFault(f)
    case OpCancel(reason, _) => |reason| <= 128 && forall c <- reason :: c != '\r' && c != '\n'
    case OpExpire(now) => d.dispatchDeadline <= now
    case OpApplyFact(fact) => fact.occurredAt != ZERO_TIME
  }

  /** The states in which the provider has already been heard of. */
  predicate Observed(s: Status) {
    s == ProviderAccepted || s == Delivered || s == Bounced || s == Complained
  }

  /** A repeated cancel or expiry, and a fact that the message is already past, change nothing. */
  predicate Repeats(d: Snapshot, op: Op)
    requires Changes(op)
  {
    match op
    case OpCancel(_, _) => d.status == Canceled
    case OpExpire(_) => d.status == Expired
    case OpApplyFact(fact) =>
      fact.occurredAt != ZERO_TIME && Observed(d.status) && !CanTransition(d.status, Target(op))
    case _ => false
  }

  /** No operation has a guard of its own that strays from the state graph. */
  lemma OperationsFollowTheGraph(a: Aggregate, op: Op)
    requires Coherent(a.data) && Changes(op)
    ensures Perform(a, op).Success? <==>
            Repeats(a.data, op) || (CanTransition(a.data.status, Target(op)) && SideCondition(a.data, op))
  {
    match op
    case OpCancel(reason, _) =>
      assert ValidReasonCode(reason) <==> SideCondition(a.data, op);
    case _ =>
  }

  // ----- what an accepted operation does and tells

  function DateOf(op: Op): Time
    requires Changes(op)
  {
    if op.OpApplyFact? then op.fact.occurredAt else op.now
  }

  function FaultOf(op: Op): Option<Fault> {
    match op
    case OpScheduleRetry(f, _, _) => Some(f)
    case OpMarkSubmissionUnknown(f, _) => Some(f)
    case OpMarkPermanentlyFailed(f, _) => Some(f)
    case OpMarkDeadLettered(f, _) => Some(f)
    case OpMarkUnknownFinal(f, _) => Some(f)
    case _ => None
  }

  /** The event of the operation: edge, date, counters after it, and whatever the caller handed in. */
  predicate ToldBy(d: Snapshot, op: Op, d': Snapshot, e: Event)
    requires Changes(op)
  {
    && e.kind == StatusChanged && e.messageId == d.id && e.from == Some(d.status) && e.to == d'.status == Target(op)
    && e.occurredAt == d'.updatedAt == DateOf(op) && e.sequence == d'.latestSequence == d.latestSequence + 1
    && e.generation == d'.generation == d.generation + (if op.OpQueue? then 1 else 0)
    && e.attemptNumber == d'.attemptCount == d.attemptCount + (if op.OpStartSending? then 1 else 0)
    && e.fault == FaultOf(op) && e.reasonCode == (if op.OpCancel? then op.reasonCode else "")
    && e.providerMessageId == (if op.OpApplyFact? then op.fact.providerMessageId else "")
  }

  predicate RequestOf(d: Snapshot, e: Event) {
    && e.kind == DispatchRequested && e.messageId == d.id && e.from == Some(d.status) && e.to == d.status
    && e.occurredAt == d.updatedAt && e.sequence == d.latestSequence && e.generation == d.generation
    && e.attemptNumber == d.attemptCount && e.providerMessageId == "" && e.reasonCode == "" && e.fault.None?
  }

  /** The whole effect on the columns the event does not carry verbatim. */
  predicate Stores(d: Snapshot, op: Op, d': Snapshot)
    requires Changes(op)
  {
    && SameIdentity(d, d')
    && d'.nextAttemptAt == (if op.OpScheduleRetry? then Some(op.nextAttemptAt) else None)
    && d'.lastFault == (if FaultOf(op).Some? then FaultOf(op) else if op.OpApplyFact? then None else d.lastFault)
    && d'.providerMessageId == (if op.OpApplyFact? && d.providerMessageId == "" then op.fact.providerMessageId
                                else d.providerMessageId)
    && d'.providerAcceptedAt == (if Target(op) == ProviderAccepted && d.providerAcceptedAt.None? then Some(DateOf(op))
                                 else d.providerAcceptedAt)
  }

  predicate Effect(a: Aggregate, op: Op, b: Aggregate)
    requires Changes(op)
  {
    if Repeats(a.data, op) then b == a
    else
      && |b.pending| == |a.pending| + (if op.OpQueue? then 2 else 1) && b.pending[..|a.pending|] == a.pending
      && ToldBy(a.data, op, b.data, b.pending[|a.pending|]) && Stores(a.data, op, b.data)
      && (op.OpQueue? ==> RequestOf(b.data, b.pending[|a.pending| + 1]))
  }

  lemma FailuresTellTheirEffect(a: Aggregate, op: Op)
    requires Coherent(a.data) && FaultOf(op).Some? && Perform(a, op).Success?
    ensures Effect(a, op, Perform(a, op).value)
  {
  }

  lemma FactsTellTheirEffect(a: Aggregate, op: Op)
    requires Coherent(a.data) && op.OpApplyFact? && Perform(a, op).Success?
    ensures Effect(a, op, Perform(a, op).value)
  {
  }

  lemma OthersTellTheirEffect(a: Aggregate, op: Op)
    requires Coherent(a.data) && Changes(op) && !op.OpApplyFact? && FaultOf(op).None? && Perform(a, op).Success?
    ensures Effect(a, op, Perform(a, op).value)
  {
  }

  /** Every accepted operation leaves the message alone or changes and tells exactly this. */
  lemma OperationsTellTheirEffect(a: Aggregate, op: Op)
    requires Coherent(a.data) && Changes(op) && Perform(a, op).Success?
    ensures Effect(a, op, Perform(a, op).value)
  {
    if FaultOf(op).Some? {
      FailuresTellTheirEffect(a, op);
    } else if op.OpApplyFact? {
      FactsTellTheirEffect(a, op);
    } else {
      OthersTellTheirEffect(a, op);
    }
  }

  // ----- the events of a run rebuild the message

  /** What a reader of the events alone makes of the next one. */
  function Replayed(d: Snapshot, e: Event): Snapshot {
    if e.kind != StatusChanged then d
    else
      d.(status := e.to, updatedAt := e.occurredAt, latestSequence := e.sequence, generation := e.generation,
         attemptCount := e.attemptNumber, nextAttemptAt := None,
         lastFault := if e.fault.Some? then e.fault else if Observed(e.to) then None else d.lastFault,
         providerMessageId := if d.providerMessageId == "" then e.providerMessageId else d.providerMessageId,
         providerAcceptedAt := if e.to == ProviderAccepted && d.providerAcceptedAt.None? then Some(e.occurredAt)
                               else d.providerAcceptedAt)
  }

  function Replay(d: Snapshot, events: seq<Event>): Snapshot
    decreases |events|
  {
    if events == [] then d else Replay(Replayed(d, events[0]), events[1..])
  }

  /** The retry time is the one column that no event carries. */
  function Told(d: Snapshot): Snapshot {
    d.(nextAttemptAt := None)
  }

  lemma {:induction false} ReplayConcat(d: Snapshot, xs: seq<Event>, ys: seq<Event>)
    ensures Replay(d, xs + ys) == Replay(Replay(d, xs), ys)
    decreases |xs|
  {
    if xs == [] {
      assert xs + ys == ys;
    } else {
      assert (xs + ys)[1..] == xs[1..] + ys;
      ReplayConcat(Replayed(d, xs[0]), xs[1..], ys);
    }
  }

  lemma {:induction false} ReplayForgetsRetryTime(d: Snapshot, d': Snapshot, events: seq<Event>)
    requires Told(d) == Told(d')
    ensures Told(Replay(d, events)) == Told(Replay(d', events))
    decreases |events|
  {
    if events == [] {
    } else {
      ReplayForgetsRetryTime(Replayed(d, events[0]), Replayed(d', events[0]), events[1..]);
    }
  }

  lemma ToldIsReplayed(d: Snapshot, op: Op, d': Snapshot, e: Event)
    requires Changes(op) && ToldBy(d, op, d', e) && Stores(d, op, d')
    ensures Told(Replayed(d, e)) == Told(d')
  {
  }

  lemma TwoAreReplayed(d: Snapshot, e: Event, request: Event)
    requires request.kind == DispatchRequested
    ensures Replay(d, [e]) == Replayed(d, e) && Replay(d, [e, request]) == Replayed(d, e)
  {
    assert [e][1..] == [] && [e, request][1..] == [request] && [request][1..] == [];
  }

  lemma EffectIsReplayed(a: Aggregate, op: Op, b: Aggregate)
    requires Changes(op) && Effect(a, op, b)
    ensures |a.pending| <= |b.pending| && Told(Replay(a.data, b.pending[|a.pending|..])) == Told(b.data)
  {
    var n, events := |a.pending|, b.pending[|a.pending|..];
    if Repeats(a.data, op) {
      assert events == [];
    } else {
      ToldIsReplayed(a.data, op, b.data, b.pending[n]);
      var request := b.pending[n].(kind := DispatchRequested);
      if op.OpQueue? {
        request := b.pending[n + 1];
        assert events == [b.pending[n], request];
      } else {
        assert events == [b.pending[n]];
      }
      TwoAreReplayed(a.data, b.pending[n], request);
    }
  }

  lemma StepIsReplayed(a: Aggregate, op: Op)
    requires Coherent(a.data)
    ensures Told(Replay(a.data, NewEvents(a, op))) == Told(Next(a, op).data)
  {
    if Changes(op) && Perform(a, op).Success? {
      OperationsTellTheirEffect(a, op);
      EffectIsReplayed(a, op, Perform(a, op).value);
    } else {
      assert NewEvents(a, op) == [];
    }
  }

  /**
   The event stream is complete: folding the events that any run emits over the first snapshot gives the
   last one, retry time aside, whatever was rejected, pulled or reloaded in between.
   */
  lemma {:induction false} EventsRebuildTheMessage(a: Aggregate, ops: seq<Op>)
    requires Coherent(a.data)
    ensures Told(Replay(a.data, EmittedBy(a, ops))) == Told(Run(a, ops).data)
    decreases |ops|
  {
    if ops == [] {
    } else {
      var b, events := Next(a, ops[0]), NewEvents(a, ops[0]);
      StepKeepsCoherence(a, ops[0]);
      StepIsReplayed(a, ops[0]);
      EventsRebuildTheMessage(b, ops[1..]);
      ReplayConcat(a.data, events, EmittedBy(b, ops[1..]));
      ReplayForgetsRetryTime(Replay(a.data, events), b.data, EmittedBy(b, ops[1..]));
    }
  }
}
