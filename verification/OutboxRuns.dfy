/** The relays and the outbox as one system, and what holds on all its runs. */
module OutboxRuns {
  import opened Common
  import opened EventMapping
  import opened Outbox
  import opened OutboxProtocol

  /** maxAttempts is the relays' configured budget; tokens are all lease tokens ever drawn. */
  datatype Relays = Relays(maxAttempts: nat, clock: Time, tokens: set<string>, slots: map<EventId, Slot>)

  datatype Step =
    | Tick(to: Time)
    | Append(id: EventId, stamp: Time)
    | Claim(ids: set<EventId>, token: string, stamp: Time, duration: int)
    | Publish(id: EventId, token: string, failure: Option<PublishFailure>)
    | Finish(id: EventId, token: string, stamp: Time, delay: int)
    | Abandon(id: EventId, token: string)

  predicate Enabled(s: Relays, step: Step) {
    match step
    case Tick(to) => s.clock <= to
    case Append(id, stamp) => id !in s.slots && stamp <= s.clock
    case Claim(ids, token, stamp, duration) =>
      && token !in s.tokens && ValidLease(duration) && stamp <= s.clock
      && forall id :: id in ids ==> id in s.slots && Claimable(s.slots[id].row, stamp)
    case Publish(id, token, _) => id in s.slots && token in s.slots[id].tasks && s.slots[id].tasks[token].Leased?
    case Finish(id, token, stamp, _) =>
      && id in s.slots && token in s.slots[id].tasks && !s.slots[id].tasks[token].Leased?
      && s.slots[id].tasks[token].since <= stamp <= s.clock
    case Abandon(id, token) => id in s.slots && token in s.slots[id].tasks
  }

  /** What the step does to one event. */
  function Moved(s: Relays, step: Step, id: EventId): Slot
    requires Enabled(s, step) && id in s.slots
  {
    var slot := s.slots[id];
    match step
    case Claim(ids, token, stamp, duration) => if id in ids then ClaimSlot(slot, token, stamp, duration, s.clock) else slot
    case Publish(other, token, failure) => if id == other then PublishSlot(slot, token, failure, s.clock) else slot
    case Finish(other, token, stamp, delay) =>
      if id == other then CompleteSlot(slot, token, stamp, delay, s.maxAttempts) else slot
    case Abandon(other, token) => if id == other then slot.(tasks := slot.tasks - {token}) else slot
    case _ => slot
  }

  function Next(s: Relays, step: Step): Relays
    requires Enabled(s, step)
  {
    var slots := map id | id in s.slots :: Moved(s, step, id);
    match step
    case Tick(to) => s.(clock := to)
    case Append(id, stamp) => s.(slots := s.slots[id := NewSlot(stamp)])
    case Claim(_, token, _, _) => s.(tokens := s.tokens + {token}, slots := slots)
    case _ => s.(slots := slots)
  }

  predicate Legal(s: Relays, steps: seq<Step>)
    decreases |steps|
  {
    steps != [] ==> Enabled(s, steps[0]) && Legal(Next(s, steps[0]), steps[1..])
  }

  function Exec(s: Relays, steps: seq<Step>): Relays
    requires Legal(s, steps)
    decreases |steps|
  {
    if steps == [] then s else Exec(Next(s, steps[0]), steps[1..])
  }

  ghost predicate LeadsTo(s: Relays, t: Relays) {
    exists steps :: Legal(s, steps) && t == Exec(s, steps)
  }

  /** The states of all runs that begin with an empty outbox. */
  ghost predicate Reachable(t: Relays) {
    exists s: Relays :: s.maxAttempts > 0 && s.slots == map[] && LeadsTo(s, t)
  }

  // ----- the invariant

  ghost predicate Inv(s: Relays) {
    && s.maxAttempts > 0
    && forall id {:trigger s.slots[id]} :: id in s.slots ==> SlotOk(s.slots[id], s.clock, s.tokens, s.maxAttempts)
  }

  lemma MovedKeeps(s: Relays, step: Step, id: EventId)
    requires Inv(s) && Enabled(s, step) && id in s.slots
    ensures SlotOk(Moved(s, step, id), Next(s, step).clock, Next(s, step).tokens, s.maxAttempts)
  {
    var slot, s' := s.slots[id], Next(s, step);
    match step
    case Claim(ids, token, stamp, duration) =>
      if id in ids {
        ClaimKeeps(slot, token, stamp, duration, s.clock, s.tokens, s.maxAttempts);
      } else {
        SlotStaysOk(slot, s.clock, s'.clock, s.tokens, s'.tokens, s.maxAttempts);
      }
    case Publish(other, token, failure) =>
      if id == other {
        PublishKeeps(slot, token, failure, s.clock, s.tokens, s.maxAttempts);
      }
    case Finish(other, token, stamp, delay) =>
      if id == other {
        CompleteKeeps(slot, token, stamp, delay, s.clock, s.tokens, s.maxAttempts);
      }
    case Abandon(other, token) => TaskEnds(slot, token, s.clock, s.tokens, s.maxAttempts);
    case _ => SlotStaysOk(slot, s.clock, s'.clock, s.tokens, s'.tokens, s.maxAttempts);
  }

  /** A step leaves every event but a newly appended one where Moved says. */
  lemma NextAt(s: Relays, step: Step, id: EventId)
    requires Enabled(s, step) && id in s.slots
    ensures id in Next(s, step).slots && Next(s, step).slots[id] == Moved(s, step, id)
  {
  }

  lemma StepKeepsInv(s: Relays, step: Step)
    requires Inv(s) && Enabled(s, step)
    ensures Inv(Next(s, step))
  {
    var s' := Next(s, step);
    forall id | id in s'.slots ensures SlotOk(s'.slots[id], s'.clock, s'.tokens, s'.maxAttempts) {
      if id in s.slots {
        NextAt(s, step, id);
        MovedKeeps(s, step, id);
      } else {
        NewSlotOk(step.stamp, s'.clock, s'.tokens, s.maxAttempts);
      }
    }
  }

  lemma {:induction false} RunKeepsInv(s: Relays, steps: seq<Step>)
    requires Inv(s) && Legal(s, steps)
    ensures Inv(Exec(s, steps))
    decreases |steps|
  {
    if steps == [] {
    } else {
      StepKeepsInv(s, steps[0]);
      RunKeepsInv(Next(s, steps[0]), steps[1..]);
    }
  }

  lemma ReachableIsOk(t: Relays)
    requires Reachable(t)
    ensures Inv(t)
  {
    var s: Relays :| s.maxAttempts > 0 && s.slots == map[] && LeadsTo(s, t);
    var steps :| Legal(s, steps) && t == Exec(s, steps);
    RunKeepsInv(s, steps);
  }

  // ----- runs grow step by step

  lemma {:induction false} ExecSnoc(s: Relays, steps: seq<Step>, step: Step)
    requires Legal(s, steps) && Enabled(Exec(s, steps), step)
    ensures Legal(s, steps + [step]) && Exec(s, steps + [step]) == Next(Exec(s, steps), step)
    decreases |steps|
  {
    if steps == [] {
      assert [step][1..] == [];
    } else {
      ExecSnoc(Next(s, steps[0]), steps[1..], step);
      assert (steps + [step])[1..] == steps[1..] + [step];
    }
  }

  lemma ReachableStep(t: Relays, step: Step)
    requires Reachable(t) && Enabled(t, step)
    ensures Reachable(Next(t, step))
  {
    var s: Relays :| s.maxAttempts > 0 && s.slots == map[] && LeadsTo(s, t);
    var steps :| Legal(s, steps) && t == Exec(s, steps);
    ExecSnoc(s, steps, step);
    assert LeadsTo(s, Next(t, step));
  }

  // ----- fencing

  /** A completion passes the fence exactly when its token is that of the event's most recent claim. */
  lemma OnlyTheLatestClaimCompletes(t: Relays, id: EventId, token: string)
    requires Reachable(t) && id in t.slots && token in t.slots[id].tasks
    ensures var slot := t.slots[id];
            && |slot.grants| > 0
            && (Fenced(slot.row, token, slot.tasks[token].attempt) <==> slot.grants[|slot.grants| - 1].token == token)
  {
    ReachableIsOk(t);
    FenceIsLatestClaim(t.slots[id], token, t.clock, t.tokens, t.maxAttempts);
  }

  /** attempt_count is the number of completions that went through; every other step leaves it alone. */
  lemma AttemptsCountCompletions(t: Relays, id: EventId)
    requires Reachable(t) && id in t.slots
    ensures t.slots[id].row.attemptCount == Released(t.slots[id].grants)
  {
    ReachableIsOk(t);
  }

  lemma CompletionsCountOnce(t: Relays, step: Step, id: EventId)
    requires Enabled(t, step) && id in t.slots
    ensures var row, row' := t.slots[id].row, Next(t, step).slots[id].row;
            row'.attemptCount == row.attemptCount + (if step.Finish? && row' != row then 1 else 0)
  {
    NextAt(t, step, id);
  }

  lemma GrantsInOrder(t: Relays, id: EventId, i: nat, j: nat)
    requires Reachable(t) && id in t.slots && i < j < |t.slots[id].grants|
    ensures Precedes(t.slots[id].grants[i], t.slots[id].grants[j])
  {
    ReachableIsOk(t);
    assert SlotOk(t.slots[id], t.clock, t.tokens, t.maxAttempts);
  }

  /** Effective leases of one event are disjoint in time: whoever holds one now is the only holder. */
  lemma LeasesNeverOverlap(t: Relays, id: EventId, i: nat, j: nat, at: Time)
    requires Reachable(t) && id in t.slots
    requires var grants := t.slots[id].grants;
             && i < |grants| && j < |grants|
             && grants[i].from <= at < End(grants[i]) && grants[j].from <= at < End(grants[j])
    ensures i == j
  {
    if i < j {
      GrantsInOrder(t, id, i, j);
    } else if j < i {
      GrantsInOrder(t, id, j, i);
    }
  }

  /** A fresh token, a lease, and a transaction that began at stamp and runs at now. */
  predicate TakesOver(t: Relays, token: string, duration: int, now: Time, stamp: Time) {
    t.clock <= now && stamp <= now && token !in t.tokens && ValidLease(duration)
  }

  // ----- retries wait

  /** A lease that follows a retry begins no earlier than the whole milliseconds of the drawn delay after it. */
  lemma RetriesWait(t: Relays, id: EventId, i: nat, j: nat)
    requires Reachable(t) && id in t.slots && i < j < |t.slots[id].grants| && t.slots[id].grants[i].released.Some?
    ensures var r := t.slots[id].grants[i].released.value;
            0 <= r.delay <= DAY && r.at + r.delay - r.delay % MILLISECOND <= t.slots[id].grants[j].from
  {
    GrantsInOrder(t, id, i, j);
  }

  /** After a completion that leaves the event pending, it can be claimed exactly when the drawn delay has passed. */
  lemma RetryIsClaimableExactly(t: Relays, id: EventId, token: string, at: Time, delay: int, token': string,
                                duration: int, now: Time, stamp: Time)
    requires Enabled(t, Finish(id, token, at, delay))
    requires var row := Next(t, Finish(id, token, at, delay)).slots[id].row;
             row.status == Pending && row != t.slots[id].row
    requires TakesOver(t, token', duration, now, stamp)
    ensures Enabled(Next(Next(t, Finish(id, token, at, delay)), Tick(now)), Claim({id}, token', stamp, duration))
            <==> at + delay - delay % MILLISECOND <= stamp
  {
    var finish := Finish(id, token, at, delay);
    NextAt(t, finish, id);
    if delay >= 0 {
      WholeMillisTruncates(delay);
    }
  }

  /** While nobody completes it, a claimed event can be claimed again exactly when its lease duration has passed. */
  lemma LeaseLastsItsDuration(t: Relays, ids: set<EventId>, id: EventId, token: string, at: Time, duration: int,
                              token': string, duration': int, now: Time, stamp: Time)
    requires Enabled(t, Claim(ids, token, at, duration)) && id in ids
    requires TakesOver(t, token', duration', now, stamp) && token' != token
    ensures Enabled(Next(Next(t, Claim(ids, token, at, duration)), Tick(now)), Claim({id}, token', stamp, duration'))
            <==> at + duration - duration % MILLISECOND <= stamp
  {
    NextAt(t, Claim(ids, token, at, duration), id);
    WholeMillisTruncates(duration);
  }

  // ----- nominal leases

  /** The lease was given back by a retry that made the event available before the lease would have run out. */
  predicate RetriedEarly(g: Grant) {
    g.released.Some? && g.released.value.available.Some? && g.released.value.available.value < g.until
  }

  /** Nothing but an early retry lets a later lease begin inside the nominal time of an earlier one. */
  lemma OnlyEarlyRetriesOverlap(t: Relays, id: EventId, i: nat, j: nat)
    requires Reachable(t) && id in t.slots && i < j < |t.slots[id].grants|
    requires t.slots[id].grants[j].from < t.slots[id].grants[i].until
    ensures RetriedEarly(t.slots[id].grants[i])
  {
    GrantsInOrder(t, id, i, j);
  }

  /** Time passes until now, and a relay claims the event in a transaction that began at stamp. */
  predicate CanClaim(t: Relays, id: EventId, token: string, duration: int, now: Time, stamp: Time) {
    t.clock <= now && Enabled(Next(t, Tick(now)), Claim({id}, token, stamp, duration))
  }

  /**
   While an event waits after its last lease was given back, the next lease can begin inside the nominal
   time of that one if and only if the retry was early.
   */
  lemma NominalLeasesOverlapExactly(t: Relays, id: EventId, token: string, duration: int)
    requires Reachable(t) && id in t.slots && token !in t.tokens && ValidLease(duration)
    requires var slot := t.slots[id];
             slot.row.status == Pending && slot.row.lease.None? && |slot.grants| > 0
    ensures var last := t.slots[id].grants[|t.slots[id].grants| - 1];
            (exists now, stamp :: CanClaim(t, id, token, duration, now, stamp) && stamp < last.until)
            <==> RetriedEarly(last)
  {
    ReachableIsOk(t);
    var slot := t.slots[id];
    assert SlotOk(slot, t.clock, t.tokens, t.maxAttempts);
    var last := slot.grants[|slot.grants| - 1];
    var at := slot.row.availableAt;
    assert last.released.value.available == Some(at);
    if RetriedEarly(last) {
      var now := if t.clock < at then at else t.clock;
      assert CanClaim(t, id, token, duration, now, at);
    }
  }

  const FLAKY := PublishFailure("PUBLISH_TIMEOUT", true)

  lemma WitnessClaim(id: EventId) returns (t: Relays)
    ensures Reachable(t)
    ensures t == Relays(3, SECOND, {"a"}, map[id := ClaimSlot(NewSlot(0), "a", SECOND, 30 * SECOND, SECOND)])
  {
    var s := Relays(3, SECOND, {}, map[]);
    assert Legal(s, []) && Exec(s, []) == s;
    assert LeadsTo(s, s);
    var appended := Next(s, Append(id, 0));
    ReachableStep(s, Append(id, 0));
    var claim := Claim({id}, "a", SECOND, 30 * SECOND);
    assert appended.slots == map[id := NewSlot(0)];
    t := Next(appended, claim);
    ReachableStep(appended, claim);
    assert Moved(appended, claim, id) == ClaimSlot(NewSlot(0), "a", SECOND, 30 * SECOND, SECOND);
  }

  lemma WitnessRetry(id: EventId) returns (t: Relays)
    ensures Reachable(t) && id in t.slots && t.clock == SECOND && t.tokens == {"a"}
    ensures var slot := t.slots[id];
            && slot.row == OutboxRow(Pending, 1, SECOND, None, Some(FLAKY.code), None)
            && |slot.grants| == 1 && slot.grants[0].until == 31 * SECOND
  {
    var claimed := WitnessClaim(id);
    var refusal, retry := Publish(id, "a", Some(FLAKY)), Finish(id, "a", SECOND, 0);
    var refused := Next(claimed, refusal);
    ReachableStep(claimed, refusal);
    NextAt(claimed, refusal, id);
    t := Next(refused, retry);
    ReachableStep(refused, retry);
    NextAt(refused, retry, id);
  }

  /** One event is claimed for thirty seconds, refused, retried without delay and claimed again a second later. */
  lemma NominalLeasesCanOverlap(id: EventId) returns (t: Relays)
    ensures Reachable(t) && id in t.slots && |t.slots[id].grants| == 2
    ensures t.slots[id].grants[1].from < t.slots[id].grants[0].until
  {
    var retried := WitnessRetry(id);
    var later := Next(retried, Tick(2 * SECOND));
    ReachableStep(retried, Tick(2 * SECOND));
    var claim := Claim({id}, "b", 2 * SECOND, 30 * SECOND);
    assert Claimable(later.slots[id].row, 2 * SECOND);
    t := Next(later, claim);
    ReachableStep(later, claim);
    NextAt(later, claim, id);
  }

  // ----- budget and fate

  /**
   In every reachable state an event is exactly one of: pending with attempts left, after retryable failures
   only; published, with a confirmed publication; or dead-lettered under the code of its last failure, which
   was final or came with the last attempt of the budget.
   */
  lemma EveryEventHasOneFate(t: Relays, id: EventId)
    requires Reachable(t) && id in t.slots
    ensures var slot := t.slots[id];
            var row := slot.row;
            && row.attemptCount <= t.maxAttempts
            && match row.status
               case Pending =>
                 && row.attemptCount < t.maxAttempts && (slot.failure.Some? ==> slot.failure.value.retryable)
                 && row.lastError == CodeOf(slot.failure)
               case Published => slot.confirmed > 0 && row.lastError.None? && row.publishedAt.Some?
               case DeadLettered =>
                 && slot.failure.Some? && row.lastError == Some(slot.failure.value.code)
                 && (!slot.failure.value.retryable || row.attemptCount == t.maxAttempts)
  {
    ReachableIsOk(t);
    assert SlotOk(t.slots[id], t.clock, t.tokens, t.maxAttempts);
  }

  /** Only a completion of a refused publication dead-letters an event, and the refusal was final or the last one allowed. */
  lemma OnlyRefusalsDeadLetter(t: Relays, step: Step, id: EventId)
    requires Reachable(t) && Enabled(t, step) && id in t.slots && t.slots[id].row.status != DeadLettered
    ensures Next(t, step).slots[id].row.status == DeadLettered ==>
            && step.Finish? && step.id == id && t.slots[id].tasks[step.token].Refused?
            && var task := t.slots[id].tasks[step.token];
               !task.failure.retryable || task.attempt == t.maxAttempts
  {
    ReachableIsOk(t);
    NextAt(t, step, id);
    if step.Finish? && step.id == id {
      var i :| TaskOk(t.slots[id], step.token, t.clock, t.maxAttempts, i);
    }
  }

  /**
   A relay that dies with the event's lease changes nothing in the row; another relay can claim the event if
   and only if that lease has run out; and it then makes the very attempt the dead one did not complete.
   */
  lemma CrashesAreTakenOver(t: Relays, id: EventId, token: string, token': string, duration: int, now: Time, stamp: Time)
    requires Reachable(t) && Enabled(t, Abandon(id, token))
    requires t.slots[id].row.lease.Some? && t.slots[id].row.lease.value.owner == token
    requires TakesOver(t, token', duration, now, stamp)
    ensures var dead := Next(t, Abandon(id, token));
            var later := Next(dead, Tick(now));
            && later.slots[id].row == t.slots[id].row
            && (Enabled(later, Claim({id}, token', stamp, duration)) <==> t.slots[id].row.lease.value.until <= stamp)
            && (t.slots[id].row.lease.value.until <= stamp ==>
                  var taken := Next(later, Claim({id}, token', stamp, duration)).slots[id];
                  token' in taken.tasks && taken.tasks[token'].attempt == t.slots[id].tasks[token].attempt)
  {
    ReachableIsOk(t);
    var slot := t.slots[id];
    assert SlotOk(slot, t.clock, t.tokens, t.maxAttempts);
    assert GrantOk(slot.grants[|slot.grants| - 1], t.clock, t.tokens);
    FenceIsLatestClaim(slot, token, t.clock, t.tokens, t.maxAttempts);
    NextAt(t, Abandon(id, token), id);
    var later := Next(Next(t, Abandon(id, token)), Tick(now));
    if slot.row.lease.value.until <= stamp {
      NextAt(later, Claim({id}, token', stamp, duration), id);
    }
  }

  predicate Terminal(row: OutboxRow) {
    row.status == Published || row.status == DeadLettered
  }

  lemma TerminalStep(s: Relays, step: Step, id: EventId)
    requires Enabled(s, step) && id in s.slots && Terminal(s.slots[id].row)
    ensures Moved(s, step, id).row == s.slots[id].row
  {
  }

  lemma {:induction false} RunKeepsRows(s: Relays, steps: seq<Step>, id: EventId)
    requires Legal(s, steps) && id in s.slots
    ensures id in Exec(s, steps).slots
    ensures Terminal(s.slots[id].row) ==> Exec(s, steps).slots[id].row == s.slots[id].row
    decreases |steps|
  {
    if steps == [] {
    } else {
      NextAt(s, steps[0], id);
      if Terminal(s.slots[id].row) {
        TerminalStep(s, steps[0], id);
      }
      RunKeepsRows(Next(s, steps[0]), steps[1..], id);
    }
  }

  /** PUBLISHED and DEAD_LETTERED are never left, and no event disappears. */
  lemma TerminalRowsStay(s: Relays, t: Relays, id: EventId)
    requires LeadsTo(s, t) && id in s.slots
    ensures id in t.slots
    ensures Terminal(s.slots[id].row) ==> t.slots[id].row == s.slots[id].row
  {
    var steps :| Legal(s, steps) && t == Exec(s, steps);
    RunKeepsRows(s, steps, id);
  }
}
