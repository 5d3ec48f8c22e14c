/**
 The lease protocol over every run: any number of relays claim, publish, complete, stall past
 their lease and die, and rows are only changed through the guarded updates. Events are independent
 of one another, so what belongs to one event is kept together: its row, the claims granted so far,
 the tasks still outstanding, and how many publications the broker confirmed.
 */
module OutboxProtocol {
  import opened Common
  import opened Outbox

  /** A completion gave the lease back, with the delay drawn; a retry says from when on the event is available again. */
  datatype Return = Return(at: Time, delay: int, available: Option<Time>)

  /** One claim: its lease ran from `from` to `until`, unless it was given back. */
  datatype Grant = Grant(token: string, from: Time, until: Time, released: Option<Return>)

  function End(g: Grant): Time {
    if g.released.Some? then g.released.value.at else g.until
  }

  /** A relay's work on one claimed event; since is when its last step was known to have happened. */
  datatype Task =
    | Leased(attempt: nat, since: Time)
    | Acked(attempt: nat, since: Time)
    | Refused(attempt: nat, since: Time, failure: PublishFailure)

  /** failure is what the last completion that went through reported, if it was not a publication. */
  datatype Slot = Slot(
    row: OutboxRow,
    grants: seq<Grant>,
    tasks: map<string, Task>,
    confirmed: nat,
    failure: Option<PublishFailure>)

  function NewSlot(at: Time): Slot {
    Slot(NewRow(at), [], map[], 0, None)
  }

  // ----- steps on one event

  function ClaimSlot(s: Slot, token: string, now: Time, duration: int, clock: Time): Slot {
    var row := ClaimRow(s.row, token, now, duration);
    Slot(row, s.grants + [Grant(token, now, row.lease.value.until, None)],
         s.tasks[token := Leased(s.row.attemptCount + 1, clock)], s.confirmed, s.failure)
  }

  /** None: the broker confirmed the publication. */
  function PublishSlot(s: Slot, token: string, failure: Option<PublishFailure>, clock: Time): Slot
    requires token in s.tasks
  {
    var attempt := s.tasks[token].attempt;
    match failure
    case None => s.(tasks := s.tasks[token := Acked(attempt, clock)], confirmed := s.confirmed + 1)
    case Some(f) => s.(tasks := s.tasks[token := Refused(attempt, clock, f)])
  }

  function Release(grants: seq<Grant>, token: string, r: Return): (released: seq<Grant>)
    ensures |released| == |grants|
    ensures forall i :: 0 <= i < |grants| ==>
              released[i] == if grants[i].token == token then grants[i].(released := Some(r)) else grants[i]
  {
    seq(|grants|, i requires 0 <= i < |grants| =>
      if grants[i].token == token then grants[i].(released := Some(r)) else grants[i])
  }

  function FailureOf(t: Task): Option<PublishFailure> {
    if t.Refused? then Some(t.failure) else None
  }

  function ReturnOf(row: OutboxRow, now: Time, delay: int): Return {
    Return(now, delay, if row.status == Pending then Some(row.availableAt) else None)
  }

  /** The delay was in range, and the event is available again when its whole milliseconds have passed. */
  predicate Waits(r: Return) {
    && 0 <= r.delay <= DAY
    && r.available == Some(r.at + r.delay - r.delay % MILLISECOND)
  }

  /** The task ends; if the fence lets its completion through, the row changes and the lease is given back. */
  function CompleteSlot(s: Slot, token: string, now: Time, delay: int, maxAttempts: nat): Slot
    requires token in s.tasks
  {
    var t := s.tasks[token];
    match Complete(s.row, token, t.attempt, Decide(FailureOf(t), t.attempt, maxAttempts, delay), now)
    case None => s.(tasks := s.tasks - {token})
    case Some(row) =>
      Slot(row, Release(s.grants, token, ReturnOf(row, now, delay)), s.tasks - {token}, s.confirmed, FailureOf(t))
  }

  // ----- the invariant of one event

  function Released(grants: seq<Grant>): nat {
    if grants == [] then 0
    else Released(grants[..|grants| - 1]) + (if grants[|grants| - 1].released.Some? then 1 else 0)
  }

  predicate GrantOk(g: Grant, clock: Time, tokens: set<string>) {
    && g.token in tokens && g.from < g.until && g.from <= clock
    && (g.released.Some? ==> g.from <= g.released.value.at <= clock)
  }

  /** The later grant begins when the earlier one has ended and, if that was a retry, when the event is available. */
  predicate Precedes(g: Grant, g': Grant) {
    && g.token != g'.token && End(g) <= g'.from
    && (g.released.Some? ==> Waits(g.released.value) && g.released.value.available.value <= g'.from)
  }

  predicate InOrder(grants: seq<Grant>) {
    forall i, j :: 0 <= i < j < |grants| ==> Precedes(grants[i], grants[j])
  }

  /** The row's lease is the last grant, unless that one was given back. */
  predicate LeaseOk(row: OutboxRow, grants: seq<Grant>) {
    match row.lease
    case Some(l) =>
      && row.status == Pending && |grants| > 0 && row.availableAt <= grants[|grants| - 1].from
      && grants[|grants| - 1] == Grant(l.owner, grants[|grants| - 1].from, l.until, None)
    case None =>
      |grants| > 0 ==>
        && grants[|grants| - 1].released.Some?
        && var r := grants[|grants| - 1].released.value;
           && r == ReturnOf(row, r.at, r.delay)
           && (row.status == Pending ==> Waits(r))
           && (row.status == Published ==> row.publishedAt == Some(r.at))
  }

  /** An outstanding task belongs to an open grant, and counts from the row if that grant is the last. */
  predicate TaskOk(s: Slot, token: string, clock: Time, maxAttempts: nat, i: nat)
    requires token in s.tasks
  {
    var t := s.tasks[token];
    && i < |s.grants| && s.grants[i].token == token && s.grants[i].released.None?
    && s.grants[i].from <= t.since <= clock
    && 0 < t.attempt <= maxAttempts
    && (i == |s.grants| - 1 ==> t.attempt == s.row.attemptCount + 1)
    && (t.Acked? ==> s.confirmed > 0)
  }

  ghost predicate TasksOk(s: Slot, clock: Time, maxAttempts: nat) {
    forall token :: token in s.tasks ==> exists i :: TaskOk(s, token, clock, maxAttempts, i)
  }

  function CodeOf(f: Option<PublishFailure>): Option<string> {
    if f.Some? then Some(f.value.code) else None
  }

  /**
   Where an event can be: waiting with budget left, after retryable failures only; published, with a
   confirmation; or dead-lettered, because its last failure was final or its budget is spent.
   */
  predicate FateOk(s: Slot, maxAttempts: nat) {
    && s.row.attemptCount == Released(s.grants) <= maxAttempts
    && (s.row.status == Published <==> s.row.publishedAt.Some?)
    && match s.row.status
       case Pending =>
         && s.row.attemptCount < maxAttempts
         && (s.row.attemptCount > 0 <==> s.failure.Some?) && (s.failure.Some? ==> s.failure.value.retryable)
         && s.row.lastError == CodeOf(s.failure)
       case Published => s.confirmed > 0 && s.failure.None? && s.row.lastError.None?
       case DeadLettered =>
         && s.failure.Some? && s.row.lastError == Some(s.failure.value.code)
         && (!s.failure.value.retryable || s.row.attemptCount == maxAttempts)
  }

  ghost predicate SlotOk(s: Slot, clock: Time, tokens: set<string>, maxAttempts: nat) {
    && FateOk(s, maxAttempts) && LeaseOk(s.row, s.grants) && InOrder(s.grants) && TasksOk(s, clock, maxAttempts)
    && (forall i :: 0 <= i < |s.grants| ==> GrantOk(s.grants[i], clock, tokens))
  }

  lemma NewSlotOk(at: Time, clock: Time, tokens: set<string>, maxAttempts: nat)
    requires maxAttempts > 0
    ensures SlotOk(NewSlot(at), clock, tokens, maxAttempts)
  {
  }

  lemma SlotStaysOk(s: Slot, clock: Time, clock': Time, tokens: set<string>, tokens': set<string>, maxAttempts: nat)
    requires SlotOk(s, clock, tokens, maxAttempts) && clock <= clock' && tokens <= tokens'
    ensures SlotOk(s, clock', tokens', maxAttempts)
  {
    forall token | token in s.tasks ensures exists i :: TaskOk(s, token, clock', maxAttempts, i) {
      var i :| TaskOk(s, token, clock, maxAttempts, i);
      assert TaskOk(s, token, clock', maxAttempts, i);
    }
  }

  // ----- claim

  predicate ValidLease(duration: int) {
    MIN_LEASE <= duration <= MAX_LEASE
  }

  lemma LeaseIsPositive(duration: int)
    requires ValidLease(duration)
    ensures WholeMillis(duration) >= SECOND
  {
    assert duration / MILLISECOND >= SECOND / MILLISECOND;
  }

  lemma NextBegins(grants: seq<Grant>, g: Grant, i: nat)
    requires InOrder(grants) && i < |grants| && grants[i].token != g.token
    requires Precedes(grants[|grants| - 1], g) && grants[|grants| - 1].from <= End(grants[|grants| - 1])
    ensures Precedes(grants[i], g)
  {
    if i < |grants| - 1 {
      assert Precedes(grants[i], grants[|grants| - 1]);
    }
  }

  lemma GrantsGrow(grants: seq<Grant>, g: Grant)
    requires InOrder(grants)
    requires forall i :: 0 <= i < |grants| ==> grants[i].token != g.token
    requires |grants| > 0 ==>
               Precedes(grants[|grants| - 1], g) && grants[|grants| - 1].from <= End(grants[|grants| - 1])
    ensures InOrder(grants + [g])
    ensures Released(grants + [g]) == Released(grants) + (if g.released.Some? then 1 else 0)
  {
    var grants' := grants + [g];
    ReleasedSnoc(grants, g);
    forall i, j | 0 <= i < j < |grants'| ensures Precedes(grants'[i], grants'[j]) {
      if j < |grants| {
        assert Precedes(grants[i], grants[j]);
      } else {
        NextBegins(grants, g, i);
      }
    }
  }

  lemma ClaimKeeps(s: Slot, token: string, now: Time, duration: int, clock: Time, tokens: set<string>, maxAttempts: nat)
    requires SlotOk(s, clock, tokens, maxAttempts) && Claimable(s.row, now) && now <= clock
    requires token !in tokens && ValidLease(duration)
    ensures SlotOk(ClaimSlot(s, token, now, duration, clock), clock, tokens + {token}, maxAttempts)
  {
    LeaseIsPositive(duration);
    var s' := ClaimSlot(s, token, now, duration, clock);
    var g := s'.grants[|s.grants|];
    forall i | 0 <= i < |s.grants| ensures s.grants[i].token != token {
      assert GrantOk(s.grants[i], clock, tokens);
    }
    GrantsGrow(s.grants, g);
    forall t | t in s'.tasks ensures exists i :: TaskOk(s', t, clock, maxAttempts, i) {
      if t == token {
        assert TaskOk(s', t, clock, maxAttempts, |s.grants|);
      } else {
        var i :| TaskOk(s, t, clock, maxAttempts, i);
        assert TaskOk(s', t, clock, maxAttempts, i);
      }
    }
  }

  // ----- publish

  lemma PublishKeeps(s: Slot, token: string, failure: Option<PublishFailure>, clock: Time, tokens: set<string>,
                     maxAttempts: nat)
    requires SlotOk(s, clock, tokens, maxAttempts) && token in s.tasks
    ensures SlotOk(PublishSlot(s, token, failure, clock), clock, tokens, maxAttempts)
  {
    var s' := PublishSlot(s, token, failure, clock);
    forall t | t in s'.tasks ensures exists i :: TaskOk(s', t, clock, maxAttempts, i) {
      var i :| TaskOk(s, t, clock, maxAttempts, i);
      assert TaskOk(s', t, clock, maxAttempts, i);
    }
  }

  // ----- completion

  lemma TokensNameGrants(grants: seq<Grant>, i: nat, j: nat)
    requires InOrder(grants) && i < |grants| && j < |grants|
    ensures grants[i].token == grants[j].token <==> i == j
  {
    if i < j {
      assert Precedes(grants[i], grants[j]);
    } else if j < i {
      assert Precedes(grants[j], grants[i]);
    }
  }

  /** For an outstanding task the fence holds exactly when its claim is the most recent one of the event. */
  lemma FenceIsLatestClaim(s: Slot, token: string, clock: Time, tokens: set<string>, maxAttempts: nat)
    requires SlotOk(s, clock, tokens, maxAttempts) && token in s.tasks
    ensures |s.grants| > 0
    ensures Fenced(s.row, token, s.tasks[token].attempt) <==> s.grants[|s.grants| - 1].token == token
  {
    var i :| TaskOk(s, token, clock, maxAttempts, i);
    TokensNameGrants(s.grants, i, |s.grants| - 1);
  }

  lemma ReleasedSnoc(grants: seq<Grant>, g: Grant)
    ensures Released(grants + [g]) == Released(grants) + (if g.released.Some? then 1 else 0)
  {
    assert (grants + [g])[..|grants|] == grants;
  }

  /** Giving back the last, open grant touches no other. */
  lemma LastIsReturned(init: seq<Grant>, last: Grant, r: Return)
    requires InOrder(init + [last]) && last.released.None?
    ensures Release(init + [last], last.token, r) == init + [last.(released := Some(r))]
    ensures Released(init + [last.(released := Some(r))]) == Released(init + [last]) + 1
  {
    var grants, n := init + [last], |init|;
    forall i | 0 <= i < n ensures grants[i] == init[i] && init[i].token != last.token {
      assert Precedes(grants[i], grants[n]);
    }
    ReleasedSnoc(init, last);
    ReleasedSnoc(init, last.(released := Some(r)));
  }

  lemma LastIsReleased(grants: seq<Grant>, token: string, r: Return)
    requires InOrder(grants) && |grants| > 0
    requires grants[|grants| - 1].token == token && grants[|grants| - 1].released.None?
    ensures var n := |grants| - 1;
            && Release(grants, token, r) == grants[..n] + [grants[n].(released := Some(r))]
            && Released(Release(grants, token, r)) == Released(grants) + 1
  {
    var init, last := grants[..|grants| - 1], grants[|grants| - 1];
    var whole := init + [last];
    assert whole == grants;
    LastIsReturned(init, last, r);
  }

  lemma CompletionKeepsOrder(grants: seq<Grant>, token: string, r: Return)
    requires InOrder(grants) && |grants| > 0
    requires grants[|grants| - 1].token == token && grants[|grants| - 1].released.None?
    ensures InOrder(Release(grants, token, r))
  {
    LastIsReleased(grants, token, r);
    var grants' := Release(grants, token, r);
    forall i, j | 0 <= i < j < |grants'| ensures Precedes(grants'[i], grants'[j]) {
      assert Precedes(grants[i], grants[j]);
    }
  }

  lemma OtherTasksStay(s: Slot, s': Slot, token: string, r: Return, clock: Time, maxAttempts: nat)
    requires TasksOk(s, clock, maxAttempts) && InOrder(s.grants) && |s.grants| > 0
    requires s.grants[|s.grants| - 1].token == token && s.grants[|s.grants| - 1].released.None?
    requires s'.grants == Release(s.grants, token, r) && s'.tasks == s.tasks - {token} && s'.confirmed == s.confirmed
    ensures TasksOk(s', clock, maxAttempts)
  {
    forall t | t in s'.tasks ensures exists i :: TaskOk(s', t, clock, maxAttempts, i) {
      var i :| TaskOk(s, t, clock, maxAttempts, i);
      assert TaskOk(s', t, clock, maxAttempts, i);
    }
  }

  lemma TaskEnds(s: Slot, token: string, clock: Time, tokens: set<string>, maxAttempts: nat)
    requires SlotOk(s, clock, tokens, maxAttempts)
    ensures SlotOk(s.(tasks := s.tasks - {token}), clock, tokens, maxAttempts)
  {
    var s' := s.(tasks := s.tasks - {token});
    forall t | t in s'.tasks ensures exists i :: TaskOk(s', t, clock, maxAttempts, i) {
      var i :| TaskOk(s, t, clock, maxAttempts, i);
      assert TaskOk(s', t, clock, maxAttempts, i);
    }
  }

  /** The row and its history after a completion went through, apart from the grants. */
  predicate Settles(s: Slot, s': Slot, now: Time, delay: int, maxAttempts: nat) {
    && s'.row.lease.None? && s'.confirmed == s.confirmed
    && s'.row.attemptCount == s.row.attemptCount + 1 <= maxAttempts
    && (s'.row.status == Published <==> s'.row.publishedAt.Some?)
    && match s'.row.status
       case Pending =>
         && Waits(ReturnOf(s'.row, now, delay)) && s'.row.attemptCount < maxAttempts
         && s'.failure.Some? && s'.failure.value.retryable && s'.row.lastError == CodeOf(s'.failure)
       case Published =>
         s.confirmed > 0 && s'.failure.None? && s'.row.lastError.None? && s'.row.publishedAt == Some(now)
       case DeadLettered =>
         && s'.failure.Some? && s'.row.lastError == Some(s'.failure.value.code)
         && (!s'.failure.value.retryable || s'.row.attemptCount == maxAttempts)
  }

  lemma WholeMillisTruncates(d: int)
    requires d >= 0
    ensures WholeMillis(d) == d - d % MILLISECOND
  {
  }

  lemma CompletionSettles(s: Slot, token: string, now: Time, delay: int, maxAttempts: nat)
    requires FateOk(s, maxAttempts) && token in s.tasks
    requires var t := s.tasks[token];
             && !t.Leased? && t.attempt <= maxAttempts && (t.Acked? ==> s.confirmed > 0)
             && Complete(s.row, token, t.attempt, Decide(FailureOf(t), t.attempt, maxAttempts, delay), now).Some?
    ensures Settles(s, CompleteSlot(s, token, now, delay, maxAttempts), now, delay, maxAttempts)
  {
    if delay >= 0 {
      WholeMillisTruncates(delay);
    }
  }

  lemma ReleaseKeeps(s: Slot, s': Slot, token: string, now: Time, delay: int, clock: Time, tokens: set<string>,
                     maxAttempts: nat)
    requires SlotOk(s, clock, tokens, maxAttempts) && |s.grants| > 0
    requires var last := s.grants[|s.grants| - 1];
             last.token == token && last.released.None? && last.from <= now <= clock
    requires Settles(s, s', now, delay, maxAttempts)
    requires s'.grants == Release(s.grants, token, ReturnOf(s'.row, now, delay)) && s'.tasks == s.tasks - {token}
    ensures SlotOk(s', clock, tokens, maxAttempts)
  {
    var r := ReturnOf(s'.row, now, delay);
    LastIsReleased(s.grants, token, r);
    CompletionKeepsOrder(s.grants, token, r);
    OtherTasksStay(s, s', token, r, clock, maxAttempts);
    forall i | 0 <= i < |s'.grants| ensures GrantOk(s'.grants[i], clock, tokens) {
      assert GrantOk(s.grants[i], clock, tokens);
    }
  }

  lemma CompleteKeeps(s: Slot, token: string, now: Time, delay: int, clock: Time, tokens: set<string>, maxAttempts: nat)
    requires SlotOk(s, clock, tokens, maxAttempts) && token in s.tasks && !s.tasks[token].Leased?
    requires s.tasks[token].since <= now <= clock
    ensures SlotOk(CompleteSlot(s, token, now, delay, maxAttempts), clock, tokens, maxAttempts)
  {
    var t := s.tasks[token];
    if Complete(s.row, token, t.attempt, Decide(FailureOf(t), t.attempt, maxAttempts, delay), now).None? {
      TaskEnds(s, token, clock, tokens, maxAttempts);
    } else {
      FenceIsLatestClaim(s, token, clock, tokens, maxAttempts);
      var i :| TaskOk(s, token, clock, maxAttempts, i);
      TokensNameGrants(s.grants, i, |s.grants| - 1);
      CompletionSettles(s, token, now, delay, maxAttempts);
      ReleaseKeeps(s, CompleteSlot(s, token, now, delay, maxAttempts), token, now, delay, clock, tokens,
                   maxAttempts);
    }
  }
}
