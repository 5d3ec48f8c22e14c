/** What any run leaves alone: committed history, settled messages, and messages whose sender died. */
module DispatchHistory {
  import opened Common
  import opened Statuses
  import opened Store
  import opened Wire
  import opened Worker
  import opened CellSteps
  import opened Dispatch
  import opened DispatchInvariant
  import opened DispatchTheorems

  /** No transaction of the core starts from this state, and no worker holds the message. */
  predicate Frozen(s: System, id: string) {
    && id in s.db && Free(s.workers, id)
    && var status := s.db[id].row.snapshot.status;
       status != Scheduled && status != Queued && status != RetryScheduled
  }

  /** What one step may do to one message: nothing, or one transaction; and nothing at all to a frozen one. */
  predicate Moves(s: System, s': System, id: string)
    requires id in s.db
  {
    && id in s'.db && (s'.db[id] == s.db[id] || Later(s.db[id], s'.db[id]))
    && (Frozen(s, id) ==> s'.db[id] == s.db[id] && Frozen(s', id))
  }

  predicate Writes(step: Step) {
    step.Submit? || step.Schedule? || step.CommitClaim? || step.CommitFinalize?
  }

  lemma QuietMoves(s: System, step: Step, id: string)
    requires Enabled(s, step) && !Writes(step) && id in s.db
    ensures Moves(s, Next(s, step), id)
  {
  }

  lemma SubmitMoves(s: System, q: Request, stamp: Time, id: string)
    requires Enabled(s, Submit(q, stamp)) && id in s.db
    ensures Moves(s, Next(s, Submit(q, stamp)), id)
  {
  }

  lemma BatchAt<E>(db: Db, ids: set<string>, advance: Cell -> Result<Cell, E>, id: string)
    requires id in db && forall x :: x in ids ==> x in db && advance(db[x]).Success?
    ensures id in Batch(db, ids, advance)
    ensures Batch(db, ids, advance)[id] == if id in ids then advance(db[id]).value else db[id]
  {
  }

  lemma ScheduleMoves(s: System, ids: set<string>, stamp: Time, id: string)
    requires Inv(s) && Enabled(s, Schedule(ids, stamp)) && id in s.db
    ensures Moves(s, s.(db := Batch(s.db, ids, Scheduler(stamp))), id)
  {
    DueRowsAdvance(s, ids, stamp);
    BatchAt(s.db, ids, Scheduler(stamp), id);
    if id in ids {
      assert CellOk(id, s.db[id], s.clock);
      ScheduleKeepsCell(id, s.db[id], stamp, s.clock);
      assert Scheduler(stamp)(s.db[id]) == ScheduleCell(s.db[id], stamp);
    }
  }

  /** One message is moved on and one worker changes; a frozen message is not that one. */
  lemma CommitMoves(s: System, moved: string, c': Cell, workers: map<nat, Phase>, id: string)
    requires moved in s.db && Later(s.db[moved], c') && id in s.db
    requires Frozen(s, id) ==> moved != id && Free(workers, id)
    ensures Moves(s, s.(db := s.db[moved := c'], workers := workers), id)
  {
  }

  lemma AfterClaimMoves(s: System, w: nat, cmd: Command, k: ClaimCase, id: string)
    requires id in s.db && cmd.messageId in s.db
    requires k.ClaimExpires? || k.ClaimStarts? ==>
             s.db[cmd.messageId].row.snapshot.status == Queued && Later(s.db[cmd.messageId], k.cell)
    ensures Moves(s, AfterClaim(s, w, cmd, k), id)
  {
    match k
    case ClaimExpires(c') => CommitMoves(s, cmd.messageId, c', s.workers - {w}, id);
    case ClaimStarts(c', a) => CommitMoves(s, cmd.messageId, c', s.workers[w := Claimed(cmd, a)], id);
    case _ =>
  }

  lemma ClaimMoves(s: System, w: nat, attemptId: string, key: string, id: string)
    requires Inv(s) && Enabled(s, CommitClaim(w, attemptId, key)) && id in s.db
    ensures Moves(s, Next(s, CommitClaim(w, attemptId, key)), id)
  {
    var p := s.workers[w];
    assert PhaseOk(s.db, s.clock, p);
    assert CellOk(p.cmd.messageId, s.db[p.cmd.messageId], s.clock);
    var k := ClaimCases(s.db, s.clock, p, attemptId, key);
    ClaimStep(s, w, attemptId, key, k);
    AfterClaimMoves(s, w, p.cmd, k, id);
  }

  lemma FinalizeMoves(s: System, w: nat, delay: int, id: string)
    requires Inv(s) && Enabled(s, CommitFinalize(w, delay)) && id in s.db
    ensures Moves(s, Next(s, CommitFinalize(w, delay)), id)
  {
    var p := s.workers[w];
    assert PhaseOk(s.db, s.clock, p);
    assert CellOk(p.cmd.messageId, s.db[p.cmd.messageId], s.clock);
    var c', _ := FinalizeSucceeds(s.db, s.clock, p, delay);
    CommitMoves(s, p.cmd.messageId, c', s.workers - {w}, id);
  }

  lemma StepMoves(s: System, step: Step, id: string)
    requires Inv(s) && Enabled(s, step) && id in s.db
    ensures Moves(s, Next(s, step), id)
  {
    match step
    case Submit(q, stamp) => SubmitMoves(s, q, stamp, id);
    case Schedule(ids, stamp) => ScheduleMoves(s, ids, stamp, id);
    case CommitClaim(w, attemptId, key) => ClaimMoves(s, w, attemptId, key, id);
    case CommitFinalize(w, delay) => FinalizeMoves(s, w, delay, id);
    case _ => QuietMoves(s, step, id);
  }

  // ----- over whole runs

  /** c' is c some transactions later. */
  predicate Extends(c: Cell, c': Cell) {
    && c'.row.tenantId == c.row.tenantId && c'.row.idempotencyKey == c.row.idempotencyKey
    && c.row.snapshot.version <= c'.row.snapshot.version
    && c.row.snapshot.latestSequence <= c'.row.snapshot.latestSequence
    && c'.row.snapshot.maxAttempts == c.row.snapshot.maxAttempts
    && c'.row.snapshot.dispatchDeadline == c.row.snapshot.dispatchDeadline
    && c.journal <= c'.journal && c.outbox <= c'.outbox && AttemptsExtend(c.attempts, c'.attempts)
  }

  lemma {:induction false} RunMoves(s: System, steps: seq<Step>, id: string)
    requires Inv(s) && Legal(s, steps) && id in s.db
    ensures id in Exec(s, steps).db && Extends(s.db[id], Exec(s, steps).db[id])
    ensures Frozen(s, id) ==> Exec(s, steps).db[id] == s.db[id]
    decreases |steps|
  {
    if steps == [] {
    } else {
      var s1 := Next(s, steps[0]);
      StepMoves(s, steps[0], id);
      StepKeepsInv(s, steps[0]);
      RunMoves(s1, steps[1..], id);
      ExtendsIsTransitive(s.db[id], s1.db[id], Exec(s1, steps[1..]).db[id]);
    }
  }

  lemma ExtendsIsTransitive(a: Cell, b: Cell, c: Cell)
    requires (b == a || Later(a, b)) && Extends(b, c)
    ensures Extends(a, c)
  {
  }

  /**
   Nothing committed is ever withdrawn: journal, outbox and settled attempts of a message are extended
   only, and its tenant, idempotency key, attempt limit and deadline stay. That stale and lost claims do not even extend them is
   GenuineCommandsAreNeverPoison.
   */
  lemma HistoryIsAppendOnly(s: System, t: System, id: string)
    requires Reachable(s) && LeadsTo(s, t) && id in s.db
    ensures id in t.db && Extends(s.db[id], t.db[id])
  {
    ReachableIsOk(s);
    var steps :| Legal(s, steps) && t == Exec(s, steps);
    RunMoves(s, steps, id);
  }

  lemma FrozenMessagesStay(s: System, t: System, id: string)
    requires Inv(s) && LeadsTo(s, t) && Frozen(s, id)
    ensures id in t.db && t.db[id] == s.db[id]
  {
    var steps :| Legal(s, steps) && t == Exec(s, steps);
    RunMoves(s, steps, id);
  }

  /**
   Once the provider accepted or may have accepted the mail, or the message failed, died or expired,
   no run of the core touches its tables again.
   */
  lemma SettledMessagesStay(s: System, t: System, id: string)
    requires Reachable(s) && LeadsTo(s, t) && id in s.db
    requires var status := s.db[id].row.snapshot.status;
             status != Scheduled && status != Queued && status != RetryScheduled && status != Sending
    ensures id in t.db && t.db[id] == s.db[id]
  {
    ReachableIsOk(s);
    FreeUnlessSending(s.db, s.clock, s.workers, id);
    FrozenMessagesStay(s, t, id);
  }

  /** The price of at-most-once: a message whose worker died while sending is never moved again. */
  lemma AbandonedMessagesStay(s: System, t: System, id: string)
    requires Reachable(s) && LeadsTo(s, t) && id in s.db
    requires s.db[id].row.snapshot.status == Sending && Free(s.workers, id)
    ensures id in t.db && t.db[id] == s.db[id]
  {
    ReachableIsOk(s);
    FrozenMessagesStay(s, t, id);
  }

  /** At any time after a key was taken, submitting under it again changes nothing. */
  lemma ResubmissionChangesNothing(s: System, t: System, q: Request, stamp: Time)
    requires Reachable(s) && LeadsTo(s, t)
    requires KeyTaken(s.db, q.tenantId, q.idempotencyKey) && Enabled(t, Submit(q, stamp))
    ensures Next(t, Submit(q, stamp)).db == t.db
  {
    var id :| id in s.db && HoldsKey(s.db, id, q.tenantId, q.idempotencyKey);
    HistoryIsAppendOnly(s, t, id);
    assert HoldsKey(t.db, id, q.tenantId, q.idempotencyKey);
  }

  /** Two messages never share a tenant and an idempotency key. */
  lemma OneMessagePerKey(t: System, id: string, id': string)
    requires Reachable(t) && id in t.db && id' in t.db
    requires t.db[id].row.tenantId == t.db[id'].row.tenantId
    requires t.db[id].row.idempotencyKey == t.db[id'].row.idempotencyKey
    ensures id == id'
  {
    ReachableIsOk(t);
  }

  predicate SameKey(db: Db, id: string, id': string) {
    && id in db && id' in db
    && db[id].row.tenantId == db[id'].row.tenantId && db[id].row.idempotencyKey == db[id'].row.idempotencyKey
  }

  /** What a client relies on: one mail at most is ever accepted under a tenant's idempotency key. */
  lemma OneMailPerKey(t: System, i: nat, j: nat)
    requires Reachable(t) && i < |t.accepted| && j < |t.accepted| && SameKey(t.db, t.accepted[i], t.accepted[j])
    ensures i == j
  {
    AtMostOnceAcceptance(t);
    OneMessagePerKey(t, t.accepted[i], t.accepted[j]);
  }
}
