/**
 Retries keep their distance: over every run, an attempt starts no earlier than the end of the one before it plus
 the backoff drawn when that one was finalized; and no message is queued before its time.
 */
module DispatchPacing {
  import opened Common
  import opened Statuses
  import opened Messages
  import opened Providers
  import opened Store
  import opened Worker
  import opened CellSteps
  import opened Dispatch
  import opened DispatchInvariant
  import opened DispatchTheorems
  import opened DispatchHistory
  import opened DispatchRecords

  /** A finalize that scheduled a retry: its timestamp and the backoff drawn for it. */
  datatype Retry = Retry(finishedAt: Time, delay: int)

  /** What a step draws for the message: the timestamp and delay of a finalize that leaves it waiting for a retry. */
  function DrawnBy(s: System, step: Step, id: string): seq<Retry>
    requires Enabled(s, step)
  {
    if step.CommitFinalize? && s.workers[step.worker].cmd.messageId == id
       && id in Next(s, step).db && Next(s, step).db[id].row.snapshot.status == RetryScheduled
    then [Retry(s.workers[step.worker].stamp, step.delay)]
    else []
  }

  /** The retries drawn for the message along a run, in order. */
  function Drawn(s: System, steps: seq<Step>, id: string): seq<Retry>
    requires Legal(s, steps)
    decreases |steps|
  {
    if steps == [] then [] else DrawnBy(s, steps[0], id) + Drawn(Next(s, steps[0]), steps[1..], id)
  }

  predicate AttemptPaced(attempts: seq<Attempt>, log: seq<Retry>, k: nat)
    requires k < |log| <= |attempts|
  {
    && attempts[k].finishedAt == Some(log[k].finishedAt)
    && (k + 1 < |attempts| ==> log[k].finishedAt + log[k].delay <= attempts[k + 1].startedAt)
  }

  /** Where the message stands after its last logged retry. */
  predicate StatusPaced(d: Snapshot, n: nat, log: seq<Retry>) {
    match d.status
    case Scheduled => |log| == n
    case Queued => |log| == n && (n > 0 ==> log[n - 1].finishedAt + log[n - 1].delay <= d.updatedAt)
    case RetryScheduled => |log| == n > 0 && d.nextAttemptAt == Some(log[n - 1].finishedAt + log[n - 1].delay)
    case Sending => |log| + 1 == n
    case _ => |log| <= n <= |log| + 1
  }

  /** Every attempt but the last drew a retry, and the next one kept to it. */
  predicate CellPaced(c: Cell, log: seq<Retry>) {
    && |log| <= |c.attempts|
    && StatusPaced(c.row.snapshot, |c.attempts|, log)
    && forall k :: 0 <= k < |log| ==> AttemptPaced(c.attempts, log, k)
  }

  predicate Paced(db: Db, id: string, log: seq<Retry>) {
    if id in db then CellPaced(db[id], log) else log == []
  }

  // ----- one transaction on the message

  lemma StartIsPaced(c: Cell, c': Cell, attempt: Attempt, log: seq<Retry>)
    requires CellPaced(c, log) && c.row.snapshot.status == Queued && c.row.snapshot.updatedAt <= attempt.startedAt
    requires c'.row.snapshot.status == Sending && c'.attempts == c.attempts + [attempt]
    ensures CellPaced(c', log)
  {
    forall k | 0 <= k < |log| ensures AttemptPaced(c'.attempts, log, k) {
      assert AttemptPaced(c.attempts, log, k);
    }
  }

  lemma FinalizeIsPaced(r: Retry, c: Cell, c': Cell, log: seq<Retry>)
    requires CellPaced(c, log) && c.row.snapshot.status == Sending
    requires |c'.attempts| == |c.attempts| && c'.attempts[..|log|] == c.attempts[..|log|]
    requires c'.attempts[|log|].startedAt == c.attempts[|log|].startedAt
    requires c'.attempts[|log|].finishedAt == Some(r.finishedAt)
    requires var d := c'.row.snapshot;
             && (d.status == RetryScheduled ==> d.nextAttemptAt == Some(r.finishedAt + r.delay))
             && d.status != Sending && d.status != Queued && d.status != Scheduled
    ensures CellPaced(c', log + (if c'.row.snapshot.status == RetryScheduled then [r] else []))
  {
    var log' := log + (if c'.row.snapshot.status == RetryScheduled then [r] else []);
    forall k | 0 <= k < |log'| ensures AttemptPaced(c'.attempts, log', k) {
      if k < |log| {
        assert AttemptPaced(c.attempts, log, k);
        assert c'.attempts[k] == c'.attempts[..|log|][k] == c.attempts[k];
      }
    }
  }

  lemma ScheduleIsPaced(id: string, c: Cell, now: Time, clock: Time, log: seq<Retry>)
    requires CellOk(id, c, clock) && Due(c.row.snapshot, now) && now <= clock && CellPaced(c, log)
    requires ScheduleCell(c, now).Success?
    ensures CellPaced(ScheduleCell(c, now).value, log)
  {
    ScheduleKeepsCell(id, c, now, clock);
    var c' := ScheduleCell(c, now).value;
    assert c.row.snapshot.status == Scheduled ==> |c.attempts| == 0;
    forall k | 0 <= k < |log| ensures AttemptPaced(c'.attempts, log, k) {
      assert AttemptPaced(c.attempts, log, k);
    }
  }

  // ----- every step, every run

  lemma ScheduleStepPaces(s: System, ids: set<string>, stamp: Time, id: string, log: seq<Retry>)
    requires Inv(s) && Enabled(s, Schedule(ids, stamp)) && Paced(s.db, id, log)
    ensures Paced(Batch(s.db, ids, Scheduler(stamp)), id, log)
  {
    DueRowsAdvance(s, ids, stamp);
    if id in s.db {
      BatchAt(s.db, ids, Scheduler(stamp), id);
      if id in ids {
        assert CellOk(id, s.db[id], s.clock);
        assert Scheduler(stamp)(s.db[id]) == ScheduleCell(s.db[id], stamp);
        ScheduleIsPaced(id, s.db[id], stamp, s.clock, log);
      }
    }
  }

  lemma ClaimCasePaces(db: Db, clock: Time, p: Phase, attemptId: string, key: string, k: ClaimCase, log: seq<Retry>)
    requires p.ClaimRead? && ReaderOk(db, clock, p) && ClaimCaseHolds(db, clock, p, attemptId, key, k)
    requires CellPaced(db[p.cmd.messageId], log) && (k.ClaimExpires? || k.ClaimStarts?)
    ensures CellPaced(k.cell, log)
  {
    var c := db[p.cmd.messageId];
    match k
    case ClaimExpires(c') =>
      forall i | 0 <= i < |log| ensures AttemptPaced(c'.attempts, log, i) {
        assert AttemptPaced(c.attempts, log, i);
      }
    case ClaimStarts(c', attempt) => StartIsPaced(c, c', attempt, log);
  }

  lemma AfterClaimPaces(s: System, w: nat, p: Phase, k: ClaimCase, id: string, log: seq<Retry>)
    requires Paced(s.db, id, log) && p.cmd.messageId in s.db
    requires (k.ClaimExpires? || k.ClaimStarts?) && p.cmd.messageId == id ==> CellPaced(k.cell, log)
    ensures Paced(AfterClaim(s, w, p.cmd, k).db, id, log)
  {
  }

  lemma ClaimStepPaces(s: System, w: nat, attemptId: string, key: string, id: string, log: seq<Retry>)
    requires Inv(s) && Enabled(s, CommitClaim(w, attemptId, key)) && Paced(s.db, id, log)
    ensures Paced(Next(s, CommitClaim(w, attemptId, key)).db, id, log)
  {
    var p := s.workers[w];
    assert PhaseOk(s.db, s.clock, p);
    assert CellOk(p.cmd.messageId, s.db[p.cmd.messageId], s.clock);
    var k := ClaimCases(s.db, s.clock, p, attemptId, key);
    ClaimStep(s, w, attemptId, key, k);
    if p.cmd.messageId == id && (k.ClaimExpires? || k.ClaimStarts?) {
      ClaimCasePaces(s.db, s.clock, p, attemptId, key, k, log);
    }
    AfterClaimPaces(s, w, p, k, id, log);
  }

  lemma RecordedIsPaced(result: ProviderResult, r: Retry, c: Cell, c': Cell, log: seq<Retry>)
    requires CellPaced(c, log) && c.row.snapshot.status == Sending && Recorded(result, r.finishedAt, r.delay, c, c')
    ensures CellPaced(c', log + (if c'.row.snapshot.status == RetryScheduled then [r] else []))
  {
    FinalizeIsPaced(r, c, c', log);
  }

  /** What the finalize of one message draws for another: nothing. */
  function DrawnOf(id: string, moved: string, c': Cell, r: Retry): seq<Retry> {
    if moved == id && c'.row.snapshot.status == RetryScheduled then [r] else []
  }

  lemma FinalizedDbPaces(db: Db, moved: string, c': Cell, result: ProviderResult, r: Retry, id: string, log: seq<Retry>)
    requires moved in db && db[moved].row.snapshot.status == Sending
    requires Recorded(result, r.finishedAt, r.delay, db[moved], c') && Paced(db, id, log)
    ensures Paced(db[moved := c'], id, log + DrawnOf(id, moved, c', r))
  {
    if moved == id {
      RecordedIsPaced(result, r, db[id], c', log);
    } else {
      assert log + [] == log;
    }
  }

  lemma FinalizeDraws(s: System, w: nat, delay: int, id: string, c': Cell)
    requires Enabled(s, CommitFinalize(w, delay))
    requires var p := s.workers[w];
             Finalize(s.db, p.read, p.attempt, p.result, p.stamp, delay).0 == s.db[p.cmd.messageId := c']
    ensures var p := s.workers[w];
            && Next(s, CommitFinalize(w, delay)).db == s.db[p.cmd.messageId := c']
            && DrawnBy(s, CommitFinalize(w, delay), id) == DrawnOf(id, p.cmd.messageId, c', Retry(p.stamp, delay))
  {
  }

  lemma FinalizeStepPaces(s: System, w: nat, delay: int, id: string, log: seq<Retry>)
    requires Inv(s) && Enabled(s, CommitFinalize(w, delay)) && Paced(s.db, id, log)
    ensures Paced(Next(s, CommitFinalize(w, delay)).db, id, log + DrawnBy(s, CommitFinalize(w, delay), id))
  {
    var p := s.workers[w];
    assert PhaseOk(s.db, s.clock, p);
    assert CellOk(p.cmd.messageId, s.db[p.cmd.messageId], s.clock);
    var c' := HolderRecords(s.db, s.clock, p, delay);
    FinalizedDbPaces(s.db, p.cmd.messageId, c', p.result, Retry(p.stamp, delay), id, log);
    FinalizeDraws(s, w, delay, id, c');
  }

  lemma SubmitStepPaces(s: System, q: Request, stamp: Time, id: string, log: seq<Retry>)
    requires Enabled(s, Submit(q, stamp)) && Paced(s.db, id, log)
    ensures Paced(Next(s, Submit(q, stamp)).db, id, log)
  {
    if !KeyTaken(s.db, q.tenantId, q.idempotencyKey) && q.messageId !in s.db && NewCell(q, stamp).Success? {
      NewCellOk(q, stamp, s.clock);
    }
  }

  lemma QuietStepPaces(s: System, step: Step, id: string, log: seq<Retry>)
    requires Enabled(s, step) && !Writes(step) && Paced(s.db, id, log)
    ensures Paced(Next(s, step).db, id, log + DrawnBy(s, step, id))
  {
    assert log + [] == log;
  }

  lemma StepPaces(s: System, step: Step, id: string, log: seq<Retry>)
    requires Inv(s) && Enabled(s, step) && Paced(s.db, id, log)
    ensures Paced(Next(s, step).db, id, log + DrawnBy(s, step, id))
  {
    assert log + [] == log;
    match step
    case Submit(q, stamp) => SubmitStepPaces(s, q, stamp, id, log);
    case Schedule(ids, stamp) => ScheduleStepPaces(s, ids, stamp, id, log);
    case CommitClaim(w, attemptId, key) => ClaimStepPaces(s, w, attemptId, key, id, log);
    case CommitFinalize(w, delay) => FinalizeStepPaces(s, w, delay, id, log);
    case _ => QuietStepPaces(s, step, id, log);
  }

  lemma StepKeepsPace(s: System, step: Step, id: string, log: seq<Retry>)
    requires Inv(s) && Enabled(s, step) && Paced(s.db, id, log)
    ensures Inv(Next(s, step)) && Paced(Next(s, step).db, id, log + DrawnBy(s, step, id))
  {
    StepPaces(s, step, id, log);
    StepKeepsInv(s, step);
  }

  lemma DrawnUnfolds(s: System, steps: seq<Step>, id: string, log: seq<Retry>)
    requires Legal(s, steps) && steps != []
    ensures log + Drawn(s, steps, id) ==
            log + DrawnBy(s, steps[0], id) + Drawn(Next(s, steps[0]), steps[1..], id)
  {
    var first, rest := DrawnBy(s, steps[0], id), Drawn(Next(s, steps[0]), steps[1..], id);
    assert log + (first + rest) == log + first + rest;
  }

  lemma {:induction false} RunPaces(s: System, steps: seq<Step>, id: string, log: seq<Retry>)
    requires Inv(s) && Legal(s, steps) && Paced(s.db, id, log)
    ensures Paced(Exec(s, steps).db, id, log + Drawn(s, steps, id))
    decreases |steps|
  {
    if steps == [] {
      assert log + [] == log;
    } else {
      StepKeepsPace(s, steps[0], id, log);
      RunPaces(Next(s, steps[0]), steps[1..], id, log + DrawnBy(s, steps[0], id));
      DrawnUnfolds(s, steps, id, log);
    }
  }

  /** attempts and log are paced: every attempt but the last has its retry, and the next one waited for it. */
  predicate KeepsDistance(c: Cell, log: seq<Retry>) {
    && |log| <= |c.attempts| <= |log| + 1
    && (forall k :: 0 <= k < |log| ==> c.attempts[k].finishedAt == Some(log[k].finishedAt))
    && (forall k :: 0 <= k < |c.attempts| - 1 ==> log[k].finishedAt + log[k].delay <= c.attempts[k + 1].startedAt)
    && (c.row.snapshot.status == RetryScheduled ==>
          |log| > 0 && c.row.snapshot.nextAttemptAt == Some(log[|log| - 1].finishedAt + log[|log| - 1].delay))
  }

  lemma PacedKeepsDistance(c: Cell, log: seq<Retry>)
    requires CellPaced(c, log)
    ensures KeepsDistance(c, log)
  {
    forall k | 0 <= k < |log|
      ensures c.attempts[k].finishedAt == Some(log[k].finishedAt)
      ensures k + 1 < |c.attempts| ==> log[k].finishedAt + log[k].delay <= c.attempts[k + 1].startedAt
    {
      assert AttemptPaced(c.attempts, log, k);
    }
  }

  lemma InitialRunPaces(s: System, steps: seq<Step>, id: string)
    requires Initial(s) && Legal(s, steps)
    ensures Paced(Exec(s, steps).db, id, Drawn(s, steps, id))
  {
    InitialIsOk(s);
    RunPaces(s, steps, id, []);
    assert [] + Drawn(s, steps, id) == Drawn(s, steps, id);
  }

  /**
   Over every run: attempt k + 1 starts no earlier than attempt k finished plus the backoff drawn at that finalize,
   and a message waiting for a retry waits exactly that long.
   */
  lemma RetriesKeepTheirDistance(s: System, steps: seq<Step>, id: string)
    requires Initial(s) && Legal(s, steps) && id in Exec(s, steps).db
    ensures KeepsDistance(Exec(s, steps).db[id], Drawn(s, steps, id))
  {
    InitialRunPaces(s, steps, id);
    PacedKeepsDistance(Exec(s, steps).db[id], Drawn(s, steps, id));
  }

  // ----- nothing is queued early

  /** The time before which a waiting message must not be queued. */
  function NotBefore(d: Snapshot): Option<Time> {
    if d.status == Scheduled then d.scheduledAt else if d.status == RetryScheduled then d.nextAttemptAt else None
  }

  lemma AfterClaimLeaves(s: System, w: nat, p: Phase, k: ClaimCase, id: string)
    requires id in s.db && (k.ClaimExpires? || k.ClaimStarts? ==> p.cmd.messageId != id)
    ensures var db' := AfterClaim(s, w, p.cmd, k).db;
            id in db' && db'[id] == s.db[id]
  {
  }

  lemma ClaimsNeverQueue(s: System, w: nat, attemptId: string, key: string, id: string)
    requires Inv(s) && Enabled(s, CommitClaim(w, attemptId, key)) && id in s.db && s.db[id].row.snapshot.status != Queued
    ensures var db' := Next(s, CommitClaim(w, attemptId, key)).db;
            id in db' && db'[id] == s.db[id]
  {
    var p := s.workers[w];
    assert PhaseOk(s.db, s.clock, p);
    assert CellOk(p.cmd.messageId, s.db[p.cmd.messageId], s.clock);
    var k := ClaimCases(s.db, s.clock, p, attemptId, key);
    ClaimStep(s, w, attemptId, key, k);
    AfterClaimLeaves(s, w, p, k, id);
  }

  lemma OthersLeave(s: System, step: Step, id: string)
    requires Enabled(s, step) && id in s.db && (step.Submit? || !Writes(step))
    ensures id in Next(s, step).db && Next(s, step).db[id] == s.db[id]
  {
  }

  lemma FinalizesNeverQueue(s: System, w: nat, delay: int, id: string)
    requires Inv(s) && Enabled(s, CommitFinalize(w, delay)) && id in s.db && s.db[id].row.snapshot.status != Sending
    ensures var db' := Next(s, CommitFinalize(w, delay)).db;
            id in db' && db'[id] == s.db[id]
  {
    var p := s.workers[w];
    assert PhaseOk(s.db, s.clock, p);
    assert CellOk(p.cmd.messageId, s.db[p.cmd.messageId], s.clock);
    var c' := HolderRecords(s.db, s.clock, p, delay);
  }

  lemma ScheduleAt(s: System, ids: set<string>, stamp: Time, id: string)
    requires Inv(s) && Enabled(s, Schedule(ids, stamp)) && id in s.db
    ensures var db' := Next(s, Schedule(ids, stamp)).db;
            && id in db' && (id !in ids ==> db'[id] == s.db[id])
            && (id in ids ==>
                  db'[id].row.snapshot.status == if stamp < s.db[id].row.snapshot.dispatchDeadline then Queued else Expired)
  {
    DueRowsAdvance(s, ids, stamp);
    BatchAt(s.db, ids, Scheduler(stamp), id);
    if id in ids {
      assert CellOk(id, s.db[id], s.clock);
      ScheduleKeepsCell(id, s.db[id], stamp, s.clock);
      assert Scheduler(stamp)(s.db[id]) == ScheduleCell(s.db[id], stamp);
    }
  }

  /** Whatever step moves a waiting message is a scheduler run, dated at or after the time the message waits for. */
  lemma NothingIsQueuedEarly(t: System, step: Step, id: string)
    requires Reachable(t) && Enabled(t, step) && id in t.db
    requires t.db[id].row.snapshot.status == Scheduled || t.db[id].row.snapshot.status == RetryScheduled
    ensures var d, db' := t.db[id].row.snapshot, Next(t, step).db;
            && id in db'
            && (db'[id] != t.db[id] ==>
                  && step.Schedule? && id in step.ids && NotBefore(d).Some? && NotBefore(d).value <= step.stamp
                  && db'[id].row.snapshot.status == if step.stamp < d.dispatchDeadline then Queued else Expired)
  {
    ReachableIsOk(t);
    match step
    case Schedule(ids, stamp) => ScheduleAt(t, ids, stamp, id);
    case CommitClaim(w, attemptId, key) => ClaimsNeverQueue(t, w, attemptId, key, id);
    case CommitFinalize(w, delay) => FinalizesNeverQueue(t, w, delay, id);
    case _ => OthersLeave(t, step, id);
  }

  /** A scheduler run takes a message exactly from the time it waits for on. */
  lemma DueFromItsTimeOn(t: System, id: string, stamp: Time)
    requires Reachable(t) && id in t.db && InPast(t, stamp)
    ensures Enabled(t, Schedule({id}, stamp)) <==>
            && (t.db[id].row.snapshot.status == Scheduled || t.db[id].row.snapshot.status == RetryScheduled)
            && NotBefore(t.db[id].row.snapshot).Some? && NotBefore(t.db[id].row.snapshot).value <= stamp
    ensures t.db[id].row.snapshot.status == Scheduled || t.db[id].row.snapshot.status == RetryScheduled ==>
            NotBefore(t.db[id].row.snapshot).Some?
  {
    ReachableIsOk(t);
    assert CellOk(id, t.db[id], t.clock);
    assert id in {id};
  }
}
