/**
 What can still happen: valid submissions are accepted, queued messages can be claimed, retried and
 delivered from every reachable state, and a run that does all of this exists.
 */
module DispatchProgress {
  import opened Common
  import opened Statuses
  import opened Messages
  import opened MessageRuns
  import opened EventMapping
  import opened Providers
  import opened Store
  import opened Wire
  import opened Worker
  import opened Cells
  import opened CellSteps
  import opened DispatchInvariant
  import opened DispatchTheorems
  import opened DispatchHistory
  import D = Dispatch

  // ----- runs grow step by step

  lemma {:induction false} ExecSnoc(s: D.System, steps: seq<D.Step>, step: D.Step)
    requires D.Legal(s, steps) && D.Enabled(D.Exec(s, steps), step)
    ensures D.Legal(s, steps + [step]) && D.Exec(s, steps + [step]) == D.Next(D.Exec(s, steps), step)
    decreases |steps|
  {
    if steps == [] {
      assert [step][1..] == [];
    } else {
      ExecSnoc(D.Next(s, steps[0]), steps[1..], step);
      assert (steps + [step])[1..] == steps[1..] + [step];
    }
  }

  lemma ReachableStep(t: D.System, step: D.Step)
    requires Reachable(t) && D.Enabled(t, step)
    ensures Reachable(D.Next(t, step))
  {
    var s :| D.Initial(s) && LeadsTo(s, t);
    var steps :| D.Legal(s, steps) && t == D.Exec(s, steps);
    ExecSnoc(s, steps, step);
    assert LeadsTo(s, D.Next(t, step));
  }

  // ----- submission

  /** The deadline lies ahead; a schedule lies before the deadline and at most 365 days ahead. */
  predicate ValidSubmission(q: Request, now: Time) {
    && now != ZERO_TIME && q.dispatchDeadline != ZERO_TIME && now < q.dispatchDeadline
    && (q.scheduledAt.Some? ==> q.scheduledAt.value < q.dispatchDeadline && q.scheduledAt.value - now <= 365 * DAY)
    && !Blank(q.messageId) && Trimmed(q.idempotencyKey) && |q.idempotencyKey| <= 255
  }

  lemma NewEventsMapForward(row: Row, events: seq<Event>)
    requires NewShape(row.snapshot, events) && Trimmed(row.idempotencyKey) && |row.idempotencyKey| <= 255
    ensures MapAll(row, events).Success?
  {
    var e0, e1 := events[0], events[1];
    assert NewEvent(row.snapshot, e0) && NewEvent(row.snapshot, e1);
    assert ValidEntry(EntryOf(row, e0)) && ValidEntry(EntryOf(row, e1));
    assert MapSeq(row, []) == Success(Mapped([], []));
    assert [e0][..0] == [] && MapSeq(row, [e0]).Success?;
    assert [e0, e1][..1] == [e0] && MapSeq(row, [e0, e1]).Success?;
    if row.snapshot.status == Queued {
      assert events[..2] == [e0, e1] && NewEvent(row.snapshot, events[2]);
      assert MapOne(row, events[2]).Success?;
    } else {
      assert events == [e0, e1];
    }
  }

  lemma NewRowsAreValid(row: Row, events: seq<Event>, m: Mapped)
    requires NewShape(row.snapshot, events) && MapsNew(row, events, m)
    ensures AllValidRows(m.outbox)
  {
    forall i | 0 <= i < |events| ensures ValidOutboxRow(m.outbox[i]) {
      MappedRowIsInsertable(row, events[i]);
    }
  }

  lemma NewTablesFill(row: Row, m: Mapped)
    requires |m.journal| == 2 && ValidEntry(m.journal[0]) && ValidEntry(m.journal[1]) && AllValidRows(m.outbox)
    requires m.journal[0].sequence != m.journal[1].sequence
    requires |m.outbox| == 2 || |m.outbox| == 3
    requires forall i, j :: 0 <= i < j < |m.outbox| ==> m.outbox[i].id != m.outbox[j].id
    ensures AppendEvents(Cell(row, [], [], []), m) == Success(Cell(row, [], m.journal, m.outbox))
  {
    assert m.journal == [m.journal[0], m.journal[1]];
    NewJournal(m.journal[0], m.journal[1]);
    NewOutbox(m.outbox);
    AppendsCompose(Cell(row, [], [], []), m, m.journal, m.outbox);
  }

  lemma NewAppendsSucceed(row: Row, events: seq<Event>, m: Mapped)
    requires NewShape(row.snapshot, events) && MapsNew(row, events, m)
    ensures AppendEvents(Cell(row, [], [], []), m).Success?
  {
    NewRowsAreValid(row, events, m);
    NewRowsDiffer(row, events, m);
    NewTablesFill(row, m);
  }

  lemma FilledCellSucceeds(row: Row, events: seq<Event>)
    requires NewShape(row.snapshot, events) && ValidForCreate(row) && RowChecks(row.snapshot)
    ensures FilledCell(row, events).Success?
  {
    NewEventsMapForward(row, events);
    NewEventsMap(row, events);
    NewAppendsSucceed(row, events, MapAll(row, events).value);
  }

  /** A submission yields a message exactly when its times, id and key are valid; nothing later can refuse it. */
  lemma SubmissionsSucceedExactly(q: Request, now: Time)
    ensures NewCell(q, now).Success? <==> ValidSubmission(q, now)
  {
    var p := NewParams(q.messageId, now, q.scheduledAt, q.dispatchDeadline, MaxAttemptsFor(q.category));
    if ValidSubmission(q, now) {
      var a := New(p).value;
      NewHasShape(p);
      FilledCellSucceeds(Row(q.tenantId, q.idempotencyKey, q.fingerprint, a.data), a.pending);
    }
  }

  predicate LimitOf(c: EmailCategory, limit: nat) {
    || (c.Critical? && limit == 3) || (c.Transactional? && limit == 5)
    || (c.Notification? && limit == 8) || (c.Bulk? && limit == 10)
  }

  /** The record of a new message: everything the request says, and nothing that has not happened yet. */
  predicate RecordOf(q: Request, now: Time, row: Row) {
    var d := row.snapshot;
    && row.tenantId == q.tenantId && row.idempotencyKey == q.idempotencyKey && row.fingerprint == q.fingerprint
    && d.id == q.messageId && d.acceptedAt == d.updatedAt == now
    && d.scheduledAt == q.scheduledAt && d.dispatchDeadline == q.dispatchDeadline && LimitOf(q.category, d.maxAttempts)
    && d.status == (if q.scheduledAt.Some? && now < q.scheduledAt.value then Scheduled else Queued)
    && d.generation == (if d.status == Queued then 1 else 0)
    && d.attemptCount == 0 && d.version == 0 && d.latestSequence == 2 && d.nextAttemptAt.None?
    && d.providerAcceptedAt.None? && d.providerMessageId == "" && d.lastFault.None?
  }

  lemma SubmittedRecord(q: Request, now: Time)
    requires NewCell(q, now).Success?
    ensures RecordOf(q, now, NewCell(q, now).value.row) && NewCell(q, now).value.attempts == []
  {
    var p := NewParams(q.messageId, now, q.scheduledAt, q.dispatchDeadline, MaxAttemptsFor(q.category));
    var a := New(p).value;
    var row := Row(q.tenantId, q.idempotencyKey, q.fingerprint, a.data);
    assert FilledCell(row, a.pending).value.row == row;
  }

  /** Over every run after a submission, the provider is called at most as often as the message's category allows. */
  lemma CallsStayWithinTheCategory(s: D.System, t: D.System, q: Request, stamp: Time)
    requires Reachable(s) && D.Enabled(s, D.Submit(q, stamp)) && q.messageId !in s.db
    requires q.messageId in D.Next(s, D.Submit(q, stamp)).db && LeadsTo(D.Next(s, D.Submit(q, stamp)), t)
    ensures q.messageId in t.db && LimitOf(q.category, t.db[q.messageId].row.snapshot.maxAttempts)
    ensures CallCount(t.calls, q.messageId) <= t.db[q.messageId].row.snapshot.maxAttempts
  {
    var s' := D.Next(s, D.Submit(q, stamp));
    SubmittedRecord(q, stamp);
    ReachableStep(s, D.Submit(q, stamp));
    HistoryIsAppendOnly(s', t, q.messageId);
    ReachableIsOk(s');
    LaterIsOk(s', t);
    assert CellOk(q.messageId, t.db[q.messageId], t.clock);
  }

  // ----- a queued message can be claimed

  /** The dispatch request of a queued message's generation is the last row of its outbox. */
  lemma QueuedHasRequest(c: Cell)
    requires JournalOk(c) && OutboxOk(c) && c.row.snapshot.status == Queued
    ensures |c.outbox| > 0
    ensures var d := c.row.snapshot;
            c.outbox[|c.outbox| - 1].id == EventId(d.id, DispatchRequested, d.latestSequence, d.generation)
  {
    var journal, n := c.journal, |c.journal| - 1;
    assert EntryOk(c.row.snapshot.id, journal, n) && journal[..n + 1] == journal;
    var ids := Expand(journal);
    assert ids == Expand(journal[..n]) + ExpandEntry(journal[n]);
    assert Ids(c.outbox)[|c.outbox| - 1] == ids[|ids| - 1];
  }

  /** The command of the message's current generation. */
  function CurrentCommand(row: Row): Command {
    var d := row.snapshot;
    Command(EventId(d.id, DispatchRequested, d.latestSequence, d.generation), row.tenantId, d.id, d.latestSequence,
            d.generation)
  }

  lemma RequestIsPublished(id: string, c: Cell, clock: Time)
    requires CellOk(id, c, clock) && c.row.snapshot.status == Queued
    ensures |c.outbox| > 0 && D.CommandOf(c.outbox[|c.outbox| - 1], 1) == Some(CurrentCommand(c.row))
  {
    QueuedHasRequest(c);
    var o := c.outbox[|c.outbox| - 1];
    assert OutboxRowOk(c.row, o);
    assert c.row.snapshot.latestSequence <= 4 * c.row.snapshot.maxAttempts + 4;
    assert id != "" by { assert Blank(""); }
    RequestBecomesCommand(c.row, o, 1);
  }

  /** The message is queued inside its deadline, and there is a worker and an attempt id to take it. */
  predicate ReadyToClaim(t: D.System, id: string, w: nat, attemptId: string) {
    && id in t.db && t.db[id].row.snapshot.status == Queued && t.clock < t.db[id].row.snapshot.dispatchDeadline
    && w !in t.workers && D.UnusedAttemptId(t.db, attemptId)
  }

  lemma CanPublish(t: D.System, id: string) returns (t': D.System)
    requires Reachable(t) && id in t.db && t.db[id].row.snapshot.status == Queued
    ensures Reachable(t') && t' == t.(broker := t'.broker)
    ensures var cmd := CurrentCommand(t.db[id].row);
            cmd in t'.broker && t'.broker[cmd] <= t.clock
  {
    ReachableIsOk(t);
    assert CellOk(id, t.db[id], t.clock);
    RequestIsPublished(id, t.db[id], t.clock);
    var cmd := CurrentCommand(t.db[id].row);
    var step := D.PublishRow(id, |t.db[id].outbox| - 1, 1);
    ReachableStep(t, step);
    t' := D.Next(t, step);
    if cmd in t.broker {
      assert PublishedOk(t.db, t.clock, cmd, t.broker[cmd]);
    }
  }

  /** Nothing but this message and this worker changed, and the worker holds the message's next attempt. */
  predicate Started(t: D.System, t': D.System, id: string, w: nat, attemptId: string)
    requires id in t.db
  {
    && t'.clock == t.clock && t'.calls == t.calls && t'.accepted == t.accepted
    && t'.workers.Keys == t.workers.Keys + {w}
    && t'.workers[w].Claimed? && t'.workers[w].cmd.messageId == id
    && t'.workers[w].attempt.id == attemptId && t'.workers[w].attempt.startedAt == t.clock
    && id in t'.db && t'.db == t.db[id := t'.db[id]]
    && var d, d' := t.db[id].row.snapshot, t'.db[id].row.snapshot;
       && d'.status == Sending && d'.attemptCount == d.attemptCount + 1
       && d'.dispatchDeadline == d.dispatchDeadline && d'.maxAttempts == d.maxAttempts
       && t'.db[id].attempts == t.db[id].attempts + [t'.workers[w].attempt]
  }

  /** The worker has just read the queued message in order to claim it. */
  predicate Reading(t: D.System, id: string, w: nat) {
    && id in t.db && t.db[id].row.snapshot.status == Queued && t.clock < t.db[id].row.snapshot.dispatchDeadline
    && w in t.workers && t.workers[w] == D.ClaimRead(CurrentCommand(t.db[id].row), t.clock, Some(t.db[id].row))
  }

  lemma CanRead(t: D.System, id: string, w: nat, attemptId: string) returns (t': D.System)
    requires Reachable(t) && ReadyToClaim(t, id, w, attemptId)
    ensures Reachable(t') && Reading(t', id, w)
    ensures t' == t.(broker := t'.broker, workers := t'.workers) && t'.workers.Keys == t.workers.Keys + {w}
  {
    var published := CanPublish(t, id);
    ReachableIsOk(t);
    assert CellOk(id, t.db[id], t.clock);
    var step := D.ReadClaim(w, CurrentCommand(t.db[id].row), t.clock);
    ReachableStep(published, step);
    t' := D.Next(published, step);
  }

  /** A claim of the current command starts the next attempt. */
  lemma ClaimStarts(t: D.System, id: string, w: nat, attemptId: string) returns (t': D.System)
    requires Inv(t) && Reading(t, id, w) && D.Enabled(t, D.CommitClaim(w, attemptId, "smtp"))
    ensures t' == D.Next(t, D.CommitClaim(w, attemptId, "smtp"))
    ensures Started(t, t', id, w, attemptId)
  {
    var p := t.workers[w];
    assert CellOk(id, t.db[id], t.clock);
    assert PhaseOk(t.db, t.clock, p);
    var k := ClaimStartsCell(t.db, t.clock, p, attemptId, "smtp");
    ClaimStep(t, w, attemptId, "smtp", k);
    t' := AfterClaim(t, w, p.cmd, k);
    StartIsStarted(t, id, w, attemptId, k);
  }

  lemma StartIsStarted(t: D.System, id: string, w: nat, attemptId: string, k: ClaimCase)
    requires Reading(t, id, w) && t.db[id].row.snapshot.id == id && k.ClaimStarts?
    requires Later(t.db[id], k.cell) && k.cell.row.snapshot.status == Sending
    requires k.cell.attempts == t.db[id].attempts + [k.attempt]
    requires k.cell.row.snapshot.attemptCount == t.db[id].row.snapshot.attemptCount + 1
    requires k.attempt.id == attemptId && k.attempt.startedAt == t.clock
    ensures Started(t, AfterClaim(t, w, t.workers[w].cmd, k), id, w, attemptId)
  {
  }

  lemma CanClaim(t: D.System, id: string, w: nat, attemptId: string) returns (t': D.System)
    requires Reachable(t) && ReadyToClaim(t, id, w, attemptId)
    ensures Reachable(t') && Started(t, t', id, w, attemptId)
  {
    var read := CanRead(t, id, w, attemptId);
    ReachableIsOk(read);
    t' := ClaimStarts(read, id, w, attemptId);
    ReachableStep(read, D.CommitClaim(w, attemptId, "smtp"));
  }

  // ----- it can be delivered

  const ACCEPTS := D.Submitted(true, ProviderResult(OutcomeAccepted, "p", None), None)

  /** From every reachable state, a queued message inside its deadline can still be accepted by the server. */
  lemma QueuedCanBeDelivered(t: D.System, id: string, w: nat, attemptId: string) returns (t': D.System)
    requires Reachable(t) && ReadyToClaim(t, id, w, attemptId)
    ensures Reachable(t') && t'.accepted == t.accepted + [id]
    ensures id in t'.db && t'.db[id].row.snapshot.attemptCount == t.db[id].row.snapshot.attemptCount + 1
  {
    var claimed := CanClaim(t, id, w, attemptId);
    var step := D.CallProvider(w, ACCEPTS);
    assert Trimmed("p");
    ReachableStep(claimed, step);
    t' := D.Next(claimed, step);
  }

  // ----- it can fail and be queued again

  predicate TransientFailure(r: ProviderResult) {
    ValidResult(r) && r.outcome == OutcomeFailed && r.fault.value.retryable
  }

  /** The worker holds the message and its attempt is the last row. */
  predicate HeldBy(t: D.System, id: string, w: nat) {
    w in t.workers && t.workers[w].Claimed? && t.workers[w].cmd.messageId == id && id in t.db
  }

  /** The attempt failed before it was submitted, and the worker has read the record to finalize it. */
  lemma CanFail(t: D.System, id: string, w: nat, r: ProviderResult) returns (t': D.System)
    requires Reachable(t) && HeldBy(t, id, w) && TransientFailure(r)
    ensures Reachable(t')
    ensures var p := t.workers[w];
            t' == t.(workers := t.workers[w := D.FinalizeRead(p.cmd, p.attempt, r, t.clock, Some(t.db[id].row))])
  {
    ReachableIsOk(t);
    var fail, read := D.CallProvider(w, D.NotSubmitted(r)), D.ReadFinalize(w, t.clock);
    ReachableStep(t, fail);
    var failed := D.Next(t, fail);
    ReachableStep(failed, read);
    t' := D.Next(failed, read);
    assert t.workers[w := failed.workers[w]][w := t'.workers[w]] == t.workers[w := t'.workers[w]];
  }

  predicate SameIds(attempts: seq<Attempt>, attempts': seq<Attempt>) {
    |attempts'| == |attempts| && forall i :: 0 <= i < |attempts| ==> attempts'[i].id == attempts[i].id
  }

  /** No attempt rows are added, and those there are keep their ids. */
  predicate SameAttemptIds(db: Db, db': Db) {
    db'.Keys == db.Keys && forall id :: id in db ==> SameIds(db[id].attempts, db'[id].attempts)
  }

  predicate RetryAt(d: Snapshot, d': Snapshot, at: Time) {
    && d'.status == RetryScheduled && d'.nextAttemptAt == Some(at)
    && d'.attemptCount == d.attemptCount && d'.dispatchDeadline == d.dispatchDeadline && d'.maxAttempts == d.maxAttempts
  }

  /** What a transient failure with budget and time left does to a sending message. */
  lemma TransientResolution(d: Snapshot, attemptId: string, r: ProviderResult, now: Time)
    requires TransientFailure(r) && Coherent(d) && d.status == Sending && now != ZERO_TIME
    requires d.attemptCount < d.maxAttempts && now + 1 < d.dispatchDeadline
    ensures var x := ApplyProviderResult(Aggregate(d, []), attemptId, r, now, 1);
            && x.Success? && x.value.disposition == DispatchRetryScheduled
            && x.value.aggregate.data.id == d.id && RetryAt(d, x.value.aggregate.data, now + 1)
  {
    ProviderResultsAreTotal(Aggregate(d, []), attemptId, r, now, 1);
  }

  lemma FailureIsRetried(db: Db, clock: Time, p: D.Phase) returns (c': Cell)
    requires p.FinalizeRead? && TransientFailure(p.result) && p.stamp == clock && HolderOk(db, clock, p)
    requires CellOk(p.cmd.messageId, db[p.cmd.messageId], clock)
    requires var d := db[p.cmd.messageId].row.snapshot;
             d.attemptCount < d.maxAttempts && clock + 1 < d.dispatchDeadline
    ensures Finalize(db, p.read, p.attempt, p.result, p.stamp, 1) ==
            (db[p.cmd.messageId := c'], Finalized(DispatchRetryScheduled))
    ensures RetryAt(db[p.cmd.messageId].row.snapshot, c'.row.snapshot, clock + 1)
    ensures SameIds(db[p.cmd.messageId].attempts, c'.attempts)
  {
    var id := p.cmd.messageId;
    var c := db[id];
    TransientResolution(c.row.snapshot, p.attempt.id, p.result, clock);
    OkRowRestores(id, c.row.snapshot, clock);
    SettleKeepsCell(id, c, p.result, clock, 1, clock);
    var x := ApplyProviderResult(Aggregate(c.row.snapshot, []), p.attempt.id, p.result, clock, 1).value;
    c' := Commit(c, c.row, x.aggregate, Complete(x.completion)).value;
    FinalizeWrites(db, p, 1, x, c');
  }

  /** Where a finalize with a known effect takes the system. */
  lemma FinalizeStep(t: D.System, w: nat, delay: int, db': Db)
    requires D.Enabled(t, D.CommitFinalize(w, delay))
    requires var p := t.workers[w];
             Finalize(t.db, p.read, p.attempt, p.result, p.stamp, delay).0 == db'
    ensures D.Next(t, D.CommitFinalize(w, delay)) == t.(db := db', workers := t.workers - {w})
  {
  }

  lemma OneCellChanged(db: Db, id: string, c': Cell)
    requires id in db && SameIds(db[id].attempts, c'.attempts)
    ensures SameAttemptIds(db, db[id := c'])
  {
    var db' := db[id := c'];
    forall x | x in db ensures SameIds(db[x].attempts, db'[x].attempts) {
    }
  }

  lemma RetryIsCommitted(t: D.System, id: string, w: nat) returns (c': Cell)
    requires Inv(t) && w in t.workers && t.workers[w].FinalizeRead? && t.workers[w].cmd.messageId == id && id in t.db
    requires TransientFailure(t.workers[w].result) && t.workers[w].stamp == t.clock
    requires var d := t.db[id].row.snapshot;
             d.attemptCount < d.maxAttempts && t.clock + 1 < d.dispatchDeadline
    ensures D.Enabled(t, D.CommitFinalize(w, 1))
    ensures D.Next(t, D.CommitFinalize(w, 1)) == t.(db := t.db[id := c'], workers := t.workers - {w})
    ensures RetryAt(t.db[id].row.snapshot, c'.row.snapshot, t.clock + 1) && SameIds(t.db[id].attempts, c'.attempts)
  {
    assert PhaseOk(t.db, t.clock, t.workers[w]);
    assert CellOk(id, t.db[id], t.clock);
    c' := FailureIsRetried(t.db, t.clock, t.workers[w]);
    FinalizeStep(t, w, 1, t.db[id := c']);
  }

  lemma ReadIsRetried(t: D.System, id: string, w: nat) returns (t': D.System)
    requires Reachable(t) && w in t.workers && t.workers[w].FinalizeRead? && t.workers[w].cmd.messageId == id
    requires id in t.db && TransientFailure(t.workers[w].result) && t.workers[w].stamp == t.clock
    requires var d := t.db[id].row.snapshot;
             d.attemptCount < d.maxAttempts && t.clock + 1 < d.dispatchDeadline
    ensures Reachable(t') && t' == t.(db := t'.db, workers := t.workers - {w})
    ensures id in t'.db && RetryAt(t.db[id].row.snapshot, t'.db[id].row.snapshot, t.clock + 1)
    ensures SameAttemptIds(t.db, t'.db)
  {
    ReachableIsOk(t);
    var c' := RetryIsCommitted(t, id, w);
    ReachableStep(t, D.CommitFinalize(w, 1));
    t' := t.(db := t.db[id := c'], workers := t.workers - {w});
    OneCellChanged(t.db, id, c');
  }

  lemma CanScheduleRetry(t: D.System, id: string, w: nat, r: ProviderResult) returns (t': D.System)
    requires Reachable(t) && HeldBy(t, id, w) && TransientFailure(r)
    requires var d := t.db[id].row.snapshot;
             d.attemptCount < d.maxAttempts && t.clock + 1 < d.dispatchDeadline
    ensures Reachable(t') && t' == t.(db := t'.db, workers := t.workers - {w})
    ensures id in t'.db && RetryAt(t.db[id].row.snapshot, t'.db[id].row.snapshot, t.clock + 1)
    ensures SameAttemptIds(t.db, t'.db)
  {
    var read := CanFail(t, id, w, r);
    t' := ReadIsRetried(read, id, w);
    assert read.workers - {w} == t.workers - {w};
  }

  predicate QueuedAgain(d: Snapshot, d': Snapshot) {
    && d'.status == Queued && d'.attemptCount == d.attemptCount
    && d'.dispatchDeadline == d.dispatchDeadline && d'.maxAttempts == d.maxAttempts
  }

  lemma OneRow<E>(db: Db, id: string, advance: Cell -> Result<Cell, E>)
    requires id in db && advance(db[id]).Success?
    ensures D.Batch(db, {id}, advance) == db[id := advance(db[id]).value]
  {
  }

  lemma DueRowIsQueued(id: string, c: Cell, clock: Time) returns (c': Cell)
    requires CellOk(id, c, clock) && Due(c.row.snapshot, clock) && clock < c.row.snapshot.dispatchDeadline
    ensures D.Scheduler(clock)(c) == Success(c') && QueuedAgain(c.row.snapshot, c'.row.snapshot) && c'.attempts == c.attempts
  {
    ScheduleKeepsCell(id, c, clock, clock);
    c' := ScheduleCell(c, clock).value;
  }

  lemma CanRequeue(t: D.System, id: string) returns (t': D.System)
    requires Reachable(t) && id in t.db && t.db[id].row.snapshot.status == RetryScheduled
    requires t.db[id].row.snapshot.nextAttemptAt == Some(t.clock + 1) && t.clock + 1 < t.db[id].row.snapshot.dispatchDeadline
    ensures Reachable(t') && t' == t.(clock := t.clock + 1, db := t'.db)
    ensures id in t'.db && QueuedAgain(t.db[id].row.snapshot, t'.db[id].row.snapshot)
    ensures SameAttemptIds(t.db, t'.db)
  {
    var later := t.(clock := t.clock + 1);
    ReachableStep(t, D.Tick(t.clock + 1));
    assert CellOk(id, later.db[id], later.clock) by { ReachableIsOk(later); }
    var c' := DueRowIsQueued(id, t.db[id], later.clock);
    OneRow(t.db, id, D.Scheduler(later.clock));
    OneCellChanged(t.db, id, c');
    assert 0 < later.clock by { ReachableIsOk(later); }
    ReachableStep(later, D.Schedule({id}, later.clock));
    t' := later.(db := t.db[id := c']);
  }

  // ----- a run that does it all

  /** From every reachable state, a queued message with attempts and time left can fail, be retried and be delivered. */
  lemma RetriedCanBeDelivered(t: D.System, id: string, w: nat, a: string, b: string, r: ProviderResult)
    returns (t': D.System)
    requires TransientFailure(r) && Reachable(t) && ReadyToClaim(t, id, w, a) && D.UnusedAttemptId(t.db, b) && a != b
    requires var d := t.db[id].row.snapshot;
             d.attemptCount + 1 < d.maxAttempts && t.clock + 1 < d.dispatchDeadline
    ensures Reachable(t') && t'.accepted == t.accepted + [id]
    ensures id in t'.db && t'.db[id].row.snapshot.attemptCount == t.db[id].row.snapshot.attemptCount + 2
  {
    var claimed := CanClaim(t, id, w, a);
    var retrying := CanScheduleRetry(claimed, id, w, r);
    var queued := CanRequeue(retrying, id);
    UnusedAfterRetry(t, claimed, id, w, a, b, queued.db);
    t' := QueuedCanBeDelivered(queued, id, w, b);
  }

  lemma UnusedAfterRetry(t: D.System, claimed: D.System, id: string, w: nat, a: string, b: string, db: Db)
    requires id in t.db && Started(t, claimed, id, w, a) && D.UnusedAttemptId(t.db, b) && a != b
    requires exists between: Db :: SameAttemptIds(claimed.db, between) && SameAttemptIds(between, db)
    ensures D.UnusedAttemptId(db, b)
  {
    var between: Db :| SameAttemptIds(claimed.db, between) && SameAttemptIds(between, db);
    forall x, i | x in db && 0 <= i < |db[x].attempts| ensures db[x].attempts[i].id != b {
      assert SameIds(claimed.db[x].attempts, between[x].attempts) && SameIds(between[x].attempts, db[x].attempts);
      assert db[x].attempts[i].id == claimed.db[x].attempts[i].id;
      if x != id {
        assert claimed.db[x] == t.db[x];
      }
    }
  }

  lemma FirstSubmission(q: Request, now: Time) returns (t: D.System)
    requires 0 < now && NewCell(q, now).Success?
    ensures Reachable(t) && t == D.System(now, map[q.messageId := NewCell(q, now).value], map[], map[], [], [])
  {
    var s := D.System(now, map[], map[], map[], [], []);
    assert D.Legal(s, []) && D.Exec(s, []) == s;
    assert LeadsTo(s, s);
    ReachableStep(s, D.Submit(q, now));
    t := D.Next(s, D.Submit(q, now));
  }

  lemma CanSubmit(q: Request, now: Time) returns (t: D.System)
    requires ValidSubmission(q, now) && 0 < now && q.scheduledAt.None?
    ensures Reachable(t) && t.clock == now && t.workers == map[] && t.accepted == [] && t.db.Keys == {q.messageId}
    ensures var c := t.db[q.messageId];
            && c.attempts == [] && c.row.snapshot.status == Queued && c.row.snapshot.attemptCount == 0
            && c.row.snapshot.dispatchDeadline == q.dispatchDeadline
            && c.row.snapshot.maxAttempts == MaxAttemptsFor(q.category)
  {
    SubmissionsSucceedExactly(q, now);
    NewCellOk(q, now, now);
    SubmittedRecord(q, now);
    t := FirstSubmission(q, now);
  }

  /** There is a run in which a mail is submitted, fails once, is retried and is accepted by the server. */
  lemma MailIsAcceptedAfterARetry() returns (t: D.System)
    ensures Reachable(t) && t.accepted == ["m"]
    ensures "m" in t.db && t.db["m"].row.snapshot.attemptCount == 2
  {
    var q := Request("m", "t", "k", "f", Critical, None, 10);
    assert !IsSpace(q.messageId[0]);
    var submitted := CanSubmit(q, 1);
    var r := FailedResult(Network, "N", true);
    FailedResultIsValid(Network, "N", true);
    t := RetriedCanBeDelivered(submitted, "m", 0, "a", "b", r);
  }
}
