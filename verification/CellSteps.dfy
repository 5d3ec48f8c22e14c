/** The invariant of one message's tables, and each transaction of the delivery core on it. */
module CellSteps {
  import opened Common
  import opened Statuses
  import opened Messages
  import opened MessageRuns
  import opened EventMapping
  import opened Providers
  import opened Store
  import opened Worker
  import opened Cells

  /** The states the wired transactions reach. */
  predicate Wired(s: Status) {
    || s.Scheduled? || s.Queued? || s.Sending? || s.RetryScheduled? || s.SubmissionUnknown?
    || s.ProviderAccepted? || s.Expired? || s.PermanentlyFailed? || s.DeadLettered?
  }

  /** Row i carries number and generation i + 1, ran inside the message's time window, and all but the last failed. */
  predicate AttemptOk(d: Snapshot, attempts: seq<Attempt>, i: nat)
    requires i < |attempts|
  {
    var a := attempts[i];
    && a.number == i + 1 == a.generation
    && (a.status == Started <==> a.finishedAt.None?)
    && d.acceptedAt <= a.startedAt < d.dispatchDeadline
    && (d.scheduledAt.Some? ==> d.scheduledAt.value <= a.startedAt)
    && (a.finishedAt.Some? ==> a.startedAt <= a.finishedAt.value)
    && (i + 1 < |attempts| ==>
          a.status == AttemptFailed && a.finishedAt.Some? && a.finishedAt.value < attempts[i + 1].startedAt)
  }

  /** The last attempt row and the message state determine each other's kind. */
  predicate LastAttemptOk(d: Snapshot, last: Attempt) {
    match d.status
    case Sending => last.status == Started && last.startedAt == d.updatedAt
    case SubmissionUnknown => last.status == AttemptUnknown
    case ProviderAccepted => last.status == AttemptAccepted
    case RetryScheduled =>
      && last.status == AttemptFailed && last.finishedAt == Some(d.updatedAt)
      && d.nextAttemptAt.Some? && d.updatedAt < d.nextAttemptAt.value
    case Queued => last.status == AttemptFailed && last.finishedAt.Some? && last.finishedAt.value < d.updatedAt
    case _ => last.status == AttemptFailed
  }

  predicate AttemptsOk(d: Snapshot, attempts: seq<Attempt>) {
    && |attempts| == d.attemptCount
    && (forall i :: 0 <= i < |attempts| ==> AttemptOk(d, attempts, i))
    && (|attempts| > 0 ==> LastAttemptOk(d, attempts[|attempts| - 1]))
  }

  predicate RowOk(id: string, d: Snapshot, clock: Time) {
    && d.id == id && Coherent(d) && Wired(d.status) && Storable(d)
    && Timely(d) && d.updatedAt <= clock
    && (d.status == Scheduled ==> d.updatedAt < d.scheduledAt.value)
    && (d.status == Queued && d.scheduledAt.Some? ==> d.scheduledAt.value <= d.updatedAt)
  }

  predicate CellOk(id: string, c: Cell, clock: Time) {
    RowOk(id, c.row.snapshot, clock) && HistoryOk(c) && AttemptsOk(c.row.snapshot, c.attempts)
  }

  /** Attempt rows are only added, and a settled one never changes again. */
  predicate AttemptsExtend(attempts: seq<Attempt>, attempts': seq<Attempt>) {
    && |attempts| <= |attempts'|
    && forall i :: 0 <= i < |attempts| && attempts[i].status != Started ==> attempts'[i] == attempts[i]
  }

  /** c' is c one transaction later: rows are only added, and the version moved on. */
  predicate Later(c: Cell, c': Cell) {
    && c'.row.tenantId == c.row.tenantId && c'.row.idempotencyKey == c.row.idempotencyKey
    && c'.row.snapshot.version == c.row.snapshot.version + 1
    && c'.row.snapshot.latestSequence == c.row.snapshot.latestSequence + 1
    && c'.row.snapshot.maxAttempts == c.row.snapshot.maxAttempts
    && c'.row.snapshot.dispatchDeadline == c.row.snapshot.dispatchDeadline
    && c.row.snapshot.attemptCount <= c'.row.snapshot.attemptCount
    && c.row.snapshot.generation <= c'.row.snapshot.generation
    && c.journal <= c'.journal && c.outbox <= c'.outbox && AttemptsExtend(c.attempts, c'.attempts)
  }

  lemma OkRowRestores(id: string, d: Snapshot, clock: Time)
    requires RowOk(id, d, clock)
    ensures Restore(d) == Success(Aggregate(d, []))
  {
    RestoreAcceptsExactly(d);
  }

  // ----- what each operation emits

  lemma QueueEmits(d: Snapshot, now: Time)
    requires Coherent(d) && now != ZERO_TIME && Queue(Aggregate(d, []), now).Success?
    ensures Emits(d, Queue(Aggregate(d, []), now).value)
  {
    QueueKeeps(Aggregate(d, []), now);
  }

  lemma ExpireEmits(d: Snapshot, now: Time)
    requires Coherent(d) && now != ZERO_TIME && d.status != Expired && Expire(Aggregate(d, []), now).Success?
    ensures Emits(d, Expire(Aggregate(d, []), now).value)
  {
    ExpireKeeps(Aggregate(d, []), now);
  }

  lemma StartEmits(d: Snapshot, generation: nat, now: Time)
    requires Coherent(d) && now != ZERO_TIME && StartSending(Aggregate(d, []), generation, now).Success?
    ensures Emits(d, StartSending(Aggregate(d, []), generation, now).value)
  {
    StartSendingKeeps(Aggregate(d, []), generation, now);
  }

  lemma ResultEmits(d: Snapshot, id: string, r: ProviderResult, now: Time, delay: int)
    requires Coherent(d) && d.status == Sending && ValidResult(r) && now != ZERO_TIME && 0 < delay <= DAY
    ensures ApplyProviderResult(Aggregate(d, []), id, r, now, delay).Success?
    ensures var x := ApplyProviderResult(Aggregate(d, []), id, r, now, delay).value;
            && Emits(d, x.aggregate) && x.aggregate.data.updatedAt == now
            && x.aggregate.data.attemptCount == d.attemptCount && x.aggregate.data.generation == d.generation
  {
    ProviderResultsAreTotal(Aggregate(d, []), id, r, now, delay);
  }

  // ----- one transition, committed

  /** The cell with the advanced row stored, before the attempt table is written. */
  function Stored(c: Cell, b: Aggregate): Cell {
    c.(row := c.row.(snapshot := b.data.(version := b.data.version + 1)))
  }

  lemma AttemptWritesExtend(c: Cell, w: AttemptWrite)
    requires WriteAttempt(c, w).Success?
    ensures AttemptsExtend(c.attempts, WriteAttempt(c, w).value.attempts)
  {
  }

  lemma AdvanceKeepsCell(id: string, c: Cell, b: Aggregate, w: AttemptWrite, clock: Time)
    requires CellOk(id, c, clock) && Emits(c.row.snapshot, b) && Wired(b.data.status)
    requires c.row.snapshot.acceptedAt <= b.data.updatedAt <= clock
    requires b.data.status == Queued && b.data.scheduledAt.Some? ==> b.data.scheduledAt.value <= b.data.updatedAt
    requires WriteAttempt(Stored(c, b), w).Success?
    requires AttemptsOk(Stored(c, b).row.snapshot, WriteAttempt(Stored(c, b), w).value.attempts)
    ensures Commit(c, c.row, b, w).Success?
    ensures var c' := Commit(c, c.row, b, w).value;
            && CellOk(id, c', clock) && Later(c, c')
            && c'.attempts == WriteAttempt(Stored(c, b), w).value.attempts
            && c'.row == Stored(c, b).row
  {
    RowAdvances(id, c.row.snapshot, b, clock);
    CommitKeepsHistory(c, b, w);
    AttemptWritesExtend(Stored(c, b), w);
  }

  lemma RowAdvances(id: string, d: Snapshot, b: Aggregate, clock: Time)
    requires RowOk(id, d, clock) && Emits(d, b) && Wired(b.data.status)
    requires d.acceptedAt <= b.data.updatedAt <= clock
    requires b.data.status == Queued && b.data.scheduledAt.Some? ==> b.data.scheduledAt.value <= b.data.updatedAt
    ensures RowOk(id, b.data.(version := b.data.version + 1), clock)
    ensures b.data.version == d.version && b.data.latestSequence == d.latestSequence + 1
    ensures d.attemptCount <= b.data.attemptCount && d.generation <= b.data.generation
    ensures b.data.maxAttempts == d.maxAttempts && b.data.dispatchDeadline == d.dispatchDeadline
    ensures Timely(b.data)
  {
  }

  lemma AttemptsStay(c: Cell, b: Aggregate)
    requires AttemptsOk(c.row.snapshot, c.attempts) && Coherent(c.row.snapshot) && Advances(c.row.snapshot, b.data)
    requires b.data.attemptCount == c.row.snapshot.attemptCount
    requires b.data.status == Expired || (b.data.status == Queued && c.row.snapshot.updatedAt < b.data.updatedAt)
    ensures AttemptsOk(Stored(c, b).row.snapshot, c.attempts)
  {
    forall i | 0 <= i < |c.attempts| ensures AttemptOk(Stored(c, b).row.snapshot, c.attempts, i) {
      assert AttemptOk(c.row.snapshot, c.attempts, i);
    }
  }

  // ----- expiry, by the scheduler or by a claim

  lemma ExpireKeepsCell(id: string, c: Cell, now: Time, clock: Time)
    requires CellOk(id, c, clock) && NotStarted(c.row.snapshot.status)
    requires c.row.snapshot.dispatchDeadline <= now <= clock
    ensures Expire(Aggregate(c.row.snapshot, []), now).Success?
    ensures var b := Expire(Aggregate(c.row.snapshot, []), now).value;
            && b != Aggregate(c.row.snapshot, [])
            && Commit(c, c.row, b, NoAttemptWrite).Success?
            && var c' := Commit(c, c.row, b, NoAttemptWrite).value;
            && CellOk(id, c', clock) && Later(c, c') && c'.attempts == c.attempts && c'.row.snapshot.status == Expired
  {
    var d := c.row.snapshot;
    ExpireEmits(d, now);
    var b := Expire(Aggregate(d, []), now).value;
    AttemptsStay(c, b);
    AdvanceKeepsCell(id, c, b, NoAttemptWrite, clock);
  }

  // ----- scheduler

  lemma QueueKeepsCell(id: string, c: Cell, now: Time, clock: Time)
    requires CellOk(id, c, clock) && Due(c.row.snapshot, now) && now <= clock
    requires now < c.row.snapshot.dispatchDeadline
    ensures Queue(Aggregate(c.row.snapshot, []), now).Success?
    ensures var b := Queue(Aggregate(c.row.snapshot, []), now).value;
            && Commit(c, c.row, b, NoAttemptWrite).Success?
            && var c' := Commit(c, c.row, b, NoAttemptWrite).value;
            && CellOk(id, c', clock) && Later(c, c') && c'.attempts == c.attempts && c'.row.snapshot.status == Queued
            && c'.row.snapshot.updatedAt == now
  {
    var d := c.row.snapshot;
    assert d.updatedAt < now by { DueIsLater(id, c, now, clock); }
    QueueEmits(d, now);
    var b := Queue(Aggregate(d, []), now).value;
    AttemptsStay(c, b);
    ScheduledTimePassed(id, c, now, clock);
    AdvanceKeepsCell(id, c, b, NoAttemptWrite, clock);
  }

  lemma DueIsLater(id: string, c: Cell, now: Time, clock: Time)
    requires CellOk(id, c, clock) && Due(c.row.snapshot, now)
    ensures c.row.snapshot.updatedAt < now
  {
  }

  lemma ScheduledTimePassed(id: string, c: Cell, now: Time, clock: Time)
    requires CellOk(id, c, clock) && Due(c.row.snapshot, now)
    ensures c.row.snapshot.scheduledAt.Some? ==> c.row.snapshot.scheduledAt.value <= now
  {
    var d := c.row.snapshot;
    if d.status == RetryScheduled {
      assert AttemptOk(d, c.attempts, |c.attempts| - 1);
    }
  }

  /** A due message is always advanced: queued inside its deadline, expired after it. */
  lemma ScheduleKeepsCell(id: string, c: Cell, now: Time, clock: Time)
    requires CellOk(id, c, clock) && Due(c.row.snapshot, now) && now <= clock
    ensures ScheduleCell(c, now).Success?
    ensures var c' := ScheduleCell(c, now).value;
            && CellOk(id, c', clock) && Later(c, c') && c'.attempts == c.attempts
            && c'.row.snapshot.status == (if now < c.row.snapshot.dispatchDeadline then Queued else Expired)
            && (c'.row.snapshot.status == Queued ==> c'.row.snapshot.updatedAt == now)
  {
    OkRowRestores(id, c.row.snapshot, clock);
    if now >= c.row.snapshot.dispatchDeadline {
      ExpireKeepsCell(id, c, now, clock);
    } else {
      QueueKeepsCell(id, c, now, clock);
    }
  }

  // ----- claim

  predicate FreshAttempt(c: Cell, id: string) {
    forall i :: 0 <= i < |c.attempts| ==> c.attempts[i].id != id
  }

  lemma NewAttemptFits(c: Cell, a: Attempt)
    requires AttemptsOk(c.row.snapshot, c.attempts) && FreshAttempt(c, a.id)
    requires a.number == |c.attempts| + 1 == a.generation
    ensures !AttemptTaken(c.attempts, a)
  {
    forall i | 0 <= i < |c.attempts|
      ensures !(c.attempts[i].id == a.id || c.attempts[i].number == a.number || c.attempts[i].generation == a.generation)
    {
      assert AttemptOk(c.row.snapshot, c.attempts, i);
    }
  }

  /** The attempt row a claim of the queued message inserts. */
  function NextAttempt(d: Snapshot, attemptId: string, providerKey: string, now: Time): Attempt {
    Attempt(attemptId, d.attemptCount + 1, d.generation, providerKey, Started, now, None, "", None)
  }

  lemma StartKeepsCell(id: string, c: Cell, attemptId: string, providerKey: string, now: Time, clock: Time)
    requires CellOk(id, c, clock) && c.row.snapshot.status == Queued
    requires c.row.snapshot.updatedAt <= now <= clock && now < c.row.snapshot.dispatchDeadline
    requires FreshAttempt(c, attemptId)
    ensures StartSending(Aggregate(c.row.snapshot, []), c.row.snapshot.generation, now).Success?
    ensures var attempt := NextAttempt(c.row.snapshot, attemptId, providerKey, now);
            var b := StartSending(Aggregate(c.row.snapshot, []), c.row.snapshot.generation, now).value;
            && ValidStarted(attempt) && b.data.attemptCount == attempt.number
            && Commit(c, c.row, b, Start(attempt)).Success?
            && var c' := Commit(c, c.row, b, Start(attempt)).value;
            && CellOk(id, c', clock) && Later(c, c') && c'.attempts == c.attempts + [attempt]
            && c'.row.snapshot.status == Sending && c'.row.snapshot.attemptCount == attempt.number
            && c'.row.snapshot.generation == attempt.generation
  {
    var d := c.row.snapshot;
    var attempt := NextAttempt(d, attemptId, providerKey, now);
    StartEmits(d, d.generation, now);
    var b := StartSending(Aggregate(d, []), d.generation, now).value;
    NewAttemptFits(c, attempt);
    AttemptsGrow(id, c, b, attempt, clock);
    AdvanceKeepsCell(id, c, b, Start(attempt), clock);
  }

  lemma AttemptsGrow(id: string, c: Cell, b: Aggregate, attempt: Attempt, clock: Time)
    requires CellOk(id, c, clock) && c.row.snapshot.status == Queued && Advances(c.row.snapshot, b.data)
    requires attempt.number == attempt.generation == b.data.attemptCount == c.row.snapshot.attemptCount + 1
    requires attempt.status == Started && attempt.finishedAt.None? && attempt.startedAt == b.data.updatedAt
    requires c.row.snapshot.updatedAt <= b.data.updatedAt < b.data.dispatchDeadline && b.data.status == Sending
    ensures AttemptsOk(Stored(c, b).row.snapshot, c.attempts + [attempt])
  {
    var attempts := c.attempts + [attempt];
    forall i | 0 <= i < |attempts| ensures AttemptOk(Stored(c, b).row.snapshot, attempts, i) {
      if i < |c.attempts| {
        assert AttemptOk(c.row.snapshot, c.attempts, i);
      }
    }
  }

  // ----- finalize

  lemma StartedIsLast(attempts: seq<Attempt>, id: string)
    requires |attempts| > 0 && attempts[|attempts| - 1].id == id && attempts[|attempts| - 1].status == Started
    requires forall i :: 0 <= i < |attempts| - 1 ==> attempts[i].status != Started
    ensures FindStarted(attempts, id) == |attempts| - 1
  {
    var i := FindStarted(attempts, id);
    assert attempts[|attempts| - 1].id == id;
  }

  /** The completion of the last, started attempt finds its row. */
  lemma LastIsCompleted(c: Cell, row: Row, done: Completion)
    requires AttemptsOk(c.row.snapshot, c.attempts) && c.row.snapshot.status == Sending && |c.attempts| > 0
    requires ValidCompletion(done) && done.attemptId == c.attempts[|c.attempts| - 1].id
    requires c.attempts[|c.attempts| - 1].startedAt <= done.finishedAt
    ensures CompleteAttempt(c.(row := row), done) ==
            Success(c.(row := row, attempts := c.attempts[..|c.attempts| - 1]
                                               + [Completed(c.attempts[|c.attempts| - 1], done)]))
  {
    var n := |c.attempts| - 1;
    forall i | 0 <= i < n ensures c.attempts[i].status != Started {
      assert AttemptOk(c.row.snapshot, c.attempts, i);
    }
    StartedIsLast(c.attempts, done.attemptId);
    assert c.attempts[n := Completed(c.attempts[n], done)] == c.attempts[..n] + [Completed(c.attempts[n], done)];
  }

  lemma AttemptsSettle(c: Cell, b: Aggregate, done: Completion)
    requires AttemptsOk(c.row.snapshot, c.attempts) && c.row.snapshot.status == Sending && |c.attempts| > 0
    requires Coherent(b.data) && Advances(c.row.snapshot, b.data) && b.data.attemptCount == c.row.snapshot.attemptCount
    requires c.attempts[|c.attempts| - 1].startedAt <= done.finishedAt == b.data.updatedAt
    requires Corresponds(b.data.status, done.status, DispositionOf(b.data.status))
    requires b.data.status == RetryScheduled ==> b.data.updatedAt < b.data.nextAttemptAt.value
    ensures AttemptsOk(Stored(c, b).row.snapshot,
                       c.attempts[..|c.attempts| - 1] + [Completed(c.attempts[|c.attempts| - 1], done)])
  {
    var n := |c.attempts| - 1;
    var attempts := c.attempts[..n] + [Completed(c.attempts[n], done)];
    forall i | 0 <= i < |attempts| ensures AttemptOk(Stored(c, b).row.snapshot, attempts, i) {
      assert AttemptOk(c.row.snapshot, c.attempts, i);
    }
  }

  function DispositionOf(s: Status): Disposition {
    match s
    case ProviderAccepted => DispatchProviderAccepted
    case SubmissionUnknown => DispatchSubmissionUnknown
    case PermanentlyFailed => DispatchPermanentlyFailed
    case RetryScheduled => DispatchRetryScheduled
    case _ => DispatchDeadLettered
  }

  lemma SettleKeepsCell(id: string, c: Cell, r: ProviderResult, now: Time, delay: int, clock: Time)
    requires CellOk(id, c, clock) && c.row.snapshot.status == Sending && |c.attempts| > 0
    requires ValidResult(r) && 0 < delay <= DAY
    requires c.attempts[|c.attempts| - 1].startedAt <= now <= clock
    ensures var last := c.attempts[|c.attempts| - 1];
            var x := ApplyProviderResult(Aggregate(c.row.snapshot, []), last.id, r, now, delay);
            && x.Success?
            && Commit(c, c.row, x.value.aggregate, Complete(x.value.completion)).Success?
            && var c' := Commit(c, c.row, x.value.aggregate, Complete(x.value.completion)).value;
            && CellOk(id, c', clock) && Later(c, c')
            && c'.attempts == c.attempts[..|c.attempts| - 1] + [Completed(last, x.value.completion)]
            && Corresponds(c'.row.snapshot.status, x.value.completion.status, x.value.disposition)
            && (r.outcome == OutcomeFailed <==> x.value.completion.status == AttemptFailed)
            && c'.row == Stored(c, x.value.aggregate).row
  {
    var d, last := c.row.snapshot, c.attempts[|c.attempts| - 1];
    assert AttemptOk(d, c.attempts, |c.attempts| - 1);
    ResultEmits(d, last.id, r, now, delay);
    ProviderResultsAreTotal(Aggregate(d, []), last.id, r, now, delay);
    var x := ApplyProviderResult(Aggregate(d, []), last.id, r, now, delay).value;
    LastIsCompleted(c, Stored(c, x.aggregate).row, x.completion);
    AttemptsSettle(c, x.aggregate, x.completion);
    AdvanceKeepsCell(id, c, x.aggregate, Complete(x.completion), clock);
  }

  // ----- submission

  predicate NewEvent(d: Snapshot, e: Event) {
    && e.messageId == d.id && e.occurredAt == d.updatedAt && e.attemptNumber == 0
    && e.providerMessageId == "" && e.reasonCode == "" && e.fault.None?
  }

  /** The events of a new message: accepted, then scheduled, or queued with a dispatch request. */
  predicate NewShape(d: Snapshot, events: seq<Event>) {
    && d.latestSequence == 2 && (d.status == Queued || d.status == Scheduled)
    && d.generation == (if d.status == Queued then 1 else 0)
    && |events| == (if d.status == Queued then 3 else 2)
    && d.attemptCount == 0 && d.updatedAt != ZERO_TIME
    && (forall i :: 0 <= i < |events| ==> NewEvent(d, events[i]))
    && events[0].from.None? && events[1].from == Some(Accepted)
    && events[0].kind == MessageAccepted && events[0].sequence == 1 && events[0].generation == 0
    && events[0].to == Accepted
    && events[1].kind == StatusChanged && events[1].sequence == 2 && events[1].to == d.status
    && events[1].generation == d.generation
    && (d.status == Queued ==>
          && events[2].kind == DispatchRequested && events[2].sequence == 2 && events[2].generation == 1
          && events[2].from == Some(Queued) && events[2].to == Queued)
  }

  lemma NewHasShape(p: NewParams)
    requires New(p).Success?
    ensures NewShape(New(p).value.data, New(p).value.pending)
  {
    assert AcceptedMessage(p).pending[0] == New(p).value.pending[0];
  }

  /** What the first events of a message are mapped to. */
  predicate MapsNew(row: Row, events: seq<Event>, m: Mapped)
    requires |events| >= 2
  {
    && m.journal == [EntryOf(row, events[0]), EntryOf(row, events[1])]
    && ValidEntry(m.journal[0]) && ValidEntry(m.journal[1])
    && |m.outbox| == |events|
    && (forall i :: 0 <= i < |events| ==>
          MapEvent(row, events[i]).Success? && m.outbox[i] == OutboxRow(row, events[i]))
  }

  lemma NewEventsMap(row: Row, events: seq<Event>)
    requires NewShape(row.snapshot, events) && MapAll(row, events).Success?
    ensures MapsNew(row, events, MapAll(row, events).value)
  {
    var e0, e1 := events[0], events[1];
    assert events[..2] == [e0, e1] && [e0, e1][..1] == [e0] && [e0][..0] == [];
    assert MapSeq(row, []) == Success(Mapped([], []));
    if row.snapshot.status == Queued {
      assert MapSeq(row, events[..2]).Success?;
    } else {
      assert events == [e0, e1];
    }
    assert MapSeq(row, [e0]).Success?;
    assert MapOne(row, e0).Success? && MapOne(row, e1).Success?;
  }

  lemma NewCellOk(q: Request, now: Time, clock: Time)
    requires NewCell(q, now).Success? && 0 < now <= clock
    ensures CellOk(q.messageId, NewCell(q, now).value, clock)
    ensures var c := NewCell(q, now).value;
            && c.row.tenantId == q.tenantId && c.row.idempotencyKey == q.idempotencyKey
            && c.attempts == [] && c.row.snapshot.version == 0
            && (c.row.snapshot.status == Scheduled || c.row.snapshot.status == Queued)
  {
    var p := NewParams(q.messageId, now, q.scheduledAt, q.dispatchDeadline, MaxAttemptsFor(q.category));
    NewIsCoherent(p);
    NewHasShape(p);
    var a := New(p).value;
    var row := Row(q.tenantId, q.idempotencyKey, q.fingerprint, a.data);
    var c := NewCell(q, now).value;
    NewEventsMap(row, a.pending);
    NewHistory(row, a.pending, MapAll(row, a.pending).value, c);
  }

  /** Two entries with different numbers enter an empty journal. */
  lemma NewJournal(e0: JournalEntry, e1: JournalEntry)
    requires e0.sequence != e1.sequence && ValidEntry(e0) && ValidEntry(e1)
    ensures AppendJournal([], [e0, e1]) == Success([e0, e1])
  {
    AppendOneEntry([], e0);
    assert [e0, e1][..1] == [e0] && [] + [e0] == [e0] && [e0] + [e1] == [e0, e1];
    assert AppendEntry([e0], e1) == Success([e0, e1]);
  }

  lemma NewOutbox(os: seq<OutboxEvent>)
    requires (|os| == 2 || |os| == 3) && AllValidRows(os)
    requires forall i, j :: 0 <= i < j < |os| ==> os[i].id != os[j].id
    ensures AppendOutbox([], os) == Success(os)
  {
    AppendRows([], os[..2]);
    assert [] + os[..2] == os[..2];
    if |os| == 2 {
      assert os[..2] == os;
    } else {
      assert os[..2] + [os[2]] == os;
      assert AppendOutboxRow(os[..2], os[2]) == Success(os);
    }
  }

  /** The first events of a message enter empty tables unchanged. */
  lemma NewTables(row: Row, m: Mapped, c: Cell)
    requires |m.journal| == 2 && ValidEntry(m.journal[0]) && ValidEntry(m.journal[1])
    requires m.journal[0].sequence != m.journal[1].sequence
    requires |m.outbox| == 2 || |m.outbox| == 3
    requires forall i, j :: 0 <= i < j < |m.outbox| ==> m.outbox[i].id != m.outbox[j].id
    requires AppendEvents(Cell(row, [], [], []), m) == Success(c)
    ensures c == Cell(row, [], m.journal, m.outbox)
  {
    assert m.journal == [m.journal[0], m.journal[1]];
    NewJournal(m.journal[0], m.journal[1]);
    NewOutbox(m.outbox);
    AppendsCompose(Cell(row, [], [], []), m, m.journal, m.outbox);
  }

  /** The first rows of a message meet no unique constraint among themselves. */
  lemma NewRowsDiffer(row: Row, events: seq<Event>, m: Mapped)
    requires NewShape(row.snapshot, events) && MapsNew(row, events, m)
    ensures m.journal[0].sequence != m.journal[1].sequence
    ensures |m.outbox| == 2 || |m.outbox| == 3
    ensures forall i, j :: 0 <= i < j < |m.outbox| ==> m.outbox[i].id != m.outbox[j].id
  {
    forall i | 0 <= i < |events| ensures m.outbox[i].id == StableEventId(events[i]) {
    }
  }

  lemma NewHistory(row: Row, events: seq<Event>, m: Mapped, c: Cell)
    requires NewShape(row.snapshot, events) && MapsNew(row, events, m)
    requires AppendEvents(Cell(row, [], [], []), m) == Success(c)
    ensures HistoryOk(c) && c.row == row && c.attempts == []
  {
    NewRowsDiffer(row, events, m);
    assert c == Cell(row, [], m.journal, m.outbox) by { NewTables(row, m, c); }
    NewOutboxOk(row, events, m, c);
  }

  lemma NewOutboxOk(row: Row, events: seq<Event>, m: Mapped, c: Cell)
    requires NewShape(row.snapshot, events) && MapsNew(row, events, m) && c == Cell(row, [], m.journal, m.outbox)
    ensures HistoryOk(c)
  {
    NewJournalOk(c, m.journal[0], m.journal[1]);
    assert Ids(c.outbox) == Expand(c.journal);
    NewPayloadsOk(row, events, m);
  }

  lemma NewPayloadsOk(row: Row, events: seq<Event>, m: Mapped)
    requires NewShape(row.snapshot, events) && MapsNew(row, events, m)
    ensures forall i :: 0 <= i < |m.outbox| ==> OutboxRowOk(row, m.outbox[i]) && PayloadOk(m.journal, m.outbox[i])
  {
    forall i | 0 <= i < |m.outbox| ensures OutboxRowOk(row, m.outbox[i]) && PayloadOk(m.journal, m.outbox[i]) {
      assert NewEvent(row.snapshot, events[i]) && m.outbox[i] == OutboxRow(row, events[i]);
    }
  }

  lemma NewJournalOk(c: Cell, e0: JournalEntry, e1: JournalEntry)
    requires c.journal == [e0, e1]
    requires var d := c.row.snapshot;
             && d.latestSequence == 2 && d.generation == (if d.status == Queued then 1 else 0)
             && (d.status == Queued || d.status == Scheduled)
             && e0.sequence == 1 && e0.messageId == d.id && e0.status == Accepted
             && e0.id == EventId(d.id, MessageAccepted, 1, 0)
             && e1.sequence == 2 && e1.messageId == d.id && e1.status == d.status
             && e1.id == EventId(d.id, StatusChanged, 2, d.generation)
             && SameOrigin(c.row, e0) && SameOrigin(c.row, e1)
             && e1.occurredAt == d.updatedAt && e1.attemptNumber == d.attemptCount
    ensures JournalOk(c)
    ensures Expand(c.journal) == ExpandEntry(e0) + ExpandEntry(e1)
  {
    var j := c.journal;
    assert j[..1] == [e0] && j[..2] == j && [e0][..0] == [];
    assert QueuedCount([e0]) == 0;
    assert EntryOk(c.row.snapshot.id, j, 0) && EntryOk(c.row.snapshot.id, j, 1);
    assert Expand([e0]) == ExpandEntry(e0) by { assert Expand([]) + ExpandEntry(e0) == ExpandEntry(e0); }
  }
}
