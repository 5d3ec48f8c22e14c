/**
 The worker's transactions as the service runs them: an aggregate object is restored from the
 record read, changed in place, and written through the shared tables; any failure restores the
 tables. Each is proved to have exactly the effect of its decision function, for whatever state
 the tables are in when it writes.
 */
module Transactions {
  import opened Common
  import opened Statuses
  import opened Messages
  import opened MessageObject
  import opened EventMapping
  import opened Providers
  import opened Store
  import opened Wire
  import opened Worker
  import opened Database

  /** All entries and rows mapped from a record belong to the record's message. */
  lemma {:induction false} MappedForOne(row: Row, events: seq<Event>)
    requires MapSeq(row, events).Success?
    ensures forall e <- MapSeq(row, events).value.journal :: e.messageId == row.snapshot.id
    ensures forall o <- MapSeq(row, events).value.outbox :: o.aggregateId == row.snapshot.id
  {
    if events == [] {
    } else {
      MappedForOne(row, events[..|events| - 1]);
    }
  }

  lemma {:induction false} SelectAll<T>(ts: seq<T>, key: T -> string, id: string)
    requires forall t <- ts :: key(t) == id
    ensures Select(ts, key, id) == ts
  {
    if ts == [] {
    } else {
      var init, last := ts[..|ts| - 1], ts[|ts| - 1];
      SelectAll(init, key, id);
      assert key(last) == id && ts == init + [last];
    }
  }

  lemma {:induction false} SelectNone<T>(ts: seq<T>, key: T -> string, id: string)
    requires forall t <- ts :: key(t) != id
    ensures Select(ts, key, id) == []
  {
    if ts == [] {
    } else {
      SelectNone(ts[..|ts| - 1], key, id);
    }
  }

  /** Inserts for one message change that message only. */
  lemma {:induction false} InsertsForOne<T>(db: Db, id: string, ts: seq<T>, key: T -> string,
                                            put: (Cell, T) -> Result<Cell, StoreError>)
    requires id in db && forall t <- ts :: key(t) == id
    ensures PutAllTo(db, ts, key, put) ==
            match PutAll(db[id], ts, put)
            case Success(c) => Success(db[id := c])
            case Failure(e) => Failure(e)
  {
    if ts == [] {
      assert db[id := db[id]] == db;
    } else {
      InsertsForOne(db, id, ts[..|ts| - 1], key, put);
      var init := PutAll(db[id], ts[..|ts| - 1], put);
      if init.Success? && put(init.value, ts[|ts| - 1]).Success? {
        UpdatedTwice(db, id, init.value, put(init.value, ts[|ts| - 1]).value);
      }
    }
  }

  lemma UpdatedTwice(db: Db, id: string, c: Cell, c': Cell)
    ensures db[id := c][id := c'] == db[id := c']
  {
  }

  /** The two append statements of one message do what AppendEvents does to its cell. */
  lemma AppendsForOne(db: Db, id: string, m: Mapped)
    requires id in db
    requires (forall e <- m.journal :: EntryKey(e) == id) && (forall o <- m.outbox :: RowKey(o) == id)
    ensures var entries := PutAllTo(db, m.journal, EntryKey, PutEntry);
            match AppendEvents(db[id], m)
            case Success(c) => entries.Success? && RowsTo(entries.value, m.outbox) == Success(db[id := c])
            case Failure(e) =>
              || entries == Failure(e)
              || (entries.Success? && RowsTo(entries.value, m.outbox) == Failure(e))
  {
    InsertsForOne(db, id, m.journal, EntryKey, PutEntry);
    EntriesOfOne(db[id], m.journal);
    var entries := PutAllTo(db, m.journal, EntryKey, PutEntry);
    if entries.Success? {
      InsertsForOne(entries.value, id, m.outbox, RowKey, PutRow);
      RowsOfOne(entries.value[id], m.outbox);
      if AppendEvents(db[id], m).Success? {
        UpdatedTwice(db, id, entries.value[id], AppendEvents(db[id], m).value);
      }
    }
  }

  method AppendMapped(tables: Tables, id: string, m: Mapped) returns (err: Option<StoreError>)
    requires id in tables.cells
    requires (forall e <- m.journal :: EntryKey(e) == id) && (forall o <- m.outbox :: RowKey(o) == id)
    modifies tables
    ensures Wrote(On(old(tables.cells), id, ConstraintViolation, c => AppendEvents(c, m)), tables.cells, err)
  {
    AppendsForOne(tables.cells, id, m);
    err := tables.AppendEntries(m.journal);
    if err.None? {
      err := tables.AppendRows(m.outbox);
    }
  }

  method WriteAttemptRow(tables: Tables, id: string, w: AttemptWrite) returns (err: Option<StoreError>)
    requires id in tables.cells
    modifies tables
    ensures Wrote(On(old(tables.cells), id, AttemptConflict, c => WriteAttempt(c, w)), tables.cells, err)
  {
    match w
    case NoAttemptWrite =>
      assert tables.cells[id := tables.cells[id]] == tables.cells;
      err := None;
    case Start(a) => err := tables.CreateStarted(id, a);
    case Complete(done) => err := tables.CompleteStarted(id, done);
  }

  /** The statements of a write phase, one after the other on the whole database. */
  function WriteTo(db: Db, d: Snapshot, w: AttemptWrite, m: Mapped): Result<Db, StoreError> {
    if !InRange(d) then Failure(InvalidRecord)
    else
      var saved :- On(db, d.id, ConcurrentUpdate, c => Store.Save(c, d));
      var written :- On(saved, d.id, AttemptConflict, c => WriteAttempt(c, w));
      On(written, d.id, ConstraintViolation, c => AppendEvents(c, m))
  }

  lemma WriteToIsCommit(db: Db, read: Row, a: Aggregate, w: AttemptWrite)
    requires MapAll(read, a.pending).Success?
    ensures CommitTo(db, read, a, w) == WriteTo(db, a.data, w, MapAll(read, a.pending).value)
  {
    if CommitTo(db, read, a, w).Success? {
      var id := a.data.id;
      var saved := Store.Save(db[id], a.data).value;
      var written := WriteAttempt(saved, w).value;
      var c := AppendEvents(written, MapAll(read, a.pending).value).value;
      UpdatedTwice(db, id, saved, written);
      UpdatedTwice(db, id, written, c);
    }
  }

  method WriteAll(tables: Tables, d: Snapshot, w: AttemptWrite, m: Mapped) returns (err: Option<StoreError>)
    requires (forall e <- m.journal :: EntryKey(e) == d.id) && (forall o <- m.outbox :: RowKey(o) == d.id)
    modifies tables
    ensures Wrote(WriteTo(old(tables.cells), d, w, m), tables.cells, err)
  {
    err := tables.Save(d);
    if err.None? {
      err := WriteAttemptRow(tables, d.id, w);
    }
    if err.None? {
      err := AppendMapped(tables, d.id, m);
    }
  }

  /** Map, save, write the attempt, append: the write phase shared by claim and finalize, with its rollback. */
  method SaveWithEvents(tables: Tables, read: Row, message: Message, w: AttemptWrite) returns (err: Option<StoreError>)
    requires read.snapshot.id == message.id
    modifies tables
    ensures match CommitTo(old(tables.cells), read, message.View(), w)
            case Success(db) => err.None? && tables.cells == db
            case Failure(e) => err == Some(e) && tables.cells == old(tables.cells)
  {
    var before := tables.cells;
    var mapped := MapAllEvents(read, message.pendingEvents);
    if mapped.Failure? {
      return Some(Unmappable(mapped.error));
    }
    MappedForOne(read, message.pendingEvents);
    WriteToIsCommit(tables.cells, read, message.View(), w);
    err := WriteAll(tables, message.ToSnapshot(), w, mapped.value);
    if err.Some? {
      tables.cells := before;
    }
  }

  // ----- claim

  method CommitClaim(tables: Tables, read: Option<Row>, cmd: Command, now: Time, attemptId: string, providerKey: string)
    returns (outcome: ClaimOutcome)
    modifies tables
    ensures (tables.cells, outcome) == Claim(old(tables.cells), read, cmd, now, attemptId, providerKey)
  {
    if read.None? {
      return ClaimFailed(MessageMissing);
    }
    var row := read.value;
    var restored := Message.Rehydrate(row.snapshot);
    if restored.Failure? {
      return ClaimFailed(CorruptRecord);
    }
    var message := restored.value;
    if row.tenantId != cmd.tenantId {
      return ClaimFailed(TenantMismatch);
    }
    if cmd.generation < message.dispatchGeneration || cmd.sequence < message.latestSequence {
      return Resolved(DispatchStale);
    }
    if cmd.generation > message.dispatchGeneration || cmd.sequence > message.latestSequence {
      return ClaimFailed(CommandAhead);
    }
    if message.status != Queued {
      return Resolved(DispatchDuplicate);
    }
    if now >= message.dispatchDeadline {
      var changed, refused := message.Expire(now);
      if refused.Some? || !changed {
        return ClaimFailed(CannotExpire);
      }
      var err := SaveWithEvents(tables, row, message, NoAttemptWrite);
      if err.Some? {
        return ClaimFailed(StoreFailed(err.value));
      }
      return Resolved(DispatchExpired);
    }
    var refused := message.StartSending(cmd.generation, now);
    if refused.Some? {
      return ClaimFailed(CannotStart);
    }
    var attempt := Attempt(attemptId, message.attemptCount, cmd.generation, providerKey, Started, now, None, "", None);
    if !ValidStarted(attempt) {
      return ClaimFailed(InvalidAttempt);
    }
    var err := SaveWithEvents(tables, row, message, Start(attempt));
    if err.Some? {
      return ClaimFailed(StoreFailed(err.value));
    }
    return Holding(attempt);
  }

  predicate RowsKeyed(db: Db) {
    forall id :: id in db ==> db[id].row.snapshot.id == id
  }

  lemma {:induction false} EntriesNeverRace(journal: seq<JournalEntry>, es: seq<JournalEntry>)
    ensures AppendJournal(journal, es) != Failure(ConcurrentUpdate)
  {
    if es == [] {
    } else {
      EntriesNeverRace(journal, es[..|es| - 1]);
    }
  }

  lemma {:induction false} RowsNeverRace(outbox: seq<OutboxEvent>, os: seq<OutboxEvent>)
    ensures InsertOutbox(outbox, os) != Failure(ConcurrentUpdate)
  {
    if os == [] {
    } else {
      RowsNeverRace(outbox, os[..|os| - 1]);
    }
  }

  lemma AppendsNeverRace(c: Cell, m: Mapped)
    ensures AppendEvents(c, m) != Failure(ConcurrentUpdate)
  {
    EntriesNeverRace(c.journal, m.journal);
    RowsNeverRace(c.outbox, m.outbox);
  }

  /** Only a version that moved on makes the write phase lose. */
  lemma FreshReadWins(db: Db, id: string, a: Aggregate, w: AttemptWrite)
    requires id in db && a.data.id == id && a.data.version == db[id].row.snapshot.version
    ensures CommitTo(db, db[id].row, a, w) != Failure(ConcurrentUpdate)
  {
    var mapped := MapAll(db[id].row, a.pending);
    var saved := Store.Save(db[id], a.data);
    if mapped.Success? && saved.Success? && WriteAttempt(saved.value, w).Success? {
      AppendsNeverRace(WriteAttempt(saved.value, w).value, mapped.value);
    }
  }

  /** A claim that nobody interrupts between reading and writing: it never meets a concurrent update. */
  method ClaimUninterrupted(tables: Tables, cmd: Command, now: Time, attemptId: string, providerKey: string)
    returns (outcome: ClaimOutcome)
    requires RowsKeyed(tables.cells)
    modifies tables
    ensures (tables.cells, outcome) ==
            Claim(old(tables.cells), ReadRow(old(tables.cells), cmd.messageId), cmd, now, attemptId, providerKey)
    ensures outcome != ClaimFailed(StoreFailed(ConcurrentUpdate))
    ensures outcome == ClaimFailed(MessageMissing) <==> cmd.messageId !in old(tables.cells)
  {
    var read := tables.GetById(cmd.messageId);
    if read.Some? {
      var d := read.value.snapshot;
      match DecideClaim(read, cmd, now, attemptId, providerKey)
      case ExpireWith(a) => FreshReadWins(tables.cells, d.id, a, NoAttemptWrite);
      case StartWith(a, attempt) => FreshReadWins(tables.cells, d.id, a, Start(attempt));
      case _ =>
    }
    outcome := CommitClaim(tables, read, cmd, now, attemptId, providerKey);
  }

  // ----- finalize

  method ResolveWith(message: Message, attemptId: string, r: ProviderResult, now: Time, delay: int)
    returns (x: Result<(Completion, Disposition), ResolveError>)
    requires ValidResult(r)
    modifies message
    ensures match ApplyProviderResult(old(message.View()), attemptId, r, now, delay)
            case Success(y) => x == Success((y.completion, y.disposition)) && message.View() == y.aggregate
            case Failure(e) => x == Failure(e)
  {
    var done := Completion(attemptId, Started, now, r.providerMessageId, r.fault);
    var refused: Option<DomainError>;
    var disposition: Disposition;
    match r.outcome {
    case OutcomeAccepted =>
      done := done.(status := AttemptAccepted);
      disposition := DispatchProviderAccepted;
      var _, err := message.ApplyDeliveryFact(Fact(FactProviderAccepted, now, r.providerMessageId));
      refused := err;
    case OutcomeSubmissionUnknown =>
      done := done.(status := AttemptUnknown);
      disposition := DispatchSubmissionUnknown;
      refused := message.MarkSubmissionUnknown(r.fault.value, now);
    case OutcomeFailed =>
      done := done.(status := AttemptFailed);
      var fault := r.fault.value;
      if !fault.retryable {
        disposition := DispatchPermanentlyFailed;
        refused := message.MarkPermanentlyFailed(fault, now);
      } else {
        var retry := false;
        if message.attemptCount < message.maxAttempts {
          if delay <= 0 || delay > DAY {
            return Failure(InvalidRetryDelay);
          }
          retry := now + delay < message.dispatchDeadline;
        }
        if retry {
          disposition := DispatchRetryScheduled;
          refused := message.ScheduleRetry(fault, now + delay, now);
        } else {
          disposition := DispatchDeadLettered;
          refused := message.MarkDeadLettered(fault, now);
        }
      }
    case OutcomeOther =>
      return Failure(UnexpectedOutcome);
    }
    if refused.Some? {
      return Failure(DomainRejected(refused.value));
    }
    return Success((done, disposition));
  }

  /** The provider's result is applied and written, or the tables stay as they were. */
  method Settle(tables: Tables, row: Row, message: Message, attempt: Attempt, r: ProviderResult, now: Time, delay: int)
    returns (outcome: FinalizeOutcome)
    requires ValidResult(r) && row.snapshot.id == message.id
    modifies tables, message
    ensures match ApplyProviderResult(old(message.View()), attempt.id, r, now, delay)
            case Failure(e) => outcome == FinalizeFailed(NotAdvanced(e)) && tables.cells == old(tables.cells)
            case Success(x) =>
              match CommitTo(old(tables.cells), row, x.aggregate, Complete(x.completion))
              case Success(db) => outcome == Finalized(x.disposition) && tables.cells == db
              case Failure(e) => outcome == FinalizeFailed(WriteFailed(e)) && tables.cells == old(tables.cells)
  {
    ghost var before := message.View();
    var x := ResolveWith(message, attempt.id, r, now, delay);
    if x.Failure? {
      return FinalizeFailed(NotAdvanced(x.error));
    }
    ResultKeepsId(before, attempt.id, r, now, delay);
    var err := SaveWithEvents(tables, row, message, Complete(x.value.0));
    if err.Some? {
      return FinalizeFailed(WriteFailed(err.value));
    }
    return Finalized(x.value.1);
  }

  lemma ResultKeepsId(a: Aggregate, attemptId: string, r: ProviderResult, now: Time, delay: int)
    requires ValidResult(r) && ApplyProviderResult(a, attemptId, r, now, delay).Success?
    ensures ApplyProviderResult(a, attemptId, r, now, delay).value.aggregate.data.id == a.data.id
  {
  }

  method CommitFinalize(tables: Tables, read: Option<Row>, attempt: Attempt, r: ProviderResult, now: Time, delay: int)
    returns (outcome: FinalizeOutcome)
    requires ValidResult(r)
    modifies tables
    ensures (tables.cells, outcome) == Finalize(old(tables.cells), read, attempt, r, now, delay)
  {
    if read.None? {
      return FinalizeFailed(RecordMissing);
    }
    var row := read.value;
    var restored := Message.Rehydrate(row.snapshot);
    if restored.Failure? {
      return FinalizeFailed(RecordCorrupt);
    }
    var message := restored.value;
    if message.dispatchGeneration != attempt.generation || message.attemptCount != attempt.number {
      return FinalizeFailed(FenceMismatch);
    }
    if message.status != Sending {
      return Finalized(DispatchDuplicate);
    }
    outcome := Settle(tables, row, message, attempt, r, now, delay);
  }

  // ----- submission

  /**
   The insert-or-nothing on (tenant, idempotency key): an invalid record is refused; a taken key yields the stored record when the
   payload is the same and a conflict when it is not; only a free key and a free id insert the row.
   */
  method Create(tables: Tables, row: Row) returns (err: Option<SubmitError>, existing: Option<Row>)
    modifies tables
    ensures !ValidForCreate(row) ==>
            err == Some(SubmitWrite(InvalidRecord)) && existing.None? && tables.cells == old(tables.cells)
    ensures ValidForCreate(row) && KeyTaken(old(tables.cells), row.tenantId, row.idempotencyKey) ==>
            && tables.cells == old(tables.cells)
            && (exists id :: id in old(tables.cells)
                  && HoldsKey(old(tables.cells), id, row.tenantId, row.idempotencyKey)
                  && var found := old(tables.cells)[id].row;
                     if found.fingerprint == row.fingerprint then err.None? && existing == Some(found)
                     else err == Some(IdempotencyConflict) && existing.None?)
    ensures ValidForCreate(row) && !KeyTaken(old(tables.cells), row.tenantId, row.idempotencyKey) ==>
            && existing.None?
            && if row.snapshot.id in old(tables.cells) then
                 err == Some(MessageIdConflict) && tables.cells == old(tables.cells)
               else if !RowChecks(row.snapshot) then
                 err == Some(SubmitWrite(ConstraintViolation)) && tables.cells == old(tables.cells)
               else
                 err.None? && tables.cells == old(tables.cells)[row.snapshot.id := Cell(row, [], [], [])]
  {
    err, existing := None, None;
    if !ValidForCreate(row) {
      err := Some(SubmitWrite(InvalidRecord));
    } else if KeyTaken(tables.cells, row.tenantId, row.idempotencyKey) {
      var id :| id in tables.cells && HoldsKey(tables.cells, id, row.tenantId, row.idempotencyKey);
      var found := tables.cells[id].row;
      if found.fingerprint != row.fingerprint {
        err := Some(IdempotencyConflict);
      } else {
        existing := Some(found);
      }
    } else if row.snapshot.id in tables.cells {
      err := Some(MessageIdConflict);
    } else if !RowChecks(row.snapshot) {
      err := Some(SubmitWrite(ConstraintViolation));
    } else {
      tables.cells := tables.cells[row.snapshot.id := Cell(row, [], [], [])];
    }
  }

  /** The journal entries and outbox rows of a message whose row was just inserted. */
  method FillMessage(tables: Tables, row: Row, events: seq<Event>) returns (err: Option<SubmitError>)
    requires row.snapshot.id in tables.cells && tables.cells[row.snapshot.id] == Cell(row, [], [], [])
    requires ValidForCreate(row) && RowChecks(row.snapshot)
    modifies tables
    ensures match FilledCell(row, events)
            case Success(c) => err.None? && tables.cells == old(tables.cells)[row.snapshot.id := c]
            case Failure(e) => err == Some(e)
  {
    var mapped := MapAllEvents(row, events);
    if mapped.Failure? {
      return Some(SubmitWrite(Unmappable(mapped.error)));
    }
    MappedForOne(row, events);
    var refused := AppendMapped(tables, row.snapshot.id, mapped.value);
    if refused.Some? {
      return Some(SubmitWrite(refused.value));
    }
    return None;
  }

  predicate Insertable(db: Db, row: Row, events: seq<Event>) {
    && !KeyTaken(db, row.tenantId, row.idempotencyKey) && row.snapshot.id !in db
    && FilledCell(row, events).Success?
  }

  /** The new rows of one message, all or none. */
  method InsertMessage(tables: Tables, row: Row, events: seq<Event>) returns (outcome: SubmitOutcome)
    modifies tables
    ensures tables.cells == (if Insertable(old(tables.cells), row, events)
                             then old(tables.cells)[row.snapshot.id := FilledCell(row, events).value]
                             else old(tables.cells))
    ensures outcome.SubmitAccepted? <==> Insertable(old(tables.cells), row, events)
    ensures outcome.SubmitDuplicate? ==>
            exists id :: id in old(tables.cells) && HoldsKey(old(tables.cells), id, row.tenantId, row.idempotencyKey)
              && outcome.row == old(tables.cells)[id].row && outcome.row.fingerprint == row.fingerprint
  {
    var saved := tables.cells;
    var refused, existing := Create(tables, row);
    if refused.Some? {
      return SubmitFailed(refused.value);
    }
    if existing.Some? {
      return SubmitDuplicate(existing.value);
    }
    var err := FillMessage(tables, row, events);
    if err.Some? {
      tables.cells := saved;
      return SubmitFailed(err.value);
    }
    return SubmitAccepted;
  }

  // ----- the reliable store

  /** A message is saved with its events in one transaction; the events are cleared only once they are stored. */
  method ReliableSave(tables: Tables, read: Row, message: Message) returns (err: Option<StoreError>)
    requires read.snapshot.id == message.id
    modifies tables, message
    ensures err.None? <==>
            ValidRecord(read) && CommitTo(old(tables.cells), read, old(message.View()), NoAttemptWrite).Success?
    ensures err.None? ==>
            && tables.cells == CommitTo(old(tables.cells), read, old(message.View()), NoAttemptWrite).value
            && message.View() == Pull(old(message.View()))
    ensures err.Some? ==> tables.cells == old(tables.cells) && message.View() == old(message.View())
  {
    if !ValidRecord(read) {
      return Some(InvalidRecord);
    }
    err := SaveWithEvents(tables, read, message, NoAttemptWrite);
    if err.None? {
      var _ := message.PullEvents();
    }
  }

  method ReliableCreate(tables: Tables, row: Row, message: Message) returns (outcome: SubmitOutcome)
    requires row.snapshot == message.ToSnapshot()
    modifies tables, message
    ensures tables.cells == (if Insertable(old(tables.cells), row, old(message.pendingEvents))
                             then old(tables.cells)[row.snapshot.id := FilledCell(row, old(message.pendingEvents)).value]
                             else old(tables.cells))
    ensures outcome.SubmitAccepted? <==> Insertable(old(tables.cells), row, old(message.pendingEvents))
    ensures message.View() == if outcome.SubmitAccepted? then Pull(old(message.View())) else old(message.View())
  {
    var mapped := MapAllEvents(row, message.pendingEvents);
    if mapped.Failure? {
      return SubmitFailed(SubmitWrite(Unmappable(mapped.error)));
    }
    outcome := InsertMessage(tables, row, message.pendingEvents);
    if outcome.SubmitAccepted? {
      var _ := message.PullEvents();
    }
  }

  // ----- the submission service

  method CommitSubmit(tables: Tables, q: Request, now: Time) returns (outcome: SubmitOutcome)
    modifies tables
    ensures tables.cells == SubmitTo(old(tables.cells), q, now)
    ensures outcome.SubmitAccepted? <==> q.messageId in tables.cells && q.messageId !in old(tables.cells)
    ensures outcome.SubmitDuplicate? ==>
            exists id :: id in old(tables.cells) && HoldsKey(old(tables.cells), id, q.tenantId, q.idempotencyKey)
              && outcome.row == old(tables.cells)[id].row && outcome.row.fingerprint == q.fingerprint
  {
    if !ValidSubmissionTimes(now, q.scheduledAt, q.dispatchDeadline) {
      return SubmitFailed(InvalidTimes);
    }
    var made := Message.CreateNew(NewParams(q.messageId, now, q.scheduledAt, q.dispatchDeadline, MaxAttemptsFor(q.category)));
    if made.Failure? {
      return SubmitFailed(CannotConstruct);
    }
    var message := made.value;
    var row := Row(q.tenantId, q.idempotencyKey, q.fingerprint, message.ToSnapshot());
    outcome := InsertMessage(tables, row, message.pendingEvents);
  }
}
