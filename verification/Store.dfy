/**
 The database tables of the delivery core and the statements that change them. Every row
 carries the id of its message, so the tables are kept per message: a Cell holds the message
 row and, in insertion order, its attempts, its journal and its outbox rows. Each unique
 constraint of the schema names the message id, so it is a constraint on one cell.
 */
module Store {
  import opened Common
  import opened Statuses
  import opened Messages
  import opened EventMapping
  import opened Providers

  datatype Attempt = Attempt(
    id: string,
    number: nat,
    generation: nat,
    providerKey: string,
    status: AttemptStatus,
    startedAt: Time,
    finishedAt: Option<Time>,
    providerMessageId: string,
    fault: Option<Fault>)

  datatype Cell = Cell(row: Row, attempts: seq<Attempt>, journal: seq<JournalEntry>, outbox: seq<OutboxEvent>)

  type Db = map<string, Cell>

  datatype StoreError =
    | InvalidRecord
    | ConcurrentUpdate
    | ConstraintViolation
    | AttemptConflict
    | JournalConflict
    | OutboxConflict
    | Unmappable(error: MapError)

  /** The columns fit PostgreSQL's integer types and the version can still be incremented. */
  predicate InRange(s: Snapshot) {
    && s.generation <= MAX_INT64 && s.latestSequence <= MAX_INT64 && s.version < MAX_INT64
    && s.attemptCount <= MAX_INT32 && s.maxAttempts <= MAX_INT32
  }

  /** The CHECK constraints of table mail_messages on the lifecycle columns. */
  predicate RowChecks(s: Snapshot) {
    && (s.scheduledAt.Some? ==> s.scheduledAt.value < s.dispatchDeadline)
    && (s.nextAttemptAt.Some? ==> s.nextAttemptAt.value < s.dispatchDeadline)
    && s.dispatchDeadline > s.acceptedAt && s.updatedAt >= s.acceptedAt
    && s.maxAttempts > 0 && s.attemptCount <= s.maxAttempts && s.latestSequence > 0
    && (s.status == RetryScheduled ==> s.nextAttemptAt.Some?)
    && (RequiresGeneration(s.status) ==> s.generation > 0)
    && (RequiresAttempt(s.status) ==> s.attemptCount > 0)
    && (s.lastFault.Some? ==> !OnlySpaces(s.lastFault.value.code))
  }

  /** The optimistic lock: the update applies only to the version the aggregate was read at. */
  function Save(c: Cell, d: Snapshot): Result<Cell, StoreError> {
    if !InRange(d) then Failure(InvalidRecord)
    else if c.row.snapshot.version != d.version then Failure(ConcurrentUpdate)
    else if !RowChecks(d.(acceptedAt := c.row.snapshot.acceptedAt)) then Failure(ConstraintViolation)
    else
      var stored := d.(id := c.row.snapshot.id, acceptedAt := c.row.snapshot.acceptedAt, version := d.version + 1);
      Success(c.(row := c.row.(snapshot := stored)))
  }

  predicate AttemptTaken(attempts: seq<Attempt>, a: Attempt) {
    exists i :: 0 <= i < |attempts|
                && (attempts[i].id == a.id || attempts[i].number == a.number || attempts[i].generation == a.generation)
  }

  predicate ValidStarted(a: Attempt) {
    0 < a.number <= MAX_INT32 && 0 < a.generation <= MAX_INT64 && a.startedAt != ZERO_TIME
  }

  function StartAttempt(c: Cell, a: Attempt): Result<Cell, StoreError> {
    if !ValidStarted(a) then Failure(InvalidRecord)
    else if AttemptTaken(c.attempts, a) then Failure(AttemptConflict)
    else Success(c.(attempts := c.attempts + [a]))
  }

  function Completed(a: Attempt, done: Completion): Attempt {
    a.(status := done.status, finishedAt := Some(done.finishedAt), providerMessageId := done.providerMessageId,
       fault := done.fault)
  }

  /** The index of the started row with the given id; |attempts| when there is none. */
  function FindStarted(attempts: seq<Attempt>, id: string): (i: nat)
    ensures i <= |attempts|
    ensures i < |attempts| ==> attempts[i].id == id && attempts[i].status == Started
    ensures forall j :: 0 <= j < i ==> !(attempts[j].id == id && attempts[j].status == Started)
  {
    if attempts == [] then 0
    else if attempts[0].id == id && attempts[0].status == Started then 0
    else 1 + FindStarted(attempts[1..], id)
  }

  /** Only a started row can be completed, and only once. */
  function CompleteAttempt(c: Cell, done: Completion): Result<Cell, StoreError> {
    var i := FindStarted(c.attempts, done.attemptId);
    if !ValidCompletion(done) then Failure(InvalidRecord)
    else if i == |c.attempts| then Failure(AttemptConflict)
    else if done.finishedAt < c.attempts[i].startedAt then Failure(ConstraintViolation)
    else Success(c.(attempts := c.attempts[i := Completed(c.attempts[i], done)]))
  }

  datatype AttemptWrite = NoAttemptWrite | Start(attempt: Attempt) | Complete(completion: Completion)

  function WriteAttempt(c: Cell, w: AttemptWrite): Result<Cell, StoreError> {
    match w
    case NoAttemptWrite => Success(c)
    case Start(a) => StartAttempt(c, a)
    case Complete(done) => CompleteAttempt(c, done)
  }

  /** One entry per (message, sequence): repeating the same entry is accepted, a different one is a conflict. */
  function AppendEntry(journal: seq<JournalEntry>, e: JournalEntry): Result<seq<JournalEntry>, StoreError> {
    if !ValidEntry(e) then Failure(InvalidRecord)
    else if forall i :: 0 <= i < |journal| ==> journal[i].sequence != e.sequence then Success(journal + [e])
    else if e in journal then Success(journal)
    else Failure(JournalConflict)
  }

  function AppendJournal(journal: seq<JournalEntry>, es: seq<JournalEntry>): Result<seq<JournalEntry>, StoreError> {
    if es == [] then Success(journal)
    else
      var init :- AppendJournal(journal, es[..|es| - 1]);
      AppendEntry(init, es[|es| - 1])
  }

  function AppendOutboxRow(outbox: seq<OutboxEvent>, o: OutboxEvent): Result<seq<OutboxEvent>, StoreError> {
    if forall i :: 0 <= i < |outbox| ==> outbox[i].id != o.id then Success(outbox + [o])
    else if o in outbox then Success(outbox)
    else Failure(OutboxConflict)
  }

  function InsertOutbox(outbox: seq<OutboxEvent>, os: seq<OutboxEvent>): Result<seq<OutboxEvent>, StoreError> {
    if os == [] then Success(outbox)
    else
      var init :- InsertOutbox(outbox, os[..|os| - 1]);
      AppendOutboxRow(init, os[|os| - 1])
  }

  /** What the repository checks of an outbox row before any is written. */
  predicate ValidOutboxRow(o: OutboxEvent) {
    && !Blank(o.aggregateType) && |o.aggregateType| <= 64 && !Blank(o.eventType) && |o.eventType| <= 128
    && 0 < o.sequence <= MAX_INT64 && o.generation <= MAX_INT64
  }

  predicate AllValidRows(os: seq<OutboxEvent>) {
    forall i :: 0 <= i < |os| ==> ValidOutboxRow(os[i])
  }

  function AppendOutbox(outbox: seq<OutboxEvent>, os: seq<OutboxEvent>): Result<seq<OutboxEvent>, StoreError> {
    if AllValidRows(os) then InsertOutbox(outbox, os) else Failure(InvalidRecord)
  }

  function AppendEvents(c: Cell, m: Mapped): Result<Cell, StoreError> {
    var journal :- AppendJournal(c.journal, m.journal);
    var outbox :- AppendOutbox(c.outbox, m.outbox);
    Success(c.(journal := journal, outbox := outbox))
  }

  /**
   The write phase of one transaction on one message: save the aggregate that was built from
   the record read, write the attempt row, append the events. Any failure rolls all of it back.
   */
  function Commit(c: Cell, read: Row, a: Aggregate, w: AttemptWrite): Result<Cell, StoreError> {
    var mapped := MapAll(read, a.pending);
    if mapped.Failure? then Failure(Unmappable(mapped.error))
    else
      var saved :- Save(c, a.data);
      var written :- WriteAttempt(saved, w);
      AppendEvents(written, mapped.value)
  }

  /** The same on the whole database; a missing row matches no update. */
  function CommitTo(db: Db, read: Row, a: Aggregate, w: AttemptWrite): Result<Db, StoreError> {
    var mapped := MapAll(read, a.pending);
    if mapped.Failure? then Failure(Unmappable(mapped.error))
    else if a.data.id !in db then (if InRange(a.data) then Failure(ConcurrentUpdate) else Failure(InvalidRecord))
    else
      var c :- Commit(db[a.data.id], read, a, w);
      Success(db[a.data.id := c])
  }

  function ReadRow(db: Db, id: string): Option<Row> {
    if id in db then Some(db[id].row) else None
  }
}
