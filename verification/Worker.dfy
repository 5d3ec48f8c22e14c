/** The decisions of the four transactions of the delivery core, as functions of the record they read. */
module Worker {
  import opened Common
  import opened Statuses
  import opened Messages
  import opened EventMapping
  import opened Providers
  import opened Store
  import opened Wire

  // ----- claim

  datatype ClaimError =
    | MessageMissing
    | CorruptRecord
    | TenantMismatch
    | CommandAhead
    | CannotExpire
    | CannotStart
    | InvalidAttempt
    | StoreFailed(error: StoreError)

  datatype ClaimDecision =
    | Refuse(error: ClaimError)
    | Resolve(disposition: Disposition)
    | ExpireWith(expired: Aggregate)
    | StartWith(sending: Aggregate, attempt: Attempt)

  /** The body of the claim transaction up to its writes, on the record read and the transaction's timestamp. */
  function DecideClaim(read: Option<Row>, cmd: Command, now: Time, attemptId: string, providerKey: string): ClaimDecision {
    if read.None? then Refuse(MessageMissing)
    else
      var row := read.value;
      var restored := Restore(row.snapshot);
      var d := row.snapshot;
      if restored.Failure? then Refuse(CorruptRecord)
      else if row.tenantId != cmd.tenantId then Refuse(TenantMismatch)
      else if cmd.generation < d.generation || cmd.sequence < d.latestSequence then Resolve(DispatchStale)
      else if cmd.generation > d.generation || cmd.sequence > d.latestSequence then Refuse(CommandAhead)
      else if d.status != Queued then Resolve(DispatchDuplicate)
      else if now >= d.dispatchDeadline then
        var expired := Expire(restored.value, now);
        if expired.Failure? || expired.value == restored.value then Refuse(CannotExpire) else ExpireWith(expired.value)
      else
        var sending := StartSending(restored.value, cmd.generation, now);
        if sending.Failure? then Refuse(CannotStart)
        else
          var attempt := Attempt(attemptId, sending.value.data.attemptCount, cmd.generation, providerKey, Started, now,
                                 None, "", None);
          if !ValidStarted(attempt) then Refuse(InvalidAttempt) else StartWith(sending.value, attempt)
  }

  datatype ClaimOutcome = ClaimFailed(error: ClaimError) | Resolved(disposition: Disposition) | Holding(attempt: Attempt)

  /** The claim transaction on the database at commit time; the record may have been read from an older state. */
  function Claim(db: Db, read: Option<Row>, cmd: Command, now: Time, attemptId: string, providerKey: string)
    : (Db, ClaimOutcome)
  {
    match DecideClaim(read, cmd, now, attemptId, providerKey)
    case Refuse(e) => (db, ClaimFailed(e))
    case Resolve(d) => (db, Resolved(d))
    case ExpireWith(a) =>
      (match CommitTo(db, read.value, a, NoAttemptWrite)
       case Success(db') => (db', Resolved(DispatchExpired))
       case Failure(e) => (db, ClaimFailed(StoreFailed(e))))
    case StartWith(a, attempt) =>
      (match CommitTo(db, read.value, a, Start(attempt))
       case Success(db') => (db', Holding(attempt))
       case Failure(e) => (db, ClaimFailed(StoreFailed(e))))
  }

  /** The command names the state the record was read in, under the record's own tenant, while it is queued. */
  predicate Matches(row: Row, cmd: Command) {
    && row.tenantId == cmd.tenantId && row.snapshot.status == Queued
    && cmd.generation == row.snapshot.generation && cmd.sequence == row.snapshot.latestSequence
  }

  /** At most the cell of this message differs. */
  predicate OnlyMoves(db: Db, db': Db, id: string) {
    db'.Keys == db.Keys && forall x :: x in db && x != id ==> db'[x] == db[x]
  }

  /** The stored row is still the one that was read. */
  predicate Unmoved(db: Db, read: Row) {
    read.snapshot.id in db && db[read.snapshot.id].row.snapshot.version == read.snapshot.version
  }

  lemma CommitMovesOne(db: Db, read: Row, a: Aggregate, w: AttemptWrite)
    requires a.data.id == read.snapshot.id && a.data.version == read.snapshot.version && CommitTo(db, read, a, w).Success?
    ensures Unmoved(db, read) && OnlyMoves(db, CommitTo(db, read, a, w).value, read.snapshot.id)
  {
  }

  /** What a decision to write rests on: the record read, the command and the deadline. */
  predicate Grounded(read: Option<Row>, cmd: Command, now: Time, attemptId: string, key: string, x: ClaimDecision) {
    match x
    case Refuse(_) => true
    case Resolve(d) => d != DispatchExpired
    case ExpireWith(a) =>
      && read.Some? && Matches(read.value, cmd) && read.value.snapshot.dispatchDeadline <= now
      && a.data.id == read.value.snapshot.id && a.data.version == read.value.snapshot.version
    case StartWith(a, attempt) =>
      && read.Some? && Matches(read.value, cmd) && now < read.value.snapshot.dispatchDeadline
      && a.data.id == read.value.snapshot.id && a.data.version == read.value.snapshot.version
      && var d := read.value.snapshot;
         && d.attemptCount < d.maxAttempts
         && attempt == Attempt(attemptId, d.attemptCount + 1, d.generation, key, Started, now, None, "", None)
  }

  lemma DecisionsAreGrounded(read: Option<Row>, cmd: Command, now: Time, attemptId: string, key: string)
    ensures Grounded(read, cmd, now, attemptId, key, DecideClaim(read, cmd, now, attemptId, key))
  {
  }

  /** A claim that started or expired the message had every right to; any other one wrote nothing. */
  predicate Rightful(db: Db, read: Option<Row>, cmd: Command, now: Time, attemptId: string, key: string, db': Db,
                     outcome: ClaimOutcome)
  {
    if outcome.Holding? || outcome == Resolved(DispatchExpired) then
      && read.Some? && Matches(read.value, cmd) && Unmoved(db, read.value)
      && OnlyMoves(db, db', read.value.snapshot.id)
      && (outcome.Holding? <==> now < read.value.snapshot.dispatchDeadline)
      && (outcome.Holding? ==>
            var d := read.value.snapshot;
            && d.attemptCount < d.maxAttempts
            && outcome.attempt == Attempt(attemptId, d.attemptCount + 1, d.generation, key, Started, now, None, "", None))
    else db' == db
  }

  lemma WritesAreRightful(db: Db, read: Row, cmd: Command, now: Time, attemptId: string, key: string, a: Aggregate,
                          w: AttemptWrite, outcome: ClaimOutcome)
    requires CommitTo(db, read, a, w).Success?
    requires || (outcome == Resolved(DispatchExpired) && Grounded(Some(read), cmd, now, attemptId, key, ExpireWith(a)))
             || (outcome.Holding? && Grounded(Some(read), cmd, now, attemptId, key, StartWith(a, outcome.attempt)))
    ensures Rightful(db, Some(read), cmd, now, attemptId, key, CommitTo(db, read, a, w).value, outcome)
  {
    CommitMovesOne(db, read, a, w);
  }

  /**
   Whatever command arrives, forged, old or early, and whatever was read: a claim writes only for a command that
   matches a queued record nobody has moved since, and the deadline alone decides between starting and expiring.
   */
  lemma ClaimsWriteOnlyWhenCurrent(db: Db, read: Option<Row>, cmd: Command, now: Time, attemptId: string, key: string)
    ensures var (db', outcome) := Claim(db, read, cmd, now, attemptId, key);
            Rightful(db, read, cmd, now, attemptId, key, db', outcome)
  {
    DecisionsAreGrounded(read, cmd, now, attemptId, key);
    match DecideClaim(read, cmd, now, attemptId, key)
    case ExpireWith(a) =>
      if CommitTo(db, read.value, a, NoAttemptWrite).Success? {
        WritesAreRightful(db, read.value, cmd, now, attemptId, key, a, NoAttemptWrite, Resolved(DispatchExpired));
      }
    case StartWith(a, attempt) =>
      if CommitTo(db, read.value, a, Start(attempt)).Success? {
        WritesAreRightful(db, read.value, cmd, now, attemptId, key, a, Start(attempt), Holding(attempt));
      }
    case _ =>
  }

  /** The message has moved past what the command asks for, in either of its two counters. */
  predicate Overtaken(d: Snapshot, cmd: Command) {
    cmd.generation < d.generation || cmd.sequence < d.latestSequence
  }

  /**
   A command of the right tenant on a readable record is acknowledged as stale exactly when it was overtaken, as a
   duplicate exactly when it names the present state and that is not queued, and is otherwise never acknowledged
   without a write: a command from the future fails.
   */
  lemma ClaimsAcknowledgeExactly(db: Db, row: Row, cmd: Command, now: Time, attemptId: string, key: string)
    requires Restore(row.snapshot).Success? && row.tenantId == cmd.tenantId
    ensures var d, outcome := row.snapshot, Claim(db, Some(row), cmd, now, attemptId, key).1;
            var present := cmd.generation == d.generation && cmd.sequence == d.latestSequence;
            && (outcome == Resolved(DispatchStale) <==> Overtaken(d, cmd))
            && (outcome == Resolved(DispatchDuplicate) <==> present && d.status != Queued)
            && (outcome == ClaimFailed(CommandAhead) <==> !Overtaken(d, cmd) && !present)
            && (outcome.Resolved? ==> outcome.disposition in {DispatchStale, DispatchDuplicate, DispatchExpired})
  {
  }

  // ----- finalize

  datatype FinalizeError =
    | RecordMissing
    | RecordCorrupt
    | FenceMismatch
    | NotAdvanced(resolve: ResolveError)
    | WriteFailed(store: StoreError)

  datatype FinalizeDecision =
    | RefuseResult(error: FinalizeError)
    | AlreadySettled
    | Settle(resolution: Resolution)

  function DecideFinalize(read: Option<Row>, attempt: Attempt, r: ProviderResult, now: Time, delay: int): FinalizeDecision
    requires ValidResult(r)
  {
    if read.None? then RefuseResult(RecordMissing)
    else
      var d := read.value.snapshot;
      var restored := Restore(d);
      if restored.Failure? then RefuseResult(RecordCorrupt)
      else if d.generation != attempt.generation || d.attemptCount != attempt.number then RefuseResult(FenceMismatch)
      else if d.status != Sending then AlreadySettled
      else
        match ApplyProviderResult(restored.value, attempt.id, r, now, delay)
        case Success(x) => Settle(x)
        case Failure(e) => RefuseResult(NotAdvanced(e))
  }

  datatype FinalizeOutcome = FinalizeFailed(error: FinalizeError) | Finalized(disposition: Disposition)

  function Finalize(db: Db, read: Option<Row>, attempt: Attempt, r: ProviderResult, now: Time, delay: int)
    : (Db, FinalizeOutcome)
    requires ValidResult(r)
  {
    match DecideFinalize(read, attempt, r, now, delay)
    case RefuseResult(e) => (db, FinalizeFailed(e))
    case AlreadySettled => (db, Finalized(DispatchDuplicate))
    case Settle(x) =>
      match CommitTo(db, read.value, x.aggregate, Complete(x.completion))
      case Success(db') => (db', Finalized(x.disposition))
      case Failure(e) => (db, FinalizeFailed(WriteFailed(e)))
  }

  lemma ResultsKeepIdentity(a: Aggregate, attemptId: string, r: ProviderResult, now: Time, delay: int)
    requires ValidResult(r) && ApplyProviderResult(a, attemptId, r, now, delay).Success?
    ensures var x := ApplyProviderResult(a, attemptId, r, now, delay).value;
            && x.aggregate.data.id == a.data.id && x.aggregate.data.version == a.data.version
            && x.disposition != DispatchDuplicate
  {
  }

  /** The record is in the very attempt that was claimed. */
  predicate SameAttempt(row: Row, attempt: Attempt) {
    row.snapshot.generation == attempt.generation && row.snapshot.attemptCount == attempt.number
  }

  /**
   Whatever attempt and result a worker brings, and whatever it read: a finalize writes only for the attempt the
   record is sending, unmoved since; a repeated one is told so, and every other one is refused without a trace.
   */
  lemma FinalizesWriteOnlyInAttempt(db: Db, read: Option<Row>, attempt: Attempt, r: ProviderResult, now: Time, delay: int)
    requires ValidResult(r)
    ensures var (db', outcome) := Finalize(db, read, attempt, r, now, delay);
            && (outcome.Finalized? ==> read.Some? && SameAttempt(read.value, attempt))
            && (outcome.Finalized? && outcome.disposition != DispatchDuplicate ==>
                  && read.value.snapshot.status == Sending && Unmoved(db, read.value)
                  && OnlyMoves(db, db', read.value.snapshot.id))
            && (outcome == Finalized(DispatchDuplicate) <==>
                  && read.Some? && Restore(read.value.snapshot).Success? && SameAttempt(read.value, attempt)
                  && read.value.snapshot.status != Sending)
            && (outcome.FinalizeFailed? || outcome == Finalized(DispatchDuplicate) ==> db' == db)
  {
    match DecideFinalize(read, attempt, r, now, delay)
    case Settle(x) =>
      ResultsKeepIdentity(Aggregate(read.value.snapshot, []), attempt.id, r, now, delay);
      if CommitTo(db, read.value, x.aggregate, Complete(x.completion)).Success? {
        CommitMovesOne(db, read.value, x.aggregate, Complete(x.completion));
      }
    case _ =>
  }

  // ----- scheduler

  /** The rows the scheduler's query selects. */
  predicate Due(d: Snapshot, now: Time) {
    || (d.status == Scheduled && d.scheduledAt.Some? && d.scheduledAt.value <= now)
    || (d.status == RetryScheduled && d.nextAttemptAt.Some? && d.nextAttemptAt.value <= now)
  }

  datatype ScheduleError =
    | NoEvaluationTime
    | ScheduleCorrupt
    | ScheduleRejected(error: DomainError)
    | AlreadyExpired
    | ScheduleWrite(store: StoreError)

  function ScheduleOne(a: Aggregate, now: Time): Result<Aggregate, ScheduleError> {
    if now >= a.data.dispatchDeadline then
      match Expire(a, now)
      case Failure(e) => Failure(ScheduleRejected(e))
      case Success(b) => if b == a then Failure(AlreadyExpired) else Success(b)
    else
      match Queue(a, now)
      case Failure(e) => Failure(ScheduleRejected(e))
      case Success(b) => Success(b)
  }

  /** One locked row is advanced, saved and its events appended. */
  function ScheduleCell(c: Cell, now: Time): Result<Cell, ScheduleError> {
    match Restore(c.row.snapshot)
    case Failure(_) => Failure(ScheduleCorrupt)
    case Success(a) =>
      var b :- ScheduleOne(a, now);
      match Commit(c, c.row, b, NoAttemptWrite)
      case Failure(e) => Failure(ScheduleWrite(e))
      case Success(c') => Success(c')
  }

  // ----- submission

  datatype EmailCategory = Critical | Transactional | Notification | Bulk

  function MaxAttemptsFor(c: EmailCategory): nat {
    match c
    case Critical => 3
    case Transactional => 5
    case Notification => 8
    case Bulk => 10
  }

  const MAX_SCHEDULED_WINDOW: int := 365 * DAY

  predicate ValidSubmissionTimes(now: Time, scheduledAt: Option<Time>, deadline: Time) {
    && deadline > now
    && (scheduledAt.Some? ==> scheduledAt.value < deadline && scheduledAt.value <= now + MAX_SCHEDULED_WINDOW)
  }

  datatype Request = Request(
    messageId: string,
    tenantId: string,
    idempotencyKey: string,
    fingerprint: string,
    category: EmailCategory,
    scheduledAt: Option<Time>,
    dispatchDeadline: Time)

  datatype SubmitError = InvalidTimes | CannotConstruct | IdempotencyConflict | MessageIdConflict | SubmitWrite(store: StoreError)

  datatype SubmitOutcome = SubmitFailed(error: SubmitError) | SubmitDuplicate(row: Row) | SubmitAccepted

  /** id is the message already stored under the tenant's idempotency key. */
  predicate HoldsKey(db: Db, id: string, tenantId: string, idempotencyKey: string) {
    id in db && db[id].row.tenantId == tenantId && db[id].row.idempotencyKey == idempotencyKey
  }

  predicate KeyTaken(db: Db, tenantId: string, idempotencyKey: string) {
    exists id :: id in db && HoldsKey(db, id, tenantId, idempotencyKey)
  }

  predicate ValidRecord(row: Row) {
    Trimmed(row.idempotencyKey) && |row.idempotencyKey| <= 255
  }

  /** What is checked of a record before it is inserted. */
  predicate ValidForCreate(row: Row) {
    ValidRecord(row) && row.snapshot.version == 0 && InRange(row.snapshot)
  }

  /** The rows of a new message: its record and the journal entries and outbox rows of its first events. */
  function FilledCell(row: Row, events: seq<Event>): Result<Cell, SubmitError> {
    if !ValidForCreate(row) then Failure(SubmitWrite(InvalidRecord))
    else if !RowChecks(row.snapshot) then Failure(SubmitWrite(ConstraintViolation))
    else
      match MapAll(row, events)
      case Failure(e) => Failure(SubmitWrite(Unmappable(e)))
      case Success(m) =>
        match AppendEvents(Cell(row, [], [], []), m)
        case Failure(e) => Failure(SubmitWrite(e))
        case Success(c) => Success(c)
  }

  /** The cell a new submission inserts. */
  function NewCell(q: Request, now: Time): Result<Cell, SubmitError> {
    if !ValidSubmissionTimes(now, q.scheduledAt, q.dispatchDeadline) then Failure(InvalidTimes)
    else
      match New(NewParams(q.messageId, now, q.scheduledAt, q.dispatchDeadline, MaxAttemptsFor(q.category)))
      case Failure(_) => Failure(CannotConstruct)
      case Success(a) => FilledCell(Row(q.tenantId, q.idempotencyKey, q.fingerprint, a.data), a.pending)
  }

  /** Insert-or-nothing under (tenant, idempotency key): a taken key changes nothing. */
  function SubmitTo(db: Db, q: Request, now: Time): Db {
    if KeyTaken(db, q.tenantId, q.idempotencyKey) || q.messageId in db then db
    else
      match NewCell(q, now)
      case Failure(_) => db
      case Success(c) => db[q.messageId := c]
  }
}
