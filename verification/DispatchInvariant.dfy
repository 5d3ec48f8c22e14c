/** The invariant of the concurrent delivery core, and that every step keeps it. */
module DispatchInvariant {
  import opened Common
  import opened Statuses
  import opened Messages
  import opened EventMapping
  import opened Providers
  import opened Store
  import opened Wire
  import opened Worker
  import opened Cells
  import opened CellSteps
  import opened Dispatch

  // ----- the parts of the invariant

  predicate DbOk(db: Db, clock: Time) {
    forall id {:trigger CellOk(id, db[id], clock)} :: id in db ==> CellOk(id, db[id], clock)
  }

  /** (tenant, idempotency key) names at most one message. */
  predicate KeysUnique(db: Db) {
    forall id, id' :: id in db && id' in db && id != id' ==>
      db[id].row.tenantId != db[id'].row.tenantId || db[id].row.idempotencyKey != db[id'].row.idempotencyKey
  }

  function RequestId(cmd: Command): EventId {
    EventId(cmd.messageId, DispatchRequested, cmd.sequence, cmd.generation)
  }

  /** The command is one of the committed dispatch requests of its message. */
  predicate Genuine(db: Db, cmd: Command) {
    && cmd.messageId in db && cmd.tenantId == db[cmd.messageId].row.tenantId
    && cmd.eventId == RequestId(cmd) && RequestId(cmd) in Ids(db[cmd.messageId].outbox)
  }

  predicate PublishedOk(db: Db, clock: Time, cmd: Command, at: Time) {
    && Genuine(db, cmd) && at <= clock
    && (cmd.sequence == db[cmd.messageId].row.snapshot.latestSequence ==> db[cmd.messageId].row.snapshot.updatedAt <= at)
  }

  predicate BrokerOk(db: Db, clock: Time, broker: map<Command, Time>) {
    forall cmd {:trigger PublishedOk(db, clock, cmd, broker[cmd])} :: cmd in broker ==>
      PublishedOk(db, clock, cmd, broker[cmd])
  }

  /** What a claim read is a former state of the row, and the same row when the version did not move. */
  predicate ReaderOk(db: Db, clock: Time, p: Phase)
    requires p.ClaimRead?
  {
    var id := p.cmd.messageId;
    && Genuine(db, p.cmd) && 0 < p.stamp <= clock && p.read.Some?
    && var r, row := p.read.value, db[id].row;
    && RowOk(id, r.snapshot, clock) && r.tenantId == p.cmd.tenantId && r.idempotencyKey == row.idempotencyKey
    && Behind(RequestId(p.cmd), r.snapshot)
    && (p.cmd.sequence == r.snapshot.latestSequence ==> r.snapshot.updatedAt <= p.stamp)
    && r.snapshot.version <= row.snapshot.version
    && (r.snapshot.version == row.snapshot.version ==> r == row)
  }

  predicate Holds(p: Phase) {
    !p.ClaimRead?
  }

  /** The holder of a claim: its message is sending, and its attempt is the last, started row. */
  predicate HolderOk(db: Db, clock: Time, p: Phase)
    requires Holds(p)
  {
    var id := p.cmd.messageId;
    && id in db && db[id].row.snapshot.status == Sending
    && |db[id].attempts| > 0 && db[id].attempts[|db[id].attempts| - 1] == p.attempt
    && p.attempt.number == p.attempt.generation == db[id].row.snapshot.attemptCount
    && match p
       case Called(_, a, r, at) => ValidResult(r) && a.startedAt <= at <= clock
       case FinalizeRead(_, a, r, stamp, read) =>
         ValidResult(r) && a.startedAt <= stamp <= clock && read == Some(db[id].row)
       case _ => p.attempt.startedAt <= clock
  }

  predicate PhaseOk(db: Db, clock: Time, p: Phase) {
    if p.ClaimRead? then ReaderOk(db, clock, p) else HolderOk(db, clock, p)
  }

  predicate WorkersOk(db: Db, clock: Time, workers: map<nat, Phase>) {
    && (forall w {:trigger PhaseOk(db, clock, workers[w])} :: w in workers ==> PhaseOk(db, clock, workers[w]))
    && (forall w, w' :: w in workers && w' in workers && w != w' && Holds(workers[w]) && Holds(workers[w']) ==>
          workers[w].cmd.messageId != workers[w'].cmd.messageId)
  }

  function CallCount(calls: seq<Call>, id: string): nat {
    if calls == [] then 0
    else CallCount(calls[..|calls| - 1], id) + (if calls[|calls| - 1].messageId == id then 1 else 0)
  }

  predicate CallOk(db: Db, c: Call) {
    c.messageId in db && 1 <= c.generation <= db[c.messageId].row.snapshot.attemptCount
  }

  /** A mail the server took belongs to a message that will not be sent again. */
  predicate AcceptOk(db: Db, id: string) {
    id in db && (db[id].row.snapshot.status == Sending || db[id].row.snapshot.status == SubmissionUnknown
                 || db[id].row.snapshot.status == ProviderAccepted)
  }

  predicate PhaseLedgerOk(calls: seq<Call>, accepted: seq<string>, p: Phase) {
    match p
    case ClaimRead(_, _, _) => true
    case Claimed(cmd, a) =>
      && Call(cmd.messageId, a.generation) !in calls && cmd.messageId !in accepted
      && CallCount(calls, cmd.messageId) < a.number
    case Called(cmd, _, r, _) => r.outcome == OutcomeFailed ==> cmd.messageId !in accepted
    case FinalizeRead(cmd, _, r, _, _) => r.outcome == OutcomeFailed ==> cmd.messageId !in accepted
  }

  predicate WorkersLedgerOk(calls: seq<Call>, accepted: seq<string>, workers: map<nat, Phase>) {
    forall w :: w in workers ==> PhaseLedgerOk(calls, accepted, workers[w])
  }

  predicate CallsOk(db: Db, calls: seq<Call>) {
    && NoRepeats(calls)
    && (forall i :: 0 <= i < |calls| ==> CallOk(db, calls[i]))
    && (forall id :: id in db ==> CallCount(calls, id) <= db[id].row.snapshot.attemptCount)
  }

  predicate AcceptedOk(db: Db, accepted: seq<string>) {
    && NoRepeats(accepted)
    && (forall i :: 0 <= i < |accepted| ==> AcceptOk(db, accepted[i]))
  }

  predicate Inv(s: System) {
    && 0 < s.clock
    && DbOk(s.db, s.clock) && KeysUnique(s.db)
    && BrokerOk(s.db, s.clock, s.broker) && WorkersOk(s.db, s.clock, s.workers)
    && CallsOk(s.db, s.calls) && AcceptedOk(s.db, s.accepted) && WorkersLedgerOk(s.calls, s.accepted, s.workers)
  }

  // ----- time passes

  lemma CellStaysOk(id: string, c: Cell, clock: Time, clock': Time)
    requires CellOk(id, c, clock) && clock <= clock'
    ensures CellOk(id, c, clock')
  {
  }

  lemma DbTicks(db: Db, clock: Time, clock': Time)
    requires DbOk(db, clock) && clock <= clock'
    ensures DbOk(db, clock')
  {
    forall id | id in db ensures CellOk(id, db[id], clock') {
      CellStaysOk(id, db[id], clock, clock');
    }
  }

  lemma PhasesTick(db: Db, clock: Time, clock': Time, broker: map<Command, Time>, workers: map<nat, Phase>)
    requires BrokerOk(db, clock, broker) && WorkersOk(db, clock, workers) && clock <= clock'
    ensures BrokerOk(db, clock', broker) && WorkersOk(db, clock', workers)
  {
    forall cmd | cmd in broker ensures PublishedOk(db, clock', cmd, broker[cmd]) {
      assert PublishedOk(db, clock, cmd, broker[cmd]);
    }
    forall w | w in workers ensures PhaseOk(db, clock', workers[w]) {
      assert PhaseOk(db, clock, workers[w]);
    }
  }

  // ----- workers come and go

  lemma WorkerLeaves(db: Db, clock: Time, calls: seq<Call>, accepted: seq<string>, workers: map<nat, Phase>, w: nat)
    requires WorkersOk(db, clock, workers) && WorkersLedgerOk(calls, accepted, workers)
    ensures WorkersOk(db, clock, workers - {w}) && WorkersLedgerOk(calls, accepted, workers - {w})
  {
    forall v | v in workers - {w}
      ensures PhaseOk(db, clock, workers[v]) && PhaseLedgerOk(calls, accepted, workers[v])
    {
    }
  }

  /** No worker holds the message. */
  predicate Free(workers: map<nat, Phase>, id: string) {
    forall w :: w in workers && Holds(workers[w]) ==> workers[w].cmd.messageId != id
  }

  lemma WorkerEnters(db: Db, clock: Time, calls: seq<Call>, accepted: seq<string>, workers: map<nat, Phase>, w: nat,
                     p: Phase)
    requires WorkersOk(db, clock, workers) && WorkersLedgerOk(calls, accepted, workers) && w !in workers
    requires PhaseOk(db, clock, p) && PhaseLedgerOk(calls, accepted, p)
    requires Holds(p) ==> Free(workers, p.cmd.messageId)
    ensures WorkersOk(db, clock, workers[w := p]) && WorkersLedgerOk(calls, accepted, workers[w := p])
  {
    var workers' := workers[w := p];
    forall v | v in workers'
      ensures PhaseOk(db, clock, workers'[v]) && PhaseLedgerOk(calls, accepted, workers'[v])
    {
    }
  }

  lemma OthersAreElsewhere(db: Db, clock: Time, workers: map<nat, Phase>, w: nat)
    requires WorkersOk(db, clock, workers) && w in workers && Holds(workers[w])
    ensures Free(workers - {w}, workers[w].cmd.messageId)
  {
  }

  lemma FreeUnlessSending(db: Db, clock: Time, workers: map<nat, Phase>, id: string)
    requires WorkersOk(db, clock, workers) && id in db && db[id].row.snapshot.status != Sending
    ensures Free(workers, id)
  {
    forall w | w in workers && Holds(workers[w]) ensures workers[w].cmd.messageId != id {
      assert PhaseOk(db, clock, workers[w]);
    }
  }

  lemma CrashKeeps(s: System, w: nat)
    requires Inv(s)
    ensures Inv(s.(workers := s.workers - {w}))
  {
    WorkerLeaves(s.db, s.clock, s.calls, s.accepted, s.workers, w);
  }

  lemma ReadSeesTheRow(c: Cell, db: Db, clock: Time, cmd: Command, at: Time, stamp: Time)
    requires cmd.messageId in db && c == db[cmd.messageId] && CellOk(cmd.messageId, c, clock)
    requires PublishedOk(db, clock, cmd, at) && at <= stamp <= clock && 0 < stamp
    ensures ReaderOk(db, clock, ClaimRead(cmd, stamp, Some(c.row)))
  {
    DispatchRequestsAreBehind(c, RequestId(cmd));
  }

  lemma ReadClaimKeeps(s: System, w: nat, cmd: Command, stamp: Time)
    requires Inv(s) && Enabled(s, ReadClaim(w, cmd, stamp))
    ensures Inv(Next(s, ReadClaim(w, cmd, stamp)))
  {
    var id := cmd.messageId;
    assert PublishedOk(s.db, s.clock, cmd, s.broker[cmd]);
    assert CellOk(id, s.db[id], s.clock);
    ReadSeesTheRow(s.db[id], s.db, s.clock, cmd, s.broker[cmd], stamp);
    WorkerEnters(s.db, s.clock, s.calls, s.accepted, s.workers, w, ClaimRead(cmd, stamp, Some(s.db[id].row)));
  }

  lemma PhaseMoves(db: Db, clock: Time, calls: seq<Call>, accepted: seq<string>, workers: map<nat, Phase>, w: nat,
                   p: Phase)
    requires WorkersOk(db, clock, workers) && WorkersLedgerOk(calls, accepted, workers)
    requires w in workers && Holds(workers[w]) && Holds(p) && p.cmd == workers[w].cmd
    requires PhaseOk(db, clock, p) && PhaseLedgerOk(calls, accepted, p)
    ensures WorkersOk(db, clock, workers[w := p]) && WorkersLedgerOk(calls, accepted, workers[w := p])
  {
    WorkerLeaves(db, clock, calls, accepted, workers, w);
    OthersAreElsewhere(db, clock, workers, w);
    WorkerEnters(db, clock, calls, accepted, workers - {w}, w, p);
    assert (workers - {w})[w := p] == workers[w := p];
  }

  lemma HolderReads(db: Db, clock: Time, calls: seq<Call>, accepted: seq<string>, workers: map<nat, Phase>, w: nat,
                    stamp: Time)
    requires WorkersOk(db, clock, workers) && WorkersLedgerOk(calls, accepted, workers)
    requires w in workers && workers[w].Called? && workers[w].returnedAt <= stamp <= clock
    ensures var p := workers[w];
            var q := FinalizeRead(p.cmd, p.attempt, p.result, stamp, ReadRow(db, p.cmd.messageId));
            WorkersOk(db, clock, workers[w := q]) && WorkersLedgerOk(calls, accepted, workers[w := q])
  {
    var p := workers[w];
    assert PhaseOk(db, clock, p) && PhaseLedgerOk(calls, accepted, p);
    var q := FinalizeRead(p.cmd, p.attempt, p.result, stamp, ReadRow(db, p.cmd.messageId));
    PhaseMoves(db, clock, calls, accepted, workers, w, q);
  }

  lemma ReadFinalizeKeeps(s: System, w: nat, stamp: Time)
    requires Inv(s) && Enabled(s, ReadFinalize(w, stamp))
    ensures Inv(Next(s, ReadFinalize(w, stamp)))
  {
    HolderReads(s.db, s.clock, s.calls, s.accepted, s.workers, w, stamp);
  }

  // ----- publishing

  lemma RequestBecomesCommand(row: Row, o: OutboxEvent, attempt: nat)
    requires OutboxRowOk(row, o) && row.snapshot.id != "" && 0 < attempt <= MAX_INT32
    requires o.id.kind == DispatchRequested ==> 0 < o.sequence <= MAX_INT64 && 0 < o.generation <= MAX_INT64
    ensures o.id.kind == DispatchRequested ==>
            CommandOf(o, attempt) == Some(Command(o.id, row.tenantId, row.snapshot.id, o.sequence, o.generation))
    ensures o.id.kind != DispatchRequested ==> CommandOf(o, attempt).None?
  {
    RouteOfKind(o.id.kind);
    if o.id.kind == DispatchRequested {
      RowPublishes(o, attempt);
      HeadersReadBack(o, attempt);
    }
  }

  lemma PublishedRowIsGenuine(id: string, db: Db, clock: Time, index: nat, attempt: nat)
    requires id in db && CellOk(id, db[id], clock) && index < |db[id].outbox| && 0 < attempt <= MAX_INT32
    ensures var cmd := CommandOf(db[id].outbox[index], attempt);
            cmd.Some? ==> PublishedOk(db, clock, cmd.value, clock)
  {
    var c := db[id];
    var o := c.outbox[index];
    assert OutboxRowOk(c.row, o) && Ids(c.outbox)[index] == o.id;
    if o.id.kind == DispatchRequested {
      DispatchRequestsAreBehind(c, o.id);
      assert c.row.snapshot.latestSequence <= 4 * c.row.snapshot.maxAttempts + 4;
    }
    assert id != "" by { assert Blank(""); }
    RequestBecomesCommand(c.row, o, attempt);
  }

  lemma BrokerGrows(db: Db, clock: Time, broker: map<Command, Time>, cmd: Command)
    requires BrokerOk(db, clock, broker) && PublishedOk(db, clock, cmd, clock)
    ensures BrokerOk(db, clock, broker[cmd := clock])
  {
  }

  lemma PublishKeeps(s: System, id: string, index: nat, attempt: nat)
    requires Inv(s) && Enabled(s, PublishRow(id, index, attempt))
    ensures Inv(Next(s, PublishRow(id, index, attempt)))
  {
    assert CellOk(id, s.db[id], s.clock);
    PublishedRowIsGenuine(id, s.db, s.clock, index, attempt);
    var cmd := CommandOf(s.db[id].outbox[index], attempt);
    if cmd.Some? {
      BrokerGrows(s.db, s.clock, s.broker, cmd.value);
    }
  }

  // ----- a transaction commits on one message

  lemma IdsGrow(c: Cell, c': Cell, e: EventId)
    requires c.outbox <= c'.outbox && e in Ids(c.outbox)
    ensures e in Ids(c'.outbox)
  {
    var i :| 0 <= i < |Ids(c.outbox)| && Ids(c.outbox)[i] == e;
    assert Ids(c'.outbox)[i] == e;
  }

  /** Readers of a message survive its next transaction; holders of other messages do not notice it. */
  lemma PhaseSurvives(db: Db, clock: Time, id: string, c': Cell, p: Phase)
    requires id in db && Later(db[id], c')
    requires PhaseOk(db, clock, p) && (Holds(p) ==> p.cmd.messageId != id)
    ensures PhaseOk(db[id := c'], clock, p)
  {
    if p.ClaimRead? && p.cmd.messageId == id {
      IdsGrow(db[id], c', RequestId(p.cmd));
    }
  }

  lemma WorkersSurvive(db: Db, clock: Time, id: string, c': Cell, workers: map<nat, Phase>)
    requires id in db && Later(db[id], c') && WorkersOk(db, clock, workers) && Free(workers, id)
    ensures WorkersOk(db[id := c'], clock, workers)
  {
    forall w | w in workers ensures PhaseOk(db[id := c'], clock, workers[w]) {
      PhaseSurvives(db, clock, id, c', workers[w]);
    }
  }

  lemma BrokerSurvives(db: Db, clock: Time, broker: map<Command, Time>, id: string, c': Cell)
    requires BrokerOk(db, clock, broker) && id in db && Later(db[id], c')
    requires JournalOk(db[id]) && OutboxOk(db[id])
    ensures BrokerOk(db[id := c'], clock, broker)
  {
    forall cmd | cmd in broker ensures PublishedOk(db[id := c'], clock, cmd, broker[cmd]) {
      assert PublishedOk(db, clock, cmd, broker[cmd]);
      if cmd.messageId == id {
        DispatchRequestsAreBehind(db[id], RequestId(cmd));
        IdsGrow(db[id], c', RequestId(cmd));
      }
    }
  }

  lemma DbSurvives(db: Db, clock: Time, id: string, c': Cell)
    requires DbOk(db, clock) && KeysUnique(db) && id in db && Later(db[id], c') && CellOk(id, c', clock)
    ensures DbOk(db[id := c'], clock) && KeysUnique(db[id := c'])
  {
    var db' := db[id := c'];
    forall other | other in db' ensures CellOk(other, db'[other], clock) {
    }
  }

  /** The logs depend on the database only through attempt counts and the states of accepted messages. */
  lemma LogsSurvive(db: Db, id: string, c': Cell, calls: seq<Call>, accepted: seq<string>)
    requires CallsOk(db, calls) && AcceptedOk(db, accepted) && id in db && Later(db[id], c')
    requires id in accepted ==> AcceptOk(db[id := c'], id)
    ensures CallsOk(db[id := c'], calls) && AcceptedOk(db[id := c'], accepted)
  {
    forall i | 0 <= i < |calls| ensures CallOk(db[id := c'], calls[i]) {
      assert CallOk(db, calls[i]);
    }
    forall i | 0 <= i < |accepted| ensures AcceptOk(db[id := c'], accepted[i]) {
      assert AcceptOk(db, accepted[i]);
    }
  }

  lemma NotAccepted(db: Db, accepted: seq<string>, id: string)
    requires AcceptedOk(db, accepted) && id in db && !AcceptOk(db, id)
    ensures id !in accepted
  {
    forall i | 0 <= i < |accepted| ensures accepted[i] != id {
      assert AcceptOk(db, accepted[i]);
    }
  }

  /** The system after one message's tables moved on and no worker holds that message. */
  lemma CommitKeeps(s: System, id: string, c': Cell, workers: map<nat, Phase>)
    requires Inv(s) && id in s.db && Later(s.db[id], c') && CellOk(id, c', s.clock)
    requires WorkersOk(s.db, s.clock, workers) && WorkersLedgerOk(s.calls, s.accepted, workers) && Free(workers, id)
    requires id in s.accepted ==> AcceptOk(s.db[id := c'], id)
    ensures Inv(s.(db := s.db[id := c'], workers := workers))
  {
    DbSurvives(s.db, s.clock, id, c');
    assert JournalOk(s.db[id]) && OutboxOk(s.db[id]) by { assert CellOk(id, s.db[id], s.clock); }
    BrokerSurvives(s.db, s.clock, s.broker, id, c');
    WorkersSurvive(s.db, s.clock, id, c', workers);
    LogsSurvive(s.db, id, c', s.calls, s.accepted);
  }

  // ----- scheduler

  lemma ScheduleOneKeeps(s: System, id: string, stamp: Time)
    requires Inv(s) && InPast(s, stamp) && id in s.db && Due(s.db[id].row.snapshot, stamp)
    ensures ScheduleCell(s.db[id], stamp).Success?
    ensures Inv(s.(db := s.db[id := ScheduleCell(s.db[id], stamp).value]))
  {
    assert CellOk(id, s.db[id], s.clock);
    ScheduleKeepsCell(id, s.db[id], stamp, s.clock);
    FreeUnlessSending(s.db, s.clock, s.workers, id);
    NotAccepted(s.db, s.accepted, id);
    CommitKeeps(s, id, ScheduleCell(s.db[id], stamp).value, s.workers);
  }

  /** Advancing one row of a batch first leaves the same batch for the rest. */
  lemma BatchSplits<E>(db: Db, ids: set<string>, id: string, advance: Cell -> Result<Cell, E>)
    requires id in ids && id in db && advance(db[id]).Success?
    requires forall x :: x in ids ==> x in db && advance(db[x]).Success?
    ensures Batch(db, ids, advance) == Batch(db[id := advance(db[id]).value], ids - {id}, advance)
  {
    var db1 := db[id := advance(db[id]).value];
    assert forall x :: x in ids - {id} ==> x in db1 && db1[x] == db[x];
  }

  lemma DueRowsAdvance(s: System, ids: set<string>, stamp: Time)
    requires Inv(s) && Enabled(s, Schedule(ids, stamp))
    ensures forall id :: id in ids ==> id in s.db && Scheduler(stamp)(s.db[id]).Success?
  {
    forall id | id in ids ensures id in s.db && Scheduler(stamp)(s.db[id]).Success? {
      assert CellOk(id, s.db[id], s.clock);
      ScheduleKeepsCell(id, s.db[id], stamp, s.clock);
    }
  }

  lemma StillDue(s: System, ids: set<string>, id: string, c': Cell, stamp: Time)
    requires Enabled(s, Schedule(ids, stamp)) && id in ids
    ensures Enabled(s.(db := s.db[id := c']), Schedule(ids - {id}, stamp))
  {
  }

  lemma {:induction false} ScheduleKeeps(s: System, ids: set<string>, stamp: Time)
    requires Inv(s) && Enabled(s, Schedule(ids, stamp))
    ensures Inv(s.(db := Batch(s.db, ids, Scheduler(stamp))))
    decreases |ids|
  {
    if ids == {} {
      assert Batch(s.db, ids, Scheduler(stamp)) == s.db;
    } else {
      var id :| id in ids;
      DueRowsAdvance(s, ids, stamp);
      ScheduleOneKeeps(s, id, stamp);
      var c' := ScheduleCell(s.db[id], stamp).value;
      assert Scheduler(stamp)(s.db[id]) == ScheduleCell(s.db[id], stamp);
      StillDue(s, ids, id, c', stamp);
      ScheduleKeeps(s.(db := s.db[id := c']), ids - {id}, stamp);
      BatchSplits(s.db, ids, id, Scheduler(stamp));
    }
  }

  // ----- submission

  lemma {:induction false} NoCalls(calls: seq<Call>, id: string)
    requires forall i :: 0 <= i < |calls| ==> calls[i].messageId != id
    ensures CallCount(calls, id) == 0
  {
    if calls == [] {
    } else {
      NoCalls(calls[..|calls| - 1], id);
    }
  }

  lemma NewMessageIsUnknown(db: Db, clock: Time, broker: map<Command, Time>, workers: map<nat, Phase>,
                            calls: seq<Call>, accepted: seq<string>, id: string, c: Cell)
    requires id !in db && c.row.snapshot.id == id
    requires BrokerOk(db, clock, broker) && WorkersOk(db, clock, workers)
    requires CallsOk(db, calls) && AcceptedOk(db, accepted)
    ensures BrokerOk(db[id := c], clock, broker) && WorkersOk(db[id := c], clock, workers)
    ensures CallsOk(db[id := c], calls) && AcceptedOk(db[id := c], accepted)
  {
    var db' := db[id := c];
    forall cmd | cmd in broker ensures PublishedOk(db', clock, cmd, broker[cmd]) {
      assert PublishedOk(db, clock, cmd, broker[cmd]);
    }
    forall w | w in workers ensures PhaseOk(db', clock, workers[w]) {
      assert PhaseOk(db, clock, workers[w]);
    }
    forall i | 0 <= i < |calls| ensures CallOk(db', calls[i]) && calls[i].messageId != id {
      assert CallOk(db, calls[i]);
    }
    NoCalls(calls, id);
    forall i | 0 <= i < |accepted| ensures AcceptOk(db', accepted[i]) {
      assert AcceptOk(db, accepted[i]);
    }
  }

  lemma DbGrows(db: Db, clock: Time, id: string, c: Cell)
    requires DbOk(db, clock) && KeysUnique(db) && id !in db && CellOk(id, c, clock)
    requires !KeyTaken(db, c.row.tenantId, c.row.idempotencyKey)
    ensures DbOk(db[id := c], clock) && KeysUnique(db[id := c])
  {
    assert forall other :: other in db ==> !HoldsKey(db, other, c.row.tenantId, c.row.idempotencyKey);
  }

  lemma SubmitKeeps(s: System, q: Request, stamp: Time)
    requires Inv(s) && Enabled(s, Submit(q, stamp))
    ensures Inv(Next(s, Submit(q, stamp)))
  {
    if !KeyTaken(s.db, q.tenantId, q.idempotencyKey) && q.messageId !in s.db && NewCell(q, stamp).Success? {
      NewCellOk(q, stamp, s.clock);
      var c := NewCell(q, stamp).value;
      DbGrows(s.db, s.clock, q.messageId, c);
      NewMessageIsUnknown(s.db, s.clock, s.broker, s.workers, s.calls, s.accepted, q.messageId, c);
    }
  }

  // ----- claim

  /** What a claim can do: resolve as stale, lose the compare-and-set, expire the message, or start an attempt. */
  datatype ClaimCase = ClaimStale | ClaimLost | ClaimExpires(cell: Cell) | ClaimStarts(cell: Cell, attempt: Attempt)

  /** A version that moved on since the read makes the compare-and-set lose, and nothing else goes wrong. */
  lemma StaleReadLoses(db: Db, read: Row, a: Aggregate, w: AttemptWrite)
    requires Emits(read.snapshot, a) && Storable(read.snapshot)
    requires !Blank(read.idempotencyKey) && |read.idempotencyKey| <= 255
    requires a.data.id in db && db[a.data.id].row.snapshot.version != a.data.version
    ensures CommitTo(db, read, a, w) == Failure(ConcurrentUpdate)
  {
    StepMaps(read, a);
    assert a.data.latestSequence <= 4 * a.data.maxAttempts + 4;
  }

  /** The command names exactly the state the record was read in. */
  predicate Current(p: Phase)
    requires p.ClaimRead? && p.read.Some?
  {
    p.cmd.generation == p.read.value.snapshot.generation && p.cmd.sequence == p.read.value.snapshot.latestSequence
  }

  /**
   The claim of a genuine command, at any time after its publication and from any former state of the
   record, ends in one of the four cases; no invariant, missing-message or duplicate branch is taken.
   */
  predicate ClaimCaseHolds(db: Db, clock: Time, p: Phase, attemptId: string, key: string, k: ClaimCase)
    requires p.ClaimRead?
  {
    var id := p.cmd.messageId;
    var r := Claim(db, p.read, p.cmd, p.stamp, attemptId, key);
    && id in db && p.read.Some?
    && var d, c := p.read.value.snapshot, db[id];
    && match k
       case ClaimStale => !Current(p) && r == (db, Resolved(DispatchStale))
       case ClaimLost =>
         && Current(p) && d.version < c.row.snapshot.version
         && r == (db, ClaimFailed(StoreFailed(ConcurrentUpdate)))
       case ClaimExpires(c') =>
         && Current(p) && p.read.value == c.row && p.stamp >= d.dispatchDeadline
         && r == (db[id := c'], Resolved(DispatchExpired))
         && Later(c, c') && CellOk(id, c', clock) && c'.attempts == c.attempts
         && d.status == Queued && c'.row.snapshot.status == Expired
       case ClaimStarts(c', attempt) =>
         && Current(p) && p.read.value == c.row && p.stamp < d.dispatchDeadline
         && r == (db[id := c'], Holding(attempt))
         && Later(c, c') && CellOk(id, c', clock) && c'.attempts == c.attempts + [attempt]
         && d.status == Queued && c'.row.snapshot.status == Sending
         && attempt.number == attempt.generation == c'.row.snapshot.attemptCount == d.attemptCount + 1
         && attempt.generation == p.cmd.generation
         && attempt.startedAt == p.stamp && attempt.id == attemptId
  }

  lemma ClaimLoses(db: Db, clock: Time, p: Phase, attemptId: string, key: string)
    requires p.ClaimRead? && ReaderOk(db, clock, p) && Current(p)
    requires !Blank(db[p.cmd.messageId].row.idempotencyKey) && |db[p.cmd.messageId].row.idempotencyKey| <= 255
    requires p.read.value.snapshot.version != db[p.cmd.messageId].row.snapshot.version
    ensures ClaimCaseHolds(db, clock, p, attemptId, key, ClaimLost)
  {
    var d := p.read.value.snapshot;
    var a := Aggregate(d, []);
    OkRowRestores(p.cmd.messageId, d, clock);
    if p.stamp >= d.dispatchDeadline {
      ExpireEmits(d, p.stamp);
      StaleReadLoses(db, p.read.value, Expire(a, p.stamp).value, NoAttemptWrite);
    } else {
      StartEmits(d, d.generation, p.stamp);
      StaleReadLoses(db, p.read.value, StartSending(a, d.generation, p.stamp).value,
                     Start(NextAttempt(d, attemptId, key, p.stamp)));
    }
  }

  lemma ClaimExpiresCell(db: Db, clock: Time, p: Phase, attemptId: string, key: string) returns (k: ClaimCase)
    requires p.ClaimRead? && ReaderOk(db, clock, p) && Current(p) && CellOk(p.cmd.messageId, db[p.cmd.messageId], clock)
    requires p.read.value == db[p.cmd.messageId].row && p.stamp >= p.read.value.snapshot.dispatchDeadline
    ensures ClaimCaseHolds(db, clock, p, attemptId, key, k)
    ensures k.ClaimExpires?
  {
    var id, c := p.cmd.messageId, db[p.cmd.messageId];
    OkRowRestores(id, c.row.snapshot, clock);
    ExpireKeepsCell(id, c, p.stamp, clock);
    var b := Expire(Aggregate(c.row.snapshot, []), p.stamp).value;
    k := ClaimExpires(Commit(c, c.row, b, NoAttemptWrite).value);
  }

  lemma ClaimStartsCell(db: Db, clock: Time, p: Phase, attemptId: string, key: string) returns (k: ClaimCase)
    requires p.ClaimRead? && ReaderOk(db, clock, p) && Current(p) && CellOk(p.cmd.messageId, db[p.cmd.messageId], clock)
    requires p.read.value == db[p.cmd.messageId].row && p.stamp < p.read.value.snapshot.dispatchDeadline
    requires FreshAttempt(db[p.cmd.messageId], attemptId)
    ensures ClaimCaseHolds(db, clock, p, attemptId, key, k)
    ensures k.ClaimStarts?
  {
    var id, c := p.cmd.messageId, db[p.cmd.messageId];
    var d := c.row.snapshot;
    OkRowRestores(id, d, clock);
    StartKeepsCell(id, c, attemptId, key, p.stamp, clock);
    var b := StartSending(Aggregate(d, []), d.generation, p.stamp).value;
    var attempt := NextAttempt(d, attemptId, key, p.stamp);
    k := ClaimStarts(Commit(c, c.row, b, Start(attempt)).value, attempt);
  }

  lemma ClaimCases(db: Db, clock: Time, p: Phase, attemptId: string, key: string) returns (k: ClaimCase)
    requires p.ClaimRead? && ReaderOk(db, clock, p) && CellOk(p.cmd.messageId, db[p.cmd.messageId], clock)
    requires FreshAttempt(db[p.cmd.messageId], attemptId)
    ensures ClaimCaseHolds(db, clock, p, attemptId, key, k)
  {
    var d := p.read.value.snapshot;
    if !Current(p) {
      OkRowRestores(p.cmd.messageId, d, clock);
      k := ClaimStale;
    } else if d.version != db[p.cmd.messageId].row.snapshot.version {
      ClaimLoses(db, clock, p, attemptId, key);
      k := ClaimLost;
    } else if p.stamp >= d.dispatchDeadline {
      k := ClaimExpiresCell(db, clock, p, attemptId, key);
    } else {
      k := ClaimStartsCell(db, clock, p, attemptId, key);
    }
  }

  predicate NewHolder(db: Db, db': Db, clock: Time, accepted: seq<string>, p: Phase)
    requires p.Claimed?
  {
    var id := p.cmd.messageId;
    && id in db && id in db' && id !in accepted
    && db'[id].row.snapshot.status == Sending && |db'[id].attempts| > 0
    && db'[id].attempts[|db'[id].attempts| - 1] == p.attempt
    && p.attempt.number == p.attempt.generation == db'[id].row.snapshot.attemptCount
    && p.attempt.number == db[id].row.snapshot.attemptCount + 1
    && p.attempt.startedAt <= clock
  }

  /** After a claim committed, its worker holds the message and has not called the provider yet. */
  lemma NewHolderOk(db: Db, db': Db, clock: Time, calls: seq<Call>, accepted: seq<string>, p: Phase)
    requires p.Claimed? && NewHolder(db, db', clock, accepted, p) && CallsOk(db, calls)
    ensures PhaseOk(db', clock, p) && PhaseLedgerOk(calls, accepted, p)
  {
    forall i | 0 <= i < |calls| ensures calls[i] != Call(p.cmd.messageId, p.attempt.generation) {
      assert CallOk(db, calls[i]);
    }
  }

  /** Where a claim in a known case takes the system. */
  function AfterClaim(s: System, w: nat, cmd: Command, k: ClaimCase): System {
    match k
    case ClaimStale => s.(workers := s.workers - {w})
    case ClaimLost => s.(workers := s.workers - {w})
    case ClaimExpires(c') => s.(db := s.db[cmd.messageId := c'], workers := s.workers - {w})
    case ClaimStarts(c', a) => s.(db := s.db[cmd.messageId := c'], workers := s.workers[w := Claimed(cmd, a)])
  }

  lemma ClaimStep(s: System, w: nat, attemptId: string, key: string, k: ClaimCase)
    requires Enabled(s, CommitClaim(w, attemptId, key))
    requires ClaimCaseHolds(s.db, s.clock, s.workers[w], attemptId, key, k)
    ensures Next(s, CommitClaim(w, attemptId, key)) == AfterClaim(s, w, s.workers[w].cmd, k)
  {
  }

  lemma QueuedMovesOn(s: System, w: nat, id: string, c': Cell)
    requires Inv(s) && id in s.db && Later(s.db[id], c') && CellOk(id, c', s.clock)
    requires s.db[id].row.snapshot.status == Queued
    ensures Inv(s.(db := s.db[id := c'], workers := s.workers - {w}))
    ensures Free(s.workers - {w}, id) && id !in s.accepted
  {
    WorkerLeaves(s.db, s.clock, s.calls, s.accepted, s.workers, w);
    FreeUnlessSending(s.db, s.clock, s.workers, id);
    NotAccepted(s.db, s.accepted, id);
    CommitKeeps(s, id, c', s.workers - {w});
  }

  /** A started attempt gets its holder: the message was moved on from `db`, and nobody else holds it. */
  lemma HolderEnters(db: Db, s: System, w: nat, p: Phase)
    requires Inv(s) && w !in s.workers && p.Claimed? && Free(s.workers, p.cmd.messageId)
    requires CallsOk(db, s.calls) && NewHolder(db, s.db, s.clock, s.accepted, p)
    ensures Inv(s.(workers := s.workers[w := p]))
  {
    NewHolderOk(db, s.db, s.clock, s.calls, s.accepted, p);
    WorkerEnters(s.db, s.clock, s.calls, s.accepted, s.workers, w, p);
  }

  lemma HolderReplaces(db: Db, s: System, w: nat, p: Phase)
    requires Inv(s.(workers := s.workers - {w})) && p.Claimed? && Free(s.workers - {w}, p.cmd.messageId)
    requires CallsOk(db, s.calls) && NewHolder(db, s.db, s.clock, s.accepted, p)
    ensures Inv(s.(workers := s.workers[w := p]))
  {
    HolderEnters(db, s.(workers := s.workers - {w}), w, p);
    assert (s.workers - {w})[w := p] == s.workers[w := p];
  }

  lemma StartIsHeld(s: System, w: nat, cmd: Command, c': Cell, attempt: Attempt)
    requires Inv(s) && w in s.workers && cmd.messageId in s.db
    requires Later(s.db[cmd.messageId], c') && CellOk(cmd.messageId, c', s.clock)
    requires s.db[cmd.messageId].row.snapshot.status == Queued
    requires cmd.messageId !in s.accepted ==>
             NewHolder(s.db, s.db[cmd.messageId := c'], s.clock, s.accepted, Claimed(cmd, attempt))
    ensures Inv(s.(db := s.db[cmd.messageId := c'], workers := s.workers[w := Claimed(cmd, attempt)]))
  {
    QueuedMovesOn(s, w, cmd.messageId, c');
    HolderReplaces(s.db, s.(db := s.db[cmd.messageId := c']), w, Claimed(cmd, attempt));
  }

  lemma CommitClaimKeeps(s: System, w: nat, attemptId: string, key: string)
    requires Inv(s) && Enabled(s, CommitClaim(w, attemptId, key))
    ensures Inv(Next(s, CommitClaim(w, attemptId, key)))
  {
    var p := s.workers[w];
    var id := p.cmd.messageId;
    assert PhaseOk(s.db, s.clock, p);
    var k := ClaimCases(s.db, s.clock, p, attemptId, key);
    ClaimStep(s, w, attemptId, key, k);
    match k
    case ClaimStale => CrashKeeps(s, w);
    case ClaimLost => CrashKeeps(s, w);
    case ClaimExpires(c') => QueuedMovesOn(s, w, id, c');
    case ClaimStarts(c', attempt) => StartIsHeld(s, w, p.cmd, c', attempt);
  }

  // ----- provider call

  /** The call and the server's decision are logged; the caller's own duties end with it. */
  lemma CallIsLogged(db: Db, clock: Time, calls: seq<Call>, accepted: seq<string>, workers: map<nat, Phase>, p: Phase,
                     taken: bool)
    requires CallsOk(db, calls) && AcceptedOk(db, accepted) && WorkersLedgerOk(calls, accepted, workers)
    requires p.Claimed? && HolderOk(db, clock, p) && PhaseLedgerOk(calls, accepted, p) && Free(workers, p.cmd.messageId)
    ensures var calls' := calls + [Call(p.cmd.messageId, p.attempt.generation)];
            var accepted' := if taken then accepted + [p.cmd.messageId] else accepted;
            CallsOk(db, calls') && AcceptedOk(db, accepted') && WorkersLedgerOk(calls', accepted', workers)
  {
    var id := p.cmd.messageId;
    var calls' := calls + [Call(id, p.attempt.generation)];
    var accepted' := if taken then accepted + [id] else accepted;
    assert calls'[..|calls|] == calls;
    forall v | v in workers ensures PhaseLedgerOk(calls', accepted', workers[v]) {
      assert PhaseLedgerOk(calls, accepted, workers[v]);
      assert Holds(workers[v]) ==> workers[v].cmd.messageId != id;
    }
    forall i | 0 <= i < |calls'| ensures CallOk(db, calls'[i]) {
      if i < |calls| {
        assert CallOk(db, calls[i]);
      }
    }
    forall i | 0 <= i < |accepted'| ensures AcceptOk(db, accepted'[i]) {
      if i < |accepted| {
        assert AcceptOk(db, accepted[i]);
      }
    }
  }

  /** After the call its worker carries the result, or leaves when there is none to record. */
  lemma AnswerIsHeld(db: Db, clock: Time, calls: seq<Call>, accepted: seq<string>, workers: map<nat, Phase>, w: nat,
                     p: Phase, r: Option<ProviderResult>)
    requires WorkersOk(db, clock, workers - {w}) && WorkersLedgerOk(calls, accepted, workers - {w})
    requires p.Claimed? && HolderOk(db, clock, p) && Free(workers - {w}, p.cmd.messageId)
    requires r.Some? ==> ValidResult(r.value) && (r.value.outcome == OutcomeFailed ==> p.cmd.messageId !in accepted)
    ensures var workers' := if r.Some? then workers[w := Called(p.cmd, p.attempt, r.value, clock)] else workers - {w};
            WorkersOk(db, clock, workers') && WorkersLedgerOk(calls, accepted, workers')
  {
    if r.Some? {
      var q := Called(p.cmd, p.attempt, r.value, clock);
      WorkerEnters(db, clock, calls, accepted, workers - {w}, w, q);
      assert (workers - {w})[w := q] == workers[w := q];
    }
  }

  lemma HolderCalls(db: Db, clock: Time, calls: seq<Call>, accepted: seq<string>, workers: map<nat, Phase>, w: nat,
                    contact: Contact)
    requires WorkersOk(db, clock, workers) && WorkersLedgerOk(calls, accepted, workers)
    requires CallsOk(db, calls) && AcceptedOk(db, accepted)
    requires w in workers && workers[w].Claimed? && contact.Submitted? && HonestContact(contact)
    ensures var p := workers[w];
            var calls' := calls + [Call(p.cmd.messageId, p.attempt.generation)];
            var accepted' := if contact.serverAccepted then accepted + [p.cmd.messageId] else accepted;
            var r := Normalize(contact.raw, contact.contextError);
            var workers' := if r.Some? then workers[w := Called(p.cmd, p.attempt, r.value, clock)] else workers - {w};
            && CallsOk(db, calls') && AcceptedOk(db, accepted')
            && WorkersOk(db, clock, workers') && WorkersLedgerOk(calls', accepted', workers')
  {
    var p := workers[w];
    assert PhaseOk(db, clock, p) && PhaseLedgerOk(calls, accepted, p);
    WorkerLeaves(db, clock, calls, accepted, workers, w);
    OthersAreElsewhere(db, clock, workers, w);
    CallIsLogged(db, clock, calls, accepted, workers - {w}, p, contact.serverAccepted);
    var calls' := calls + [Call(p.cmd.messageId, p.attempt.generation)];
    var accepted' := if contact.serverAccepted then accepted + [p.cmd.messageId] else accepted;
    var r := Normalize(contact.raw, contact.contextError);
    assert r.Some? && r.value.outcome == OutcomeFailed ==> !contact.serverAccepted;
    AnswerIsHeld(db, clock, calls', accepted', workers, w, p, r);
  }

  lemma HolderSkipsCall(db: Db, clock: Time, calls: seq<Call>, accepted: seq<string>, workers: map<nat, Phase>, w: nat,
                        r: ProviderResult)
    requires WorkersOk(db, clock, workers) && WorkersLedgerOk(calls, accepted, workers)
    requires w in workers && workers[w].Claimed? && ValidResult(r)
    ensures var p := workers[w];
            var q := Called(p.cmd, p.attempt, r, clock);
            WorkersOk(db, clock, workers[w := q]) && WorkersLedgerOk(calls, accepted, workers[w := q])
  {
    var p := workers[w];
    assert PhaseOk(db, clock, p) && PhaseLedgerOk(calls, accepted, p);
    PhaseMoves(db, clock, calls, accepted, workers, w, Called(p.cmd, p.attempt, r, clock));
  }

  lemma CallProviderKeeps(s: System, w: nat, contact: Contact)
    requires Inv(s) && Enabled(s, CallProvider(w, contact))
    ensures Inv(Next(s, CallProvider(w, contact)))
  {
    match contact
    case NotSubmitted(r) => HolderSkipsCall(s.db, s.clock, s.calls, s.accepted, s.workers, w, r);
    case Submitted(_, _, _) => HolderCalls(s.db, s.clock, s.calls, s.accepted, s.workers, w, contact);
  }

  // ----- finalize

  /** The finalize transaction of a holder whose write phase succeeds. */
  lemma FinalizeWrites(db: Db, p: Phase, delay: int, x: Resolution, c': Cell)
    requires p.FinalizeRead? && p.cmd.messageId in db && p.read == Some(db[p.cmd.messageId].row) && ValidResult(p.result)
    requires var c := db[p.cmd.messageId];
             var d := c.row.snapshot;
             && Restore(d) == Success(Aggregate(d, [])) && d.status == Sending
             && d.generation == p.attempt.generation && d.attemptCount == p.attempt.number
             && ApplyProviderResult(Aggregate(d, []), p.attempt.id, p.result, p.stamp, delay) == Success(x)
             && x.aggregate.data.id == p.cmd.messageId
             && Commit(c, c.row, x.aggregate, Complete(x.completion)) == Success(c')
    ensures Finalize(db, p.read, p.attempt, p.result, p.stamp, delay) ==
            (db[p.cmd.messageId := c'], Finalized(x.disposition))
  {
  }

  /**
   The holder of a claim always finalizes: the fence matches, the compare-and-set wins, and message,
   attempt row and disposition move together.
   */
  lemma FinalizeSucceeds(db: Db, clock: Time, p: Phase, delay: int) returns (c': Cell, disposition: Disposition)
    requires p.FinalizeRead? && HolderOk(db, clock, p) && CellOk(p.cmd.messageId, db[p.cmd.messageId], clock)
    requires 0 < delay <= DAY
    ensures Finalize(db, p.read, p.attempt, p.result, p.stamp, delay) ==
            (db[p.cmd.messageId := c'], Finalized(disposition))
    ensures Later(db[p.cmd.messageId], c') && CellOk(p.cmd.messageId, c', clock) && |c'.attempts| > 0
    ensures Corresponds(c'.row.snapshot.status, c'.attempts[|c'.attempts| - 1].status, disposition)
    ensures p.result.outcome == OutcomeFailed <==> c'.attempts[|c'.attempts| - 1].status == AttemptFailed
  {
    var id := p.cmd.messageId;
    var c := db[id];
    OkRowRestores(id, c.row.snapshot, clock);
    SettleKeepsCell(id, c, p.result, p.stamp, delay, clock);
    var x := ApplyProviderResult(Aggregate(c.row.snapshot, []), p.attempt.id, p.result, p.stamp, delay).value;
    c' := Commit(c, c.row, x.aggregate, Complete(x.completion)).value;
    disposition := x.disposition;
    FinalizeWrites(db, p, delay, x, c');
  }

  lemma CommitFinalizeKeeps(s: System, w: nat, delay: int)
    requires Inv(s) && Enabled(s, CommitFinalize(w, delay))
    ensures Inv(Next(s, CommitFinalize(w, delay)))
  {
    var p := s.workers[w];
    var id := p.cmd.messageId;
    assert PhaseOk(s.db, s.clock, p) && PhaseLedgerOk(s.calls, s.accepted, p);
    assert CellOk(id, s.db[id], s.clock);
    var c', _ := FinalizeSucceeds(s.db, s.clock, p, delay);
    WorkerLeaves(s.db, s.clock, s.calls, s.accepted, s.workers, w);
    OthersAreElsewhere(s.db, s.clock, s.workers, w);
    CommitKeeps(s, id, c', s.workers - {w});
  }

  // ----- every step, every run

  lemma TickKeeps(s: System, to: Time)
    requires Inv(s) && Enabled(s, Tick(to))
    ensures Inv(Next(s, Tick(to)))
  {
    DbTicks(s.db, s.clock, to);
    PhasesTick(s.db, s.clock, to, s.broker, s.workers);
  }

  lemma StepKeepsInv(s: System, step: Step)
    requires Inv(s) && Enabled(s, step)
    ensures Inv(Next(s, step))
  {
    match step
    case Tick(to) => TickKeeps(s, to);
    case Submit(q, stamp) => SubmitKeeps(s, q, stamp);
    case Schedule(ids, stamp) => ScheduleKeeps(s, ids, stamp);
    case PublishRow(id, index, attempt) => PublishKeeps(s, id, index, attempt);
    case ReadClaim(w, cmd, stamp) => ReadClaimKeeps(s, w, cmd, stamp);
    case CommitClaim(w, attemptId, key) => CommitClaimKeeps(s, w, attemptId, key);
    case CallProvider(w, contact) => CallProviderKeeps(s, w, contact);
    case ReadFinalize(w, stamp) => ReadFinalizeKeeps(s, w, stamp);
    case CommitFinalize(w, delay) => CommitFinalizeKeeps(s, w, delay);
    case Crash(w) => CrashKeeps(s, w);
  }

  lemma {:induction false} RunKeepsInv(s: System, steps: seq<Step>)
    requires Inv(s) && Legal(s, steps)
    ensures Inv(Exec(s, steps))
    decreases |steps|
  {
    if steps == [] {
    } else {
      StepKeepsInv(s, steps[0]);
      RunKeepsInv(Next(s, steps[0]), steps[1..]);
    }
  }
}
