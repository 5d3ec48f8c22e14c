/**
 The delivery core as a concurrent system: any number of submitters, schedulers, relays and
 dispatch workers act on the shared database in any interleaving, commands are published and
 redelivered any number of times, and a worker can die between any two of its steps.

 A transaction's timestamp is the database clock when the transaction began, so it may lie
 anywhere before its commit; it is only known to lie after the events that made the transaction
 begin. Reading a record and committing what follows from it are separate steps of a worker.
 */
module Dispatch {
  import opened Common
  import opened EventMapping
  import opened Providers
  import opened Store
  import opened Wire
  import opened Worker
  import Smtp

  datatype Phase =
    | ClaimRead(cmd: Command, stamp: Time, read: Option<Row>)
    | Claimed(cmd: Command, attempt: Attempt)
    | Called(cmd: Command, attempt: Attempt, result: ProviderResult, returnedAt: Time)
    | FinalizeRead(cmd: Command, attempt: Attempt, result: ProviderResult, stamp: Time, read: Option<Row>)

  datatype Call = Call(messageId: string, generation: nat)

  /**
   broker holds every command ever published, with the time of its first publication. calls and
   accepted record what happened outside the database: provider calls made, mails the server took.
   */
  datatype System = System(
    clock: Time,
    db: Db,
    broker: map<Command, Time>,
    workers: map<nat, Phase>,
    calls: seq<Call>,
    accepted: seq<string>)

  /** How an attempt went: not submitted at all, or submitted with the server's decision and the adapter's report. */
  datatype Contact =
    | NotSubmitted(result: ProviderResult)
    | Submitted(serverAccepted: bool, raw: ProviderResult, contextError: Option<ContextError>)

  /** The provider contract: a valid failed result means the mail was not accepted. */
  predicate HonestContact(x: Contact) {
    match x
    case NotSubmitted(r) => ValidResult(r) && r.outcome == OutcomeFailed
    case Submitted(accepted, raw, _) => ValidResult(raw) ==> Smtp.Honest(accepted, raw)
  }

  datatype Step =
    | Tick(to: Time)
    | Submit(request: Request, stamp: Time)
    | Schedule(ids: set<string>, stamp: Time)
    | PublishRow(messageId: string, index: nat, publishAttempt: nat)
    | ReadClaim(worker: nat, cmd: Command, stamp: Time)
    | CommitClaim(worker: nat, attemptId: string, providerKey: string)
    | CallProvider(worker: nat, contact: Contact)
    | ReadFinalize(worker: nat, stamp: Time)
    | CommitFinalize(worker: nat, delay: int)
    | Crash(worker: nat)

  predicate InPast(s: System, stamp: Time) {
    0 < stamp <= s.clock
  }

  /** No attempt row anywhere has this id: attempt ids are fresh UUIDs. */
  predicate UnusedAttemptId(db: Db, attemptId: string) {
    forall id, i :: id in db && 0 <= i < |db[id].attempts| ==> db[id].attempts[i].id != attemptId
  }

  predicate Enabled(s: System, step: Step) {
    match step
    case Tick(to) => s.clock <= to
    case Submit(_, stamp) => InPast(s, stamp)
    case Schedule(ids, stamp) => InPast(s, stamp) && forall id :: id in ids ==> id in s.db && Due(s.db[id].row.snapshot, stamp)
    case PublishRow(id, index, attempt) => id in s.db && index < |s.db[id].outbox| && 0 < attempt <= MAX_INT32
    case ReadClaim(w, cmd, stamp) => w !in s.workers && cmd in s.broker && s.broker[cmd] <= stamp && InPast(s, stamp)
    case CommitClaim(w, attemptId, _) => w in s.workers && s.workers[w].ClaimRead? && UnusedAttemptId(s.db, attemptId)
    case CallProvider(w, contact) => w in s.workers && s.workers[w].Claimed? && HonestContact(contact)
    case ReadFinalize(w, stamp) =>
      w in s.workers && s.workers[w].Called? && s.workers[w].returnedAt <= stamp && InPast(s, stamp)
    case CommitFinalize(w, delay) =>
      w in s.workers && s.workers[w].FinalizeRead? && ValidResult(s.workers[w].result) && 0 < delay <= DAY
    case Crash(w) => w in s.workers
  }

  /** A transaction over a batch of locked rows advances all of them or none. */
  function Batch<E>(db: Db, ids: set<string>, advance: Cell -> Result<Cell, E>): Db {
    if forall id :: id in ids ==> id in db && advance(db[id]).Success? then
      map id | id in db :: if id in ids then advance(db[id]).value else db[id]
    else db
  }

  function Scheduler(now: Time): Cell -> Result<Cell, ScheduleError> {
    c => ScheduleCell(c, now)
  }

  /** What a consumer makes of a published row. */
  function CommandOf(o: OutboxEvent, attempt: nat): Option<Command> {
    match Publish(o, attempt)
    case None => None
    case Some(d) => if ParseDispatch(d).Success? then Some(ParseDispatch(d).value) else None
  }

  function Next(s: System, step: Step): System
    requires Enabled(s, step)
  {
    match step
    case Tick(to) => s.(clock := to)
    case Submit(q, stamp) => s.(db := SubmitTo(s.db, q, stamp))
    case Schedule(ids, stamp) => s.(db := Batch(s.db, ids, Scheduler(stamp)))
    case PublishRow(id, index, attempt) =>
      (match CommandOf(s.db[id].outbox[index], attempt)
       case None => s
       case Some(cmd) => if cmd in s.broker then s else s.(broker := s.broker[cmd := s.clock]))
    case ReadClaim(w, cmd, stamp) =>
      s.(workers := s.workers[w := ClaimRead(cmd, stamp, ReadRow(s.db, cmd.messageId))])
    case CommitClaim(w, attemptId, key) =>
      var p := s.workers[w];
      var (db, outcome) := Claim(s.db, p.read, p.cmd, p.stamp, attemptId, key);
      (match outcome
       case Holding(a) => s.(db := db, workers := s.workers[w := Claimed(p.cmd, a)])
       case _ => s.(db := db, workers := s.workers - {w}))
    case CallProvider(w, contact) =>
      var p := s.workers[w];
      (match contact
       case NotSubmitted(r) => s.(workers := s.workers[w := Called(p.cmd, p.attempt, r, s.clock)])
       case Submitted(accepted, raw, contextError) =>
         var log := s.(calls := s.calls + [Call(p.cmd.messageId, p.attempt.generation)],
                       accepted := if accepted then s.accepted + [p.cmd.messageId] else s.accepted);
         match Normalize(raw, contextError)
         case None => log.(workers := s.workers - {w})
         case Some(r) => log.(workers := s.workers[w := Called(p.cmd, p.attempt, r, s.clock)]))
    case ReadFinalize(w, stamp) =>
      var p := s.workers[w];
      s.(workers := s.workers[w := FinalizeRead(p.cmd, p.attempt, p.result, stamp, ReadRow(s.db, p.cmd.messageId))])
    case CommitFinalize(w, delay) =>
      var p := s.workers[w];
      var (db, _) := Finalize(s.db, p.read, p.attempt, p.result, p.stamp, delay);
      s.(db := db, workers := s.workers - {w})
    case Crash(w) => s.(workers := s.workers - {w})
  }

  predicate Initial(s: System) {
    0 < s.clock && s.db == map[] && s.broker == map[] && s.workers == map[] && s.calls == [] && s.accepted == []
  }

  /** Every step of the run is enabled where it is taken. */
  predicate Legal(s: System, steps: seq<Step>)
    decreases |steps|
  {
    steps != [] ==> Enabled(s, steps[0]) && Legal(Next(s, steps[0]), steps[1..])
  }

  function Exec(s: System, steps: seq<Step>): System
    requires Legal(s, steps)
    decreases |steps|
  {
    if steps == [] then s else Exec(Next(s, steps[0]), steps[1..])
  }
}
