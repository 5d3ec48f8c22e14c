/**
 The scheduler's batch: due records are advanced and saved one by one while their events are
 collected, and the collected journal entries and outbox rows are appended at the end. The batch
 is proved to do to every locked message what a transaction of its own would do, or nothing at all.
 */
module DueScheduler {
  import opened Common
  import opened Messages
  import opened MessageObject
  import opened EventMapping
  import opened Store
  import opened Worker
  import opened Database
  import opened Transactions
  import opened Dispatch

  datatype Prepared = Prepared(cell: Cell, mapped: Mapped)

  /** One locked record advanced and saved, its events mapped but not appended yet. */
  function Prepare(c: Cell, now: Time): Result<Prepared, ScheduleError> {
    match Restore(c.row.snapshot)
    case Failure(_) => Failure(ScheduleCorrupt)
    case Success(a) =>
      var b :- ScheduleOne(a, now);
      match MapAll(c.row, b.pending)
      case Failure(e) => Failure(ScheduleWrite(Unmappable(e)))
      case Success(m) =>
        match Store.Save(c, b.data)
        case Failure(e) => Failure(ScheduleWrite(e))
        case Success(saved) => Success(Prepared(saved, m))
  }

  lemma ScheduleIsPrepareAndAppend(c: Cell, now: Time)
    ensures ScheduleCell(c, now) ==
            match Prepare(c, now)
            case Failure(e) => Failure(e)
            case Success(p) =>
              match AppendEvents(p.cell, p.mapped)
              case Success(c') => Success(c')
              case Failure(e) => Failure(ScheduleWrite(e))
  {
  }

  predicate AllPrepared(db: Db, ids: seq<string>, now: Time) {
    forall id <- ids :: id in db && Prepare(db[id], now).Success?
  }

  function SavedDb(db: Db, ids: seq<string>, now: Time): Db
    requires AllPrepared(db, ids, now)
  {
    map id | id in db :: if id in ids then Prepare(db[id], now).value.cell else db[id]
  }

  function JournalPart(m: Mapped): seq<JournalEntry> {
    m.journal
  }

  function OutboxPart(m: Mapped): seq<OutboxEvent> {
    m.outbox
  }

  /** What the loop has collected from the records of ids, in their order. */
  function Gather<T>(db: Db, ids: seq<string>, now: Time, part: Mapped -> seq<T>): seq<T>
    requires AllPrepared(db, ids, now)
  {
    if ids == [] then []
    else
      Gather(db, ids[..|ids| - 1], now, part) + part(Prepare(db[ids[|ids| - 1]], now).value.mapped)
  }

  lemma {:induction false} SelectConcat<T>(a: seq<T>, b: seq<T>, key: T -> string, id: string)
    ensures Select(a + b, key, id) == Select(a, key, id) + Select(b, key, id)
  {
    if b == [] {
      assert a + b == a;
    } else {
      assert (a + b)[..|a + b| - 1] == a + b[..|b| - 1];
      SelectConcat(a, b[..|b| - 1], key, id);
    }
  }

  /** Every collected row is keyed by the record it came from. */
  ghost predicate KeyedParts<T>(db: Db, ids: seq<string>, now: Time, part: Mapped -> seq<T>, key: T -> string)
    requires AllPrepared(db, ids, now)
  {
    forall id <- ids :: forall t <- part(Prepare(db[id], now).value.mapped) :: key(t) == id
  }

  /** Among all rows collected, those of one record are the record's own. */
  lemma {:induction false} GatherSelects<T>(db: Db, ids: seq<string>, now: Time, part: Mapped -> seq<T>,
                                            key: T -> string, id: string)
    requires AllPrepared(db, ids, now) && KeyedParts(db, ids, now, part, key) && NoRepeats(ids)
    ensures Select(Gather(db, ids, now, part), key, id) ==
            if id in ids then part(Prepare(db[id], now).value.mapped) else []
  {
    if ids == [] {
    } else {
      var init, last := ids[..|ids| - 1], ids[|ids| - 1];
      assert ids == init + [last];
      GatherSelects(db, init, now, part, key, id);
      var mine := part(Prepare(db[last], now).value.mapped);
      SelectConcat(Gather(db, init, now, part), mine, key, id);
      if id == last {
        SelectAll(mine, key, id);
      } else {
        SelectNone(mine, key, id);
      }
    }
  }

  lemma {:induction false} GatherIsKnown<T>(db: Db, ids: seq<string>, now: Time, part: Mapped -> seq<T>, key: T -> string)
    requires AllPrepared(db, ids, now) && KeyedParts(db, ids, now, part, key)
    ensures forall t <- Gather(db, ids, now, part) :: key(t) in db
  {
    if ids == [] {
    } else {
      GatherIsKnown(db, ids[..|ids| - 1], now, part, key);
    }
  }

  lemma PartsAreKeyed(db: Db, ids: seq<string>, now: Time)
    requires AllPrepared(db, ids, now) && RowsKeyed(db)
    ensures KeyedParts(db, ids, now, JournalPart, EntryKey) && KeyedParts(db, ids, now, OutboxPart, RowKey)
  {
    forall id | id in ids
      ensures forall e <- Prepare(db[id], now).value.mapped.journal :: EntryKey(e) == id
      ensures forall o <- Prepare(db[id], now).value.mapped.outbox :: RowKey(o) == id
    {
      var b := ScheduleOne(Aggregate(db[id].row.snapshot, []), now).value;
      MappedForOne(db[id].row, b.pending);
    }
  }

  /** The append statements at the end of a batch, on the saved tables. */
  function AppendBatch(saved: Db, es: seq<JournalEntry>, os: seq<OutboxEvent>): Result<Db, StoreError> {
    var entered :- PutAllTo(saved, es, EntryKey, PutEntry);
    RowsTo(entered, os)
  }

  /** The checked inserts of the outbox rows that belong to one message. */
  function OwnRows(c: Cell, id: string, os: seq<OutboxEvent>): Result<Cell, StoreError> {
    var own := Select(os, RowKey, id);
    if AllValidRows(own) then PutAll(c, own, PutRow) else Failure(InvalidRecord)
  }

  /** The same statements for the rows of one message. */
  function AppendOwn(c: Cell, id: string, es: seq<JournalEntry>, os: seq<OutboxEvent>): Result<Cell, StoreError> {
    var entered :- PutAll(c, Select(es, EntryKey, id), PutEntry);
    OwnRows(entered, id, os)
  }

  lemma {:induction false} SelectionHolds(os: seq<OutboxEvent>, id: string)
    ensures forall o :: o in Select(os, RowKey, id) <==> o in os && RowKey(o) == id
  {
    if os == [] {
    } else {
      var init, last := os[..|os| - 1], os[|os| - 1];
      assert os == init + [last];
      SelectionHolds(init, id);
    }
  }

  /** The rows pass their checks exactly if the rows of every message do. */
  lemma ChecksAreIndependent(saved: Db, os: seq<OutboxEvent>)
    requires forall o <- os :: RowKey(o) in saved
    ensures AllValidRows(os) <==> forall id :: id in saved ==> AllValidRows(Select(os, RowKey, id))
  {
    forall id ensures AllValidRows(os) ==> AllValidRows(Select(os, RowKey, id)) {
      SelectionHolds(os, id);
      var own := Select(os, RowKey, id);
      forall i | 0 <= i < |own| && AllValidRows(os) ensures ValidOutboxRow(own[i]) {
        assert own[i] in own;
      }
    }
    if !AllValidRows(os) {
      var i :| 0 <= i < |os| && !ValidOutboxRow(os[i]);
      var id := RowKey(os[i]);
      SelectionHolds(os, id);
      assert os[i] in Select(os, RowKey, id);
    }
  }

  lemma RowsAreIndependent(db: Db, os: seq<OutboxEvent>)
    requires forall o <- os :: RowKey(o) in db
    ensures RowsTo(db, os).Success? <==> forall id :: id in db ==> OwnRows(db[id], id, os).Success?
    ensures RowsTo(db, os).Success? ==>
            && RowsTo(db, os).value.Keys == db.Keys
            && forall id :: id in db ==> RowsTo(db, os).value[id] == OwnRows(db[id], id, os).value
  {
    ChecksAreIndependent(db, os);
    InsertsAreIndependent(db, os, RowKey, PutRow);
    if !AllValidRows(os) {
      var id :| id in db && !AllValidRows(Select(os, RowKey, id));
      assert OwnRows(db[id], id, os).Failure?;
    } else {
      forall id | id in db ensures OwnRows(db[id], id, os) == PutAll(db[id], Select(os, RowKey, id), PutRow) {
      }
    }
  }

  lemma AppendsAreIndependent(saved: Db, es: seq<JournalEntry>, os: seq<OutboxEvent>)
    requires (forall e <- es :: EntryKey(e) in saved) && (forall o <- os :: RowKey(o) in saved)
    ensures var r := AppendBatch(saved, es, os);
            && (r.Success? <==> forall id :: id in saved ==> AppendOwn(saved[id], id, es, os).Success?)
            && (r.Success? ==>
                  && r.value.Keys == saved.Keys
                  && forall id :: id in saved ==> r.value[id] == AppendOwn(saved[id], id, es, os).value)
  {
    InsertsAreIndependent(saved, es, EntryKey, PutEntry);
    var entered := PutAllTo(saved, es, EntryKey, PutEntry);
    if entered.Success? {
      RowsAreIndependent(entered.value, os);
      forall id | id in saved ensures AppendOwn(saved[id], id, es, os) == OwnRows(entered.value[id], id, os) {
      }
    } else {
      var id :| id in saved && PutAll(saved[id], Select(es, EntryKey, id), PutEntry).Failure?;
      assert AppendOwn(saved[id], id, es, os).Failure?;
    }
  }

  /** A message of the batch ends where advance takes it, or fails when advance does; any other is left alone. */
  predicate Fares<E>(c: Cell, own: Result<Cell, StoreError>, member: bool, advance: Cell -> Result<Cell, E>) {
    if member then (own.Success? <==> advance(c).Success?) && (own.Success? ==> own.value == advance(c).value)
    else own == Success(c)
  }

  lemma OneOfBatch(db: Db, ids: seq<string>, now: Time, id: string)
    requires AllPrepared(db, ids, now) && RowsKeyed(db) && NoRepeats(ids) && id in db
    ensures Fares(db[id],
                  AppendOwn(SavedDb(db, ids, now)[id], id, Gather(db, ids, now, JournalPart), Gather(db, ids, now, OutboxPart)),
                  id in ids, Scheduler(now))
  {
    PartsAreKeyed(db, ids, now);
    GatherSelects(db, ids, now, JournalPart, EntryKey, id);
    GatherSelects(db, ids, now, OutboxPart, RowKey, id);
    if id in ids {
      assert Scheduler(now)(db[id]) == ScheduleCell(db[id], now);
      ScheduleIsPrepareAndAppend(db[id], now);
      var p := Prepare(db[id], now).value;
      EntriesOfOne(p.cell, p.mapped.journal);
      var entered := PutAll(p.cell, p.mapped.journal, PutEntry);
      if entered.Success? {
        RowsOfOne(entered.value, p.mapped.outbox);
      }
    }
  }

  lemma FareByFare<E>(db: Db, r: Result<Db, StoreError>, own: map<string, Result<Cell, StoreError>>, ids: set<string>,
                      advance: Cell -> Result<Cell, E>)
    requires own.Keys == db.Keys && ids <= db.Keys
    requires r.Success? <==> forall id :: id in db ==> own[id].Success?
    requires r.Success? ==> r.value.Keys == db.Keys && forall id :: id in db ==> r.value[id] == own[id].value
    requires forall id :: id in db ==> Fares(db[id], own[id], id in ids, advance)
    ensures r.Success? <==> forall id :: id in ids ==> advance(db[id]).Success?
    ensures Batch(db, ids, advance) == (if r.Success? then r.value else db)
  {
    if r.Success? {
      forall id | id in ids ensures advance(db[id]).Success? {
        assert Fares(db[id], own[id], id in ids, advance);
      }
      assert Batch(db, ids, advance) == r.value;
    } else {
      var id :| id in db && own[id].Failure?;
      assert Fares(db[id], own[id], id in ids, advance);
    }
  }

  /** All appends of the batch together make the batch, or fail when some message could not be advanced. */
  lemma FaresMakeBatch<E>(db: Db, saved: Db, es: seq<JournalEntry>, os: seq<OutboxEvent>, ids: set<string>,
                          advance: Cell -> Result<Cell, E>)
    requires saved.Keys == db.Keys && ids <= db.Keys
    requires (forall e <- es :: EntryKey(e) in db) && (forall o <- os :: RowKey(o) in db)
    requires forall id :: id in db ==> Fares(db[id], AppendOwn(saved[id], id, es, os), id in ids, advance)
    ensures var r := AppendBatch(saved, es, os);
            && (r.Success? <==> forall id :: id in ids ==> advance(db[id]).Success?)
            && Batch(db, ids, advance) == (if r.Success? then r.value else db)
  {
    AppendsAreIndependent(saved, es, os);
    var own := map id | id in saved :: AppendOwn(saved[id], id, es, os);
    FareByFare(db, AppendBatch(saved, es, os), own, ids, advance);
  }

  function Locked(ids: seq<string>): set<string> {
    set id | id in ids
  }

  lemma BatchIsAtomic(db: Db, ids: seq<string>, now: Time)
    requires AllPrepared(db, ids, now) && RowsKeyed(db) && NoRepeats(ids)
    ensures var r := AppendBatch(SavedDb(db, ids, now), Gather(db, ids, now, JournalPart), Gather(db, ids, now, OutboxPart));
            && (r.Success? <==> forall id :: id in Locked(ids) ==> Scheduler(now)(db[id]).Success?)
            && Batch(db, Locked(ids), Scheduler(now)) == (if r.Success? then r.value else db)
  {
    var saved := SavedDb(db, ids, now);
    var es, os := Gather(db, ids, now, JournalPart), Gather(db, ids, now, OutboxPart);
    PartsAreKeyed(db, ids, now);
    GatherIsKnown(db, ids, now, JournalPart, EntryKey);
    GatherIsKnown(db, ids, now, OutboxPart, RowKey);
    forall id | id in db ensures Fares(db[id], AppendOwn(saved[id], id, es, os), id in Locked(ids), Scheduler(now)) {
      OneOfBatch(db, ids, now, id);
    }
    FaresMakeBatch(db, saved, es, os, Locked(ids), Scheduler(now));
  }

  datatype BatchResult = BatchResult(claimed: nat, queued: nat, expired: nat)

  /** How many of the records are still inside their deadline. */
  function InTime(db: Db, ids: seq<string>, now: Time): nat
    requires forall id <- ids :: id in db
  {
    if ids == [] then 0
    else
      InTime(db, ids[..|ids| - 1], now)
      + (if now < db[ids[|ids| - 1]].row.snapshot.dispatchDeadline then 1 else 0)
  }

  /** One record: advanced in place, mapped and saved. The tables after a failure are for the caller to restore. */
  method AdvanceOne(tables: Tables, id: string, now: Time) returns (r: Result<Mapped, ScheduleError>, queued: bool)
    requires id in tables.cells && tables.cells[id].row.snapshot.id == id
    modifies tables
    ensures match Prepare(old(tables.cells)[id], now)
            case Success(p) => r == Success(p.mapped) && tables.cells == old(tables.cells)[id := p.cell]
            case Failure(e) => r == Failure(e)
    ensures queued <==> now < old(tables.cells)[id].row.snapshot.dispatchDeadline
  {
    var row := tables.cells[id].row;
    queued := now < row.snapshot.dispatchDeadline;
    var restored := Message.Rehydrate(row.snapshot);
    if restored.Failure? {
      return Failure(ScheduleCorrupt), queued;
    }
    var message := restored.value;
    if now >= message.dispatchDeadline {
      var changed, refused := message.Expire(now);
      if refused.Some? {
        return Failure(ScheduleRejected(refused.value)), queued;
      }
      if !changed {
        return Failure(AlreadyExpired), queued;
      }
    } else {
      var refused := message.Queue(now);
      if refused.Some? {
        return Failure(ScheduleRejected(refused.value)), queued;
      }
    }
    var mapped := MapAllEvents(row, message.pendingEvents);
    if mapped.Failure? {
      return Failure(ScheduleWrite(Unmappable(mapped.error))), queued;
    }
    var err := tables.Save(message.ToSnapshot());
    if err.Some? {
      return Failure(ScheduleWrite(err.value)), queued;
    }
    return Success(mapped.value), queued;
  }

  method AppendCollected(tables: Tables, entries: seq<JournalEntry>, rows: seq<OutboxEvent>)
    returns (err: Option<StoreError>)
    modifies tables
    ensures Wrote(AppendBatch(old(tables.cells), entries, rows), tables.cells, err)
  {
    err := tables.AppendEntries(entries);
    if err.None? {
      err := tables.AppendRows(rows);
    }
  }

  lemma OneMorePrepared(db: Db, ids: seq<string>, i: nat, now: Time)
    requires i < |ids| && NoRepeats(ids) && AllPrepared(db, ids[..i], now) && ids[i] in db
    ensures ids[i] !in ids[..i] && SavedDb(db, ids[..i], now)[ids[i]] == db[ids[i]]
    ensures Prepare(db[ids[i]], now).Success? ==>
            && AllPrepared(db, ids[..i + 1], now)
            && SavedDb(db, ids[..i + 1], now) == SavedDb(db, ids[..i], now)[ids[i] := Prepare(db[ids[i]], now).value.cell]
  {
    assert ids[..i + 1] == ids[..i] + [ids[i]];
  }

  /** One record that cannot be advanced keeps the whole batch from happening. */
  lemma RefusedBatch(db: Db, ids: seq<string>, id: string, now: Time)
    requires id in ids && id in db && Prepare(db[id], now).Failure?
    ensures ScheduleCell(db[id], now).Failure? && Batch(db, Locked(ids), Scheduler(now)) == db
  {
    ScheduleIsPrepareAndAppend(db[id], now);
    assert Scheduler(now)(db[id]) == ScheduleCell(db[id], now);
    assert id in Locked(ids);
  }

  datatype Collected = Collected(result: BatchResult, entries: seq<JournalEntry>, rows: seq<OutboxEvent>)

  /** The loop over the locked records; it stops at the first that cannot be advanced. */
  method AdvanceAll(tables: Tables, ids: seq<string>, now: Time) returns (r: Result<Collected, ScheduleError>)
    requires RowsKeyed(tables.cells) && NoRepeats(ids) && forall id <- ids :: id in tables.cells
    modifies tables
    ensures r.Failure? ==> exists id :: id in ids && Prepare(old(tables.cells)[id], now).Failure?
    ensures r.Success? ==>
            && AllPrepared(old(tables.cells), ids, now)
            && tables.cells == SavedDb(old(tables.cells), ids, now)
            && r.value.entries == Gather(old(tables.cells), ids, now, JournalPart)
            && r.value.rows == Gather(old(tables.cells), ids, now, OutboxPart)
            && var result := r.value.result;
               && result.claimed == |ids| == result.queued + result.expired
               && result.queued == InTime(old(tables.cells), ids, now)
  {
    ghost var before := tables.cells;
    var result := BatchResult(|ids|, 0, 0);
    var entries, rows := [], [];
    assert SavedDb(before, ids[..0], now) == before;
    for i := 0 to |ids|
      invariant AllPrepared(before, ids[..i], now)
      invariant tables.cells == SavedDb(before, ids[..i], now)
      invariant entries == Gather(before, ids[..i], now, JournalPart)
      invariant rows == Gather(before, ids[..i], now, OutboxPart)
      invariant result.claimed == |ids| && result.queued + result.expired == i
      invariant result.queued == InTime(before, ids[..i], now)
    {
      assert ids[..i + 1][..i] == ids[..i];
      OneMorePrepared(before, ids, i, now);
      var one, queued := AdvanceOne(tables, ids[i], now);
      if one.Failure? {
        return Failure(one.error);
      }
      result := if queued then result.(queued := result.queued + 1) else result.(expired := result.expired + 1);
      entries := entries + one.value.journal;
      rows := rows + one.value.outbox;
    }
    assert ids[..|ids|] == ids;
    return Success(Collected(result, entries, rows));
  }

  /**
   The batch transaction on the rows the query locked. Every record is advanced exactly as a transaction
   of its own would advance it, or none is; and the counters account for every record.
   */
  method RunOnce(tables: Tables, ids: seq<string>, now: Time) returns (r: Result<BatchResult, ScheduleError>)
    requires RowsKeyed(tables.cells) && NoRepeats(ids) && forall id <- ids :: id in tables.cells
    modifies tables
    ensures ids == [] || now != ZERO_TIME ==> tables.cells == Batch(old(tables.cells), Locked(ids), Scheduler(now))
    ensures ids != [] && now == ZERO_TIME ==> r == Failure(NoEvaluationTime) && tables.cells == old(tables.cells)
    ensures ids == [] || now != ZERO_TIME ==>
              (r.Success? <==> forall id <- ids :: ScheduleCell(old(tables.cells)[id], now).Success?)
    ensures r.Success? ==> r.value.claimed == |ids| == r.value.queued + r.value.expired
                           && r.value.queued == InTime(old(tables.cells), ids, now)
  {
    var before := tables.cells;
    if |ids| == 0 {
      assert Batch(before, Locked(ids), Scheduler(now)) == before;
      return Success(BatchResult(0, 0, 0));
    }
    if now == ZERO_TIME {
      return Failure(NoEvaluationTime);
    }
    var collected := AdvanceAll(tables, ids, now);
    if collected.Failure? {
      ghost var id :| id in ids && Prepare(before[id], now).Failure?;
      RefusedBatch(before, ids, id, now);
      tables.cells := before;
      return Failure(collected.error);
    }
    BatchIsAtomic(before, ids, now);
    var err := AppendCollected(tables, collected.value.entries, collected.value.rows);
    if err.Some? {
      tables.cells := before;
      return Failure(ScheduleWrite(err.value));
    }
    return Success(collected.value.result);
  }
}
