/** The tables as the shared object that transactions write through, statement by statement. */
module Database {
  import opened Common
  import opened Messages
  import opened EventMapping
  import opened Providers
  import opened Store

  // ----- statements over the whole database

  /** A statement on one message's rows; a missing message matches no row. */
  function On(db: Db, id: string, missing: StoreError, write: Cell -> Result<Cell, StoreError>): Result<Db, StoreError> {
    if id !in db then Failure(missing)
    else
      var c :- write(db[id]);
      Success(db[id := c])
  }

  function PutEntry(c: Cell, e: JournalEntry): Result<Cell, StoreError> {
    var journal :- AppendEntry(c.journal, e);
    Success(c.(journal := journal))
  }

  function PutRow(c: Cell, o: OutboxEvent): Result<Cell, StoreError> {
    var outbox :- AppendOutboxRow(c.outbox, o);
    Success(c.(outbox := outbox))
  }

  function EntryKey(e: JournalEntry): string {
    e.messageId
  }

  function RowKey(o: OutboxEvent): string {
    o.aggregateId
  }

  /** One insert; a row of an unknown message breaks the foreign key. */
  function PutTo<T>(db: Db, t: T, key: T -> string, put: (Cell, T) -> Result<Cell, StoreError>): Result<Db, StoreError> {
    if key(t) !in db then Failure(ConstraintViolation)
    else
      var c :- put(db[key(t)], t);
      Success(db[key(t) := c])
  }

  function PutAllTo<T>(db: Db, ts: seq<T>, key: T -> string, put: (Cell, T) -> Result<Cell, StoreError>)
    : Result<Db, StoreError>
  {
    if ts == [] then Success(db)
    else
      var init :- PutAllTo(db, ts[..|ts| - 1], key, put);
      PutTo(init, ts[|ts| - 1], key, put)
  }

  /** The inserts that concern one message, on its own rows. */
  function PutAll<T>(c: Cell, ts: seq<T>, put: (Cell, T) -> Result<Cell, StoreError>): Result<Cell, StoreError> {
    if ts == [] then Success(c)
    else
      var init :- PutAll(c, ts[..|ts| - 1], put);
      put(init, ts[|ts| - 1])
  }

  function Select<T>(ts: seq<T>, key: T -> string, id: string): seq<T> {
    if ts == [] then []
    else Select(ts[..|ts| - 1], key, id) + (if key(ts[|ts| - 1]) == id then [ts[|ts| - 1]] else [])
  }

  /** What one more insert does to the rows of one message. */
  lemma OwnInsert<T>(c: Cell, ts: seq<T>, key: T -> string, put: (Cell, T) -> Result<Cell, StoreError>, id: string)
    requires ts != []
    ensures var t := ts[|ts| - 1];
            var init := PutAll(c, Select(ts[..|ts| - 1], key, id), put);
            PutAll(c, Select(ts, key, id), put) == if key(t) != id || init.Failure? then init else put(init.value, t)
  {
    var t, init := ts[|ts| - 1], Select(ts[..|ts| - 1], key, id);
    if key(t) == id {
      var mine := init + [t];
      assert Select(ts, key, id) == mine && mine[..|mine| - 1] == init;
    } else {
      assert Select(ts, key, id) == init;
    }
  }

  /** A list of inserts for many messages does to each message what its own inserts do alone. */
  lemma {:induction false} InsertsAreIndependent<T>(db: Db, ts: seq<T>, key: T -> string,
                                                    put: (Cell, T) -> Result<Cell, StoreError>)
    requires forall t <- ts :: key(t) in db
    ensures PutAllTo(db, ts, key, put).Success? <==>
            forall id :: id in db ==> PutAll(db[id], Select(ts, key, id), put).Success?
    ensures PutAllTo(db, ts, key, put).Success? ==>
            var db' := PutAllTo(db, ts, key, put).value;
            && db'.Keys == db.Keys
            && forall id :: id in db ==> db'[id] == PutAll(db[id], Select(ts, key, id), put).value
    decreases |ts|
  {
    if ts == [] {
    } else {
      var init, t := ts[..|ts| - 1], ts[|ts| - 1];
      InsertsAreIndependent(db, init, key, put);
      forall id | id in db
        ensures var own := PutAll(db[id], Select(init, key, id), put);
                PutAll(db[id], Select(ts, key, id), put) == if key(t) != id || own.Failure? then own else put(own.value, t)
      {
        OwnInsert(db[id], ts, key, put, id);
      }
    }
  }

  lemma {:induction false} EntriesOfOne(c: Cell, es: seq<JournalEntry>)
    ensures PutAll(c, es, PutEntry) ==
            match AppendJournal(c.journal, es)
            case Success(journal) => Success(c.(journal := journal))
            case Failure(e) => Failure(e)
  {
    if es == [] {
    } else {
      EntriesOfOne(c, es[..|es| - 1]);
    }
  }

  lemma {:induction false} RowsOfOne(c: Cell, os: seq<OutboxEvent>)
    ensures PutAll(c, os, PutRow) ==
            match InsertOutbox(c.outbox, os)
            case Success(outbox) => Success(c.(outbox := outbox))
            case Failure(e) => Failure(e)
  {
    if os == [] {
    } else {
      RowsOfOne(c, os[..|os| - 1]);
    }
  }

  /** The rows are checked together before the first is written. */
  function RowsTo(db: Db, os: seq<OutboxEvent>): Result<Db, StoreError> {
    if AllValidRows(os) then PutAllTo(db, os, RowKey, PutRow) else Failure(InvalidRecord)
  }

  /** A failed insert is not made good by later ones. */
  lemma {:induction false} FailedInsertStays<T>(db: Db, ts: seq<T>, n: nat, key: T -> string,
                                                put: (Cell, T) -> Result<Cell, StoreError>)
    requires n <= |ts| && PutAllTo(db, ts[..n], key, put).Failure?
    ensures PutAllTo(db, ts, key, put) == PutAllTo(db, ts[..n], key, put)
    decreases |ts| - n
  {
    if n == |ts| {
      assert ts[..n] == ts;
    } else {
      assert ts[..n + 1][..n] == ts[..n];
      FailedInsertStays(db, ts, n + 1, key, put);
    }
  }

  /** What a statement reports, and the tables it leaves when it succeeds; after a failure they are rolled back. */
  predicate Wrote(r: Result<Db, StoreError>, after: Db, err: Option<StoreError>) {
    match r
    case Success(db) => err.None? && after == db
    case Failure(e) => err == Some(e)
  }

  class Tables {
    var cells: Db

    constructor ()
      ensures cells == map[]
    {
      cells := map[];
    }

    method GetById(id: string) returns (read: Option<Row>)
      ensures read == ReadRow(cells, id)
    {
      if id !in cells {
        return None;
      }
      return Some(cells[id].row);
    }

    /** The version-guarded update: no row with that id and version means a concurrent update. */
    method Save(d: Snapshot) returns (err: Option<StoreError>)
      modifies this
      ensures InRange(d) ==> Wrote(On(old(cells), d.id, ConcurrentUpdate, c => Store.Save(c, d)), cells, err)
      ensures !InRange(d) ==> err == Some(InvalidRecord)
    {
      if !InRange(d) {
        return Some(InvalidRecord);
      }
      if d.id !in cells || cells[d.id].row.snapshot.version != d.version {
        return Some(ConcurrentUpdate);
      }
      var row := cells[d.id].row;
      if !RowChecks(d.(acceptedAt := row.snapshot.acceptedAt)) {
        return Some(ConstraintViolation);
      }
      var stored := d.(id := row.snapshot.id, acceptedAt := row.snapshot.acceptedAt, version := d.version + 1);
      cells := cells[d.id := cells[d.id].(row := row.(snapshot := stored))];
      return None;
    }

    method CreateStarted(id: string, a: Attempt) returns (err: Option<StoreError>)
      modifies this
      ensures Wrote(On(old(cells), id, ConstraintViolation, c => StartAttempt(c, a)), cells, err)
    {
      if id !in cells {
        return Some(ConstraintViolation);
      }
      if !ValidStarted(a) {
        return Some(InvalidRecord);
      }
      if AttemptTaken(cells[id].attempts, a) {
        return Some(AttemptConflict);
      }
      cells := cells[id := cells[id].(attempts := cells[id].attempts + [a])];
      return None;
    }

    /** The guarded update of one started row. */
    method CompleteStarted(id: string, done: Completion) returns (err: Option<StoreError>)
      modifies this
      ensures Wrote(On(old(cells), id, AttemptConflict, c => CompleteAttempt(c, done)), cells, err)
    {
      if id !in cells {
        return Some(AttemptConflict);
      }
      if !ValidCompletion(done) {
        return Some(InvalidRecord);
      }
      var attempts := cells[id].attempts;
      var i := FindStarted(attempts, done.attemptId);
      if i == |attempts| {
        return Some(AttemptConflict);
      }
      if done.finishedAt < attempts[i].startedAt {
        return Some(ConstraintViolation);
      }
      cells := cells[id := cells[id].(attempts := attempts[i := Completed(attempts[i], done)])];
      return None;
    }

    method AppendEntries(es: seq<JournalEntry>) returns (err: Option<StoreError>)
      modifies this
      ensures Wrote(PutAllTo(old(cells), es, EntryKey, PutEntry), cells, err)
    {
      for i := 0 to |es|
        invariant PutAllTo(old(cells), es[..i], EntryKey, PutEntry) == Success(cells)
      {
        assert es[..i + 1][..i] == es[..i];
        var r := PutTo(cells, es[i], EntryKey, PutEntry);
        if r.Failure? {
          FailedInsertStays(old(cells), es, i + 1, EntryKey, PutEntry);
          return Some(r.error);
        }
        cells := r.value;
      }
      assert es[..|es|] == es;
      return None;
    }

    method AppendRows(os: seq<OutboxEvent>) returns (err: Option<StoreError>)
      modifies this
      ensures Wrote(RowsTo(old(cells), os), cells, err)
      ensures !AllValidRows(os) ==> cells == old(cells)
    {
      for i := 0 to |os|
        invariant AllValidRows(os[..i]) && cells == old(cells)
      {
        if !ValidOutboxRow(os[i]) {
          return Some(InvalidRecord);
        }
        assert os[..i + 1] == os[..i] + [os[i]];
      }
      assert os[..|os|] == os;
      for i := 0 to |os|
        invariant PutAllTo(old(cells), os[..i], RowKey, PutRow) == Success(cells)
      {
        assert os[..i + 1][..i] == os[..i];
        var r := PutTo(cells, os[i], RowKey, PutRow);
        if r.Failure? {
          FailedInsertStays(old(cells), os, i + 1, RowKey, PutRow);
          return Some(r.error);
        }
        cells := r.value;
      }
      assert os[..|os|] == os;
      return None;
    }
  }
}
