/**
 The schema against the code: the CHECK constraints of the message table say what the domain's own validation says,
 and the three unique constraints of the history tables survive every write phase, which repeats and conflicts
 exactly where they demand it.
 */
module Constraints {
  import opened Common
  import opened Messages
  import opened EventMapping
  import opened Store
  import opened Wire

  /** What the column types and NOT NULL constraints already rule out: blank ids, absent times, overlong codes. */
  predicate ColumnsHold(s: Snapshot) {
    && !Blank(s.id) && s.acceptedAt != ZERO_TIME && s.updatedAt != ZERO_TIME && s.dispatchDeadline != ZERO_TIME
    && (s.lastFault.Some? ==> |s.lastFault.value.code| <= 128)
  }

  /**
   The database refuses a lifecycle row exactly when the domain would refuse to restore it, but for one gap: a
   failure code of white space other than the space character.
   */
  lemma ChecksAreTheDomainRules(s: Snapshot)
    requires ColumnsHold(s)
    ensures Restore(s).Success? <==> RowChecks(s) && (s.lastFault.Some? ==> !Blank(s.lastFault.value.code))
    ensures Restore(s).Success? ==> RowChecks(s)
  {
    if s.lastFault.Some? && OnlySpaces(s.lastFault.value.code) {
      assert Blank(s.lastFault.value.code);
    }
  }

  /** A row in the gap: stored without complaint, never restored again. */
  lemma TabCodeIsStoredButNotRestored(s: Snapshot, category: Category) returns (s': Snapshot)
    requires ColumnsHold(s) && Restore(s).Success?
    ensures ColumnsHold(s') && RowChecks(s') && Restore(s').Failure?
  {
    s' := s.(lastFault := Some(Fault(category, "\t", false)));
    assert s'.lastFault.value.code[0] != ' ';
    assert Blank(s'.lastFault.value.code);
    ChecksAreTheDomainRules(s);
  }

  predicate UniqueAttempts(attempts: seq<Attempt>) {
    forall i, j :: 0 <= i < j < |attempts| ==>
      && attempts[i].id != attempts[j].id && attempts[i].number != attempts[j].number
      && attempts[i].generation != attempts[j].generation
  }

  predicate UniqueEntries(journal: seq<JournalEntry>) {
    forall i, j :: 0 <= i < j < |journal| ==> journal[i].sequence != journal[j].sequence
  }

  predicate UniqueRows(outbox: seq<OutboxEvent>) {
    forall i, j :: 0 <= i < j < |outbox| ==> outbox[i].id != outbox[j].id
  }

  /** No attempt ends before it starts. */
  predicate AttemptsRunForward(attempts: seq<Attempt>) {
    forall i :: 0 <= i < |attempts| && attempts[i].finishedAt.Some? ==>
      attempts[i].startedAt <= attempts[i].finishedAt.value
  }

  predicate TablesHold(c: Cell) {
    && UniqueAttempts(c.attempts) && AttemptsRunForward(c.attempts)
    && UniqueEntries(c.journal) && UniqueRows(c.outbox)
  }

  /** An attempt row is inserted without an end. */
  predicate StartsOpen(w: AttemptWrite) {
    w.Start? ==> w.attempt.finishedAt.None?
  }

  lemma AttemptWriteKeepsConstraints(c: Cell, w: AttemptWrite)
    requires TablesHold(c) && StartsOpen(w) && WriteAttempt(c, w).Success?
    ensures var c' := WriteAttempt(c, w).value;
            TablesHold(c') && c'.row == c.row && c'.journal == c.journal && c'.outbox == c.outbox
  {
    match w
    case NoAttemptWrite =>
    case Start(a) =>
      forall i | 0 <= i < |c.attempts|
        ensures c.attempts[i].id != a.id && c.attempts[i].number != a.number && c.attempts[i].generation != a.generation
      {
      }
    case Complete(done) =>
  }

  /** e is accepted once, again for free, and never against another entry of its number. */
  lemma OneEntryPerNumber(journal: seq<JournalEntry>, e: JournalEntry)
    requires UniqueEntries(journal) && ValidEntry(e)
    ensures AppendEntry(journal, e).Success? <==>
            forall i :: 0 <= i < |journal| && journal[i].sequence == e.sequence ==> journal[i] == e
    ensures var r := AppendEntry(journal, e);
            if r.Success? then
              && UniqueEntries(r.value) && e in r.value && journal <= r.value && |r.value| <= |journal| + 1
              && AppendEntry(r.value, e) == Success(r.value)
            else r.error == JournalConflict
  {
    var r := AppendEntry(journal, e);
    if r.Success? && r.value != journal {
      assert r.value[|journal|] == e;
    }
  }

  lemma OneRowPerId(outbox: seq<OutboxEvent>, o: OutboxEvent)
    requires UniqueRows(outbox)
    ensures AppendOutboxRow(outbox, o).Success? <==>
            forall i :: 0 <= i < |outbox| && outbox[i].id == o.id ==> outbox[i] == o
    ensures var r := AppendOutboxRow(outbox, o);
            if r.Success? then
              && UniqueRows(r.value) && o in r.value && outbox <= r.value && |r.value| <= |outbox| + 1
              && AppendOutboxRow(r.value, o) == Success(r.value)
            else r.error == OutboxConflict
  {
    var r := AppendOutboxRow(outbox, o);
    if r.Success? && r.value != outbox {
      assert r.value[|outbox|] == o;
    }
  }

  lemma {:induction false} JournalStaysUnique(journal: seq<JournalEntry>, es: seq<JournalEntry>)
    requires UniqueEntries(journal) && AppendJournal(journal, es).Success?
    ensures UniqueEntries(AppendJournal(journal, es).value) && journal <= AppendJournal(journal, es).value
  {
    if es == [] {
    } else {
      var init := es[..|es| - 1];
      JournalStaysUnique(journal, init);
      OneEntryPerNumber(AppendJournal(journal, init).value, es[|es| - 1]);
    }
  }

  lemma {:induction false} OutboxStaysUnique(outbox: seq<OutboxEvent>, os: seq<OutboxEvent>)
    requires UniqueRows(outbox) && InsertOutbox(outbox, os).Success?
    ensures UniqueRows(InsertOutbox(outbox, os).value) && outbox <= InsertOutbox(outbox, os).value
  {
    if os == [] {
    } else {
      var init := os[..|os| - 1];
      OutboxStaysUnique(outbox, init);
      OneRowPerId(InsertOutbox(outbox, init).value, os[|os| - 1]);
    }
  }

  /** The counters fit the BIGINT and INTEGER columns that hold them. */
  predicate CountersFit(s: Snapshot) {
    && s.version <= MAX_INT64 && s.latestSequence <= MAX_INT64 && s.generation <= MAX_INT64
    && s.attemptCount <= MAX_INT32 && s.maxAttempts <= MAX_INT32
  }

  /** What the repository accepts into the outbox the publisher can send, on every attempt, and nothing more. */
  lemma StoredRowsArePublishable(o: OutboxEvent, attempt: nat)
    requires attempt > 0
    ensures ValidOutboxRow(o) <==> ValidPublication(o, attempt) && |o.aggregateType| <= 64 && |o.eventType| <= 128
  {
  }

  /**
   Any write phase at all, of whatever aggregate on whatever record: when it succeeds the constraints still hold,
   nothing committed is gone, and the version it was guarded by moved on by one.
   */
  lemma WritePhaseKeepsConstraints(c: Cell, read: Row, a: Aggregate, w: AttemptWrite)
    requires TablesHold(c) && StartsOpen(w) && Commit(c, read, a, w).Success?
    ensures var c' := Commit(c, read, a, w).value;
            && TablesHold(c') && c.journal <= c'.journal && c.outbox <= c'.outbox && |c.attempts| <= |c'.attempts|
            && a.data.version == c.row.snapshot.version && c'.row.snapshot.version == c.row.snapshot.version + 1
            && c'.row.tenantId == c.row.tenantId && c'.row.idempotencyKey == c.row.idempotencyKey
            && RowChecks(c'.row.snapshot) && CountersFit(c'.row.snapshot)
  {
    var mapped := MapAll(read, a.pending).value;
    var saved := Save(c, a.data).value;
    AttemptWriteKeepsConstraints(saved, w);
    JournalStaysUnique(c.journal, mapped.journal);
    OutboxStaysUnique(c.outbox, mapped.outbox);
  }
}
