/**
 What the tables of one message say about each other in every committed state, and that the
 write phase of a transaction keeps it.
 */
module Cells {
  import opened Common
  import opened Statuses
  import opened Messages
  import opened MessageRuns
  import opened EventMapping
  import opened Providers
  import opened Store

  // ----- journal and outbox

  function QueuedCount(journal: seq<JournalEntry>): nat {
    if journal == [] then 0
    else QueuedCount(journal[..|journal| - 1]) + (if journal[|journal| - 1].status == Queued then 1 else 0)
  }

  /** The outbox ids one journal entry accounts for: its own, and a dispatch request when it queued the message. */
  function ExpandEntry(j: JournalEntry): seq<EventId> {
    [j.id] + (if j.status == Queued then [EventId(j.messageId, DispatchRequested, j.sequence, j.id.generation)] else [])
  }

  function Expand(journal: seq<JournalEntry>): seq<EventId> {
    if journal == [] then [] else Expand(journal[..|journal| - 1]) + ExpandEntry(journal[|journal| - 1])
  }

  function Ids(outbox: seq<OutboxEvent>): (ids: seq<EventId>)
    ensures |ids| == |outbox|
    ensures forall i :: 0 <= i < |outbox| ==> ids[i] == outbox[i].id
  {
    seq(|outbox|, i requires 0 <= i < |outbox| => outbox[i].id)
  }

  predicate EntryOk(id: string, journal: seq<JournalEntry>, i: nat)
    requires i < |journal|
  {
    && journal[i].sequence == i + 1
    && journal[i].messageId == id
    && journal[i].id == EventId(id, if i == 0 then MessageAccepted else StatusChanged, i + 1,
                                QueuedCount(journal[..i + 1]))
  }

  predicate SameOrigin(row: Row, j: JournalEntry) {
    j.tenantId == row.tenantId && j.idempotencyKey == row.idempotencyKey
  }

  /** Exactly one entry per sequence number, a legal path of the state graph, ending in the message's state. */
  predicate JournalOk(c: Cell) {
    var d, journal := c.row.snapshot, c.journal;
    && |journal| == d.latestSequence > 0
    && (forall i :: 0 <= i < |journal| ==> EntryOk(d.id, journal, i))
    && journal[0].status == Accepted && journal[|journal| - 1].status == d.status
    && (forall i :: 0 <= i < |journal| - 1 ==> CanTransition(journal[i].status, journal[i + 1].status))
    && QueuedCount(journal) == d.generation
    && (forall i :: 0 <= i < |journal| ==> SameOrigin(c.row, journal[i]))
    && journal[|journal| - 1].occurredAt == d.updatedAt && journal[|journal| - 1].attemptNumber == d.attemptCount
  }

  predicate OutboxRowOk(row: Row, o: OutboxEvent) {
    && o.aggregateId == row.snapshot.id == o.id.messageId
    && o.sequence == o.id.sequence && o.generation == o.id.generation
    && o.aggregateType == MAIL_MESSAGE && o.eventType == KindName(o.id.kind)
    && o.payload.schemaVersion == 1 && o.payload.tenantId == row.tenantId && o.payload.messageId == row.snapshot.id
    && o.payload.eventType == o.eventType && o.payload.occurredAt != ZERO_TIME
    && o.payload.sequence == o.sequence && o.payload.generation == o.generation
  }

  /**
   The payload tells what the journal tells: the same transition, from the state of the entry before it, with
   the same time, attempt, provider id and failure; a dispatch request repeats the queued state.
   */
  predicate PayloadOk(journal: seq<JournalEntry>, o: OutboxEvent) {
    && 0 < o.sequence <= |journal|
    && var j, p := journal[o.sequence - 1], o.payload;
       && p.to == j.status && p.occurredAt == j.occurredAt && p.attemptNumber == j.attemptNumber && p.reasonCode == ""
       && if o.id.kind == DispatchRequested then
            p.from == Some(Queued) && p.to == Queued && p.providerMessageId == "" && p.fault.None?
          else
            && p.from == (if o.sequence == 1 then None else Some(journal[o.sequence - 2].status))
            && p.providerMessageId == j.providerMessageId && p.fault == j.fault
  }

  /** The outbox holds one row per journal entry, with its id, and one dispatch request per generation; nothing else. */
  predicate OutboxOk(c: Cell) {
    && Ids(c.outbox) == Expand(c.journal)
    && (forall i :: 0 <= i < |c.outbox| ==> OutboxRowOk(c.row, c.outbox[i]))
    && (forall i :: 0 <= i < |c.outbox| ==> PayloadOk(c.journal, c.outbox[i]))
  }

  predicate HistoryOk(c: Cell) {
    && !Blank(c.row.idempotencyKey) && |c.row.idempotencyKey| <= 255
    && JournalOk(c) && OutboxOk(c)
  }

  lemma {:induction false} ExpandBounded(id: string, journal: seq<JournalEntry>, n: nat)
    requires n <= |journal| && forall i :: 0 <= i < |journal| ==> EntryOk(id, journal, i)
    ensures forall e <- Expand(journal[..n]) :: e.messageId == id && 0 < e.sequence <= n
  {
    if n == 0 {
    } else {
      assert journal[..n][..n - 1] == journal[..n - 1];
      ExpandBounded(id, journal, n - 1);
      assert EntryOk(id, journal, n - 1);
      assert Expand(journal[..n]) == Expand(journal[..n - 1]) + ExpandEntry(journal[n - 1]);
    }
  }

  lemma {:induction false} QueuedCountGrows(journal: seq<JournalEntry>, m: nat, n: nat)
    requires m <= n <= |journal|
    ensures QueuedCount(journal[..m]) <= QueuedCount(journal[..n])
    decreases n - m
  {
    if m == n {
    } else {
      assert journal[..n][..n - 1] == journal[..n - 1];
      QueuedCountGrows(journal, m, n - 1);
    }
  }

  /** Where a dispatch request of the outbox comes from. */
  lemma {:induction false} DispatchOrigin(id: string, journal: seq<JournalEntry>, n: nat, e: EventId) returns (i: nat)
    requires n <= |journal| && forall i :: 0 <= i < |journal| ==> EntryOk(id, journal, i)
    requires e in Expand(journal[..n]) && e.kind == DispatchRequested
    ensures i < n && journal[i].status == Queued
    ensures e == EventId(id, DispatchRequested, i + 1, QueuedCount(journal[..i + 1]))
  {
    assert n > 0;
    assert journal[..n][..n - 1] == journal[..n - 1];
    assert EntryOk(id, journal, n - 1);
    if e in ExpandEntry(journal[n - 1]) {
      i := n - 1;
    } else {
      i := DispatchOrigin(id, journal, n - 1, e);
    }
  }

  /** A dispatch request is never ahead of its message, and is current only while the message is queued. */
  predicate Behind(e: EventId, d: Snapshot) {
    && e.messageId == d.id
    && 0 < e.generation <= d.generation && 0 < e.sequence <= d.latestSequence
    && (e.sequence == d.latestSequence ==> d.status == Queued && e.generation == d.generation)
  }

  lemma {:induction false} DispatchRequestsAreBehind(c: Cell, e: EventId)
    requires JournalOk(c) && OutboxOk(c)
    requires e in Ids(c.outbox) && e.kind == DispatchRequested
    ensures Behind(e, c.row.snapshot)
  {
    var d, journal := c.row.snapshot, c.journal;
    assert journal[..|journal|] == journal;
    var i := DispatchOrigin(d.id, journal, |journal|, e);
    QueuedCountGrows(journal, i + 1, |journal|);
    assert journal[..i + 1][..i] == journal[..i];
  }

  // ----- one transition of the aggregate

  predicate CleanEvent(e: Event) {
    && (e.providerMessageId == "" || ValidProviderMessageId(e.providerMessageId))
    && (e.fault.Some? ==> ValidFault(e.fault.value))
  }

  /** a is the aggregate after one transition from d, holding the events of that transition only. */
  predicate Emits(d: Snapshot, a: Aggregate) {
    var e := a.data;
    && Coherent(e) && Advances(d, e)
    && e.generation == d.generation + (if e.status == Queued then 1 else 0)
    && |a.pending| == (if e.status == Queued then 2 else 1)
    && var first := a.pending[0];
    && first.kind == StatusChanged && first.messageId == d.id && first.from == Some(d.status) && first.to == e.status
    && first.reasonCode == ""
    && first.occurredAt == e.updatedAt != ZERO_TIME
    && first.sequence == e.latestSequence && first.generation == e.generation && first.attemptNumber == e.attemptCount
    && CleanEvent(first)
    && (e.status == Queued ==>
          var second := a.pending[1];
          && second.kind == DispatchRequested && second.messageId == d.id && second.occurredAt == e.updatedAt
          && second.sequence == e.latestSequence && second.generation == e.generation
          && second.from == Some(Queued) && second.to == Queued && second.attemptNumber == e.attemptCount
          && second.providerMessageId == "" && second.reasonCode == "" && second.fault.None?)
  }

  predicate Storable(d: Snapshot) {
    d.maxAttempts <= 10 && d.version + 2 == d.latestSequence
  }

  function OutboxRow(row: Row, e: Event): OutboxEvent
    requires MapEvent(row, e).Success?
  {
    MapEvent(row, e).value
  }

  /** What the events of one transition are mapped to. */
  predicate MapsStep(row: Row, a: Aggregate, m: Mapped)
    requires Emits(row.snapshot, a)
  {
    && MapEvent(row, a.pending[0]).Success? && m.journal == [EntryOf(row, a.pending[0])] && ValidEntry(m.journal[0])
    && (a.data.status != Queued ==> m.outbox == [OutboxRow(row, a.pending[0])])
    && (a.data.status == Queued ==>
          && MapEvent(row, a.pending[1]).Success?
          && m.outbox == [OutboxRow(row, a.pending[0]), OutboxRow(row, a.pending[1])])
  }

  lemma StepMaps(row: Row, a: Aggregate)
    requires Emits(row.snapshot, a) && Storable(row.snapshot)
    requires !Blank(row.idempotencyKey) && |row.idempotencyKey| <= 255
    ensures MapAll(row, a.pending).Success? && MapsStep(row, a, MapAll(row, a.pending).value)
  {
    var first := a.pending[0];
    assert ValidEntry(EntryOf(row, first));
    assert a.pending[..1] == [first] && [first][..0] == [];
    var one := MapOne(row, first);
    assert one.Success? && [] + one.value.outbox == one.value.outbox && [] + one.value.journal == one.value.journal;
    assert MapSeq(row, [first]) == one;
    if a.data.status == Queued {
      var second := a.pending[1];
      assert a.pending == [first, second];
      assert MapOne(row, second).Success?;
    } else {
      assert a.pending == [first];
    }
  }

  /** The cell after the events of one transition were appended to a saved row. */
  function Extended(c: Cell, a: Aggregate, attempts: seq<Attempt>): Cell
    requires Emits(c.row.snapshot, a)
    requires MapEvent(c.row, a.pending[0]).Success?
    requires a.data.status == Queued ==> MapEvent(c.row, a.pending[1]).Success?
  {
    Cell(c.row.(snapshot := a.data.(version := a.data.version + 1)), attempts,
         c.journal + [EntryOf(c.row, a.pending[0])],
         c.outbox + [OutboxRow(c.row, a.pending[0])]
         + (if a.data.status == Queued then [OutboxRow(c.row, a.pending[1])] else []))
  }

  lemma AppendOneEntry(journal: seq<JournalEntry>, e: JournalEntry)
    requires ValidEntry(e) && forall i :: 0 <= i < |journal| ==> journal[i].sequence != e.sequence
    ensures AppendJournal(journal, [e]) == Success(journal + [e])
  {
    assert [e][..0] == [];
    assert AppendJournal(journal, []) == Success(journal);
  }

  lemma AppendRows(outbox: seq<OutboxEvent>, os: seq<OutboxEvent>)
    requires AllValidRows(os) && (|os| == 1 || (|os| == 2 && os[0].id != os[1].id))
    requires forall i, k :: 0 <= i < |outbox| && 0 <= k < |os| ==> outbox[i].id != os[k].id
    ensures AppendOutbox(outbox, os) == Success(outbox + os)
  {
    var o := os[0];
    assert [o][..0] == [] && InsertOutbox(outbox, []) == Success(outbox);
    assert InsertOutbox(outbox, [o]) == Success(outbox + [o]);
    if |os| == 1 {
      assert os == [o];
    } else {
      assert os[..1] == [o] && outbox + [o] + [os[1]] == outbox + os;
    }
  }

  /** Mapped rows pass the repository's checks as long as their counters fit the database. */
  lemma MappedRowIsInsertable(row: Row, e: Event)
    requires MapEvent(row, e).Success? && e.sequence <= MAX_INT64 && e.generation <= MAX_INT64
    ensures ValidOutboxRow(OutboxRow(row, e))
  {
    assert !IsSpace(MAIL_MESSAGE[0]) && !IsSpace(KindName(e.kind)[0]);
  }

  lemma AppendsCompose(c: Cell, m: Mapped, journal: seq<JournalEntry>, outbox: seq<OutboxEvent>)
    requires AppendJournal(c.journal, m.journal) == Success(journal) && AppendOutbox(c.outbox, m.outbox) == Success(outbox)
    ensures AppendEvents(c, m) == Success(c.(journal := journal, outbox := outbox))
  {
  }

  /** The counters of a transition's events fit the database. */
  lemma StepRowsAreValid(row: Row, a: Aggregate, m: Mapped)
    requires Emits(row.snapshot, a) && Storable(row.snapshot) && MapsStep(row, a, m)
    ensures AllValidRows(m.outbox)
  {
    assert a.data.latestSequence <= 4 * a.data.maxAttempts + 4;
    MappedRowIsInsertable(row, a.pending[0]);
    if a.data.status == Queued {
      MappedRowIsInsertable(row, a.pending[1]);
    }
  }

  lemma AppendsSucceed(c: Cell, a: Aggregate, attempts: seq<Attempt>, m: Mapped)
    requires HistoryOk(c) && Emits(c.row.snapshot, a) && Storable(c.row.snapshot) && MapsStep(c.row, a, m)
    ensures var saved := c.row.(snapshot := a.data.(version := a.data.version + 1));
            AppendEvents(Cell(saved, attempts, c.journal, c.outbox), m) == Success(Extended(c, a, attempts))
  {
    var saved := c.row.(snapshot := a.data.(version := a.data.version + 1));
    StepRowsAreValid(c.row, a, m);
    NewRowsAppend(c, m.journal[0], m.outbox);
    AppendsCompose(Cell(saved, attempts, c.journal, c.outbox), m, c.journal + m.journal, c.outbox + m.outbox);
    var e := Extended(c, a, attempts);
    assert e.outbox == c.outbox + m.outbox;
  }

  /** Rows under the next sequence number meet no unique constraint. */
  lemma NewRowsAppend(c: Cell, entry: JournalEntry, os: seq<OutboxEvent>)
    requires JournalOk(c) && OutboxOk(c) && ValidEntry(entry) && entry.sequence == |c.journal| + 1
    requires AllValidRows(os) && (|os| == 1 || (|os| == 2 && os[0].id != os[1].id))
    requires forall i :: 0 <= i < |os| ==> os[i].id.sequence == |c.journal| + 1
    ensures AppendJournal(c.journal, [entry]) == Success(c.journal + [entry])
    ensures AppendOutbox(c.outbox, os) == Success(c.outbox + os)
  {
    forall i | 0 <= i < |c.journal| ensures c.journal[i].sequence != entry.sequence {
      assert EntryOk(c.row.snapshot.id, c.journal, i);
    }
    AppendOneEntry(c.journal, entry);
    assert c.journal[..|c.journal|] == c.journal;
    ExpandBounded(c.row.snapshot.id, c.journal, |c.journal|);
    FreshId(c, os[0].id);
    FreshId(c, os[|os| - 1].id);
    AppendRows(c.outbox, os);
  }

  lemma FreshId(c: Cell, id: EventId)
    requires Ids(c.outbox) == Expand(c.journal)
    requires forall e <- Expand(c.journal) :: e.sequence <= |c.journal|
    requires id.sequence > |c.journal|
    ensures forall i :: 0 <= i < |c.outbox| ==> c.outbox[i].id != id
  {
    forall i | 0 <= i < |c.outbox| ensures c.outbox[i].id != id {
      assert Ids(c.outbox)[i] in Expand(c.journal);
    }
  }

  lemma EntriesGrow(id: string, journal: seq<JournalEntry>, entry: JournalEntry)
    requires |journal| > 0 && forall i :: 0 <= i < |journal| ==> EntryOk(id, journal, i)
    requires entry.sequence == |journal| + 1 && entry.messageId == id
    requires entry.id == EventId(id, StatusChanged, |journal| + 1,
                                 QueuedCount(journal) + (if entry.status == Queued then 1 else 0))
    ensures forall i :: 0 <= i < |journal| + 1 ==> EntryOk(id, journal + [entry], i)
    ensures QueuedCount(journal + [entry]) == QueuedCount(journal) + (if entry.status == Queued then 1 else 0)
  {
    var journal' := journal + [entry];
    assert journal'[..|journal|] == journal && journal'[..|journal'|] == journal';
    forall i | 0 <= i < |journal'| ensures EntryOk(id, journal', i) {
      if i < |journal| {
        assert EntryOk(id, journal, i);
        assert journal'[..i + 1] == journal[..i + 1];
      }
    }
  }

  lemma PathGrows(journal: seq<JournalEntry>, entry: JournalEntry)
    requires |journal| > 0 && CanTransition(journal[|journal| - 1].status, entry.status)
    requires forall i :: 0 <= i < |journal| - 1 ==> CanTransition(journal[i].status, journal[i + 1].status)
    ensures var journal' := journal + [entry];
            forall i :: 0 <= i < |journal'| - 1 ==> CanTransition(journal'[i].status, journal'[i + 1].status)
  {
  }

  lemma JournalGrows(c: Cell, a: Aggregate, attempts: seq<Attempt>)
    requires HistoryOk(c) && Emits(c.row.snapshot, a) && Storable(c.row.snapshot)
    requires MapEvent(c.row, a.pending[0]).Success?
    requires a.data.status == Queued ==> MapEvent(c.row, a.pending[1]).Success?
    ensures JournalOk(Extended(c, a, attempts))
  {
    var entry := EntryOf(c.row, a.pending[0]);
    EntriesGrow(c.row.snapshot.id, c.journal, entry);
    PathGrows(c.journal, entry);
    assert Extended(c, a, attempts).journal == c.journal + [entry];
  }

  lemma OutboxGrows(c: Cell, a: Aggregate, attempts: seq<Attempt>)
    requires HistoryOk(c) && Emits(c.row.snapshot, a) && Storable(c.row.snapshot)
    requires MapEvent(c.row, a.pending[0]).Success?
    requires a.data.status == Queued ==> MapEvent(c.row, a.pending[1]).Success?
    ensures OutboxOk(Extended(c, a, attempts))
  {
    var c' := Extended(c, a, attempts);
    var entry := EntryOf(c.row, a.pending[0]);
    assert c'.journal[..|c.journal|] == c.journal;
    assert Expand(c'.journal) == Expand(c.journal) + ExpandEntry(entry);
    assert Ids(c'.outbox) == Ids(c.outbox) + ExpandEntry(entry);
    forall i | 0 <= i < |c'.outbox| ensures OutboxRowOk(c'.row, c'.outbox[i]) && PayloadOk(c'.journal, c'.outbox[i]) {
      if i < |c.outbox| {
        assert OutboxRowOk(c.row, c.outbox[i]) && PayloadOk(c.journal, c.outbox[i]);
      }
    }
  }

  predicate Timely(d: Snapshot) {
    0 < d.acceptedAt <= d.updatedAt
  }

  lemma SaveSucceeds(c: Cell, a: Aggregate)
    requires Storable(c.row.snapshot) && Coherent(c.row.snapshot) && Timely(a.data)
    requires Emits(c.row.snapshot, a)
    ensures Save(c, a.data) == Success(c.(row := c.row.(snapshot := a.data.(version := a.data.version + 1))))
    ensures Storable(a.data.(version := a.data.version + 1))
  {
    RestoreAcceptsExactly(a.data);
    assert a.data.latestSequence <= 4 * a.data.maxAttempts + 4;
  }

  /**
   The write phase of a transaction on the record it read: it cannot fail once the attempt write
   does not, and it keeps journal, outbox and message in agreement, by extending them only.
   */
  lemma CommitKeepsHistory(c: Cell, a: Aggregate, w: AttemptWrite)
    requires HistoryOk(c) && Storable(c.row.snapshot) && Coherent(c.row.snapshot)
    requires Emits(c.row.snapshot, a) && Timely(a.data)
    requires WriteAttempt(c.(row := c.row.(snapshot := a.data.(version := a.data.version + 1))), w).Success?
    ensures Commit(c, c.row, a, w).Success?
    ensures var c' := Commit(c, c.row, a, w).value;
            && HistoryOk(c') && Storable(c'.row.snapshot)
            && c'.row == c.row.(snapshot := a.data.(version := a.data.version + 1))
            && c'.attempts == WriteAttempt(c.(row := c'.row), w).value.attempts
            && c.journal <= c'.journal && c.outbox <= c'.outbox
            && |c'.journal| == |c.journal| + 1
  {
    SaveSucceeds(c, a);
    var saved := c.(row := c.row.(snapshot := a.data.(version := a.data.version + 1)));
    var written := WriteAttempt(saved, w).value;
    assert written == Cell(saved.row, written.attempts, c.journal, c.outbox);
    StepMaps(c.row, a);
    AppendsSucceed(c, a, written.attempts, MapAll(c.row, a.pending).value);
    JournalGrows(c, a, written.attempts);
    OutboxGrows(c, a, written.attempts);
  }

  /** The journal entry a committed transition leaves. */
  lemma CommitEntersJournal(c: Cell, a: Aggregate, w: AttemptWrite)
    requires HistoryOk(c) && Storable(c.row.snapshot) && Coherent(c.row.snapshot)
    requires Emits(c.row.snapshot, a) && Timely(a.data)
    requires WriteAttempt(c.(row := c.row.(snapshot := a.data.(version := a.data.version + 1))), w).Success?
    ensures Commit(c, c.row, a, w).Success?
    ensures Commit(c, c.row, a, w).value.journal == c.journal + [EntryOf(c.row, a.pending[0])]
  {
    SaveSucceeds(c, a);
    var saved := c.(row := c.row.(snapshot := a.data.(version := a.data.version + 1)));
    var written := WriteAttempt(saved, w).value;
    assert written == Cell(saved.row, written.attempts, c.journal, c.outbox);
    StepMaps(c.row, a);
    AppendsSucceed(c, a, written.attempts, MapAll(c.row, a.pending).value);
  }
}
