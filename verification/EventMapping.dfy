/**
 Domain events become outbox rows and journal entries. The stable event id is a
 name-based UUID of (message, kind, sequence, generation); it is represented by
 that tuple itself, so equal ids mean equal tuples.
 */
module EventMapping {
  import opened Common
  import opened Statuses
  import opened Messages

  datatype EventId = EventId(messageId: string, kind: EventKind, sequence: nat, generation: nat)

  /** The persisted message record: immutable submission identity plus the lifecycle snapshot. */
  datatype Row = Row(tenantId: string, idempotencyKey: string, fingerprint: string, snapshot: Snapshot)

  /** The versioned JSON object stored as outbox payload and sent as message body. */
  datatype Envelope = Envelope(
    schemaVersion: nat,
    tenantId: string,
    messageId: string,
    eventType: string,
    from: Option<Status>,
    to: Status,
    occurredAt: Time,
    sequence: nat,
    generation: nat,
    attemptNumber: nat,
    providerMessageId: string,
    reasonCode: string,
    fault: Option<Fault>)

  datatype OutboxEvent = OutboxEvent(
    id: EventId,
    aggregateType: string,
    aggregateId: string,
    eventType: string,
    sequence: nat,
    generation: nat,
    payload: Envelope)

  datatype JournalEntry = JournalEntry(
    id: EventId,
    tenantId: string,
    messageId: string,
    idempotencyKey: string,
    status: Status,
    sequence: nat,
    attemptNumber: nat,
    providerMessageId: string,
    fault: Option<Fault>,
    occurredAt: Time)

  datatype Mapped = Mapped(outbox: seq<OutboxEvent>, journal: seq<JournalEntry>)

  datatype MapError = NoPendingEvents | EventMappingFailure

  const MAIL_MESSAGE := "MAIL_MESSAGE"

  function KindName(k: EventKind): string {
    match k
    case MessageAccepted => "MESSAGE_ACCEPTED"
    case StatusChanged => "MESSAGE_STATUS_CHANGED"
    case DispatchRequested => "MESSAGE_DISPATCH_REQUESTED"
  }

  function StableEventId(e: Event): EventId {
    EventId(e.messageId, e.kind, e.sequence, e.generation)
  }

  function MapEvent(row: Row, e: Event): Result<OutboxEvent, MapError> {
    if e.messageId != row.snapshot.id then Failure(EventMappingFailure)
    else if e.occurredAt == ZERO_TIME || e.sequence == 0 then Failure(EventMappingFailure)
    else
      var payload := Envelope(1, row.tenantId, e.messageId, KindName(e.kind), e.from, e.to, e.occurredAt, e.sequence,
                              e.generation, e.attemptNumber, e.providerMessageId, e.reasonCode, e.fault);
      Success(OutboxEvent(StableEventId(e), MAIL_MESSAGE, e.messageId, KindName(e.kind), e.sequence, e.generation,
                          payload))
  }

  predicate ValidEntry(j: JournalEntry) {
    && !Blank(j.idempotencyKey) && |j.idempotencyKey| <= 255
    && 0 < j.sequence <= MAX_INT64 && j.attemptNumber <= MAX_INT32
    && j.occurredAt != ZERO_TIME
    && (j.providerMessageId == "" || (Trimmed(j.providerMessageId) && |j.providerMessageId| <= 512))
    && (j.fault.Some? ==> ValidFault(j.fault.value))
  }

  function EntryOf(row: Row, e: Event): JournalEntry {
    JournalEntry(StableEventId(e), row.tenantId, e.messageId, row.idempotencyKey, e.to, e.sequence, e.attemptNumber,
                 e.providerMessageId, e.fault, e.occurredAt)
  }

  /** A dispatch request goes to the outbox only; the other kinds also enter the journal. */
  predicate Journaled(k: EventKind) {
    k != DispatchRequested
  }

  function MapOne(row: Row, e: Event): Result<Mapped, MapError> {
    var o :- MapEvent(row, e);
    if !Journaled(e.kind) then Success(Mapped([o], []))
    else if ValidEntry(EntryOf(row, e)) then Success(Mapped([o], [EntryOf(row, e)]))
    else Failure(EventMappingFailure)
  }

  /** Maps from the last event backwards; MapAllEvents below is the loop the service runs. */
  function MapSeq(row: Row, events: seq<Event>): Result<Mapped, MapError> {
    if events == [] then Success(Mapped([], []))
    else
      var init :- MapSeq(row, events[..|events| - 1]);
      var last :- MapOne(row, events[|events| - 1]);
      Success(Mapped(init.outbox + last.outbox, init.journal + last.journal))
  }

  function MapAll(row: Row, events: seq<Event>): Result<Mapped, MapError> {
    if events == [] then Failure(NoPendingEvents) else MapSeq(row, events)
  }

  lemma {:induction false} MapSeqPrefix(row: Row, events: seq<Event>, n: nat)
    requires n <= |events| && MapSeq(row, events[..n]).Failure?
    ensures MapSeq(row, events) == MapSeq(row, events[..n])
    decreases |events| - n
  {
    if n == |events| {
      assert events[..n] == events;
    } else {
      assert events[..n + 1][..n] == events[..n];
      MapSeqPrefix(row, events, n + 1);
    }
  }

  method MapAllEvents(row: Row, events: seq<Event>) returns (r: Result<Mapped, MapError>)
    ensures r == MapAll(row, events)
  {
    if |events| == 0 {
      return Failure(NoPendingEvents);
    }
    var mapped := Mapped([], []);
    for i := 0 to |events|
      invariant MapSeq(row, events[..i]) == Success(mapped)
    {
      assert events[..i + 1][..i] == events[..i];
      var one := MapOne(row, events[i]);
      if one.Failure? {
        MapSeqPrefix(row, events, i + 1);
        return Failure(one.error);
      }
      mapped := Mapped(mapped.outbox + one.value.outbox, mapped.journal + one.value.journal);
    }
    assert events[..|events|] == events;
    return Success(mapped);
  }
}
