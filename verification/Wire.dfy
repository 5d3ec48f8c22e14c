/**
 From a domain event over the broker to a command: mapping, publishing, routing
 and the two consumers' parsers, under the default AMQP contract.
 */
module Wire {
  import opened Common
  import opened Statuses
  import opened Messages
  import opened MessageRuns
  import opened EventMapping

  const EXCHANGE := "mail.events.v1"
  const APPLICATION := "mail-service"
  const CONTENT_TYPE := "application/json"
  const PERSISTENT: nat := 2

  const ROUTE_ACCEPTED := "mail.message.accepted.v1"
  const ROUTE_STATUS := "mail.message.status.changed.v1"
  const ROUTE_DISPATCH := "mail.message.dispatch.requested.v1"

  const H_TYPE := "x-mail-aggregate-type"
  const H_ID := "x-mail-aggregate-id"
  const H_SEQUENCE := "x-mail-aggregate-sequence"
  const H_GENERATION := "x-mail-dispatch-generation"
  const H_ATTEMPT := "x-mail-publish-attempt"

  datatype Header = Text(text: string) | Long(long: int)

  datatype Body = Json(envelope: Envelope) | NotJson

  datatype Publishing = Publishing(
    headers: map<string, Header>,
    contentType: string,
    deliveryMode: nat,
    messageId: EventId,
    correlationId: string,
    eventType: string,
    appId: string,
    body: Body)

  datatype Delivery = Delivery(exchange: string, routingKey: string, message: Publishing)

  datatype Command = Command(eventId: EventId, tenantId: string, messageId: string, sequence: nat, generation: nat)

  // ----- publisher

  /** The publisher's routing table. */
  function Route(eventType: string): Option<string> {
    if eventType == KindName(MessageAccepted) then Some(ROUTE_ACCEPTED)
    else if eventType == KindName(StatusChanged) then Some(ROUTE_STATUS)
    else if eventType == KindName(DispatchRequested) then Some(ROUTE_DISPATCH)
    else None
  }

  predicate ValidPublication(o: OutboxEvent, attempt: nat) {
    && !Blank(o.aggregateType) && !Blank(o.eventType) && o.sequence != 0
    && attempt != 0
    && o.sequence <= MAX_INT64 && o.generation <= MAX_INT64
  }

  /** Go's conversion of a uint64 to int64. */
  function ToInt64(n: nat): int {
    var m := n % 0x1_0000_0000_0000_0000;
    if m <= MAX_INT64 then m else m - 0x1_0000_0000_0000_0000
  }

  function MakePublishing(o: OutboxEvent, attempt: nat): Publishing {
    Publishing(
      map[H_TYPE := Text(o.aggregateType), H_ID := Text(o.aggregateId), H_SEQUENCE := Long(ToInt64(o.sequence)),
          H_GENERATION := Long(ToInt64(o.generation)), H_ATTEMPT := Long(ToInt64(attempt))],
      CONTENT_TYPE, PERSISTENT, o.id, o.aggregateId, o.eventType, APPLICATION, Json(o.payload))
  }

  /** What the broker hands to consumers, when the publication is valid and has a route. */
  function Publish(o: OutboxEvent, attempt: nat): Option<Delivery> {
    if !ValidPublication(o, attempt) then None
    else
      match Route(o.eventType)
      case None => None
      case Some(key) => Some(Delivery(EXCHANGE, key, MakePublishing(o, attempt)))
  }

  // ----- parsers

  function TextHeader(h: map<string, Header>, name: string): Option<string> {
    if name in h && h[name].Text? && h[name].text != "" then Some(h[name].text) else None
  }

  function LongHeader(h: map<string, Header>, name: string, least: int): Option<int> {
    if name in h && h[name].Long? && h[name].long >= least then Some(h[name].long) else None
  }

  datatype ParseError =
    | RouteMismatch
    | PropertyMismatch
    | AggregateTypeInvalid
    | AggregateIdMismatch
    | SequenceHeaderInvalid
    | GenerationHeaderInvalid
    | PublishAttemptHeaderInvalid
    | BodyJsonInvalid
    | EnvelopeInvalid
    | EnvelopeHeaderMismatch
    | CommandInvalid

  predicate ValidCommand(c: Command) {
    0 < c.sequence <= MAX_INT64 && 0 < c.generation <= MAX_INT64
  }

  function ParseDispatch(d: Delivery): Result<Command, ParseError> {
    var m := d.message;
    var id := TextHeader(m.headers, H_ID);
    var sequence := LongHeader(m.headers, H_SEQUENCE, 1);
    var generation := LongHeader(m.headers, H_GENERATION, 1);
    if d.exchange != EXCHANGE || d.routingKey != ROUTE_DISPATCH then Failure(RouteMismatch)
    else if m.contentType != CONTENT_TYPE || m.deliveryMode != PERSISTENT
            || m.eventType != KindName(DispatchRequested) || m.appId != APPLICATION then Failure(PropertyMismatch)
    else if TextHeader(m.headers, H_TYPE) != Some(MAIL_MESSAGE) then Failure(AggregateTypeInvalid)
    else if id != Some(m.correlationId) then Failure(AggregateIdMismatch)
    else if sequence.None? then Failure(SequenceHeaderInvalid)
    else if generation.None? then Failure(GenerationHeaderInvalid)
    else if LongHeader(m.headers, H_ATTEMPT, 1).None? then Failure(PublishAttemptHeaderInvalid)
    else if m.body.NotJson? then Failure(BodyJsonInvalid)
    else
      var e := m.body.envelope;
      var c := Command(m.messageId, e.tenantId, e.messageId, e.sequence, e.generation);
      if e.schemaVersion != 1 || e.occurredAt == ZERO_TIME || e.eventType != KindName(DispatchRequested) then
        Failure(EnvelopeInvalid)
      else if e.messageId != id.value || e.sequence != sequence.value || e.generation != generation.value then
        Failure(EnvelopeHeaderMismatch)
      else if !ValidCommand(c) then Failure(CommandInvalid)
      else Success(c)
  }

  predicate LifecycleRouteMatches(routingKey: string, eventType: string) {
    || (eventType == KindName(MessageAccepted) && routingKey == ROUTE_ACCEPTED)
    || (eventType == KindName(StatusChanged) && routingKey == ROUTE_STATUS)
  }

  function ParseLifecycle(d: Delivery): Result<EventId, ParseError> {
    var m := d.message;
    var id := TextHeader(m.headers, H_ID);
    var sequence := LongHeader(m.headers, H_SEQUENCE, 1);
    if d.exchange != EXCHANGE || !LifecycleRouteMatches(d.routingKey, m.eventType) then Failure(RouteMismatch)
    else if m.contentType != CONTENT_TYPE || m.deliveryMode != PERSISTENT || m.appId != APPLICATION then
      Failure(PropertyMismatch)
    else if TextHeader(m.headers, H_TYPE) != Some(MAIL_MESSAGE) then Failure(AggregateTypeInvalid)
    else if id != Some(m.correlationId) then Failure(AggregateIdMismatch)
    else if sequence.None? then Failure(SequenceHeaderInvalid)
    else if LongHeader(m.headers, H_GENERATION, 0).None? then Failure(GenerationHeaderInvalid)
    else if LongHeader(m.headers, H_ATTEMPT, 1).None? then Failure(PublishAttemptHeaderInvalid)
    else if m.body.NotJson? then Failure(BodyJsonInvalid)
    else
      var e := m.body.envelope;
      if e.schemaVersion != 1 || e.occurredAt == ZERO_TIME || e.eventType != m.eventType then Failure(EnvelopeInvalid)
      else if e.messageId != id.value || e.sequence != sequence.value then Failure(EnvelopeHeaderMismatch)
      else Success(m.messageId)
  }

  /** No delivery at all, genuine or not, passes both parsers. */
  lemma NoDeliveryPassesBothParsers(d: Delivery)
    ensures ParseDispatch(d).Failure? || ParseLifecycle(d).Failure?
  {
    assert KindName(DispatchRequested)[8] != KindName(MessageAccepted)[8];
    assert KindName(DispatchRequested)[8] != KindName(StatusChanged)[8];
  }

  // ----- what the parsers let through

  /** AMQP integers are 64 bits wide. */
  predicate Int64Headers(h: map<string, Header>) {
    forall name :: name in h && h[name].Long? ==> -MAX_INT64 - 1 <= h[name].long <= MAX_INT64
  }

  predicate SameHeader(h: map<string, Header>, h': map<string, Header>, name: string) {
    name in h && name in h' && h[name] == h'[name]
  }

  /** The deliveries differ at most in headers that no parser reads. */
  predicate SameMessage(d: Delivery, d': Delivery) {
    && d.exchange == d'.exchange && d.routingKey == d'.routingKey
    && d.message.(headers := map[]) == d'.message.(headers := map[])
    && var h, h' := d.message.headers, d'.message.headers;
       && SameHeader(h, h', H_TYPE) && SameHeader(h, h', H_ID) && SameHeader(h, h', H_SEQUENCE)
       && SameHeader(h, h', H_GENERATION) && SameHeader(h, h', H_ATTEMPT)
  }

  function LongOf(h: map<string, Header>, name: string): nat {
    if name in h && h[name].Long? && h[name].long >= 0 then h[name].long else 0
  }

  /** The outbox row a delivery claims to carry. */
  function Purported(d: Delivery): OutboxEvent
    requires d.message.body.Json?
  {
    var m := d.message;
    OutboxEvent(m.messageId, MAIL_MESSAGE, m.correlationId, m.eventType, LongOf(m.headers, H_SEQUENCE),
                LongOf(m.headers, H_GENERATION), m.body.envelope)
  }

  /** Exchange, route, properties and headers as the publisher sets them. */
  predicate WellAddressed(d: Delivery) {
    var m := d.message;
    && d.exchange == EXCHANGE && Route(m.eventType) == Some(d.routingKey) && !Blank(m.eventType)
    && m.contentType == CONTENT_TYPE && m.deliveryMode == PERSISTENT && m.appId == APPLICATION && m.body.Json?
    && H_TYPE in m.headers && m.headers[H_TYPE] == Text(MAIL_MESSAGE)
    && H_ID in m.headers && m.headers[H_ID] == Text(m.correlationId)
    && H_SEQUENCE in m.headers && m.headers[H_SEQUENCE].Long? && 0 < m.headers[H_SEQUENCE].long
    && H_GENERATION in m.headers && m.headers[H_GENERATION].Long? && 0 <= m.headers[H_GENERATION].long
    && H_ATTEMPT in m.headers && m.headers[H_ATTEMPT].Long? && 0 < m.headers[H_ATTEMPT].long
  }

  predicate BodyAgrees(o: OutboxEvent) {
    && o.payload.schemaVersion == 1 && o.payload.occurredAt != ZERO_TIME && o.payload.eventType == o.eventType
    && o.payload.messageId == o.aggregateId != "" && o.payload.sequence == o.sequence
  }

  lemma DispatchIsWellAddressed(d: Delivery)
    requires ParseDispatch(d).Success?
    ensures WellAddressed(d) && BodyAgrees(Purported(d)) && Purported(d).payload.generation == Purported(d).generation > 0
  {
    RouteOfKind(DispatchRequested);
    assert !IsSpace(KindName(DispatchRequested)[0]);
  }

  lemma LifecycleIsWellAddressed(d: Delivery)
    requires ParseLifecycle(d).Success?
    ensures WellAddressed(d) && BodyAgrees(Purported(d))
  {
    RouteOfKind(MessageAccepted);
    RouteOfKind(StatusChanged);
    assert !IsSpace(KindName(MessageAccepted)[0]) && !IsSpace(KindName(StatusChanged)[0]);
  }

  lemma PublishedHeaders(o: OutboxEvent, attempt: nat)
    requires o.sequence <= MAX_INT64 && o.generation <= MAX_INT64 && attempt <= MAX_INT64
    ensures var h := MakePublishing(o, attempt).headers;
            && H_TYPE in h && h[H_TYPE] == Text(o.aggregateType) && H_ID in h && h[H_ID] == Text(o.aggregateId)
            && H_SEQUENCE in h && h[H_SEQUENCE] == Long(o.sequence)
            && H_GENERATION in h && h[H_GENERATION] == Long(o.generation)
            && H_ATTEMPT in h && h[H_ATTEMPT] == Long(attempt)
  {
    assert |H_TYPE| == 21 && |H_ID| == 19 && |H_SEQUENCE| == 25 && |H_GENERATION| == 26 && |H_ATTEMPT| == 22;
  }

  lemma WellAddressedIsPublished(d: Delivery)
    requires WellAddressed(d) && Int64Headers(d.message.headers)
    ensures var p := Publish(Purported(d), LongOf(d.message.headers, H_ATTEMPT));
            p.Some? && SameMessage(d, p.value)
  {
    var o, attempt := Purported(d), LongOf(d.message.headers, H_ATTEMPT);
    PublishedHeaders(o, attempt);
    assert !IsSpace(MAIL_MESSAGE[0]);
  }

  /**
   Both parsers are strict: an accepted delivery is, to the last property and header they know, what the publisher
   makes of some valid outbox row, and its body agrees with its headers.
   */
  lemma ParsersAcceptOnlyPublications(d: Delivery)
    requires ParseDispatch(d).Success? || ParseLifecycle(d).Success?
    requires Int64Headers(d.message.headers)
    ensures d.message.body.Json? && BodyAgrees(Purported(d))
    ensures var p := Publish(Purported(d), LongOf(d.message.headers, H_ATTEMPT));
            p.Some? && SameMessage(d, p.value)
    ensures ParseDispatch(d).Success? ==> Purported(d).payload.generation == Purported(d).generation > 0
  {
    if ParseDispatch(d).Success? {
      DispatchIsWellAddressed(d);
    } else {
      LifecycleIsWellAddressed(d);
    }
    WellAddressedIsPublished(d);
  }

  // ----- every event a run emits

  /** What the mapping and the parsers demand of an event. */
  predicate Publishable(e: Event, messageId: string) {
    && e.messageId == messageId && messageId != ""
    && e.occurredAt != ZERO_TIME
    && 0 < e.sequence <= MAX_INT64 && e.generation <= MAX_INT64
    && (e.kind == DispatchRequested ==> e.generation > 0)
    && (e.fault.Some? ==> ValidFault(e.fault.value))
  }

  /** The events one operation adds to the buffer. */
  function NewEvents(a: Aggregate, op: Op): seq<Event> {
    if op.OpPull? || op.OpReload? || |Next(a, op).pending| < |a.pending| then []
    else Next(a, op).pending[|a.pending|..]
  }

  function EmittedBy(a: Aggregate, ops: seq<Op>): seq<Event>
    decreases |ops|
  {
    if ops == [] then [] else NewEvents(a, ops[0]) + EmittedBy(Next(a, ops[0]), ops[1..])
  }

  /** The event names the state d in which it was emitted. */
  predicate Describes(e: Event, d: Snapshot) {
    && e.messageId == d.id && e.sequence == d.latestSequence && e.generation == d.generation
    && e.occurredAt != ZERO_TIME && (e.kind == DispatchRequested ==> d.status == Queued)
    && e.attemptNumber == d.attemptCount && (e.fault.Some? ==> ValidFault(e.fault.value))
  }

  lemma NewEventsDescribe(a: Aggregate, op: Op)
    requires Clocked(op)
    ensures forall e <- NewEvents(a, op) :: Describes(e, Next(a, op).data)
  {
  }

  lemma DescribedIsPublishable(e: Event, d: Snapshot)
    requires Describes(e, d) && Coherent(d) && d.maxAttempts <= MAX_UINT32
    ensures Publishable(e, d.id)
  {
    assert d.latestSequence <= 4 * d.maxAttempts + 4;
  }

  lemma NewEventsAreNumbered(a: Aggregate, op: Op)
    requires Coherent(a.data) && a.data.maxAttempts <= MAX_UINT32 && Clocked(op)
    ensures forall e <- NewEvents(a, op) :: Publishable(e, a.data.id)
  {
    StepKeepsCoherence(a, op);
    NewEventsDescribe(a, op);
    forall e | e in NewEvents(a, op) ensures Publishable(e, a.data.id) {
      DescribedIsPublishable(e, Next(a, op).data);
    }
  }

  lemma {:induction false} RunEventsAreNumbered(a: Aggregate, ops: seq<Op>)
    requires Coherent(a.data) && a.data.maxAttempts <= MAX_UINT32 && AllClocked(ops)
    ensures forall e <- EmittedBy(a, ops) :: Publishable(e, a.data.id)
    decreases |ops|
  {
    if ops == [] {
    } else {
      NewEventsAreNumbered(a, ops[0]);
      StepKeepsCoherence(a, ops[0]);
      RunEventsAreNumbered(Next(a, ops[0]), ops[1..]);
    }
  }

  lemma RouteOfKind(k: EventKind)
    ensures Route(KindName(k)) == Some(match k
                                       case MessageAccepted => ROUTE_ACCEPTED
                                       case StatusChanged => ROUTE_STATUS
                                       case DispatchRequested => ROUTE_DISPATCH)
    ensures KindName(k) == KindName(DispatchRequested) <==> k == DispatchRequested
    ensures k != DispatchRequested ==> Route(KindName(k)).value != ROUTE_DISPATCH
  {
    assert KindName(DispatchRequested)[8] == 'D';
    assert KindName(MessageAccepted)[8] == 'A';
    assert KindName(StatusChanged)[8] == 'S';
    assert ROUTE_DISPATCH[13] == 'd' && ROUTE_ACCEPTED[13] == 'a' && ROUTE_STATUS[13] == 's';
  }

  lemma RowPublishes(o: OutboxEvent, attempt: nat)
    requires o.aggregateType == MAIL_MESSAGE && o.eventType == KindName(o.id.kind) && o.aggregateId != ""
    requires 0 < o.sequence <= MAX_INT64 && o.generation <= MAX_INT64 && 0 < attempt <= MAX_INT32
    ensures Publish(o, attempt) ==
            Some(Delivery(EXCHANGE, Route(KindName(o.id.kind)).value, MakePublishing(o, attempt)))
  {
    RouteOfKind(o.id.kind);
    assert !IsSpace(MAIL_MESSAGE[0]) && !IsSpace(KindName(o.id.kind)[0]);
  }

  lemma Published(row: Row, e: Event, attempt: nat)
    requires Publishable(e, row.snapshot.id) && 0 < attempt <= MAX_INT32
    ensures MapEvent(row, e).Success?
    ensures var o := MapEvent(row, e).value;
            Publish(o, attempt) == Some(Delivery(EXCHANGE, Route(KindName(e.kind)).value, MakePublishing(o, attempt)))
  {
    RowPublishes(MapEvent(row, e).value, attempt);
  }

  /** The event a consumer reads out of an outbox row. */
  function EventOf(o: OutboxEvent): Event {
    var p := o.payload;
    Event(o.id.kind, p.messageId, p.from, p.to, p.occurredAt, p.sequence, p.generation, p.attemptNumber,
          p.providerMessageId, p.reasonCode, p.fault)
  }

  /** Nothing of an event is lost on its way into the outbox, and nothing on its way over the broker. */
  lemma EventsSurviveTheWire(row: Row, e: Event, attempt: nat)
    requires Publishable(e, row.snapshot.id) && 0 < attempt <= MAX_INT32
    ensures MapEvent(row, e).Success? && Publish(MapEvent(row, e).value, attempt).Some?
    ensures var d := Publish(MapEvent(row, e).value, attempt).value;
            d.message.body.Json? && EventOf(Purported(d)) == e && Purported(d).payload.tenantId == row.tenantId
  {
    Published(row, e, attempt);
  }

  /** What the journal demands of a lifecycle event beyond what every emitted event satisfies. */
  predicate FitsJournal(row: Row, e: Event) {
    && !Blank(row.idempotencyKey) && |row.idempotencyKey| <= 255 && e.attemptNumber <= MAX_INT32
    && (e.providerMessageId == "" || (Trimmed(e.providerMessageId) && |e.providerMessageId| <= 512))
  }

  /**
   Mapping succeeds exactly for dispatch requests and for lifecycle events that fit the journal, with one
   outbox row; that row, published, is accepted by exactly one parser, which returns what was emitted.
   */
  lemma {:induction false} EventRoundTrip(row: Row, e: Event, attempt: nat)
    requires Publishable(e, row.snapshot.id) && 0 < attempt <= MAX_INT32
    ensures MapOne(row, e).Success? <==> e.kind == DispatchRequested || FitsJournal(row, e)
    ensures MapOne(row, e).Success? ==> MapEvent(row, e).Success? && MapOne(row, e).value.outbox == [MapEvent(row, e).value]
    ensures MapEvent(row, e).Success?
    ensures var d := Publish(MapEvent(row, e).value, attempt);
            && d.Some?
            && (e.kind == DispatchRequested ==>
                  && ParseDispatch(d.value) ==
                     Success(Command(StableEventId(e), row.tenantId, e.messageId, e.sequence, e.generation))
                  && ParseLifecycle(d.value).Failure?)
            && (e.kind != DispatchRequested ==>
                  && ParseLifecycle(d.value) == Success(StableEventId(e))
                  && ParseDispatch(d.value).Failure?)
  {
    RouteOfKind(e.kind);
    Published(row, e, attempt);
    var o := MapEvent(row, e).value;
    HeadersReadBack(o, attempt);
    NoDeliveryPassesBothParsers(Publish(o, attempt).value);
  }

  lemma HeadersReadBack(o: OutboxEvent, attempt: nat)
    requires 0 < o.sequence <= MAX_INT64 && o.generation <= MAX_INT64 && 0 < attempt <= MAX_INT32
    requires o.aggregateType != "" && o.aggregateId != ""
    ensures var h := MakePublishing(o, attempt).headers;
            && TextHeader(h, H_TYPE) == Some(o.aggregateType) && TextHeader(h, H_ID) == Some(o.aggregateId)
            && LongHeader(h, H_SEQUENCE, 1) == Some(o.sequence)
            && LongHeader(h, H_GENERATION, 0) == Some(o.generation)
            && (o.generation > 0 ==> LongHeader(h, H_GENERATION, 1) == Some(o.generation))
            && LongHeader(h, H_ATTEMPT, 1) == Some(attempt as int)
  {
    PublishedHeaders(o, attempt);
  }

  /**
   Every event of every run, mapped, published and delivered, is accepted by exactly one of
   the two parsers, and the parser returns what was emitted.
   */
  lemma {:induction false} EveryEmittedEventComesBack(p: NewParams, ops: seq<Op>, row: Row, e: Event, attempt: nat)
    requires New(p).Success? && p.maxAttempts <= MAX_UINT32 && AllClocked(ops)
    requires row.snapshot.id == p.id
    requires e in New(p).value.pending || e in EmittedBy(New(p).value, ops)
    requires 0 < attempt <= MAX_INT32
    ensures MapOne(row, e).Success? <==> e.kind == DispatchRequested || FitsJournal(row, e)
    ensures MapEvent(row, e).Success? && Publish(MapEvent(row, e).value, attempt).Some?
    ensures var d := Publish(MapEvent(row, e).value, attempt).value;
            if e.kind == DispatchRequested then
              && ParseDispatch(d) ==
                 Success(Command(StableEventId(e), row.tenantId, e.messageId, e.sequence, e.generation))
              && ParseLifecycle(d).Failure?
            else
              && ParseLifecycle(d) == Success(StableEventId(e))
              && ParseDispatch(d).Failure?
  {
    NewIsCoherent(p);
    RunEventsAreNumbered(New(p).value, ops);
    assert Publishable(e, p.id);
    EventRoundTrip(row, e, attempt);
  }
}
