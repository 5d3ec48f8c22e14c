/** The outbox table and the relay as mutable objects: batch claim, fenced completions, and the tally of a batch. */
module OutboxRelay {
  import opened Common
  import opened EventMapping
  import opened Outbox

  type Rows = map<EventId, OutboxRow>

  datatype LeasedEvent = LeasedEvent(id: EventId, token: string, until: Time, attempt: nat)

  function ClaimAll(rows: Rows, ids: seq<EventId>, token: string, now: Time, duration: int): Rows {
    map id | id in rows :: if id in ids then ClaimRow(rows[id], token, now, duration) else rows[id]
  }

  class OutboxTable {
    var rows: Rows

    constructor ()
      ensures rows == map[]
    {
      rows := map[];
    }

    /**
     The claim of the rows the query locked. A row whose counter cannot be incremented any more makes the
     whole claim fail, and then nothing is leased.
     */
    method ClaimPending(ids: seq<EventId>, token: string, now: Time, duration: int)
      returns (r: Option<seq<LeasedEvent>>)
      requires NoRepeats(ids) && forall id <- ids :: id in rows && Claimable(rows[id], now)
      modifies this
      ensures r.None? <==> exists id :: id in ids && old(rows)[id].attemptCount >= MAX_INT32
      ensures rows == (if r.Some? then ClaimAll(old(rows), ids, token, now, duration) else old(rows))
      ensures r.Some? ==> |r.value| == |ids|
      ensures r.Some? ==> forall i :: 0 <= i < |ids| ==>
                r.value[i] == LeasedEvent(ids[i], token, now + WholeMillis(duration), old(rows)[ids[i]].attemptCount + 1)
      ensures r.Some? ==> forall i :: 0 <= i < |ids| ==> Fenced(rows[ids[i]], token, r.value[i].attempt)
    {
      var before := rows;
      var events := [];
      assert ClaimAll(before, ids[..0], token, now, duration) == before;
      for i := 0 to |ids|
        invariant rows == ClaimAll(before, ids[..i], token, now, duration)
        invariant |events| == i
        invariant forall k :: 0 <= k < i ==>
                    && before[ids[k]].attemptCount < MAX_INT32
                    && events[k] == LeasedEvent(ids[k], token, now + WholeMillis(duration), before[ids[k]].attemptCount + 1)
      {
        var id := ids[i];
        assert ids[..i + 1] == ids[..i] + [id];
        var row := rows[id];
        rows := rows[id := ClaimRow(row, token, now, duration)];
        if row.attemptCount >= MAX_INT32 {
          rows := before;
          return None;
        }
        events := events + [LeasedEvent(id, token, now + WholeMillis(duration), row.attemptCount + 1)];
        assert rows == ClaimAll(before, ids[..i + 1], token, now, duration);
      }
      assert ids[..|ids|] == ids;
      return Some(events);
    }

    /** The guarded updates; false means no row matched, so the lease was lost. */
    method MarkPublished(id: EventId, token: string, attempt: nat, now: Time) returns (updated: bool)
      modifies this
      ensures updated <==> id in old(rows) && Fenced(old(rows)[id], token, attempt)
      ensures rows == (if updated then old(rows)[id := PublishedRow(old(rows)[id], attempt, now)] else old(rows))
    {
      if id !in rows || !Fenced(rows[id], token, attempt) {
        return false;
      }
      rows := rows[id := PublishedRow(rows[id], attempt, now)];
      return true;
    }

    method Reschedule(id: EventId, token: string, attempt: nat, delay: int, code: string, now: Time)
      returns (updated: bool)
      modifies this
      ensures updated <==> id in old(rows) && Fenced(old(rows)[id], token, attempt)
      ensures rows == (if updated then old(rows)[id := RescheduledRow(old(rows)[id], attempt, code, now, delay)]
                       else old(rows))
    {
      if id !in rows || !Fenced(rows[id], token, attempt) {
        return false;
      }
      rows := rows[id := RescheduledRow(rows[id], attempt, code, now, delay)];
      return true;
    }

    method DeadLetter(id: EventId, token: string, attempt: nat, code: string) returns (updated: bool)
      modifies this
      ensures updated <==> id in old(rows) && Fenced(old(rows)[id], token, attempt)
      ensures rows == (if updated then old(rows)[id := DeadLetteredRow(old(rows)[id], attempt, code)] else old(rows))
    {
      if id !in rows || !Fenced(rows[id], token, attempt) {
        return false;
      }
      rows := rows[id := DeadLetteredRow(rows[id], attempt, code)];
      return true;
    }
  }

  // ----- one event of a batch

  datatype OutcomeKind = NoOutcome | OutcomePublished | OutcomeRetried | OutcomeDeadLettered | OutcomeLeaseLost

  datatype RelayOutcome = RelayOutcome(kind: OutcomeKind, failed: bool)

  /** Every outcome of a publication reports either what happened or an error, never both and never neither. */
  predicate Definite(o: RelayOutcome) {
    o.failed <==> o.kind == NoOutcome
  }

  /** The relay's shutdown is signalled before the publish, after it, or not at all. */
  datatype Shutdown = Running | StoppedBefore | StoppedAfter

  /** What the publish attempt returned, with the relay's reading of its context. */
  datatype PublishResult = PublishOk | PublishFails(error: PublishError, context: PublishContext)

  /**
   What happens around one event: the publish result, the delay drawn, when its completion transaction runs
   and whether it fails for another reason than a lost lease. others are the rows that other relays have
   written by then.
   */
  datatype Visit = Visit(
    shutdown: Shutdown,
    publish: PublishResult,
    delay: int,
    now: Time,
    storageFails: bool,
    others: Rows)

  function FailureFrom(p: PublishResult): Option<PublishFailure> {
    match p
    case PublishOk => None
    case PublishFails(e, context) => Some(ClassifyPublishFailure(e, context))
  }

  /** The completion that reaches the database, if any. */
  function Attempted(e: LeasedEvent, v: Visit, maxAttempts: nat): Completion {
    if v.shutdown != Running || v.storageFails then NoCompletion
    else Decide(FailureFrom(v.publish), e.attempt, maxAttempts, v.delay)
  }

  function KindOf(c: Completion): OutcomeKind {
    match c
    case MarkPublished => OutcomePublished
    case DeadLetterWith(_) => OutcomeDeadLettered
    case RescheduleWith(_, _) => OutcomeRetried
    case NoCompletion => NoOutcome
  }

  /** The event's row afterwards: completed if the fence lets the completion through, else as it was. */
  function RowAfter(row: OutboxRow, e: LeasedEvent, v: Visit, maxAttempts: nat): OutboxRow {
    match Complete(row, e.token, e.attempt, Attempted(e, v, maxAttempts), v.now)
    case Some(done) => done
    case None => row
  }

  function OutcomeOf(rows: Rows, e: LeasedEvent, v: Visit, maxAttempts: nat): (o: RelayOutcome)
    ensures Definite(o)
  {
    var c := Attempted(e, v, maxAttempts);
    if c.NoCompletion? then RelayOutcome(NoOutcome, true)
    else if e.id in rows && Fenced(rows[e.id], e.token, e.attempt) then RelayOutcome(KindOf(c), false)
    else RelayOutcome(OutcomeLeaseLost, false)
  }

  function Reported(updated: bool, storageFails: bool, kind: OutcomeKind): RelayOutcome {
    if storageFails then RelayOutcome(NoOutcome, true)
    else RelayOutcome(if updated then kind else OutcomeLeaseLost, false)
  }

  method PublishOne(table: OutboxTable, e: LeasedEvent, v: Visit, maxAttempts: nat) returns (o: RelayOutcome)
    modifies table
    ensures o == OutcomeOf(old(table.rows), e, v, maxAttempts)
    ensures table.rows == (if e.id in old(table.rows)
                           then old(table.rows)[e.id := RowAfter(old(table.rows)[e.id], e, v, maxAttempts)]
                           else old(table.rows))
  {
    assert e.id in table.rows ==> table.rows[e.id := table.rows[e.id]] == table.rows;
    if v.shutdown != Running {
      return RelayOutcome(NoOutcome, true);
    }
    var before := table.rows;
    if v.publish.PublishOk? {
      var updated := table.MarkPublished(e.id, e.token, e.attempt, v.now);
      o := Reported(updated, v.storageFails, OutcomePublished);
    } else {
      var failure := ClassifyPublishFailure(v.publish.error, v.publish.context);
      if !failure.retryable || e.attempt >= maxAttempts {
        var updated := table.DeadLetter(e.id, e.token, e.attempt, failure.code);
        o := Reported(updated, v.storageFails, OutcomeDeadLettered);
      } else if v.delay < 0 || v.delay > DAY {
        return RelayOutcome(NoOutcome, true);
      } else {
        var updated := table.Reschedule(e.id, e.token, e.attempt, v.delay, failure.code, v.now);
        o := Reported(updated, v.storageFails, OutcomeRetried);
      }
    }
    if v.storageFails {
      table.rows := before;
    }
  }

  // ----- the tally

  datatype RelayResult = RelayResult(claimed: nat, published: nat, retried: nat, deadLettered: nat, leaseLost: nat)

  function Count(os: seq<RelayOutcome>, kind: OutcomeKind): nat {
    if os == [] then 0 else Count(os[..|os| - 1], kind) + (if os[|os| - 1].kind == kind then 1 else 0)
  }

  function ErrorCount(os: seq<RelayOutcome>): nat {
    if os == [] then 0 else ErrorCount(os[..|os| - 1]) + (if os[|os| - 1].failed then 1 else 0)
  }

  /** The counters say how often each kind of outcome occurred. */
  predicate Counts(result: RelayResult, errors: nat, os: seq<RelayOutcome>) {
    && result.published == Count(os, OutcomePublished) && result.retried == Count(os, OutcomeRetried)
    && result.deadLettered == Count(os, OutcomeDeadLettered) && result.leaseLost == Count(os, OutcomeLeaseLost)
    && errors == ErrorCount(os)
  }

  /** The loop that receives the outcomes of a batch in whatever order the workers finish. */
  method Tally(claimed: nat, os: seq<RelayOutcome>) returns (result: RelayResult, errors: nat)
    requires forall i :: 0 <= i < |os| ==> Definite(os[i])
    ensures result.claimed == claimed && Counts(result, errors, os)
    ensures |os| == result.published + result.retried + result.deadLettered + result.leaseLost + errors
  {
    result, errors := RelayResult(claimed, 0, 0, 0, 0), 0;
    for i := 0 to |os|
      invariant result.claimed == claimed && Counts(result, errors, os[..i])
      invariant i == result.published + result.retried + result.deadLettered + result.leaseLost + errors
    {
      assert os[..i + 1][..i] == os[..i];
      match os[i].kind {
        case OutcomePublished => result := result.(published := result.published + 1);
        case OutcomeRetried => result := result.(retried := result.retried + 1);
        case OutcomeDeadLettered => result := result.(deadLettered := result.deadLettered + 1);
        case OutcomeLeaseLost => result := result.(leaseLost := result.leaseLost + 1);
        case NoOutcome =>
      }
      if os[i].failed {
        errors := errors + 1;
      }
    }
    assert os[..|os|] == os;
  }

  lemma {:induction false} CountIsMultiplicity(os: seq<RelayOutcome>, kind: OutcomeKind)
    requires forall o <- os :: Definite(o)
    ensures Count(os, kind) == multiset(os)[RelayOutcome(kind, kind == NoOutcome)]
    ensures ErrorCount(os) == multiset(os)[RelayOutcome(NoOutcome, true)]
  {
    if os == [] {
    } else {
      var init, last := os[..|os| - 1], os[|os| - 1];
      assert os == init + [last];
      CountIsMultiplicity(init, kind);
      assert Definite(last);
    }
  }

  /** The order in which outcomes arrive does not matter. */
  lemma TallyIgnoresOrder(os: seq<RelayOutcome>, os': seq<RelayOutcome>, kind: OutcomeKind)
    requires forall o <- os :: Definite(o)
    requires multiset(os) == multiset(os')
    ensures Count(os, kind) == Count(os', kind) && ErrorCount(os) == ErrorCount(os')
  {
    forall o | o in os' ensures Definite(o) {
      assert o in multiset(os');
    }
    CountIsMultiplicity(os, kind);
    CountIsMultiplicity(os', kind);
  }

  // ----- a processing order

  function Range(n: nat): (r: seq<nat>)
    ensures |r| == n && forall i :: 0 <= i < n ==> r[i] == i
  {
    seq(n, i => i)
  }

  /** Each of the n events of a batch is processed once, in any order. */
  predicate IsOrder(order: seq<nat>, n: nat) {
    multiset(order) == multiset(Range(n))
  }

  lemma {:induction false} RangeCounts(n: nat, i: nat)
    ensures multiset(Range(n))[i] == if i < n then 1 else 0
  {
    if n == 0 {
      assert Range(0) == [];
    } else {
      RangeCounts(n - 1, i);
      assert Range(n) == Range(n - 1) + [n - 1];
    }
  }

  /** An order visits only events of the batch, none of them twice, and all of them. */
  lemma OrderVisitsOnce(order: seq<nat>, n: nat, k: nat)
    requires IsOrder(order, n) && k < |order|
    ensures |order| == n && order[k] < n && order[k] !in order[..k]
  {
    var i, rest := order[k], order[k + 1..];
    assert order == order[..k] + [i] + rest;
    assert |multiset(order)| == |order| && |multiset(Range(n))| == n;
    RangeCounts(n, i);
    assert multiset(order)[i] == multiset(order[..k])[i] + 1 + multiset(rest)[i];
  }

  lemma OrderVisitsAll(order: seq<nat>, n: nat, i: nat)
    requires IsOrder(order, n) && i < n
    ensures |order| == n && i in order
  {
    assert |multiset(order)| == |order| && |multiset(Range(n))| == n;
    RangeCounts(n, i);
    assert i in multiset(order);
  }

  predicate Within(order: seq<nat>, n: nat) {
    forall k :: 0 <= k < |order| ==> order[k] < n
  }

  function Pick<T>(xs: seq<T>, order: seq<nat>): (ys: seq<T>)
    requires Within(order, |xs|)
    ensures |ys| == |order| && forall k :: 0 <= k < |order| ==> ys[k] == xs[order[k]]
  {
    seq(|order|, k requires 0 <= k < |order| => xs[order[k]])
  }

  /** One occurrence of i can be taken out of an order. */
  lemma TakeOut(order: seq<nat>, i: nat) returns (front: seq<nat>, back: seq<nat>)
    requires i in order
    ensures order == front + [i] + back
    ensures multiset(order) == multiset(front + back) + multiset{i}
  {
    var j :| 0 <= j < |order| && order[j] == i;
    front, back := order[..j], order[j + 1..];
    assert order == front + [i] + back;
  }

  lemma PickSplits<T>(xs: seq<T>, front: seq<nat>, i: nat, back: seq<nat>)
    requires Within(front + [i] + back, |xs|) && Within(front + back, |xs|) && i < |xs|
    ensures multiset(Pick(xs, front + [i] + back)) == multiset(Pick(xs, front + back)) + multiset{xs[i]}
  {
    var f, b := Pick(xs, front + back)[..|front|], Pick(xs, front + back)[|front|..];
    assert Pick(xs, front + back) == f + b;
    assert Pick(xs, front + [i] + back) == f + [xs[i]] + b;
  }

  lemma SameRest(order: seq<nat>, rest: seq<nat>, order': seq<nat>, rest': seq<nat>, i: nat)
    requires multiset(order) == multiset(order')
    requires multiset(order) == multiset(rest) + multiset{i} && multiset(order') == multiset(rest') + multiset{i}
    ensures multiset(rest) == multiset(rest')
  {
    assert multiset(rest) == multiset(order) - multiset{i};
    assert multiset(rest') == multiset(order') - multiset{i};
  }

  lemma {:induction false} PicksAreEqual<T>(xs: seq<T>, order: seq<nat>, order': seq<nat>)
    requires multiset(order) == multiset(order') && Within(order, |xs|) && Within(order', |xs|)
    ensures multiset(Pick(xs, order)) == multiset(Pick(xs, order'))
    decreases |order|
  {
    if order == [] {
      assert |multiset(order')| == |order'|;
    } else {
      var i := order[0];
      assert i in multiset(order');
      var front, back := TakeOut(order, i);
      var front', back' := TakeOut(order', i);
      SameRest(order, front + back, order', front' + back', i);
      WithoutOne(front, i, back, |xs|);
      WithoutOne(front', i, back', |xs|);
      PicksAreEqual(xs, front + back, front' + back');
      PickSplits(xs, front, i, back);
      PickSplits(xs, front', i, back');
    }
  }

  lemma WithoutOne(front: seq<nat>, i: nat, back: seq<nat>, n: nat)
    requires Within(front + [i] + back, n)
    ensures Within(front + back, n)
  {
    var order := front + [i] + back;
    forall k | 0 <= k < |front + back| ensures (front + back)[k] < n {
      assert (front + back)[k] == if k < |front| then order[k] else order[k + 1];
    }
  }

  /** Outcomes in processing order are counted like outcomes in batch order. */
  lemma OrderedTally(os: seq<RelayOutcome>, order: seq<nat>, result: RelayResult, errors: nat)
    requires (forall o <- os :: Definite(o)) && IsOrder(order, |os|) && Within(order, |os|)
    requires Counts(result, errors, Pick(os, order))
    ensures Counts(result, errors, os)
  {
    PicksAreEqual(os, order, Range(|os|));
    assert Pick(os, Range(|os|)) == os;
    TallyIgnoresOrder(os, Pick(os, order), OutcomePublished);
    TallyIgnoresOrder(os, Pick(os, order), OutcomeRetried);
    TallyIgnoresOrder(os, Pick(os, order), OutcomeDeadLettered);
    TallyIgnoresOrder(os, Pick(os, order), OutcomeLeaseLost);
  }

  // ----- a whole batch

  predicate Undisturbed(visits: seq<Visit>) {
    forall i :: 0 <= i < |visits| ==> visits[i].others == map[]
  }

  /** The outcomes of a batch nobody interferes with, in batch order. */
  function Outcomes(rows: Rows, events: seq<LeasedEvent>, visits: seq<Visit>, maxAttempts: nat): (os: seq<RelayOutcome>)
    requires |events| == |visits|
    ensures |os| == |events| && forall i :: 0 <= i < |os| ==> os[i] == OutcomeOf(rows, events[i], visits[i], maxAttempts)
  {
    seq(|events|, i requires 0 <= i < |events| => OutcomeOf(rows, events[i], visits[i], maxAttempts))
  }

  /** The rows when the events of order[..k] have been processed and the others are still as claimed. */
  predicate ProcessedUpTo(claimed: Rows, rows: Rows, ids: seq<EventId>, events: seq<LeasedEvent>, visits: seq<Visit>,
                          done: seq<nat>, maxAttempts: nat)
    requires |events| == |visits| == |ids| && forall id <- ids :: id in claimed
  {
    && rows.Keys == claimed.Keys
    && (forall id :: id in claimed && id !in ids ==> rows[id] == claimed[id])
    && (forall i :: 0 <= i < |ids| ==>
          rows[ids[i]] == if i in done then RowAfter(claimed[ids[i]], events[i], visits[i], maxAttempts)
                          else claimed[ids[i]])
  }

  lemma OneMoreProcessed(claimed: Rows, rows: Rows, ids: seq<EventId>, events: seq<LeasedEvent>, visits: seq<Visit>,
                         done: seq<nat>, i: nat, maxAttempts: nat)
    requires |events| == |visits| == |ids| && NoRepeats(ids) && forall id <- ids :: id in claimed
    requires ProcessedUpTo(claimed, rows, ids, events, visits, done, maxAttempts)
    requires i < |ids| && i !in done && events[i].id == ids[i]
    ensures OutcomeOf(rows, events[i], visits[i], maxAttempts) == OutcomeOf(claimed, events[i], visits[i], maxAttempts)
    ensures ProcessedUpTo(claimed, rows[ids[i] := RowAfter(rows[ids[i]], events[i], visits[i], maxAttempts)], ids, events,
                          visits, done + [i], maxAttempts)
  {
    assert rows[ids[i]] == claimed[ids[i]];
    forall j | 0 <= j < |ids| && j != i ensures ids[j] != ids[i] {
      assert if j < i then ids[j] != ids[i] else ids[i] != ids[j];
    }
  }

  lemma OrderIsComplete(order: seq<nat>, n: nat)
    requires IsOrder(order, n)
    ensures |order| == n && Within(order, n) && (forall i :: 0 <= i < n ==> i in order)
  {
    assert |multiset(order)| == |order| && |multiset(Range(n))| == n;
    forall k | 0 <= k < |order| ensures order[k] < n {
      OrderVisitsOnce(order, n, k);
    }
    forall i | 0 <= i < n ensures i in order {
      OrderVisitsAll(order, n, i);
    }
  }

  lemma {:induction false} NoneIsLost(os: seq<RelayOutcome>)
    requires forall o <- os :: o.kind != OutcomeLeaseLost
    ensures Count(os, OutcomeLeaseLost) == 0
  {
    if os == [] {
    } else {
      NoneIsLost(os[..|os| - 1]);
    }
  }

  /** Every event of the batch is visited once; other relays may have written rows in between. */
  method Process(table: OutboxTable, ids: seq<EventId>, events: seq<LeasedEvent>, order: seq<nat>, visits: seq<Visit>,
                 maxAttempts: nat)
    returns (outcomes: seq<RelayOutcome>)
    requires |events| == |visits| == |ids| && IsOrder(order, |ids|) && NoRepeats(ids)
    requires forall i :: 0 <= i < |ids| ==> ids[i] in table.rows && events[i].id == ids[i]
    modifies table
    ensures |outcomes| == |ids| && Within(order, |ids|)
    ensures forall k :: 0 <= k < |outcomes| ==> Definite(outcomes[k])
    ensures Undisturbed(visits) ==>
              && ProcessedUpTo(old(table.rows), table.rows, ids, events, visits, order, maxAttempts)
              && outcomes == Pick(Outcomes(old(table.rows), events, visits, maxAttempts), order)
  {
    ghost var claimed := table.rows;
    ghost var expected := Outcomes(claimed, events, visits, maxAttempts);
    outcomes := [];
    OrderIsComplete(order, |ids|);
    for k := 0 to |order|
      invariant |outcomes| == k && forall j :: 0 <= j < k ==> Definite(outcomes[j])
      invariant Undisturbed(visits) ==>
                  && ProcessedUpTo(claimed, table.rows, ids, events, visits, order[..k], maxAttempts)
                  && forall j :: 0 <= j < k ==> outcomes[j] == expected[order[j]]
    {
      var i := order[k];
      OrderVisitsOnce(order, |ids|, k);
      if Undisturbed(visits) {
        OneMoreProcessed(claimed, table.rows, ids, events, visits, order[..k], i, maxAttempts);
        assert order[..k + 1] == order[..k] + [i] && table.rows + visits[i].others == table.rows;
      }
      table.rows := table.rows + visits[i].others;
      var o := PublishOne(table, events[i], visits[i], maxAttempts);
      outcomes := outcomes + [o];
    }
    assert order[..|order|] == order;
  }

  function Leases(rows: Rows, ids: seq<EventId>, token: string, now: Time, duration: int): (es: seq<LeasedEvent>)
    requires forall i :: 0 <= i < |ids| ==> ids[i] in rows
    ensures |es| == |ids|
    ensures forall i :: 0 <= i < |ids| ==>
              es[i] == LeasedEvent(ids[i], token, now + WholeMillis(duration), rows[ids[i]].attemptCount + 1)
  {
    seq(|ids|, i requires 0 <= i < |ids| =>
      LeasedEvent(ids[i], token, now + WholeMillis(duration), rows[ids[i]].attemptCount + 1))
  }

  /** Where an undisturbed batch leaves the table: every claimed row as its own publication demands. */
  predicate Settled(before: Rows, after: Rows, ids: seq<EventId>, token: string, now: Time, duration: int,
                    visits: seq<Visit>, maxAttempts: nat)
    requires |visits| == |ids| && forall i :: 0 <= i < |ids| ==> ids[i] in before
  {
    && after.Keys == before.Keys
    && (forall id :: id in before && id !in ids ==> after[id] == before[id])
    && (forall i :: 0 <= i < |ids| ==>
          after[ids[i]] == RowAfter(ClaimRow(before[ids[i]], token, now, duration),
                                    Leases(before, ids, token, now, duration)[i], visits[i], maxAttempts))
  }

  lemma BatchSettles(before: Rows, after: Rows, ids: seq<EventId>, token: string, now: Time, duration: int,
                     visits: seq<Visit>, order: seq<nat>, maxAttempts: nat)
    requires |visits| == |ids| && IsOrder(order, |ids|)
    requires forall id <- ids :: id in before && Claimable(before[id], now)
    requires ProcessedUpTo(ClaimAll(before, ids, token, now, duration), after, ids,
                           Leases(before, ids, token, now, duration), visits, order, maxAttempts)
    ensures Settled(before, after, ids, token, now, duration, visits, maxAttempts)
    ensures forall o <- Outcomes(ClaimAll(before, ids, token, now, duration), Leases(before, ids, token, now, duration),
                                 visits, maxAttempts) :: o.kind != OutcomeLeaseLost
  {
    OrderIsComplete(order, |ids|);
  }

  /**
   One relay batch: the locked rows are claimed together, and then every leased event is published and
   completed once, in whatever order and however the publications, the storage and other relays behave.
   Every claimed event is accounted for exactly once. If no other relay interferes, each row ends as its own
   publication demands, the counters are those of the events themselves for every order, and no lease is lost.
   */
  method RunOnce(table: OutboxTable, ids: seq<EventId>, token: string, now: Time, duration: int, order: seq<nat>,
                 visits: seq<Visit>, maxAttempts: nat)
    returns (r: Option<RelayResult>, errors: nat)
    requires NoRepeats(ids) && forall id <- ids :: id in table.rows && Claimable(table.rows[id], now)
    requires |visits| == |ids| && IsOrder(order, |ids|)
    modifies table
    ensures r.None? <==> exists id :: id in ids && old(table.rows)[id].attemptCount >= MAX_INT32
    ensures r.None? ==> table.rows == old(table.rows) && errors == 0
    ensures r.Some? ==>
              r.value.claimed == |ids|
              == r.value.published + r.value.retried + r.value.deadLettered + r.value.leaseLost + errors
    ensures r.Some? && Undisturbed(visits) ==>
              && Settled(old(table.rows), table.rows, ids, token, now, duration, visits, maxAttempts)
              && Counts(r.value, errors,
                        Outcomes(ClaimAll(old(table.rows), ids, token, now, duration),
                                 Leases(old(table.rows), ids, token, now, duration), visits, maxAttempts))
              && r.value.leaseLost == 0
  {
    ghost var before := table.rows;
    var batch := table.ClaimPending(ids, token, now, duration);
    if batch.None? {
      return None, 0;
    }
    var events := batch.value;
    assert events == Leases(before, ids, token, now, duration);
    ghost var expected := Outcomes(table.rows, events, visits, maxAttempts);
    var outcomes := Process(table, ids, events, order, visits, maxAttempts);
    var result, failed := Tally(|events|, outcomes);
    if Undisturbed(visits) {
      OrderedTally(expected, order, result, failed);
      BatchSettles(before, table.rows, ids, token, now, duration, visits, order, maxAttempts);
      NoneIsLost(expected);
    }
    return Some(result), failed;
  }
}
