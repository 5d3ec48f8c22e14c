/** What holds in every state that any run of the delivery core reaches, and across any two such states. */
module DispatchTheorems {
  import opened Common
  import opened Statuses
  import opened Messages
  import opened EventMapping
  import opened Providers
  import opened Store
  import opened Worker
  import opened Cells
  import opened CellSteps
  import opened Dispatch
  import opened DispatchInvariant
  import Smtp

  /** Some run of legal steps leads from s to t. */
  ghost predicate LeadsTo(s: System, t: System) {
    exists steps :: Legal(s, steps) && t == Exec(s, steps)
  }

  /** The states of all runs that begin with empty tables. */
  ghost predicate Reachable(t: System) {
    exists s :: Initial(s) && LeadsTo(s, t)
  }

  lemma LaterIsOk(s: System, t: System)
    requires Inv(s) && LeadsTo(s, t)
    ensures Inv(t)
  {
    var steps :| Legal(s, steps) && t == Exec(s, steps);
    RunKeepsInv(s, steps);
  }

  lemma InitialIsOk(s: System)
    requires Initial(s)
    ensures Inv(s)
  {
  }

  lemma ReachableIsOk(t: System)
    requires Reachable(t)
    ensures Inv(t)
  {
    var s :| Initial(s) && LeadsTo(s, t);
    InitialIsOk(s);
    LaterIsOk(s, t);
  }

  // ----- what the mail server sees

  /** No mail is accepted twice, with any number of workers, redeliveries, repeated publications and crashes. */
  lemma AtMostOnceAcceptance(t: System)
    requires Reachable(t)
    ensures NoRepeats(t.accepted)
    ensures forall i :: 0 <= i < |t.accepted| ==> AcceptOk(t.db, t.accepted[i])
  {
    ReachableIsOk(t);
  }

  /** The SMTP adapter meets the provider contract exactly on the sessions where a positive reply is 250. */
  lemma SmtpContactIsHonestExactly(session: Smtp.Session, attemptId: string, contextError: Option<ContextError>)
    requires Smtp.WellFormed(session) && Trimmed(attemptId) && |attemptId| <= 36
    ensures HonestContact(Submitted(Smtp.Accepted(session), Smtp.Submit(session, attemptId), contextError))
            <==> Smtp.PositiveReplyIs250(session)
  {
    Smtp.SubmitIsHonestExactly(session, attemptId);
  }

  /** One provider call per (message, generation), and never more calls than the message's attempt limit. */
  lemma OneCallPerGeneration(t: System)
    requires Reachable(t)
    ensures && NoRepeats(t.calls)
            && (forall i :: 0 <= i < |t.calls| ==> CallOk(t.db, t.calls[i]))
            && (forall id :: id in t.db ==>
                  var d := t.db[id].row.snapshot;
                  CallCount(t.calls, id) <= d.attemptCount <= d.maxAttempts <= 10)
  {
    ReachableIsOk(t);
    forall id | id in t.db ensures t.db[id].row.snapshot.attemptCount <= t.db[id].row.snapshot.maxAttempts <= 10 {
      assert CellOk(id, t.db[id], t.clock);
    }
  }

  /** Two workers never hold the same message, and a holder's attempt is the last row, still open. */
  lemma OneHolderPerMessage(t: System, w: nat)
    requires Reachable(t)
    requires w in t.workers && Holds(t.workers[w])
    ensures var p := t.workers[w];
            && Free(t.workers - {w}, p.cmd.messageId)
            && p.cmd.messageId in t.db && t.db[p.cmd.messageId].row.snapshot.status == Sending
            && var attempts := t.db[p.cmd.messageId].attempts;
            |attempts| > 0 && attempts[|attempts| - 1] == p.attempt && p.attempt.status == Started
  {
    ReachableIsOk(t);
    var id := t.workers[w].cmd.messageId;
    OthersAreElsewhere(t.db, t.clock, t.workers, w);
    assert PhaseOk(t.db, t.clock, t.workers[w]);
    assert CellOk(id, t.db[id], t.clock);
  }

  // ----- the tables of one message

  /** Attempt rows are numbered 1..attemptCount under the same generations; only the last is open, while sending. */
  predicate AttemptTableAgrees(d: Snapshot, attempts: seq<Attempt>) {
    && |attempts| == d.attemptCount
    && (forall i :: 0 <= i < |attempts| ==> attempts[i].number == i + 1 == attempts[i].generation)
    && (forall i :: 0 <= i < |attempts| ==>
          (attempts[i].status == Started <==> i == |attempts| - 1 && d.status == Sending))
    && (d.status == Sending ==> attempts != [])
  }

  lemma AttemptTable(t: System, id: string)
    requires Reachable(t) && id in t.db
    ensures var c := t.db[id];
            AttemptTableAgrees(c.row.snapshot, c.attempts)
  {
    ReachableIsOk(t);
    assert CellOk(id, t.db[id], t.clock);
    var d, attempts := t.db[id].row.snapshot, t.db[id].attempts;
    forall i | 0 <= i < |attempts|
      ensures attempts[i].number == i + 1 == attempts[i].generation
      ensures attempts[i].status == Started <==> i == |attempts| - 1 && d.status == Sending
    {
      assert AttemptOk(d, attempts, i);
    }
  }

  /** Every attempt ran inside the message's time window, and strictly after the one before it had finished. */
  predicate AttemptTimesAgree(d: Snapshot, attempts: seq<Attempt>) {
    && (forall i :: 0 <= i < |attempts| ==> attempts[i].startedAt < d.dispatchDeadline)
    && (forall i :: 0 <= i < |attempts| && d.scheduledAt.Some? ==> d.scheduledAt.value <= attempts[i].startedAt)
    && (forall i, j :: 0 <= i < j < |attempts| ==>
          attempts[i].finishedAt.Some? && attempts[i].finishedAt.value < attempts[j].startedAt)
  }

  lemma {:induction false} EarlierFinished(d: Snapshot, attempts: seq<Attempt>, i: nat, j: nat)
    requires forall k :: 0 <= k < |attempts| ==> AttemptOk(d, attempts, k)
    requires i < j < |attempts|
    ensures attempts[i].finishedAt.Some? && attempts[i].finishedAt.value < attempts[j].startedAt
    decreases j - i
  {
    assert AttemptOk(d, attempts, i);
    if i + 1 == j {
    } else {
      assert AttemptOk(d, attempts, i + 1);
      EarlierFinished(d, attempts, i + 1, j);
    }
  }

  lemma TimeSafety(t: System, id: string)
    requires Reachable(t) && id in t.db
    ensures var c := t.db[id];
            AttemptTimesAgree(c.row.snapshot, c.attempts)
  {
    ReachableIsOk(t);
    assert CellOk(id, t.db[id], t.clock);
    var d, attempts := t.db[id].row.snapshot, t.db[id].attempts;
    forall i | 0 <= i < |attempts|
      ensures attempts[i].startedAt < d.dispatchDeadline
      ensures d.scheduledAt.Some? ==> d.scheduledAt.value <= attempts[i].startedAt
    {
      assert AttemptOk(d, attempts, i);
    }
    forall i, j | 0 <= i < j < |attempts|
      ensures attempts[i].finishedAt.Some? && attempts[i].finishedAt.value < attempts[j].startedAt
    {
      EarlierFinished(d, attempts, i, j);
    }
  }

  // ----- journal and outbox

  predicate Requests(ids: seq<EventId>, generation: nat) {
    exists e :: e in ids && e.kind == DispatchRequested && e.generation == generation
  }

  /** ids are the ids of the n journal entries and one dispatch request per generation, each exactly once. */
  predicate IdsAgree(ids: seq<EventId>, journal: seq<JournalEntry>, generations: nat) {
    && NoRepeats(ids)
    && (forall i :: 0 <= i < |journal| ==> journal[i].id in ids && journal[i].id.kind != DispatchRequested)
    && (forall e :: e in ids && e.kind != DispatchRequested ==> exists i :: 0 <= i < |journal| && journal[i].id == e)
    && (forall e :: e in ids && e.kind == DispatchRequested ==> 1 <= e.generation <= generations)
    && (forall e, e' :: e in ids && e' in ids && e.kind == e'.kind == DispatchRequested && e.generation == e'.generation ==>
          e == e')
    && (forall g :: 1 <= g <= generations ==> Requests(ids, g))
  }

  /** What one more entry adds. */
  lemma IdsGrowByOne(ids: seq<EventId>, journal: seq<JournalEntry>, generations: nat, j: JournalEntry)
    requires IdsAgree(ids, journal, generations)
    requires forall e <- ids :: e.sequence < j.sequence
    requires j.id.sequence == j.sequence && j.id.kind != DispatchRequested
    requires j.status == Queued ==> j.id.generation == generations + 1
    ensures IdsAgree(ids + ExpandEntry(j), journal + [j], generations + (if j.status == Queued then 1 else 0))
  {
    var ids' := ids + ExpandEntry(j);
    var generations' := generations + (if j.status == Queued then 1 else 0);
    assert forall e :: e in ids' <==> e in ids || e in ExpandEntry(j);
    forall e | e in ids' && e.kind != DispatchRequested
      ensures exists i :: 0 <= i < |journal + [j]| && (journal + [j])[i].id == e
    {
      if e in ids {
        var i :| 0 <= i < |journal| && journal[i].id == e;
        assert (journal + [j])[i].id == e;
      } else {
        assert (journal + [j])[|journal|].id == e;
      }
    }
    forall g | 1 <= g <= generations' ensures Requests(ids', g) {
      if g <= generations {
        assert Requests(ids, g);
      } else {
        assert ExpandEntry(j)[1] in ids';
      }
    }
  }

  lemma {:induction false} ExpandAgrees(id: string, journal: seq<JournalEntry>, n: nat)
    requires n <= |journal| && forall i :: 0 <= i < |journal| ==> EntryOk(id, journal, i)
    ensures IdsAgree(Expand(journal[..n]), journal[..n], QueuedCount(journal[..n]))
  {
    if n == 0 {
    } else {
      var init, j := journal[..n - 1], journal[n - 1];
      assert journal[..n][..n - 1] == init && journal[..n] == init + [j];
      ExpandAgrees(id, journal, n - 1);
      ExpandBounded(id, journal, n - 1);
      assert EntryOk(id, journal, n - 1);
      IdsGrowByOne(Expand(init), init, QueuedCount(init), j);
    }
  }

  predicate HistoryAgrees(c: Cell) {
    var d, journal := c.row.snapshot, c.journal;
    && |journal| == d.latestSequence > 0
    && (forall i :: 0 <= i < |journal| ==> journal[i].sequence == i + 1)
    && journal[0].status == Accepted && journal[|journal| - 1].status == d.status
    && (forall i :: 0 <= i < |journal| - 1 ==> CanTransition(journal[i].status, journal[i + 1].status))
    && IdsAgree(Ids(c.outbox), journal, d.generation)
  }

  lemma JournalAndOutbox(t: System, id: string)
    requires Reachable(t) && id in t.db
    ensures HistoryAgrees(t.db[id])
  {
    ReachableIsOk(t);
    assert CellOk(id, t.db[id], t.clock);
    var journal := t.db[id].journal;
    forall i | 0 <= i < |journal| ensures journal[i].sequence == i + 1 {
      assert EntryOk(id, journal, i);
    }
    assert journal[..|journal|] == journal;
    ExpandAgrees(id, journal, |journal|);
  }

  predicate ChangeAt(outbox: seq<OutboxEvent>, k: nat, sequence: int) {
    k < |outbox| && outbox[k].sequence == sequence && outbox[k].id.kind != DispatchRequested
  }

  /** The row is the message's first event, or starts from the state in which the row of the number before it ended. */
  predicate Chained(outbox: seq<OutboxEvent>, o: OutboxEvent) {
    if o.sequence == 1 then o.payload.from.None? && o.payload.to == Accepted
    else exists k :: 0 <= k < |outbox| && ChangeAt(outbox, k, o.sequence - 1) && o.payload.from == Some(outbox[k].payload.to)
  }

  lemma EntryHasRow(c: Cell, n: nat) returns (k: nat)
    requires n < |c.journal| && HistoryAgrees(c)
    requires forall i :: 0 <= i < |c.outbox| ==> OutboxRowOk(c.row, c.outbox[i]) && PayloadOk(c.journal, c.outbox[i])
    requires c.journal[n].id.sequence == n + 1
    ensures ChangeAt(c.outbox, k, n + 1) && c.outbox[k].payload.to == c.journal[n].status
  {
    k :| 0 <= k < |Ids(c.outbox)| && Ids(c.outbox)[k] == c.journal[n].id;
  }

  lemma RowIsChained(c: Cell, i: nat)
    requires HistoryAgrees(c) && i < |c.outbox| && c.outbox[i].id.kind != DispatchRequested
    requires forall k :: 0 <= k < |c.journal| ==> c.journal[k].id.sequence == k + 1
    requires forall k :: 0 <= k < |c.outbox| ==> OutboxRowOk(c.row, c.outbox[k]) && PayloadOk(c.journal, c.outbox[k])
    ensures Chained(c.outbox, c.outbox[i])
  {
    var o := c.outbox[i];
    assert PayloadOk(c.journal, o);
    if o.sequence > 1 {
      var k := EntryHasRow(c, o.sequence - 2);
    }
  }

  /**
   What a consumer of the published events can rely on: row by row the payload says what the journal says, and
   the state changes form an unbroken chain from the acceptance on.
   */
  lemma PayloadsTellTheHistory(t: System, id: string, i: nat)
    requires Reachable(t) && id in t.db && i < |t.db[id].outbox|
    ensures var c := t.db[id];
            && PayloadOk(c.journal, c.outbox[i])
            && (c.outbox[i].id.kind != DispatchRequested ==> Chained(c.outbox, c.outbox[i]))
  {
    JournalAndOutbox(t, id);
    var c := t.db[id];
    assert HistoryOk(c) && c.row.snapshot.id == id by {
      ReachableIsOk(t);
      assert CellOk(id, c, t.clock);
    }
    forall k | 0 <= k < |c.journal| ensures c.journal[k].id.sequence == k + 1 {
      assert EntryOk(id, c.journal, k);
    }
    if c.outbox[i].id.kind != DispatchRequested {
      RowIsChained(c, i);
    }
  }

  // ----- the worker's branches

  /**
   The claim of a genuine command is stale, expires the message, starts an attempt or loses the
   compare-and-set; the first and the last change nothing. No other branch is reachable.
   */
  lemma GenuineCommandsAreNeverPoison(t: System, w: nat, attemptId: string, key: string)
    requires Reachable(t) && Enabled(t, CommitClaim(w, attemptId, key))
    ensures var p := t.workers[w];
            var (db, outcome) := Claim(t.db, p.read, p.cmd, p.stamp, attemptId, key);
            || (outcome == Resolved(DispatchStale) && db == t.db)
            || (outcome == ClaimFailed(StoreFailed(ConcurrentUpdate)) && db == t.db)
            || outcome == Resolved(DispatchExpired)
            || (outcome.Holding? && outcome.attempt.generation == p.cmd.generation)
  {
    ReachableIsOk(t);
    var p := t.workers[w];
    assert PhaseOk(t.db, t.clock, p);
    assert CellOk(p.cmd.messageId, t.db[p.cmd.messageId], t.clock);
    var k := ClaimCases(t.db, t.clock, p, attemptId, key);
  }

  /** The finalize transaction of a claim holder is never rejected, and its three outcomes correspond. */
  lemma HoldersAlwaysFinalize(t: System, w: nat, delay: int)
    requires Reachable(t) && Enabled(t, CommitFinalize(w, delay))
    ensures var p := t.workers[w];
            var (db, outcome) := Finalize(t.db, p.read, p.attempt, p.result, p.stamp, delay);
            && outcome.Finalized? && p.cmd.messageId in db
            && var c := db[p.cmd.messageId];
            && |c.attempts| > 0
            && Corresponds(c.row.snapshot.status, c.attempts[|c.attempts| - 1].status, outcome.disposition)
  {
    ReachableIsOk(t);
    var p := t.workers[w];
    assert PhaseOk(t.db, t.clock, p);
    assert CellOk(p.cmd.messageId, t.db[p.cmd.messageId], t.clock);
    var c', _ := FinalizeSucceeds(t.db, t.clock, p, delay);
  }

  /** Every record a transaction can read is restorable. */
  lemma EveryRecordRestores(t: System, id: string)
    requires Reachable(t) && id in t.db
    ensures var d := t.db[id].row.snapshot;
            Restore(d) == Success(Aggregate(d, []))
  {
    ReachableIsOk(t);
    assert CellOk(id, t.db[id], t.clock);
    OkRowRestores(id, t.db[id].row.snapshot, t.clock);
  }
}
