/** What the tables keep of a provider result: the message, its last attempt and its last journal entry all carry it. */
module DispatchRecords {
  import opened Common
  import opened Statuses
  import opened Messages
  import opened MessageRuns
  import opened EventMapping
  import opened Providers
  import opened Store
  import opened Worker
  import opened Cells
  import opened CellSteps
  import opened DispatchInvariant
  import opened DispatchTheorems
  import D = Dispatch

  /**
   The message shows the result: its failure or none, the first provider id and acceptance time seen, and when a
   retry is due.
   */
  predicate InMessage(r: ProviderResult, stamp: Time, delay: int, d: Snapshot, d': Snapshot) {
    && (d'.status == ProviderAccepted || d'.status == SubmissionUnknown || d'.status == PermanentlyFailed
        || d'.status == DeadLettered || d'.status == RetryScheduled)
    && d'.updatedAt == stamp && d'.lastFault == r.fault
    && d'.nextAttemptAt == (if d'.status == RetryScheduled then Some(stamp + delay) else None)
    && d'.providerMessageId == (if r.outcome == OutcomeAccepted && d.providerMessageId == "" then r.providerMessageId
                                else d.providerMessageId)
    && d'.providerAcceptedAt == (if r.outcome == OutcomeAccepted && d.providerAcceptedAt.None? then Some(stamp)
                                 else d.providerAcceptedAt)
  }

  /** The attempt row that was open is settled with the result; nothing else about it changes. */
  predicate InAttempt(r: ProviderResult, stamp: Time, a: Attempt, a': Attempt) {
    && a'.finishedAt == Some(stamp) && a'.providerMessageId == r.providerMessageId && a'.fault == r.fault
    && a'.id == a.id && a'.number == a.number && a'.generation == a.generation
    && a'.providerKey == a.providerKey && a'.startedAt == a.startedAt
  }

  predicate InJournal(r: ProviderResult, stamp: Time, d: Snapshot, j: JournalEntry) {
    && j.status == d.status && j.occurredAt == stamp && j.attemptNumber == d.attemptCount
    && j.providerMessageId == r.providerMessageId && j.fault == r.fault
  }

  /** All three places of c' hold the result that c was finalized with. */
  predicate Recorded(r: ProviderResult, stamp: Time, delay: int, c: Cell, c': Cell) {
    && InMessage(r, stamp, delay, c.row.snapshot, c'.row.snapshot)
    && |c'.attempts| == |c.attempts| > 0
    && c'.attempts[..|c.attempts| - 1] == c.attempts[..|c.attempts| - 1]
    && InAttempt(r, stamp, c.attempts[|c.attempts| - 1], c'.attempts[|c.attempts| - 1])
    && |c'.journal| == |c.journal| + 1
    && InJournal(r, stamp, c'.row.snapshot, c'.journal[|c.journal|])
  }

  lemma ResultEntersAggregate(d: Snapshot, attemptId: string, r: ProviderResult, now: Time, delay: int)
    requires Coherent(d) && d.status == Sending && ValidResult(r) && now != ZERO_TIME && 0 < delay <= DAY
    ensures ApplyProviderResult(Aggregate(d, []), attemptId, r, now, delay).Success?
    ensures var x := ApplyProviderResult(Aggregate(d, []), attemptId, r, now, delay).value;
            && InMessage(r, now, delay, d, x.aggregate.data)
            && x.completion.finishedAt == now && x.completion.providerMessageId == r.providerMessageId
            && x.completion.fault == r.fault
            && |x.aggregate.pending| == 1
            && var e := x.aggregate.pending[0];
               && e.to == x.aggregate.data.status && e.occurredAt == now && e.attemptNumber == x.aggregate.data.attemptCount
               && e.providerMessageId == r.providerMessageId && e.fault == r.fault
  {
    ProviderResultsAreTotal(Aggregate(d, []), attemptId, r, now, delay);
  }

  lemma SettledCellRecords(id: string, c: Cell, r: ProviderResult, now: Time, delay: int, clock: Time)
    requires CellOk(id, c, clock) && c.row.snapshot.status == Sending && |c.attempts| > 0
    requires ValidResult(r) && 0 < delay <= DAY
    requires c.attempts[|c.attempts| - 1].startedAt <= now <= clock
    ensures var x := ApplyProviderResult(Aggregate(c.row.snapshot, []), c.attempts[|c.attempts| - 1].id, r, now, delay);
            && x.Success? && Commit(c, c.row, x.value.aggregate, Complete(x.value.completion)).Success?
            && Recorded(r, now, delay, c, Commit(c, c.row, x.value.aggregate, Complete(x.value.completion)).value)
  {
    var d, last := c.row.snapshot, c.attempts[|c.attempts| - 1];
    assert AttemptOk(d, c.attempts, |c.attempts| - 1);
    ResultEntersAggregate(d, last.id, r, now, delay);
    ResultEmits(d, last.id, r, now, delay);
    ProviderResultsAreTotal(Aggregate(d, []), last.id, r, now, delay);
    var x := ApplyProviderResult(Aggregate(d, []), last.id, r, now, delay).value;
    LastIsCompleted(c, Stored(c, x.aggregate).row, x.completion);
    CommitEntersJournal(c, x.aggregate, Complete(x.completion));
    SettleKeepsCell(id, c, r, now, delay, clock);
  }

  /** The finalize transaction of a holder, on the tables alone. */
  lemma HolderRecords(db: Db, clock: Time, p: D.Phase, delay: int) returns (c': Cell)
    requires p.FinalizeRead? && HolderOk(db, clock, p) && CellOk(p.cmd.messageId, db[p.cmd.messageId], clock)
    requires 0 < delay <= DAY
    ensures Finalize(db, p.read, p.attempt, p.result, p.stamp, delay).0 == db[p.cmd.messageId := c']
    ensures Recorded(p.result, p.stamp, delay, db[p.cmd.messageId], c')
  {
    var id := p.cmd.messageId;
    var c := db[id];
    OkRowRestores(id, c.row.snapshot, clock);
    SettledCellRecords(id, c, p.result, p.stamp, delay, clock);
    ResultEmits(c.row.snapshot, p.attempt.id, p.result, p.stamp, delay);
    var x := ApplyProviderResult(Aggregate(c.row.snapshot, []), p.attempt.id, p.result, p.stamp, delay).value;
    c' := Commit(c, c.row, x.aggregate, Complete(x.completion)).value;
    FinalizeWrites(db, p, delay, x, c');
  }

  /** The finalize transaction of a claim holder leaves the provider's result in all three places. */
  lemma FinalizeRecordsTheResult(t: D.System, w: nat, delay: int)
    requires Reachable(t) && D.Enabled(t, D.CommitFinalize(w, delay))
    ensures var p := t.workers[w];
            var id := p.cmd.messageId;
            var db' := D.Next(t, D.CommitFinalize(w, delay)).db;
            id in t.db && id in db' && Recorded(p.result, p.stamp, delay, t.db[id], db'[id])
  {
    ReachableIsOk(t);
    var p := t.workers[w];
    assert PhaseOk(t.db, t.clock, p);
    assert CellOk(p.cmd.messageId, t.db[p.cmd.messageId], t.clock);
    var c' := HolderRecords(t.db, t.clock, p, delay);
  }
}
