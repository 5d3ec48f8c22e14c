/** What holds on every run of the provider guard. */
module GuardRuns {
  import opened Common
  import opened Providers
  import opened Circuit
  import opened Bucket
  import opened Guarding

  // ----- the breaker's part of the invariant

  /** The failures since the last healthy observation. */
  function Trailing(log: seq<Observation>): nat {
    if log == [] then 0
    else
      match log[|log| - 1]
      case Healthy => 0
      case Failing => Trailing(log[..|log| - 1]) + 1
      case _ => Trailing(log[..|log| - 1])
  }

  /** A ticket was issued in an epoch that was not OPEN, and is a probe exactly if that epoch was HALF_OPEN. */
  predicate TicketOk(t: Ticket, emitted: seq<StateNote>) {
    && t.epoch < |emitted| && emitted[t.epoch].state != Open
    && (t.halfOpen <==> emitted[t.epoch].state == HalfOpen)
  }

  predicate TicketsOk(threads: map<nat, Phase>, emitted: seq<StateNote>) {
    forall w :: w in threads && !threads[w].Leaving? ==> TicketOk(threads[w].ticket, emitted)
  }

  /** One observation per epoch, the last one showing the present state. */
  predicate EmittedOk(emitted: seq<StateNote>, b: Breaker) {
    && |emitted| == b.epoch + 1 && emitted[b.epoch].state == b.state
    && forall i :: 0 <= i < |emitted| ==> emitted[i].sequence == i
  }

  predicate CounterOk(b: Breaker, log: seq<Observation>) {
    && b.threshold > 0
    && (if b.state == Closed then b.fails == Trailing(log) < b.threshold else b.fails == 0)
  }

  predicate ProbeOk(b: Breaker, threads: map<nat, Phase>) {
    && (b.inFlight ==> b.state == HalfOpen)
    && |Having(threads, IsProbe(b.epoch))| == (if b.inFlight then 1 else 0)
  }

  predicate BreakerOk(g: Guard) {
    && EmittedOk(g.emitted, g.breaker) && TicketsOk(g.threads, g.emitted)
    && CounterOk(g.breaker, g.log) && ProbeOk(g.breaker, g.threads)
  }

  /** No ticket of an epoch that has not begun. */
  lemma NoFutureProbes(threads: map<nat, Phase>, emitted: seq<StateNote>, epoch: nat)
    requires TicketsOk(threads, emitted) && epoch >= |emitted|
    ensures Having(threads, IsProbe(epoch)) == {}
  {
  }

  lemma TicketsOutlive(threads: map<nat, Phase>, emitted: seq<StateNote>, note: StateNote)
    requires TicketsOk(threads, emitted)
    ensures TicketsOk(threads, emitted + [note])
  {
    forall w | w in threads && !threads[w].Leaving? ensures TicketOk(threads[w].ticket, emitted + [note]) {
      assert TicketOk(threads[w].ticket, emitted);
    }
  }

  lemma TicketsAfter(threads: map<nat, Phase>, emitted: seq<StateNote>, w: nat, p: Phase)
    requires TicketsOk(threads, emitted) && (p.Leaving? || TicketOk(p.ticket, emitted))
    ensures TicketsOk(threads[w := p], emitted) && TicketsOk(threads - {w}, emitted)
  {
  }

  lemma EnterKeepsBreaker(g: Guard, w: nat, now: Time)
    requires BreakerOk(g) && Enabled(g, Enter(w, now))
    ensures BreakerOk(Next(g, Enter(w, now)))
  {
    var a := Acquire(g.breaker, now);
    if a.transition.Some? {
      var e := g.breaker.epoch + 1;
      TicketsOutlive(g.threads, g.emitted, StateNote(HalfOpen, e));
      NoFutureProbes(g.threads, g.emitted, e);
    }
    if a.ticket.Some? {
      var emitted' := Emit(g.emitted, a.transition);
      TicketsAfter(g.threads, emitted', w, Admitted(a.ticket.value));
      Replaced(g.threads, w, Admitted(a.ticket.value), IsProbe(a.breaker.epoch));
    }
  }

  /** A call gives its ticket back unused. */
  lemma CancelKeepsProbe(b: Breaker, threads: map<nat, Phase>, emitted: seq<StateNote>, w: nat)
    requires EmittedOk(emitted, b) && TicketsOk(threads, emitted) && ProbeOk(b, threads)
    requires w in threads && !threads[w].Leaving?
    ensures var b' := Circuit.Cancel(b, threads[w].ticket);
            ProbeOk(b', threads - {w}) && ProbeOk(b', threads[w := Leaving])
  {
    assert TicketOk(threads[w].ticket, emitted);
    Removed(threads, w, IsProbe(b.epoch));
    Replaced(threads, w, Leaving, IsProbe(b.epoch));
  }

  lemma CancelKeepsBreaker(g: Guard, w: nat, threads: map<nat, Phase>, bucket: Bucket)
    requires BreakerOk(g) && w in g.threads && !g.threads[w].Leaving?
    requires threads == g.threads - {w} || threads == g.threads[w := Leaving]
    ensures BreakerOk(g.(breaker := Circuit.Cancel(g.breaker, g.threads[w].ticket), threads := threads, bucket := bucket))
  {
    CancelKeepsProbe(g.breaker, g.threads, g.emitted, w);
    TicketsAfter(g.threads, g.emitted, w, Leaving);
  }

  /** A call moves on with its ticket. */
  lemma MoveKeepsBreaker(g: Guard, w: nat, p: Phase)
    requires BreakerOk(g) && w in g.threads && !g.threads[w].Leaving? && !p.Leaving? && p.ticket == g.threads[w].ticket
    ensures EmittedOk(g.emitted, g.breaker) && CounterOk(g.breaker, g.log)
    ensures TicketsOk(g.threads[w := p], g.emitted) && ProbeOk(g.breaker, g.threads[w := p])
  {
    TicketsAfter(g.threads, g.emitted, w, p);
    Replaced(g.threads, w, p, IsProbe(g.breaker.epoch));
  }

  /** A result that changes no state: of an older epoch, or counted in the current one. */
  lemma QuietRecord(g: Guard, w: nat, o: Observation, now: Time)
    requires BreakerOk(g) && w in g.threads && !g.threads[w].Leaving?
    requires Record(g.breaker, g.threads[w].ticket, o, now).transition.None?
    ensures var b' := Record(g.breaker, g.threads[w].ticket, o, now).breaker;
            && EmittedOk(g.emitted, b') && CounterOk(b', Logged(g, g.threads[w].ticket, o, None))
            && ProbeOk(b', g.threads[w := Leaving])
  {
    var ticket := g.threads[w].ticket;
    assert TicketOk(ticket, g.emitted);
    Replaced(g.threads, w, Leaving, IsProbe(g.breaker.epoch));
    var log' := g.log + [o];
    assert log'[..|g.log|] == g.log;
  }

  lemma RecordKeepsBreaker(g: Guard, w: nat, o: Observation, now: Time)
    requires BreakerOk(g) && w in g.threads && !g.threads[w].Leaving?
    ensures var r := Record(g.breaker, g.threads[w].ticket, o, now);
            BreakerOk(g.(breaker := r.breaker, emitted := Emit(g.emitted, r.transition),
                         log := Logged(g, g.threads[w].ticket, o, r.transition), threads := g.threads[w := Leaving]))
  {
    var r := Record(g.breaker, g.threads[w].ticket, o, now);
    TicketsAfter(g.threads, g.emitted, w, Leaving);
    if r.transition.None? {
      QuietRecord(g, w, o, now);
    } else {
      var e := g.breaker.epoch + 1;
      TicketsOutlive(g.threads[w := Leaving], g.emitted, StateNote(r.transition.value.to, e));
      NoFutureProbes(g.threads[w := Leaving], g.emitted, e);
    }
  }

  lemma BreakerKept(g: Guard, step: Step)
    requires BreakerOk(g) && Enabled(g, step)
    ensures BreakerOk(Next(g, step))
  {
    match step
    case Enter(w, now) => EnterKeepsBreaker(g, w, now);
    case TakeSlot(w) =>
      MoveKeepsBreaker(g, w, Slotted(g.threads[w].ticket));
      CancelKeepsBreaker(g, w, g.threads - {w}, g.bucket);
    case GiveUp(w) => CancelKeepsBreaker(g, w, g.threads[w := Leaving], g.bucket);
    case Ask(w, now) =>
      MoveKeepsBreaker(g, w, Granted(g.threads[w].ticket));
      CancelKeepsBreaker(g, w, g.threads[w := Leaving], Asked(g.bucket, now));
    case Call(w) => MoveKeepsBreaker(g, w, Calling(g.threads[w].ticket));
    case Return(w, result, now) => RecordKeepsBreaker(g, w, Classify(result), now);
    case Leave(w) =>
      TicketsAfter(g.threads, g.emitted, w, Leaving);
      Removed(g.threads, w, IsProbe(g.breaker.epoch));
  }

  // ----- bulkhead and bucket

  predicate LimitsOk(g: Guard) {
    && g.slots == |Having(g.threads, HasSlot())| <= g.maxConcurrent
    && g.grants == g.calls + |Having(g.threads, IsGranted())|
    && BucketOk(g.bucket)
  }

  /** The counts after one call moved on or left. */
  lemma Counted(g: Guard, w: nat, q: Phase)
    ensures |Having(g.threads[w := q], HasSlot())| + Weight(g.threads, w, HasSlot()) ==
            |Having(g.threads, HasSlot())| + (if q.Admitted? then 0 else 1)
    ensures |Having(g.threads[w := q], IsGranted())| + Weight(g.threads, w, IsGranted()) ==
            |Having(g.threads, IsGranted())| + (if q.Granted? then 1 else 0)
    ensures |Having(g.threads - {w}, HasSlot())| + Weight(g.threads, w, HasSlot()) == |Having(g.threads, HasSlot())|
    ensures |Having(g.threads - {w}, IsGranted())| + Weight(g.threads, w, IsGranted()) == |Having(g.threads, IsGranted())|
  {
    Replaced(g.threads, w, q, HasSlot());
    Replaced(g.threads, w, q, IsGranted());
    Removed(g.threads, w, HasSlot());
    Removed(g.threads, w, IsGranted());
  }

  lemma LimitsKept(g: Guard, step: Step)
    requires LimitsOk(g) && Enabled(g, step)
    ensures LimitsOk(Next(g, step))
  {
    match step
    case Enter(w, now) =>
      if Acquire(g.breaker, now).ticket.Some? {
        Counted(g, w, Admitted(Acquire(g.breaker, now).ticket.value));
      }
    case TakeSlot(w) => Counted(g, w, Slotted(g.threads[w].ticket));
    case GiveUp(w) => Counted(g, w, Leaving);
    case Ask(w, now) =>
      AskKeepsBudget(g.bucket, now);
      Counted(g, w, if Allowed(g.bucket, now) then Granted(g.threads[w].ticket) else Leaving);
    case Call(w) => Counted(g, w, Calling(g.threads[w].ticket));
    case Return(w, result, now) => Counted(g, w, Leaving);
    case Leave(w) => Counted(g, w, Leaving);
  }

  // ----- runs

  predicate Legal(g: Guard, steps: seq<Step>)
    decreases |steps|
  {
    steps != [] ==> Enabled(g, steps[0]) && Legal(Next(g, steps[0]), steps[1..])
  }

  function Exec(g: Guard, steps: seq<Step>): Guard
    requires Legal(g, steps)
    decreases |steps|
  {
    if steps == [] then g else Exec(Next(g, steps[0]), steps[1..])
  }

  ghost predicate LeadsTo(s: Guard, t: Guard) {
    exists steps :: Legal(s, steps) && t == Exec(s, steps)
  }

  predicate Fresh(g: Guard) {
    && ValidGuard(g.maxConcurrent, g.breaker.threshold, g.breaker.openDuration, g.bucket.rate, g.bucket.burst)
    && g == NewGuard(g.maxConcurrent, g.breaker.threshold, g.breaker.openDuration, g.bucket.rate, g.bucket.burst,
                     g.bucket.last)
  }

  /** The states of all runs of a newly made guard. */
  ghost predicate Reachable(t: Guard) {
    exists s :: Fresh(s) && LeadsTo(s, t)
  }

  predicate Inv(g: Guard) {
    BreakerOk(g) && LimitsOk(g)
  }

  lemma FreshIsOk(g: Guard)
    requires Fresh(g)
    ensures Inv(g)
  {
    assert Having(g.threads, HasSlot()) == {} && Having(g.threads, IsGranted()) == {};
    assert Having(g.threads, IsProbe(0)) == {};
  }

  lemma {:induction false} RunKeepsInv(g: Guard, steps: seq<Step>)
    requires Inv(g) && Legal(g, steps)
    ensures Inv(Exec(g, steps))
    decreases |steps|
  {
    if steps == [] {
    } else {
      BreakerKept(g, steps[0]);
      LimitsKept(g, steps[0]);
      RunKeepsInv(Next(g, steps[0]), steps[1..]);
    }
  }

  lemma ReachableIsOk(t: Guard)
    requires Reachable(t)
    ensures Inv(t)
  {
    var s :| Fresh(s) && LeadsTo(s, t);
    FreshIsOk(s);
    var steps :| Legal(s, steps) && t == Exec(s, steps);
    RunKeepsInv(s, steps);
  }

  // ----- the theorems about the breaker

  /** The in-flight flag is set exactly while one half-open ticket of the present epoch is outstanding. */
  lemma ProbeFlagIsExact(t: Guard)
    requires Reachable(t)
    ensures t.breaker.inFlight <==> |Having(t.threads, IsProbe(t.breaker.epoch))| == 1
    ensures !t.breaker.inFlight <==> Having(t.threads, IsProbe(t.breaker.epoch)) == {}
    ensures t.breaker.inFlight ==> t.breaker.state == HalfOpen
  {
    ReachableIsOk(t);
  }

  /** No unsettled ticket belongs to an epoch in which the circuit was OPEN. */
  lemma NoTicketOfAnOpenEpoch(t: Guard, w: nat)
    requires Reachable(t) && w in t.threads && !t.threads[w].Leaving?
    ensures t.threads[w].ticket.epoch < |t.emitted| && t.emitted[t.threads[w].ticket.epoch].state != Open
    ensures t.breaker.state == Open ==> t.threads[w].ticket.epoch < t.breaker.epoch
  {
    ReachableIsOk(t);
    assert TicketOk(t.threads[w].ticket, t.emitted);
  }

  /** While CLOSED the counter is the number of failures since the last healthy result, and below the threshold. */
  lemma CounterIsTrailingFailures(t: Guard)
    requires Reachable(t) && t.breaker.state == Closed
    ensures t.breaker.fails == Trailing(t.log) < t.breaker.threshold
  {
    ReachableIsOk(t);
  }

  /** What the observation of a settled call makes of the state, in terms of its ticket and the epoch's log. */
  function StateAfter(g: Guard, ticket: Ticket, o: Observation): CircuitState {
    if ticket.epoch != |g.emitted| - 1 then g.breaker.state
    else if ticket.halfOpen then (if o == Healthy then Closed else Open)
    else if o == ImmediateFailing || (o == Failing && Trailing(g.log) + 1 >= g.breaker.threshold) then Open
    else Closed
  }

  lemma OutstandingProbeIsFlagged(g: Guard, w: nat)
    requires BreakerOk(g) && w in g.threads && !g.threads[w].Leaving?
    requires g.threads[w].ticket == Ticket(g.breaker.epoch, true)
    ensures g.breaker.state == HalfOpen && g.breaker.inFlight
  {
    assert TicketOk(g.threads[w].ticket, g.emitted);
    assert w in Having(g.threads, IsProbe(g.breaker.epoch));
  }

  /**
   Results move the circuit exactly so: a late one changes nothing; a probe closes it if it is healthy and
   opens it otherwise; and a closed circuit opens if a result trips it at once or is the threshold-th
   consecutive failure of its epoch. A changed state is observed under the next sequence number.
   */
  lemma ResultsMoveExactly(g: Guard, w: nat, result: ProviderResult, now: Time)
    requires Reachable(g) && Enabled(g, Return(w, result, now))
    ensures var g' := Next(g, Return(w, result, now));
            var state := StateAfter(g, g.threads[w].ticket, Classify(result));
            && g'.breaker.state == state
            && g'.emitted == (if state == g.breaker.state then g.emitted
                              else g.emitted + [StateNote(state, |g.emitted|)])
            && (g.threads[w].ticket.epoch != |g.emitted| - 1 ==> g'.breaker == g.breaker && g'.log == g.log)
  {
    ReachableIsOk(g);
    var ticket := g.threads[w].ticket;
    assert TicketOk(ticket, g.emitted);
    if ticket == Ticket(g.breaker.epoch, true) {
      OutstandingProbeIsFlagged(g, w);
    }
  }

  /**
   A call is admitted exactly when the circuit is closed, or open with its cooldown passed, or half-open with
   no probe outstanding; it is then a probe unless the circuit is closed.
   */
  lemma AdmissionIsExact(g: Guard, w: nat, now: Time)
    requires Reachable(g) && Enabled(g, Enter(w, now))
    ensures var g' := Next(g, Enter(w, now));
            && (w in g'.threads <==>
                  match g.breaker.state
                  case Closed => true
                  case Open => g.breaker.openUntil <= now
                  case HalfOpen => Having(g.threads, IsProbe(g.breaker.epoch)) == {})
            && (w in g'.threads ==> g'.threads[w] == Admitted(Ticket(g'.breaker.epoch, g.breaker.state != Closed)))
            && g'.breaker.state == (if g.breaker.state == Open && g.breaker.openUntil <= now then HalfOpen
                                    else g.breaker.state)
  {
    ProbeFlagIsExact(g);
  }

  predicate EntersBefore(steps: seq<Step>, until: Time) {
    forall i :: 0 <= i < |steps| && steps[i].Enter? ==> steps[i].now < until
  }

  lemma OpenStep(g: Guard, step: Step)
    requires BreakerOk(g) && Enabled(g, step) && g.breaker.state == Open
    requires step.Enter? ==> step.now < g.breaker.openUntil
    ensures Next(g, step).breaker == g.breaker && Next(g, step).threads.Keys <= g.threads.Keys
  {
    if !step.Enter? && !step.Leave? {
      assert TicketOk(g.threads[step.thread].ticket, g.emitted);
    }
  }

  lemma {:induction false} OpenRun(g: Guard, steps: seq<Step>)
    requires Inv(g) && Legal(g, steps) && g.breaker.state == Open && EntersBefore(steps, g.breaker.openUntil)
    ensures Exec(g, steps).breaker == g.breaker && Exec(g, steps).threads.Keys <= g.threads.Keys
    decreases |steps|
  {
    if steps == [] {
    } else {
      OpenStep(g, steps[0]);
      BreakerKept(g, steps[0]);
      LimitsKept(g, steps[0]);
      OpenRun(Next(g, steps[0]), steps[1..]);
    }
  }

  /** Until the cooldown is over nobody is admitted and the circuit stays open, whatever late results arrive. */
  lemma OpenCircuitRefuses(s: Guard, steps: seq<Step>)
    requires Reachable(s) && Legal(s, steps) && s.breaker.state == Open && EntersBefore(steps, s.breaker.openUntil)
    ensures Exec(s, steps).breaker == s.breaker && Exec(s, steps).threads.Keys <= s.threads.Keys
  {
    ReachableIsOk(s);
    OpenRun(s, steps);
  }

  /** Opening at now sets the cooldown that OpenCircuitRefuses speaks of. */
  lemma OpeningStartsTheCooldown(g: Guard, step: Step)
    requires Reachable(g) && Enabled(g, step) && g.breaker.state != Open && Next(g, step).breaker.state == Open
    ensures step.Return? && Next(g, step).breaker.openUntil == step.now + g.breaker.openDuration
  {
  }

  // ----- the theorems about the limits

  lemma CallersHoldSlots(threads: map<nat, Phase>)
    ensures |Having(threads, IsCalling())| <= |Having(threads, HasSlot())|
  {
    var callers, holders := Having(threads, IsCalling()), Having(threads, HasSlot());
    assert callers <= holders;
    assert holders == callers + (holders - callers);
  }

  /** Calls in flight never exceed the limit, and a call that leaves always finds its slot to give back. */
  lemma ConcurrencyIsBounded(t: Guard, w: nat)
    requires Reachable(t)
    ensures |Having(t.threads, IsCalling())| <= t.slots <= t.maxConcurrent
    ensures w in t.threads && t.threads[w].Leaving? ==> t.slots > 0
  {
    ReachableIsOk(t);
    CallersHoldSlots(t.threads);
    if w in t.threads && t.threads[w].Leaving? {
      assert w in Having(t.threads, HasSlot());
    }
  }

  /** The provider is called once per grant, apart from calls that are just about to be made. */
  lemma CallsAreGrants(t: Guard)
    requires Reachable(t)
    ensures t.grants == t.calls + |Having(t.threads, IsGranted())|
  {
    ReachableIsOk(t);
  }

  predicate Spent(s: Guard, t: Guard) {
    && t.bucket.rate == s.bucket.rate && t.bucket.burst == s.bucket.burst
    && s.bucket.last <= t.bucket.last && s.grants <= t.grants
    && (t.grants - s.grants) as real + t.bucket.tokens
       <= s.bucket.tokens + s.bucket.rate * Seconds(t.bucket.last - s.bucket.last)
  }

  lemma StepSpends(g: Guard, step: Step)
    requires LimitsOk(g) && Enabled(g, step)
    ensures Spent(g, Next(g, step))
  {
    if step.Ask? {
      AskKeepsBudget(g.bucket, step.now);
    } else {
      assert g.bucket.rate * Seconds(0) == 0.0;
    }
  }

  lemma SpentAdds(r: Guard, s: Guard, t: Guard)
    requires Spent(r, s) && Spent(s, t)
    ensures Spent(r, t)
  {
    var x, y := Seconds(s.bucket.last - r.bucket.last), Seconds(t.bucket.last - s.bucket.last);
    assert Seconds(t.bucket.last - r.bucket.last) == x + y;
    assert r.bucket.rate * (x + y) == r.bucket.rate * x + r.bucket.rate * y;
  }

  lemma {:induction false} RunSpends(g: Guard, steps: seq<Step>)
    requires Inv(g) && Legal(g, steps)
    ensures Spent(g, Exec(g, steps))
    decreases |steps|
  {
    if steps == [] {
      assert g.bucket.rate * Seconds(0) == 0.0;
    } else {
      StepSpends(g, steps[0]);
      BreakerKept(g, steps[0]);
      LimitsKept(g, steps[0]);
      RunSpends(Next(g, steps[0]), steps[1..]);
      SpentAdds(g, Next(g, steps[0]), Exec(g, steps));
    }
  }

  lemma SpentIsBounded(s: Guard, t: Guard)
    requires Spent(s, t) && BucketOk(s.bucket) && BucketOk(t.bucket)
    ensures (t.grants - s.grants) as real <= s.bucket.burst + s.bucket.rate * Seconds(t.bucket.last - s.bucket.last)
    ensures 0.0 <= t.bucket.tokens <= t.bucket.burst == s.bucket.burst
  {
  }

  /** Over every stretch of every run, even with a clock that steps back. */
  lemma RateIsBounded(s: Guard, t: Guard)
    requires Reachable(s) && LeadsTo(s, t)
    ensures (t.grants - s.grants) as real <= s.bucket.burst + s.bucket.rate * Seconds(t.bucket.last - s.bucket.last)
    ensures 0.0 <= t.bucket.tokens <= t.bucket.burst == s.bucket.burst
  {
    ReachableIsOk(s);
    var steps :| Legal(s, steps) && t == Exec(s, steps);
    RunSpends(s, steps);
    RunKeepsInv(s, steps);
    SpentIsBounded(s, t);
  }

  /** What a stretch of a run has earned: tokens left and grants made, against the time that passed. */
  predicate Earned(s: Guard, t: Guard) {
    && t.bucket.rate == s.bucket.rate && t.bucket.burst == s.bucket.burst
    && s.bucket.last <= t.bucket.last && s.grants <= t.grants
    && (t.grants - s.grants) as real + t.bucket.tokens
       >= Least(s.bucket.burst, s.bucket.tokens + s.bucket.rate * Seconds(t.bucket.last - s.bucket.last))
  }

  lemma StepEarns(g: Guard, step: Step)
    requires LimitsOk(g) && Enabled(g, step)
    ensures Earned(g, Next(g, step))
  {
    if step.Ask? {
      AskKeepsBudget(g.bucket, step.now);
      AskEarns(g.bucket, step.now);
    } else {
      assert g.bucket.rate * Seconds(0) == 0.0;
    }
  }

  /** Two stretches in a row: earnings p then q, grants g then h, stock x, then y, then z. */
  lemma EarningsAdd(burst: real, x: real, y: real, z: real, g: real, h: real, p: real, q: real)
    requires g >= 0.0 && h >= 0.0 && q >= 0.0
    requires g + y >= Least(burst, x + p) && h + z >= Least(burst, y + q)
    ensures g + h + z >= Least(burst, x + (p + q))
  {
  }

  lemma EarnedAdds(r: Guard, s: Guard, t: Guard)
    requires Earned(r, s) && Earned(s, t) && r.bucket.rate > 0.0
    ensures Earned(r, t)
  {
    var rate := r.bucket.rate;
    RateSplits(rate, r.bucket.last, s.bucket.last, t.bucket.last);
    var p, q := rate * Seconds(s.bucket.last - r.bucket.last), rate * Seconds(t.bucket.last - s.bucket.last);
    assert rate * Seconds(t.bucket.last - r.bucket.last) == p + q;
    var g, h := (s.grants - r.grants) as real, (t.grants - s.grants) as real;
    EarningsAdd(r.bucket.burst, r.bucket.tokens, s.bucket.tokens, t.bucket.tokens, g, h, p, q);
  }

  lemma {:induction false} RunEarns(g: Guard, steps: seq<Step>)
    requires Inv(g) && Legal(g, steps)
    ensures Earned(g, Exec(g, steps))
    decreases |steps|
  {
    if steps == [] {
      assert g.bucket.rate * Seconds(0) == 0.0;
    } else {
      StepEarns(g, steps[0]);
      BreakerKept(g, steps[0]);
      LimitsKept(g, steps[0]);
      RunEarns(Next(g, steps[0]), steps[1..]);
      EarnedAdds(g, Next(g, steps[0]), Exec(g, steps));
    }
  }

  /**
   The limiter is no stricter than its rate: over every stretch of every run, grants and tokens left make up for
   the elapsed time, up to the burst.
   */
  lemma RateIsEarned(s: Guard, t: Guard)
    requires Reachable(s) && LeadsTo(s, t)
    ensures (t.grants - s.grants) as real + t.bucket.tokens
            >= Least(s.bucket.burst, s.bucket.tokens + s.bucket.rate * Seconds(t.bucket.last - s.bucket.last))
  {
    ReachableIsOk(s);
    var steps :| Legal(s, steps) && t == Exec(s, steps);
    RunEarns(s, steps);
  }

  /** The stock a rested bucket offers at a time. */
  lemma RestedStock(s: Guard, t: Guard, now: Time)
    requires Earned(s, t) && t.grants == s.grants && BucketOk(s.bucket) && BucketOk(t.bucket) && s.bucket.last <= now
    ensures Stock(t.bucket, now) >= Least(s.bucket.burst, s.bucket.tokens + s.bucket.rate * Seconds(now - s.bucket.last))
  {
    var rate, x := s.bucket.rate, Seconds(t.bucket.last - s.bucket.last);
    if now <= t.bucket.last {
      assert Seconds(now - s.bucket.last) <= x;
      assert rate * Seconds(now - s.bucket.last) <= rate * x;
    } else {
      var y := Seconds(now - t.bucket.last);
      assert Seconds(now - s.bucket.last) == x + y;
      assert rate * (x + y) == rate * x + rate * y;
    }
  }

  /**
   If nothing was granted since the bucket's last refill, a call is granted once the rate has paid for a token, and
   the full burst is in stock once the rate has paid for that.
   */
  lemma RestedGuardGrants(s: Guard, t: Guard, w: nat, now: Time)
    requires Reachable(s) && LeadsTo(s, t) && t.grants == s.grants && Enabled(t, Ask(w, now)) && s.bucket.last <= now
    ensures s.bucket.rate * Seconds(now - s.bucket.last) >= 1.0 ==>
              Next(t, Ask(w, now)).grants == t.grants + 1 && Next(t, Ask(w, now)).threads[w].Granted?
    ensures s.bucket.rate * Seconds(now - s.bucket.last) >= s.bucket.burst ==>
              Next(t, Ask(w, now)).bucket.tokens == s.bucket.burst - 1.0
  {
    ReachableIsOk(s);
    var steps :| Legal(s, steps) && t == Exec(s, steps);
    RunEarns(s, steps);
    RunKeepsInv(s, steps);
    RestedStock(s, t, now);
    GrantedExactly(t.bucket, now);
  }
}
