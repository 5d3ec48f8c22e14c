/**
 The provider guard under concurrency: any number of calls pass breaker, bulkhead and token bucket
 in any interleaving, with any clock readings, and are rejected, canceled or answered.
 */
module Guarding {
  import opened Common
  import opened Messages
  import opened Providers
  import opened Circuit
  import opened Bucket

  /** A call inside the guard. A slot is taken after admission and given back at the very end. */
  datatype Phase =
    | Admitted(ticket: Ticket)
    | Slotted(ticket: Ticket)
    | Granted(ticket: Ticket)
    | Calling(ticket: Ticket)
    | Leaving

  datatype StateNote = StateNote(state: CircuitState, sequence: nat)

  /**
   grants and calls count what the bucket allowed and what reached the provider; emitted holds the state
   observations the guard produced, in the order of the breaker's lock; log holds the observations that
   calls of the current epoch recorded.
   */
  datatype Guard = Guard(
    maxConcurrent: nat,
    breaker: Breaker,
    bucket: Bucket,
    slots: nat,
    threads: map<nat, Phase>,
    grants: nat,
    calls: nat,
    emitted: seq<StateNote>,
    log: seq<Observation>)

  datatype Step =
    | Enter(thread: nat, now: Time)
    | TakeSlot(thread: nat)
    | GiveUp(thread: nat)
    | Ask(thread: nat, now: Time)
    | Call(thread: nat)
    | Return(thread: nat, result: ProviderResult, now: Time)
    | Leave(thread: nat)

  predicate Enabled(g: Guard, step: Step) {
    match step
    case Enter(w, _) => w !in g.threads
    case TakeSlot(w) => w in g.threads && g.threads[w].Admitted?
    case GiveUp(w) => w in g.threads && g.threads[w].Slotted?
    case Ask(w, _) => w in g.threads && g.threads[w].Slotted?
    case Call(w) => w in g.threads && g.threads[w].Granted?
    case Return(w, _, _) => w in g.threads && g.threads[w].Calling?
    case Leave(w) => w in g.threads && g.threads[w].Leaving? && g.slots > 0
  }

  function Emit(emitted: seq<StateNote>, t: Option<Transition>): seq<StateNote> {
    match t
    case None => emitted
    case Some(x) => emitted + [StateNote(x.to, x.epoch)]
  }

  /** The log of an epoch ends with the transition out of it. */
  function Logged(g: Guard, ticket: Ticket, o: Observation, t: Option<Transition>): seq<Observation> {
    if t.Some? then []
    else if ticket.epoch == g.breaker.epoch && !ticket.halfOpen && g.breaker.state == Closed then g.log + [o]
    else g.log
  }

  function Next(g: Guard, step: Step): Guard
    requires Enabled(g, step)
  {
    match step
    case Enter(w, now) =>
      var a := Acquire(g.breaker, now);
      g.(breaker := a.breaker, emitted := Emit(g.emitted, a.transition),
         log := if a.transition.Some? then [] else g.log,
         threads := if a.ticket.Some? then g.threads[w := Admitted(a.ticket.value)] else g.threads)
    case TakeSlot(w) =>
      var ticket := g.threads[w].ticket;
      if g.slots < g.maxConcurrent then g.(slots := g.slots + 1, threads := g.threads[w := Slotted(ticket)])
      else g.(breaker := Circuit.Cancel(g.breaker, ticket), threads := g.threads - {w})
    case GiveUp(w) => g.(breaker := Circuit.Cancel(g.breaker, g.threads[w].ticket), threads := g.threads[w := Leaving])
    case Ask(w, now) =>
      var ticket := g.threads[w].ticket;
      if Allowed(g.bucket, now) then
        g.(bucket := Asked(g.bucket, now), grants := g.grants + 1, threads := g.threads[w := Granted(ticket)])
      else
        g.(bucket := Asked(g.bucket, now), breaker := Circuit.Cancel(g.breaker, ticket), threads := g.threads[w := Leaving])
    case Call(w) => g.(calls := g.calls + 1, threads := g.threads[w := Calling(g.threads[w].ticket)])
    case Return(w, result, now) =>
      var ticket, o := g.threads[w].ticket, Classify(result);
      var r := Record(g.breaker, ticket, o, now);
      g.(breaker := r.breaker, emitted := Emit(g.emitted, r.transition), log := Logged(g, ticket, o, r.transition),
         threads := g.threads[w := Leaving])
    case Leave(w) => g.(slots := g.slots - 1, threads := g.threads - {w})
  }

  /** A new guard: closed, with a full bucket, and the initial state already reported. */
  function NewGuard(maxConcurrent: nat, threshold: nat, openDuration: int, rate: real, burst: real, now: Time): Guard {
    Guard(maxConcurrent, NewBreaker(threshold, openDuration), NewBucket(rate, burst, now), 0, map[], 0, 0,
          [StateNote(Closed, 0)], [])
  }

  predicate ValidGuard(maxConcurrent: nat, threshold: nat, openDuration: int, rate: real, burst: real) {
    && 0 < maxConcurrent <= 10_000 && ValidConfig(threshold, openDuration)
    && 0.001 <= rate <= 100_000.0 && 1.0 <= burst <= 100_000.0
  }

  // ----- local rejections

  datatype Rejection = BulkheadFull | RateExceeded | ContextDone | CircuitIsOpen

  /** What the worker sees of a call that never reached the provider: a valid, retryable failure. */
  function RejectionResult(r: Rejection): (result: ProviderResult)
    ensures ValidResult(result) && result.outcome == OutcomeFailed && result.fault.value.retryable
  {
    match r
    case BulkheadFull =>
      FailedResultIsValid(RateLimited, "LOCAL_PROVIDER_BULKHEAD_FULL", true);
      FailedResult(RateLimited, "LOCAL_PROVIDER_BULKHEAD_FULL", true)
    case RateExceeded =>
      FailedResultIsValid(RateLimited, "LOCAL_PROVIDER_RATE_LIMITED", true);
      FailedResult(RateLimited, "LOCAL_PROVIDER_RATE_LIMITED", true)
    case ContextDone =>
      FailedResultIsValid(TimeoutBeforeSend, "LOCAL_PROVIDER_CONTEXT_DONE", true);
      FailedResult(TimeoutBeforeSend, "LOCAL_PROVIDER_CONTEXT_DONE", true)
    case CircuitIsOpen =>
      FailedResultIsValid(ProviderDown, "LOCAL_PROVIDER_CIRCUIT_OPEN", true);
      FailedResult(ProviderDown, "LOCAL_PROVIDER_CIRCUIT_OPEN", true)
  }

  // ----- counting calls

  /** The calls whose phase satisfies p. */
  function Having(threads: map<nat, Phase>, p: Phase -> bool): set<nat> {
    set w | w in threads && p(threads[w])
  }

  function Weight(threads: map<nat, Phase>, w: nat, p: Phase -> bool): nat {
    if w in threads && p(threads[w]) then 1 else 0
  }

  lemma Replaced(threads: map<nat, Phase>, w: nat, q: Phase, p: Phase -> bool)
    ensures |Having(threads[w := q], p)| + Weight(threads, w, p) == |Having(threads, p)| + (if p(q) then 1 else 0)
  {
    var rest := Having(threads, p) - {w};
    assert Having(threads, p) == if Weight(threads, w, p) == 1 then rest + {w} else rest;
    assert Having(threads[w := q], p) == if p(q) then rest + {w} else rest;
  }

  lemma Removed(threads: map<nat, Phase>, w: nat, p: Phase -> bool)
    ensures |Having(threads - {w}, p)| + Weight(threads, w, p) == |Having(threads, p)|
  {
    var rest := Having(threads, p) - {w};
    assert Having(threads, p) == if Weight(threads, w, p) == 1 then rest + {w} else rest;
    assert Having(threads - {w}, p) == rest;
  }

  function HasSlot(): Phase -> bool {
    (p: Phase) => !p.Admitted?
  }

  function IsGranted(): Phase -> bool {
    (p: Phase) => p.Granted?
  }

  function IsCalling(): Phase -> bool {
    (p: Phase) => p.Calling?
  }

  /** The call holds a half-open ticket of the given epoch that is not settled yet. */
  function IsProbe(epoch: nat): Phase -> bool {
    (p: Phase) => !p.Leaving? && p.ticket == Ticket(epoch, true)
  }
}
