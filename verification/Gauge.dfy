/** The circuit-state gauge: it must show the breaker's state although observations arrive in any order. */
module Gauge {
  import opened Circuit
  import opened Guarding
  import GuardRuns

  datatype Reading = Reading(sequence: nat, state: CircuitState)

  type Readings = map<string, Reading>

  /** Only an observation newer than the one shown for its provider is taken over. */
  function Recorded(g: Readings, provider: string, n: StateNote): Readings {
    if provider in g && n.sequence <= g[provider].sequence then g
    else g[provider := Reading(n.sequence, n.state)]
  }

  class StateGauge {
    var stateSequences: map<string, nat>
    var values: map<string, CircuitState>

    predicate Valid()
      reads this
    {
      stateSequences.Keys == values.Keys
    }

    function View(): Readings
      requires Valid()
      reads this
    {
      map p | p in values :: Reading(stateSequences[p], values[p])
    }

    constructor ()
      ensures Valid() && View() == map[]
    {
      stateSequences, values := map[], map[];
    }

    method RecordCircuitState(provider: string, n: StateNote)
      requires Valid()
      modifies this
      ensures Valid() && View() == Recorded(old(View()), provider, n)
    {
      if provider in stateSequences && n.sequence <= stateSequences[provider] {
        return;
      }
      stateSequences := stateSequences[provider := n.sequence];
      values := values[provider := n.state];
    }
  }

  // ----- any order of delivery

  datatype Delivery = Delivery(provider: string, note: StateNote)

  function RecordedAll(g: Readings, ds: seq<Delivery>): Readings {
    if ds == [] then g
    else Recorded(RecordedAll(g, ds[..|ds| - 1]), ds[|ds| - 1].provider, ds[|ds| - 1].note)
  }

  /** Observations numbered by position, as one guard emits them. */
  predicate Numbered(emitted: seq<StateNote>) {
    forall i :: 0 <= i < |emitted| ==> emitted[i].sequence == i
  }

  /** The deliveries of this provider carry observations its guard emitted. */
  predicate Genuine(ds: seq<Delivery>, provider: string, emitted: seq<StateNote>) {
    forall i :: 0 <= i < |ds| && ds[i].provider == provider ==>
      ds[i].note.sequence < |emitted| && ds[i].note == emitted[ds[i].note.sequence]
  }

  predicate Delivered(ds: seq<Delivery>, provider: string, sequence: nat) {
    exists i :: 0 <= i < |ds| && ds[i].provider == provider && ds[i].note.sequence == sequence
  }

  /** In any order, with repeats and gaps, the gauge shows the newest observation delivered so far. */
  lemma {:induction false} GaugeShowsTheNewest(ds: seq<Delivery>, provider: string, emitted: seq<StateNote>)
    requires Numbered(emitted) && Genuine(ds, provider, emitted)
    ensures var g := RecordedAll(map[], ds);
            && (provider in g <==> exists i :: 0 <= i < |ds| && ds[i].provider == provider)
            && (provider in g ==>
                  && g[provider].sequence < |emitted| && g[provider].state == emitted[g[provider].sequence].state
                  && Delivered(ds, provider, g[provider].sequence)
                  && forall i :: 0 <= i < |ds| && ds[i].provider == provider ==>
                       ds[i].note.sequence <= g[provider].sequence)
  {
    if ds == [] {
    } else {
      var init, last := ds[..|ds| - 1], ds[|ds| - 1];
      assert forall i :: 0 <= i < |init| ==> init[i] == ds[i];
      GaugeShowsTheNewest(init, provider, emitted);
      var g := RecordedAll(map[], init);
      if provider in g {
        var i :| 0 <= i < |init| && init[i].provider == provider && init[i].note.sequence == g[provider].sequence;
        assert ds[i].provider == provider && ds[i].note.sequence == g[provider].sequence;
      }
      if last.provider == provider {
        assert ds[|ds| - 1].note == emitted[last.note.sequence];
        assert Delivered(ds, provider, last.note.sequence);
      }
    }
  }

  /** Once the newest observation of a guard has been delivered, the gauge shows the state its breaker is in. */
  lemma GaugeConverges(t: Guard, ds: seq<Delivery>, provider: string)
    requires GuardRuns.Reachable(t) && Genuine(ds, provider, t.emitted)
    requires Delivered(ds, provider, t.breaker.epoch)
    ensures var g := RecordedAll(map[], ds);
            provider in g && g[provider] == Reading(t.breaker.epoch, t.breaker.state)
  {
    GuardRuns.ReachableIsOk(t);
    GaugeShowsTheNewest(ds, provider, t.emitted);
  }
}
