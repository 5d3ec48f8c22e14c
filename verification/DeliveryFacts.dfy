/**
 Provider observations arrive repeated and in any order. This module gives the
 state a message ends in as a closed form of the facts received.
 */
module DeliveryFacts {
  import opened Common
  import opened Statuses
  import opened Messages

  /** What the provider can report about: a submission that has started. */
  predicate Observable(s: Status) {
    s == Sending || s == SubmissionUnknown || s == ProviderAccepted
  }

  function ApplyFacts(a: Aggregate, facts: seq<Fact>): Result<Aggregate, DomainError>
    decreases |facts|
  {
    if facts == [] then Success(a)
    else
      var b :- ApplyFact(a, facts[0]);
      ApplyFacts(b, facts[1..])
  }

  function Kinds(facts: seq<Fact>): (kinds: seq<FactKind>)
    ensures |kinds| == |facts|
    ensures forall i :: 0 <= i < |facts| ==> kinds[i] == facts[i].kind
  {
    if facts == [] then [] else [facts[0].kind] + Kinds(facts[1..])
  }

  /** The first report that says more than "accepted" is a bounce. */
  predicate BounceFirst(kinds: seq<FactKind>) {
    exists i :: 0 <= i < |kinds| && kinds[i] == FactBounced
                && forall j :: 0 <= j < i ==> kinds[j] == FactProviderAccepted
  }

  /** Accepted < delivered < complained: the furthest report seen, or the start when there is none. */
  function Furthest(start: Status, kinds: set<FactKind>): Status {
    if FactComplained in kinds then Complained
    else if FactDelivered in kinds then Delivered
    else if FactProviderAccepted in kinds then ProviderAccepted
    else start
  }

  function FinalStatus(start: Status, kinds: seq<FactKind>): Status {
    if BounceFirst(kinds) then Bounced else Furthest(start, set k | k in kinds)
  }

  /** How one more fact at the front changes the closed form. */
  function AfterFact(s: Status, k: FactKind): Status {
    if s == FactTarget(k) || WouldRegress(s, FactTarget(k)) then s else FactTarget(k)
  }

  function Progress(s: Status, kinds: seq<FactKind>): Status
    decreases |kinds|
  {
    if kinds == [] then s else Progress(AfterFact(s, kinds[0]), kinds[1..])
  }

  lemma {:induction false} SettledProgress(s: Status, kinds: seq<FactKind>)
    requires s == Bounced || s == Complained
    ensures Progress(s, kinds) == s
    decreases |kinds|
  {
    if kinds == [] {
    } else {
      SettledProgress(s, kinds[1..]);
    }
  }

  lemma {:induction false} DeliveredProgress(kinds: seq<FactKind>)
    ensures Progress(Delivered, kinds) == (if FactComplained in kinds then Complained else Delivered)
    decreases |kinds|
  {
    if kinds == [] {
    } else {
      if kinds[0] == FactComplained {
        SettledProgress(Complained, kinds[1..]);
      } else {
        DeliveredProgress(kinds[1..]);
      }
    }
  }

  lemma BounceFirstTail(kinds: seq<FactKind>)
    requires kinds != []
    ensures BounceFirst(kinds) <==>
            kinds[0] == FactBounced || (kinds[0] == FactProviderAccepted && BounceFirst(kinds[1..]))
  {
    var tail := kinds[1..];
    if kinds[0] == FactProviderAccepted && BounceFirst(tail) {
      var i :| 0 <= i < |tail| && tail[i] == FactBounced && forall j :: 0 <= j < i ==> tail[j] == FactProviderAccepted;
      assert kinds[i + 1] == FactBounced;
      assert forall j :: 0 <= j < i + 1 ==> kinds[j] == FactProviderAccepted;
    }
    if BounceFirst(kinds) && kinds[0] != FactBounced {
      var i :| 0 <= i < |kinds| && kinds[i] == FactBounced && forall j :: 0 <= j < i ==> kinds[j] == FactProviderAccepted;
      assert tail[i - 1] == FactBounced;
      assert forall j :: 0 <= j < i - 1 ==> tail[j] == kinds[j + 1];
    }
  }

  lemma {:induction false} ProgressIsFinalStatus(s: Status, kinds: seq<FactKind>)
    requires Observable(s)
    ensures Progress(s, kinds) == FinalStatus(s, kinds)
    decreases |kinds|
  {
    if kinds == [] {
      assert !BounceFirst(kinds);
    } else {
      var tail := kinds[1..];
      BounceFirstTail(kinds);
      assert forall k :: k in kinds <==> k == kinds[0] || k in tail;
      match kinds[0]
      case FactProviderAccepted => ProgressIsFinalStatus(ProviderAccepted, tail);
      case FactDelivered => DeliveredProgress(tail);
      case FactBounced => SettledProgress(Bounced, tail);
      case FactComplained => SettledProgress(Complained, tail);
    }
  }

  predicate Dated(facts: seq<Fact>) {
    forall i :: 0 <= i < |facts| ==> facts[i].occurredAt != ZERO_TIME
  }

  predicate Tracked(s: Status) {
    Observable(s) || s == Delivered || s == Bounced || s == Complained
  }

  lemma {:induction false} FactsFollowProgress(a: Aggregate, facts: seq<Fact>)
    requires Tracked(a.data.status) && Dated(facts)
    ensures ApplyFacts(a, facts).Success?
    ensures ApplyFacts(a, facts).value.data.status == Progress(a.data.status, Kinds(facts))
    decreases |facts|
  {
    if facts == [] {
    } else {
      var b := ApplyFact(a, facts[0]);
      assert b.Success? && b.value.data.status == AfterFact(a.data.status, facts[0].kind);
      assert Kinds(facts)[1..] == Kinds(facts[1..]);
      FactsFollowProgress(b.value, facts[1..]);
    }
  }

  /** No sequence of dated facts is ever rejected, and the final state is the closed form of the kinds received. */
  lemma {:induction false} FactsReachTheClosedForm(a: Aggregate, facts: seq<Fact>)
    requires Observable(a.data.status) && Dated(facts)
    ensures ApplyFacts(a, facts).Success?
    ensures ApplyFacts(a, facts).value.data.status == FinalStatus(a.data.status, Kinds(facts))
  {
    FactsFollowProgress(a, facts);
    ProgressIsFinalStatus(a.data.status, Kinds(facts));
  }

  predicate OrderMatters(kinds: set<FactKind>) {
    FactBounced in kinds && (FactDelivered in kinds || FactComplained in kinds)
  }

  lemma OrderIrrelevant(s: Status, xs: seq<FactKind>, ys: seq<FactKind>)
    requires multiset(xs) == multiset(ys)
    requires !OrderMatters(set k | k in xs)
    ensures FinalStatus(s, xs) == FinalStatus(s, ys)
  {
    assert forall k :: k in xs <==> k in multiset(xs);
    assert forall k :: k in ys <==> k in multiset(ys);
    assert (set k | k in xs) == (set k | k in ys);
    if FactBounced in xs {
      BounceAmongAccepted(xs);
      BounceAmongAccepted(ys);
    }
  }

  lemma {:induction false} BounceAmongAccepted(kinds: seq<FactKind>)
    requires FactBounced in kinds && FactDelivered !in kinds && FactComplained !in kinds
    ensures BounceFirst(kinds)
    decreases |kinds|
  {
    BounceFirstTail(kinds);
    if kinds[0] != FactBounced {
      assert kinds[0] in kinds;
      BounceAmongAccepted(kinds[1..]);
    }
  }

  /**
   A collection of facts ends in the same state in every order exactly when it does
   not hold both a bounce and a delivery or complaint.
   */
  lemma OrderIrrelevantExactly(s: Status, xs: seq<FactKind>)
    requires Observable(s)
    ensures !OrderMatters(set k | k in xs) <==>
            forall ys: seq<FactKind> | multiset(ys) == multiset(xs) :: FinalStatus(s, ys) == FinalStatus(s, xs)
  {
    var kinds := set k | k in xs;
    if !OrderMatters(kinds) {
      forall ys: seq<FactKind> | multiset(ys) == multiset(xs) ensures FinalStatus(s, ys) == FinalStatus(s, xs) {
        OrderIrrelevant(s, xs, ys);
      }
    } else {
      var late := if FactComplained in xs then FactComplained else FactDelivered;
      var bounceFirst := MoveToFront(xs, FactBounced);
      var lateFirst := MoveToFront(xs, late);
      assert BounceFirst(bounceFirst) by { assert bounceFirst[0] == FactBounced; }
      assert !BounceFirst(lateFirst) by { BounceFirstTail(lateFirst); }
      assert FinalStatus(s, bounceFirst) == Bounced != FinalStatus(s, lateFirst);
    }
  }

  lemma MoveToFront(xs: seq<FactKind>, k: FactKind) returns (ys: seq<FactKind>)
    requires k in xs
    ensures ys != [] && ys[0] == k && multiset(ys) == multiset(xs)
  {
    var i :| 0 <= i < |xs| && xs[i] == k;
    ys := [xs[i]] + xs[..i] + xs[i + 1..];
    assert xs == xs[..i] + [xs[i]] + xs[i + 1..];
  }
}
