/**
 Round robin over whole runs: a provider that stays available is not passed over, whatever happens to
 the other providers between one selection and the next.
 */
module Fairness {
  import opened Common
  import opened Providers
  import opened Strategies

  /**
   One call of Select: the providers' states when it is made, and its clock readings. Nothing links
   the states of one round to those of the next: only the ring index is carried over.
   */
  datatype Round = Round(ps: seq<Provider>, ts: seq<Readings>)

  predicate Fits(rounds: seq<Round>, n: nat) {
    forall t :: 0 <= t < |rounds| ==> |rounds[t].ps| == n == |rounds[t].ts|
  }

  /** Provider i is available whenever it is asked. */
  predicate StaysUp(rounds: seq<Round>, n: nat, allowPaid: bool, i: nat)
    requires Fits(rounds, n) && i < n
  {
    forall t :: 0 <= t < |rounds| ==> Up(rounds[t].ps, rounds[t].ts, allowPaid, i)
  }

  /** What each call chooses, starting from ring position `index`. */
  function Choices(rounds: seq<Round>, n: nat, allowPaid: bool, index: nat): (cs: seq<Option<nat>>)
    requires Fits(rounds, n)
    ensures |cs| == |rounds|
    decreases |rounds|
  {
    if rounds == [] then []
    else
      var c := RingScan(rounds[0].ps, rounds[0].ts, allowPaid, index, 0).chosen;
      [c] + Choices(rounds[1..], n, allowPaid, NextIndex(index, c, n))
  }

  lemma DistanceShrinks(index: nat, c: nat, i: nat, n: nat)
    requires c < n && i < n && Distance(index, c, n) < Distance(index, i, n)
    ensures Distance((c + 1) % n, i, n) == Distance(index, i, n) - Distance(index, c, n) - 1
    ensures forall j: nat :: j < n && Distance((c + 1) % n, j, n) < Distance((c + 1) % n, i, n) ==>
              Distance(index, j, n) == Distance(index, c, n) + 1 + Distance((c + 1) % n, j, n)
  {
    assert Position(c + 1, 0, n) == (c + 1) % n;
    QuotientUnique(c + 1, if c + 1 == n then 1 else 0, if c + 1 == n then 0 else c + 1, n);
    var next := (c + 1) % n;
    QuotientUnique(next, 0, next, n);
  }

  /** One round: the choice is i or lies strictly before i on the ring. */
  lemma ChoiceNotBeyond(r: Round, n: nat, allowPaid: bool, index: nat, i: nat)
    requires |r.ps| == n == |r.ts| && i < n && Up(r.ps, r.ts, allowPaid, i)
    ensures
      var c := RingScan(r.ps, r.ts, allowPaid, index, 0).chosen;
      && c.Some? && c.value < n && Up(r.ps, r.ts, allowPaid, c.value)
      && (c.value != i ==> Distance(index, c.value, n) < Distance(index, i, n))
  {
    RingScanPicksFirst(r.ps, r.ts, allowPaid, index, 0);
  }

  /**
   Bounded waiting: a provider that stays available is chosen within its ring distance plus one
   calls, so within n calls.
   */
  lemma {:induction false} BoundedWaiting(rounds: seq<Round>, n: nat, allowPaid: bool, index: nat, i: nat)
    requires Fits(rounds, n) && i < n && StaysUp(rounds, n, allowPaid, i)
    requires |rounds| > Distance(index, i, n)
    ensures exists t :: 0 <= t <= Distance(index, i, n) && Choices(rounds, n, allowPaid, index)[t] == Some(i)
    decreases |rounds|
  {
    var cs := Choices(rounds, n, allowPaid, index);
    ChoiceNotBeyond(rounds[0], n, allowPaid, index, i);
    if cs[0] != Some(i) {
      DistanceShrinks(index, cs[0].value, i, n);
      var next := NextIndex(index, cs[0], n);
      BoundedWaiting(rounds[1..], n, allowPaid, next, i);
      var t :| 0 <= t <= Distance(next, i, n) && Choices(rounds[1..], n, allowPaid, next)[t] == Some(i);
      assert cs[t + 1] == Some(i);
    }
  }

  /** The choices lie strictly forward of one another on the ring, and short of i. */
  predicate Forward(cs: seq<Option<nat>>, n: nat, index: nat, i: nat)
    requires i < n
  {
    && (forall t :: 0 <= t < |cs| ==>
          cs[t].Some? && cs[t].value < n && Distance(index, cs[t].value, n) < Distance(index, i, n))
    && (forall s, t :: 0 <= s < t < |cs| ==>
          Distance(index, cs[s].value, n) < Distance(index, cs[t].value, n))
  }

  lemma ForwardCons(c: nat, rest: seq<Option<nat>>, n: nat, index: nat, i: nat)
    requires c < n && i < n && Distance(index, c, n) < Distance(index, i, n)
    requires Forward(rest, n, (c + 1) % n, i)
    ensures Forward([Some(c)] + rest, n, index, i)
  {
    DistanceShrinks(index, c, i, n);
    var cs := [Some(c)] + rest;
    forall t | 0 < t < |cs|
      ensures cs[t].Some? && cs[t].value < n
      ensures Distance(index, cs[t].value, n)
           == Distance(index, c, n) + 1 + Distance((c + 1) % n, rest[t - 1].value, n)
      ensures Distance(index, cs[t].value, n) < Distance(index, i, n)
    {
      assert cs[t] == rest[t - 1];
    }
  }

  /** While i waits, the choices move strictly forward on the ring towards i. */
  lemma {:induction false} ChoicesMoveForward(rounds: seq<Round>, n: nat, allowPaid: bool, index: nat, i: nat)
    requires Fits(rounds, n) && i < n && StaysUp(rounds, n, allowPaid, i)
    requires Some(i) !in Choices(rounds, n, allowPaid, index)
    ensures Forward(Choices(rounds, n, allowPaid, index), n, index, i)
    decreases |rounds|
  {
    if rounds != [] {
      var cs := Choices(rounds, n, allowPaid, index);
      ChoiceNotBeyond(rounds[0], n, allowPaid, index, i);
      assert cs[0] != Some(i);
      var next := NextIndex(index, cs[0], n);
      var rest := Choices(rounds[1..], n, allowPaid, next);
      ChoicesMoveForward(rounds[1..], n, allowPaid, next, i);
      assert next == (cs[0].value + 1) % n && cs == [Some(cs[0].value)] + rest;
      ForwardCons(cs[0].value, rest, n, index, i);
    }
  }

  /**
   No overtaking twice: between two consecutive choices of a provider that stays available, every
   other provider is chosen at most once.
   */
  lemma NoProviderTwiceInBetween(rounds: seq<Round>, n: nat, allowPaid: bool, i: nat, s: nat, t: nat)
    requires Fits(rounds, n) && i < n && StaysUp(rounds, n, allowPaid, i)
    requires Some(i) !in Choices(rounds, n, allowPaid, (i + 1) % n)
    requires s < t < |rounds|
    ensures
      var cs := Choices(rounds, n, allowPaid, (i + 1) % n);
      cs[s].Some? && cs[t].Some? && cs[s] != cs[t]
  {
    ChoicesMoveForward(rounds, n, allowPaid, (i + 1) % n, i);
  }
}
