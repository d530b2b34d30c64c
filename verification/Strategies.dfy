/**
 The three selection strategies. Each method is proved against a function (or, where the unstable
 sort leaves ties open, a relation) on the providers' values; the lemmas say what that picks.
 */
module Strategies {
  import opened Common
  import opened Providers
  import RateLimit
  import Breakers
  import Sorting

  /** Providers after a scan, and the index of the one picked. */
  datatype Outcome = Outcome(providers: seq<Provider>, chosen: Option<nat>)

  predicate Up(ps: seq<Provider>, ts: seq<Readings>, allowPaid: bool, i: nat)
    requires |ts| == |ps| && i < |ps|
  {
    Available(ps[i], allowPaid, ts[i])
  }

  // ----- the objects a scan works on -----

  ghost function Footprint(ps: seq<ProviderState>): set<object> {
    set i, o | 0 <= i < |ps| && o in ps[i].Repr() :: o
  }

  ghost function Limiters(ps: seq<ProviderState>): set<RateLimit.RateLimitTracker> {
    set p | p in ps :: p.rateLimit
  }

  ghost function Circuits(ps: seq<ProviderState>): set<Breakers.CircuitBreaker> {
    set p | p in ps :: p.circuitBreaker
  }

  ghost predicate Apart(ps: seq<ProviderState>) {
    forall i, j :: 0 <= i < j < |ps| ==> ps[i].Repr() !! ps[j].Repr()
  }

  ghost function Views(ps: seq<ProviderState>): seq<Provider>
    reads Footprint(ps)
  {
    seq(|ps|, i requires 0 <= i < |ps| reads Footprint(ps) => ps[i].View())
  }

  method CheckAt(ps: seq<ProviderState>, i: nat, allowPaid: bool, t: Readings) returns (ok: bool)
    requires Apart(ps) && i < |ps|
    modifies Limiters(ps), Circuits(ps)
    ensures Views(ps) == old(Views(ps))[i := Probed(old(Views(ps))[i], allowPaid, t)]
    ensures ok == Available(old(Views(ps))[i], allowPaid, t)
  {
    ok := ps[i].IsAvailable(allowPaid, t);
    assert forall j :: 0 <= j < |ps| && j != i ==> ps[j].Repr() !! ps[i].Repr();
  }

  method SnapshotAt(ps: seq<ProviderState>, i: nat, t: Readings) returns (s: Snapshot)
    requires Apart(ps) && i < |ps|
    modifies Limiters(ps)
    ensures Views(ps) == old(Views(ps))[i := Snapped(old(Views(ps))[i], t)]
    ensures s == SnapshotOf(old(Views(ps))[i], t)
  {
    s := ps[i].TakeSnapshot(t);
    assert forall j :: 0 <= j < |ps| && j != i ==> ps[j].Repr() !! ps[i].Repr();
  }

  // ----- round robin -----

  /** The k-th position visited from `start` on a ring of n. */
  function Position(start: nat, k: nat, n: nat): (i: nat)
    requires k < n
    ensures i == if start % n + k < n then start % n + k else start % n + k - n
    ensures i < n
  {
    var q, r := start / n, start % n;
    assert start == q * n + r;
    assert (q + 1) * n == q * n + n;
    if r + k < n then
      QuotientUnique(start + k, q, r + k, n);
      (start + k) % n
    else
      QuotientUnique(start + k, q + 1, r + k - n, n);
      (start + k) % n
  }

  function RingScan(ps: seq<Provider>, ts: seq<Readings>, allowPaid: bool, start: nat, k: nat): Outcome
    requires |ts| == |ps| && k <= |ps|
    decreases |ps| - k
  {
    if k == |ps| then Outcome(ps, None)
    else
      var i := Position(start, k, |ps|);
      var ps' := ps[i := Probed(ps[i], allowPaid, ts[i])];
      if Available(ps[i], allowPaid, ts[i]) then Outcome(ps', Some(i))
      else RingScan(ps', ts, allowPaid, start, k + 1)
  }

  class RoundRobinStrategy {
    var index: nat
    const allowPaid: bool

    constructor (allowPaid: bool)
      ensures index == 0 && this.allowPaid == allowPaid
    {
      this.allowPaid := allowPaid;
      index := 0;
    }

    /** The scanning loop: probes the ring from `index` until a provider is available. */
    method Scan(ps: seq<ProviderState>, ts: seq<Readings>) returns (chosen: Option<nat>)
      requires Apart(ps) && |ts| == |ps|
      modifies Limiters(ps), Circuits(ps)
      ensures Outcome(Views(ps), chosen) == RingScan(old(Views(ps)), ts, allowPaid, index, 0)
      ensures chosen.Some? ==> chosen.value < |ps|
    {
      ghost var all, now := RingScan(Views(ps), ts, allowPaid, index, 0), Views(ps);
      for k := 0 to |ps|
        invariant now == Views(ps) && RingScan(now, ts, allowPaid, index, k) == all
      {
        var i := Position(index, k, |ps|);
        var ok := CheckAt(ps, i, allowPaid, ts[i]);
        now := now[i := Probed(now[i], allowPaid, ts[i])];
        if ok {
          return Some(i);
        }
      }
      return None;
    }

    method Select(ps: seq<ProviderState>, ts: seq<Readings>) returns (chosen: Option<nat>)
      requires Apart(ps) && |ts| == |ps|
      modifies this, Limiters(ps), Circuits(ps)
      ensures Outcome(Views(ps), chosen) == RingScan(old(Views(ps)), ts, allowPaid, old(index), 0)
      ensures chosen.Some? ==> chosen.value < |ps|
      ensures index == NextIndex(old(index), chosen, |ps|)
    {
      chosen := Scan(ps, ts);
      if chosen.Some? {
        index := (chosen.value + 1) % |ps|;
      }
    }
  }

  /** The ring moves on to the position after the chosen one, and stays put when none was found. */
  function NextIndex(index: nat, chosen: Option<nat>, n: nat): nat {
    if chosen.Some? && n > 0 then (chosen.value + 1) % n else index
  }

  /** How far ahead of `start` the position i lies on a ring of n. */
  function Distance(start: nat, i: nat, n: nat): (d: nat)
    requires i < n
    ensures d < n && Position(start, d, n) == i
  {
    var r := start % n;
    if i >= r then i - r else i - r + n
  }

  /** What a ring scan picks and what it touches, position by position. */
  ghost predicate RingMeaning(ps: seq<Provider>, ts: seq<Readings>, allowPaid: bool, start: nat, k: nat, r: Outcome)
    requires |ts| == |ps|
  {
    && |r.providers| == |ps|
    && (r.chosen.Some? ==>
          r.chosen.value < |ps| && Up(ps, ts, allowPaid, r.chosen.value)
          && Distance(start, r.chosen.value, |ps|) >= k)
    && (forall i: nat :: i < |ps| ==>
          var d := Distance(start, i, |ps|);
          var visited := k <= d && (r.chosen.Some? ==> d <= Distance(start, r.chosen.value, |ps|));
          && r.providers[i] == (if visited then Probed(ps[i], allowPaid, ts[i]) else ps[i])
          && (visited && r.chosen != Some(i) ==> !Up(ps, ts, allowPaid, i)))
  }

  /**
   Round robin is sound and complete: it picks the first available provider at or after `start` on
   the ring, probes exactly those up to it, and picks none only if none is available.
   */
  lemma {:induction false} RingScanPicksFirst(ps: seq<Provider>, ts: seq<Readings>, allowPaid: bool, start: nat, k: nat)
    requires |ts| == |ps| && k <= |ps|
    ensures RingMeaning(ps, ts, allowPaid, start, k, RingScan(ps, ts, allowPaid, start, k))
    decreases |ps| - k
  {
    if k < |ps| {
      var i := Position(start, k, |ps|);
      var ps' := ps[i := Probed(ps[i], allowPaid, ts[i])];
      assert Distance(start, i, |ps|) == k;
      if !Available(ps[i], allowPaid, ts[i]) {
        RingScanPicksFirst(ps', ts, allowPaid, start, k + 1);
      }
      forall j: nat | j < |ps| && j != i ensures Distance(start, j, |ps|) != k {
        assert Position(start, Distance(start, j, |ps|), |ps|) == j;
      }
    }
  }

  // ----- smart -----

  datatype Weights = Weights(rate: real, latency: real, cost: real)

  function Speed(latency: real): real {
    if latency > 0.0 then 1.0 / latency else 1.0
  }

  function BaseScore(w: Weights, s: Snapshot): real {
    w.rate * s.ratio + w.latency * Speed(s.latency) + w.cost * -s.cost
  }

  function Accuracy(s: Snapshot): real {
    if s.total == 0 then 1.0 else s.accuracy
  }

  function Score(w: Weights, s: Snapshot): real {
    BaseScore(w, s) * Accuracy(s)
  }

  lemma ScaleUp(k: real, x: real, y: real)
    requires k >= 0.0 && x <= y
    ensures k * x <= k * y
  {
    assert k * (y - x) >= 0.0;
    assert k * (y - x) == k * y - k * x;
  }

  lemma FasterScoresMore(quick: real, slow: real)
    requires 0.0 < quick <= slow
    ensures 0.0 < Speed(slow) <= Speed(quick)
  {
    var x, y := 1.0 / quick, 1.0 / slow;
    assert x * quick == 1.0 == y * slow;
    assert y > 0.0 by { assert y <= 0.0 ==> -y * slow >= 0.0; }
    ScaleUp(y, quick, slow);
    assert x < y ==> (y - x) * quick > 0.0;
    assert (y - x) * quick == y * quick - x * quick;
  }

  /**
   With weights that are not negative, a provider that is equally accurate and no worse in tokens left,
   measured latency and cost never scores less.
   */
  lemma BetterScoresMore(w: Weights, s: Snapshot, better: Snapshot)
    requires w.rate >= 0.0 && w.latency >= 0.0 && w.cost >= 0.0
    requires better.ratio >= s.ratio && 0.0 < better.latency <= s.latency && better.cost <= s.cost
    requires Accuracy(better) == Accuracy(s) >= 0.0
    ensures Score(w, better) >= Score(w, s)
  {
    assert BaseScore(w, s) <= BaseScore(w, better) by {
      ScaleUp(w.rate, s.ratio, better.ratio);
      FasterScoresMore(better.latency, s.latency);
      ScaleUp(w.latency, Speed(s.latency), Speed(better.latency));
      ScaleUp(w.cost, better.cost, s.cost);
    }
    ScaleUp(Accuracy(s), BaseScore(w, s), BaseScore(w, better));
  }

  /**
   Accuracy does not always help. Once a provider has been judged, more accuracy raises its score, or
   leaves it, exactly when its base score is not negative; a cost that outweighs the rest turns it round.
   */
  lemma AccuracyHelpsIff(w: Weights, s: Snapshot, accuracy: real)
    requires s.total > 0 && accuracy > s.accuracy
    ensures Score(w, s.(accuracy := accuracy)) >= Score(w, s) <==> BaseScore(w, s) >= 0.0
  {
    var base, d := BaseScore(w, s), accuracy - s.accuracy;
    assert base * accuracy - base * s.accuracy == base * d;
    assert base >= 0.0 ==> base * d >= 0.0;
    assert base < 0.0 ==> -base * d > 0.0;
  }

  /** The score a provider gets when a smart scan reaches it. */
  function ScoreOf(p: Provider, w: Weights, allowPaid: bool, t: Readings): real {
    Score(w, SnapshotOf(Probed(p, allowPaid, t), t))
  }

  /** What a smart scan leaves of a provider: probed, and snapped too if it was available. */
  function Weighed(p: Provider, allowPaid: bool, t: Readings): Provider {
    if Available(p, allowPaid, t) then Snapped(Probed(p, allowPaid, t), t) else Probed(p, allowPaid, t)
  }

  class SmartStrategy {
    const weights: Weights
    const allowPaid: bool

    constructor (weights: Weights, allowPaid: bool)
      ensures this.weights == weights && this.allowPaid == allowPaid
    {
      this.weights := weights;
      this.allowPaid := allowPaid;
    }

    method Select(ps: seq<ProviderState>, ts: seq<Readings>) returns (chosen: Option<nat>)
      requires Apart(ps) && |ts| == |ps|
      modifies Limiters(ps), Circuits(ps)
      ensures SmartOutcome(old(Views(ps)), ts, weights, allowPaid, |ps|, Outcome(Views(ps), chosen))
    {
      ghost var vs, now := Views(ps), Views(ps);
      var bestScore := 0.0;   // read only once a best provider is known
      chosen := None;
      for i := 0 to |ps|
        invariant now == Views(ps)
        invariant SmartOutcome(vs, ts, weights, allowPaid, i, Outcome(now, chosen))
        invariant chosen.Some? ==>
                    bestScore == ScoreOf(vs[chosen.value], weights, allowPaid, ts[chosen.value])
      {
        SmartStep(vs, ts, weights, allowPaid, i, Outcome(now, chosen));
        var ok := CheckAt(ps, i, allowPaid, ts[i]);
        now := now[i := Probed(now[i], allowPaid, ts[i])];
        if ok {
          var snap := SnapshotAt(ps, i, ts[i]);
          now := now[i := Snapped(now[i], ts[i])];
          var score := Score(weights, snap);
          if chosen.None? || score > bestScore {
            bestScore, chosen := score, Some(i);
          }
        }
      }
    }
  }

  /**
   After the first n providers: each is weighed, the rest untouched; none is chosen only if none was
   available; the chosen one is the first with the greatest score among those available.
   */
  ghost predicate SmartOutcome(vs: seq<Provider>, ts: seq<Readings>, w: Weights, allowPaid: bool, n: nat, r: Outcome)
    requires |ts| == |vs|
  {
    && n <= |r.providers| == |vs|
    && (forall i: nat :: i < |vs| ==>
          r.providers[i] == if i < n then Weighed(vs[i], allowPaid, ts[i]) else vs[i])
    && (r.chosen.None? ==> forall i: nat :: i < n ==> !Up(vs, ts, allowPaid, i))
    && (r.chosen.Some? ==>
          var c := r.chosen.value;
          && c < n && Up(vs, ts, allowPaid, c)
          && forall i: nat :: i < n && Up(vs, ts, allowPaid, i) ==>
               var x, best := ScoreOf(vs[i], w, allowPaid, ts[i]), ScoreOf(vs[c], w, allowPaid, ts[c]);
               x <= best && (i < c ==> x < best))
  }

  lemma SmartStep(vs: seq<Provider>, ts: seq<Readings>, w: Weights, allowPaid: bool, n: nat, r: Outcome)
    requires |ts| == |vs| && n < |vs| && SmartOutcome(vs, ts, w, allowPaid, n, r)
    ensures
      var now := r.providers[n := Weighed(vs[n], allowPaid, ts[n])];
      var better := Up(vs, ts, allowPaid, n) &&
        (r.chosen.Some? ==>
          ScoreOf(vs[n], w, allowPaid, ts[n]) > ScoreOf(vs[r.chosen.value], w, allowPaid, ts[r.chosen.value]));
      && r.providers[n] == vs[n]
      && SmartOutcome(vs, ts, w, allowPaid, n + 1, Outcome(now, if better then Some(n) else r.chosen))
  {
  }

  /** When only cost counts, the provider that is right nine times in ten scores less than the one that is never. */
  lemma AccuracyCanHurt(s: Snapshot)
    requires s.total > 0 && s.accuracy == 0.0 && s.cost == 1.0
    ensures Score(Weights(0.0, 0.0, 1.0), s.(accuracy := 0.9)) < Score(Weights(0.0, 0.0, 1.0), s)
  {
    assert BaseScore(Weights(0.0, 0.0, 1.0), s) == -1.0;
  }

  /**
   What a weighed provider is worth, from its own fields: the weighted sum of the share of tokens left,
   the inverse of the average latency (1 if none was measured) and the negated cost, times the share of
   accurate answers (1 if it was never judged).
   */
  ghost function Worth(w: Weights, p: Provider): real {
    (w.rate * (if p.limiter.limit == 0 then 0.0 else p.limiter.remaining as real / p.limiter.limit as real)
     + w.latency * (if p.latency.avg > 0.0 then 1.0 / p.latency.avg else 1.0)
     + w.cost * -p.cost)
    * (if p.record.total == 0 then 1.0 else p.record.score)
  }

  /** The smart strategy takes a provider worth the most, of those worth the same the first. */
  lemma SmartTakesTheMostWorth(vs: seq<Provider>, ts: seq<Readings>, w: Weights, allowPaid: bool, r: Outcome, i: nat)
    requires |ts| == |vs| && SmartOutcome(vs, ts, w, allowPaid, |vs|, r) && r.chosen.Some?
    requires i < |vs| && Up(vs, ts, allowPaid, i)
    ensures r.chosen.value < |vs|
    ensures Worth(w, r.providers[i]) <= Worth(w, r.providers[r.chosen.value])
    ensures i < r.chosen.value ==> Worth(w, r.providers[i]) < Worth(w, r.providers[r.chosen.value])
    ensures
      var p, p' := vs[i], r.providers[i];
      p'.latency == p.latency && p'.cost == p.cost && p'.record == p.record && p'.limiter.limit == p.limiter.limit
  {
    WorthIsScore(vs[i], w, allowPaid, ts[i]);
    WorthIsScore(vs[r.chosen.value], w, allowPaid, ts[r.chosen.value]);
  }

  lemma WorthIsScore(p: Provider, w: Weights, allowPaid: bool, t: Readings)
    requires Available(p, allowPaid, t)
    ensures Worth(w, Weighed(p, allowPaid, t)) == ScoreOf(p, w, allowPaid, t)
  {
  }

  /** Two weighed providers that were never judged: p is no worse than q in any respect. */
  ghost predicate NoWorse(p: Provider, q: Provider) {
    && p.record.total == 0 && q.record.total == 0
    && p.limiter.limit == q.limiter.limit > 0 && p.limiter.remaining >= q.limiter.remaining
    && (p.latency.avg == q.latency.avg || 0.0 < p.latency.avg < q.latency.avg) && p.cost <= q.cost
  }

  /** And it is better in one that has weight. */
  ghost predicate Better(w: Weights, p: Provider, q: Provider) {
    || (w.rate > 0.0 && p.limiter.remaining > q.limiter.remaining)
    || (w.latency > 0.0 && p.latency.avg < q.latency.avg)
    || (w.cost > 0.0 && p.cost < q.cost)
  }

  lemma LessDivides(x: real, y: real, u: real)
    requires u > 0.0
    ensures x <= y ==> x / u <= y / u
    ensures x < y ==> x / u < y / u
  {
    var p, q := x / u, y / u;
    assert p * u == x && q * u == y;
    assert (q - p) * u == y - x;
    assert q < p ==> (p - q) * u > 0.0;
  }

  lemma InverseGrows(x: real, y: real)
    requires 0.0 < x < y
    ensures 1.0 / y < 1.0 / x
  {
    var p, q := 1.0 / x, 1.0 / y;
    assert p * x == 1.0 == q * y;
    assert p > 0.0 by { assert p <= 0.0 ==> -p * x >= 0.0; }
    assert p * (y - x) > 0.0;
    assert p * y - q * y == (p - q) * y;
    assert p <= q ==> (q - p) * y >= 0.0;
  }

  lemma Weighted(w: real, x: real, y: real)
    requires w >= 0.0
    ensures x <= y ==> w * x <= w * y
    ensures x < y && w > 0.0 ==> w * x < w * y
  {
    assert w * y - w * x == w * (y - x);
    assert x <= y ==> w * (y - x) >= 0.0;
    assert x < y && w > 0.0 ==> w * (y - x) > 0.0;
  }

  lemma BetterIsWorthMore(w: Weights, p: Provider, q: Provider)
    requires w.rate >= 0.0 && w.latency >= 0.0 && w.cost >= 0.0 && NoWorse(p, q) && Better(w, p, q)
    ensures Worth(w, p) > Worth(w, q)
  {
    var n := p.limiter.limit as real;
    var sp, sq := p.limiter.remaining as real / n, q.limiter.remaining as real / n;
    var lp := if p.latency.avg > 0.0 then 1.0 / p.latency.avg else 1.0;
    var lq := if q.latency.avg > 0.0 then 1.0 / q.latency.avg else 1.0;
    LessDivides(q.limiter.remaining as real, p.limiter.remaining as real, n);
    if p.latency.avg < q.latency.avg {
      InverseGrows(p.latency.avg, q.latency.avg);
    }
    Weighted(w.rate, sq, sp);
    Weighted(w.latency, lq, lp);
    Weighted(w.cost, -q.cost, -p.cost);
    var xp, yp, zp := w.rate * sp, w.latency * lp, w.cost * -p.cost;
    var xq, yq, zq := w.rate * sq, w.latency * lq, w.cost * -q.cost;
    assert Worth(w, p) == xp + yp + zp && Worth(w, q) == xq + yq + zq;
    assert xp >= xq && yp >= yq && zp >= zq;
    assert xp > xq || yp > yq || zp > zq;
  }

  /**
   So among available providers that were never judged, the strategy never takes one over another that
   is no worse in any respect and better in one that counts: tokens left, latency or cost.
   */
  lemma BetterIsNotPassedOver(vs: seq<Provider>, ts: seq<Readings>, w: Weights, allowPaid: bool, r: Outcome,
                              better: nat, worse: nat)
    requires |ts| == |vs| && SmartOutcome(vs, ts, w, allowPaid, |vs|, r)
    requires w.rate >= 0.0 && w.latency >= 0.0 && w.cost >= 0.0
    requires better < |vs| && worse < |vs| && Up(vs, ts, allowPaid, better)
    requires NoWorse(r.providers[better], r.providers[worse]) && Better(w, r.providers[better], r.providers[worse])
    ensures r.chosen != Some(worse)
  {
    if r.chosen == Some(worse) {
      SmartTakesTheMostWorth(vs, ts, w, allowPaid, r, better);
      BetterIsWorthMore(w, r.providers[better], r.providers[worse]);
    }
  }

  // ----- priority -----

  function Upto(n: nat): seq<nat> {
    if n == 0 then [] else Upto(n - 1) + [n - 1]
  }

  lemma {:induction false} UptoCounts(n: nat)
    ensures |Upto(n)| == n
    ensures forall x: nat :: multiset(Upto(n))[x] == if x < n then 1 else 0
  {
    if n > 0 {
      UptoCounts(n - 1);
    }
  }

  lemma EachOnce(sorted: seq<nat>, n: nat)
    requires multiset(sorted) == multiset(Upto(n))
    ensures forall k :: 0 <= k < |sorted| ==> sorted[k] < n && sorted[k] !in sorted[..k]
    ensures forall i: nat :: i < n ==> i in sorted
  {
    UptoCounts(n);
    forall i: nat | i < n ensures i in sorted {
      assert i in multiset(sorted);
    }
    forall k | 0 <= k < |sorted| ensures sorted[k] < n && sorted[k] !in sorted[..k] {
      assert sorted == sorted[..k] + sorted[k..];
      assert sorted[k] in sorted[k..];
      assert multiset(sorted)[sorted[k]] == 1;
    }
  }

  /** Every position of the list once, smaller priority values first. */
  ghost predicate PriorityOrder(vs: seq<Provider>, sorted: seq<nat>) {
    && (forall k :: 0 <= k < |sorted| ==> sorted[k] < |vs| && sorted[k] !in sorted[..k])
    && (forall i: nat :: i < |vs| ==> i in sorted)
    && (forall j, k :: 0 <= j < k < |sorted| ==> vs[sorted[j]].priority <= vs[sorted[k]].priority)
  }

  /** The library sort of a copy of the list, as positions; ties come out in no particular order. */
  method ByPriority(ps: seq<ProviderState>) returns (sorted: seq<nat>)
    ensures PriorityOrder(Views(ps), sorted)
  {
    UptoCounts(|ps|);
    EachOnce(Upto(|ps|), |ps|);
    var leq := (i: nat, j: nat) => i < |ps| && j < |ps| && ps[i].priority <= ps[j].priority;
    sorted := Sorting.SortBy(Upto(|ps|), leq);
    EachOnce(sorted, |ps|);
    forall j, k | 0 <= j < k < |sorted| ensures ps[sorted[j]].priority <= ps[sorted[k]].priority {
      assert leq(sorted[j], sorted[k]);
    }
  }

  lemma ScannedUntil(vs: seq<Provider>, sorted: seq<nat>, k: nat)
    requires PriorityOrder(vs, sorted) && k < |sorted|
    ensures forall i: nat :: i < |vs| && vs[i].priority < vs[sorted[k]].priority ==> i in sorted[..k]
    ensures forall i: nat :: i < |vs| && vs[i].priority > vs[sorted[k]].priority ==> i !in sorted[..k]
  {
    forall i: nat | i < |vs| && vs[i].priority < vs[sorted[k]].priority ensures i in sorted[..k] {
      assert i in sorted;
      var m :| 0 <= m < |sorted| && sorted[m] == i;
      assert m < k;
    }
  }

  class PriorityStrategy {
    const allowPaid: bool

    constructor (allowPaid: bool)
      ensures this.allowPaid == allowPaid
    {
      this.allowPaid := allowPaid;
    }

    method Select(ps: seq<ProviderState>, ts: seq<Readings>) returns (chosen: Option<nat>)
      requires Apart(ps) && |ts| == |ps|
      modifies Limiters(ps), Circuits(ps)
      ensures PriorityOutcome(old(Views(ps)), ts, allowPaid, Outcome(Views(ps), chosen))
    {
      ghost var vs, now := Views(ps), Views(ps);
      var sorted := ByPriority(ps);
      for k := 0 to |sorted|
        invariant now == Views(ps) && PriorityScan(vs, ts, allowPaid, sorted, k, now)
      {
        var i := sorted[k];
        PriorityStep(vs, ts, allowPaid, sorted, k, now);
        var ok := CheckAt(ps, i, allowPaid, ts[i]);
        now := now[i := Probed(now[i], allowPaid, ts[i])];
        if ok {
          return Some(i);
        }
      }
      PriorityNone(vs, ts, allowPaid, sorted, now);
      return None;
    }
  }

  /** The first k positions in priority order have been probed in vain, the others not yet. */
  ghost predicate PriorityScan(vs: seq<Provider>, ts: seq<Readings>, allowPaid: bool,
                               sorted: seq<nat>, k: nat, now: seq<Provider>)
    requires |ts| == |vs| && k <= |sorted|
  {
    && PriorityOrder(vs, sorted) && |now| == |vs|
    && forall i: nat :: i < |vs| ==>
         if i in sorted[..k] then now[i] == Probed(vs[i], allowPaid, ts[i]) && !Up(vs, ts, allowPaid, i)
         else now[i] == vs[i]
  }

  lemma PriorityStep(vs: seq<Provider>, ts: seq<Readings>, allowPaid: bool,
                     sorted: seq<nat>, k: nat, now: seq<Provider>)
    requires |ts| == |vs| && k < |sorted| && PriorityScan(vs, ts, allowPaid, sorted, k, now)
    ensures
      var i := sorted[k];
      && i < |vs| && now[i] == vs[i]
      && var now' := now[i := Probed(now[i], allowPaid, ts[i])];
         if Up(vs, ts, allowPaid, i) then PriorityOutcome(vs, ts, allowPaid, Outcome(now', Some(i)))
         else PriorityScan(vs, ts, allowPaid, sorted, k + 1, now')
  {
    var c := sorted[k];
    ScannedUntil(vs, sorted, k);
    assert sorted[..k + 1] == sorted[..k] + [c];
  }

  lemma PriorityNone(vs: seq<Provider>, ts: seq<Readings>, allowPaid: bool, sorted: seq<nat>, now: seq<Provider>)
    requires |ts| == |vs| && PriorityScan(vs, ts, allowPaid, sorted, |sorted|, now)
    ensures PriorityOutcome(vs, ts, allowPaid, Outcome(now, None))
  {
    assert sorted[..|sorted|] == sorted;
  }

  /**
   None is chosen only if none was available; otherwise the chosen one is available and no available
   provider has a smaller priority value. Every provider of smaller priority value has been probed,
   none of greater value has; those that tie with the chosen one may or may not have been.
   */
  ghost predicate PriorityOutcome(vs: seq<Provider>, ts: seq<Readings>, allowPaid: bool, r: Outcome)
    requires |ts| == |vs|
  {
    && |r.providers| == |vs|
    && (r.chosen.None? ==> forall i: nat :: i < |vs| ==>
          !Up(vs, ts, allowPaid, i) && r.providers[i] == Probed(vs[i], allowPaid, ts[i]))
    && (r.chosen.Some? ==>
          var c := r.chosen.value;
          && c < |vs| && Up(vs, ts, allowPaid, c) && r.providers[c] == Probed(vs[c], allowPaid, ts[c])
          && forall i: nat :: i < |vs| && i != c ==>
               var probed := r.providers[i] == Probed(vs[i], allowPaid, ts[i]) && !Up(vs, ts, allowPaid, i);
               && (vs[i].priority < vs[c].priority ==> probed)
               && (vs[i].priority == vs[c].priority ==> probed || r.providers[i] == vs[i])
               && (vs[i].priority > vs[c].priority ==> r.providers[i] == vs[i]))
  }
}
