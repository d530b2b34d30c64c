/**
 One provider's routing state: its limiter, its breaker, its latency average and its record of
 accurate and outlying answers.
 */
module Providers {
  import RateLimit
  import Breakers
  import Latency

  /** An outlier run of this length takes a provider out of rotation. */
  const OUTLIER_LIMIT := 5

  /** Accuracy bookkeeping: consecutive outliers, and totals for the score. */
  datatype Record = Record(score: real, outliers: nat, total: nat, accurate: nat)

  const FRESH := Record(0.0, 0, 0, 0)

  function Accurate(r: Record): Record {
    Record((r.accurate + 1) as real / (r.total + 1) as real, 0, r.total + 1, r.accurate + 1)
  }

  function Outlier(r: Record): Record {
    Record(r.accurate as real / (r.total + 1) as real, r.outliers + 1, r.total + 1, r.accurate)
  }

  datatype Provider = Provider(
    name: string, paid: bool, priority: int, cost: real, enabled: bool,
    limiter: RateLimit.Limiter, breaker: Breakers.Breaker, latency: Latency.Average, record: Record)

  /** The clock readings of one availability check, and of the snapshot that may follow it. */
  datatype Readings = Readings(breaker: int, limit: RateLimit.Tick, snap: RateLimit.Tick)

  /** The state an availability check leaves behind: it stops at the first test that fails. */
  function Probed(p: Provider, allowPaid: bool, t: Readings): Provider {
    if !p.enabled || (!allowPaid && p.paid) then p
    else if !Breakers.Allows(p.breaker, t.breaker) then p
    else p.(breaker := Breakers.Age(p.breaker, t.breaker), limiter := RateLimit.CheckReset(p.limiter, t.limit))
  }

  /** The answer of an availability check. */
  predicate Available(p: Provider, allowPaid: bool, t: Readings) {
    && p.enabled && (allowPaid || !p.paid)
    && Breakers.Allows(p.breaker, t.breaker)
    && RateLimit.CheckReset(p.limiter, t.limit).remaining > 0
    && p.record.outliers < OUTLIER_LIMIT
  }

  datatype Snapshot = Snapshot(accuracy: real, total: int, latency: real, ratio: real, cost: real)

  /** Taking a snapshot reads the limiter's ratio, which may start a new window. */
  function Snapped(p: Provider, t: Readings): Provider {
    p.(limiter := RateLimit.CheckReset(p.limiter, t.snap))
  }

  function SnapshotOf(p: Provider, t: Readings): Snapshot {
    Snapshot(p.record.score, p.record.total, p.latency.avg, RateLimit.Ratio(Snapped(p, t).limiter), p.cost)
  }

  function Spent(p: Provider, t: RateLimit.Tick): Provider {
    p.(limiter := RateLimit.Consume(p.limiter, t))
  }

  function Succeeded(p: Provider, ms: real): Provider {
    p.(breaker := Breakers.Success(p.breaker), latency := Latency.Record(p.latency, ms))
  }

  function Failed(p: Provider, now: int): Provider {
    p.(breaker := Breakers.Failure(p.breaker, now))
  }

  class ProviderState {
    const name: string
    const paid: bool
    const priority: int
    const cost: real
    const rateLimit: RateLimit.RateLimitTracker
    const circuitBreaker: Breakers.CircuitBreaker
    const avgLatency: Latency.LatencyTracker
    var enabled: bool
    var accuracyScore: real
    var outlierCount: nat
    var totalResponses: nat
    var accurateCount: nat

    /** The objects that make up this provider's state. */
    ghost function Repr(): set<object> {
      {this, rateLimit, circuitBreaker, avgLatency}
    }

    function Accuracy(): Record
      reads this
    {
      Record(accuracyScore, outlierCount, totalResponses, accurateCount)
    }

    function View(): Provider
      reads Repr()
    {
      Provider(name, paid, priority, cost, enabled,
               rateLimit.View(), circuitBreaker.View(), avgLatency.View(), Accuracy())
    }

    constructor (name: string, paid: bool, priority: int, cost: real, limit: int, window: int,
                 threshold: int, timeout: int, now: int)
      ensures View() == Provider(name, paid, priority, cost, true, RateLimit.New(limit, window, now),
                                 Breakers.New(threshold, timeout), Latency.EMPTY, FRESH)
      ensures fresh(Repr())
    {
      this.name, this.paid, this.priority, this.cost := name, paid, priority, cost;
      rateLimit := new RateLimit.RateLimitTracker(limit, window, now);
      circuitBreaker := new Breakers.CircuitBreaker(threshold, timeout);
      avgLatency := new Latency.LatencyTracker();
      enabled := true;
      accuracyScore, outlierCount, totalResponses, accurateCount := 0.0, 0, 0, 0;
    }

    method IsAvailable(allowPaid: bool, t: Readings) returns (ok: bool)
      modifies circuitBreaker, rateLimit
      ensures View() == Probed(old(View()), allowPaid, t)
      ensures ok == Available(old(View()), allowPaid, t)
      ensures ok <==> !Barred(old(View()), allowPaid, t)
    {
      if !enabled {
        return false;
      }
      if !allowPaid && paid {
        return false;
      }
      var allowed := circuitBreaker.AllowRequest(t.breaker);
      if !allowed {
        return false;
      }
      var exhausted := rateLimit.IsExhausted(t.limit);
      if exhausted {
        return false;
      }
      ok := outlierCount < OUTLIER_LIMIT;
    }

    method RecordAccurate()
      modifies this
      ensures View() == old(View()).(record := Accurate(old(Accuracy())))
    {
      totalResponses := totalResponses + 1;
      accurateCount := accurateCount + 1;
      outlierCount := 0;
      accuracyScore := accurateCount as real / totalResponses as real;
    }

    method RecordOutlier()
      modifies this
      ensures View() == old(View()).(record := Outlier(old(Accuracy())))
    {
      totalResponses := totalResponses + 1;
      outlierCount := outlierCount + 1;
      accuracyScore := accurateCount as real / totalResponses as real;
    }

    method TakeSnapshot(t: Readings) returns (s: Snapshot)
      modifies rateLimit
      ensures View() == Snapped(old(View()), t)
      ensures s == SnapshotOf(old(View()), t)
      ensures s.accuracy == accuracyScore && s.total == totalResponses && s.latency == avgLatency.avg && s.cost == cost
      ensures rateLimit.remaining
           == if t.snap.now > old(rateLimit.resetAt) then rateLimit.limit else old(rateLimit.remaining)
      ensures s.ratio
           == if rateLimit.limit == 0 then 0.0 else rateLimit.remaining as real / rateLimit.limit as real
    {
      var ratio := rateLimit.RemainingRatio(t.snap);
      s := Snapshot(accuracyScore, totalResponses, avgLatency.avg, ratio, cost);
    }
  }

  // ----- accuracy over any history of verdicts -----

  /** A verdict on one answer: true if it was accurate, false if it was an outlier. */
  function Judge(verdicts: seq<bool>): Record {
    if verdicts == [] then FRESH
    else
      var before := Judge(verdicts[..|verdicts| - 1]);
      if verdicts[|verdicts| - 1] then Accurate(before) else Outlier(before)
  }

  function CountTrue(verdicts: seq<bool>): nat {
    if verdicts == [] then 0
    else CountTrue(verdicts[..|verdicts| - 1]) + (if verdicts[|verdicts| - 1] then 1 else 0)
  }

  /** The outlier count is exactly the length of the unbroken run of outliers that ends the history. */
  lemma {:induction false} RecordFollowsVerdicts(verdicts: seq<bool>)
    ensures
      var r, n := Judge(verdicts), |verdicts|;
      && r.total == n && r.accurate == CountTrue(verdicts) <= r.total
      && r.outliers <= n
      && (forall i :: n - r.outliers <= i < n ==> !verdicts[i])
      && (r.outliers < n ==> verdicts[n - r.outliers - 1])
  {
    if verdicts != [] {
      RecordFollowsVerdicts(verdicts[..|verdicts| - 1]);
    }
  }

  /** The accuracy score is the share of accurate answers, a number between 0 and 1. */
  lemma ScoreIsAccuracy(verdicts: seq<bool>)
    ensures
      var r := Judge(verdicts);
      && r.score == (if verdicts == [] then 0.0 else CountTrue(verdicts) as real / |verdicts| as real)
      && 0.0 <= r.score <= 1.0
  {
    if verdicts != [] {
      RecordFollowsVerdicts(verdicts);
      RecordFollowsVerdicts(verdicts[..|verdicts| - 1]);
      ShareBound(CountTrue(verdicts) as real, |verdicts| as real);
    }
  }

  lemma ShareBound(x: real, y: real)
    requires 0.0 <= x <= y && y > 0.0
    ensures 0.0 <= x / y <= 1.0
  {
    var q := x / y;
    assert q * y == x;
    assert q > 1.0 ==> (q - 1.0) * y > 0.0;
    assert (q - 1.0) * y == q * y - y;
    assert q < 0.0 ==> (-q) * y > 0.0;
  }

  // ----- availability -----

  /** The reasons to pass a provider over, in its own fields. */
  ghost predicate Barred(p: Provider, allowPaid: bool, t: Readings) {
    || !p.enabled
    || (p.paid && !allowPaid)
    || p.record.outliers >= 5
    || (p.breaker.state.Open? && t.breaker - p.breaker.lastFailAt <= p.breaker.timeout)
    || (if t.limit.now > p.limiter.resetAt then p.limiter.limit else p.limiter.remaining) <= 0
  }

  /**
   What a check leaves behind, in its own fields: only a provider that is enabled and allowed has its
   breaker asked, which may become half-open, and only one that its breaker admits has its limiter asked,
   which may start a new window.
   */
  lemma ProbedInFull(p: Provider, allowPaid: bool, t: Readings)
    ensures
      var asked := p.enabled && (p.paid ==> allowPaid);
      var waited := t.breaker - p.breaker.lastFailAt > p.breaker.timeout;
      var admitted := asked && (p.breaker.state.Open? ==> waited);
      var p' := Probed(p, allowPaid, t);
      && p' == p.(breaker := p'.breaker, limiter := p'.limiter)
      && p'.breaker == (if admitted && p.breaker.state.Open? then p.breaker.(state := Breakers.HalfOpen) else p.breaker)
      && p'.limiter == (if admitted && t.limit.now > p.limiter.resetAt
                        then p.limiter.(remaining := p.limiter.limit, resetAt := t.limit.later + p.limiter.window)
                        else p.limiter)
  {
  }

  lemma AvailableUnlessBarred(p: Provider, allowPaid: bool, t: Readings)
    ensures Available(p, allowPaid, t) <==> !Barred(p, allowPaid, t)
  {
  }

  /** The provider would pass an availability check whose readings are all `now`. */
  predicate Ready(p: Provider, allowPaid: bool, now: int) {
    Available(p, allowPaid, Readings(now, RateLimit.Tick(now, now), RateLimit.Tick(now, now)))
  }

  predicate After(t: Readings, now: int) {
    now <= t.breaker && now <= t.limit.now && now <= t.snap.now
  }

  /**
   A ready provider stays ready until it is selected or reported on: the passing of time and the
   state changes made by probing it never take it out of rotation.
   */
  lemma ReadinessPersists(p: Provider, allowPaid: bool, now: int, t: Readings, later: int)
    requires p.limiter.Valid() && Ready(p, allowPaid, now) && After(t, now) && t.breaker <= later
    ensures Available(p, allowPaid, t)
    ensures Ready(p, allowPaid, later)
    ensures Ready(Probed(p, allowPaid, t), allowPaid, later) && Probed(p, allowPaid, t).limiter.Valid()
    ensures
      var snapped := Snapped(Probed(p, allowPaid, t), t);
      Ready(snapped, allowPaid, later) && snapped.limiter.Valid()
  {
  }
}
