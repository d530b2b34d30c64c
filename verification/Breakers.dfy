/**
 The three-state circuit breaker, and the proof that its state machine is a cache of a stateless
 formula over the history of reports.
 */
module Breakers {
  import opened Common

  datatype State = Closed | Open | HalfOpen

  datatype Breaker = Breaker(state: State, failCount: int, threshold: int, timeout: int, lastFailAt: int)

  /** `lastFailAt` starts as the zero time and is not read before the first failure sets it. */
  function New(threshold: int, timeout: int): Breaker {
    Breaker(Closed, 0, threshold, timeout, 0)
  }

  /** What State does, and AllowRequest too: an open breaker whose timeout has passed becomes half-open. */
  function Age(b: Breaker, now: int): Breaker {
    if b.state.Open? && now - b.lastFailAt > b.timeout then b.(state := HalfOpen) else b
  }

  predicate Allows(b: Breaker, now: int) {
    !Age(b, now).state.Open?
  }

  function Success(b: Breaker): Breaker {
    b.(failCount := 0, state := Closed)
  }

  function Failure(b: Breaker, now: int): Breaker {
    b.(failCount := b.failCount + 1, lastFailAt := now,
       state := if b.state.HalfOpen? || b.failCount + 1 >= b.threshold then Open else b.state)
  }

  class CircuitBreaker {
    var state: State
    var failCount: int
    const failureThreshold: int
    const recoveryTimeout: int
    var lastFailAt: int

    function View(): Breaker
      reads this
    {
      Breaker(state, failCount, failureThreshold, recoveryTimeout, lastFailAt)
    }

    constructor (failureThreshold: int, recoveryTimeout: int)
      ensures View() == New(failureThreshold, recoveryTimeout)
    {
      this.state := Closed;
      this.failCount := 0;
      this.failureThreshold := failureThreshold;
      this.recoveryTimeout := recoveryTimeout;
      this.lastFailAt := 0;
    }

    method AllowRequest(now: int) returns (ok: bool)
      modifies this
      ensures View() == Age(old(View()), now)
      ensures ok == Allows(old(View()), now)
      ensures ok <==> !(old(state).Open? && now - old(lastFailAt) <= recoveryTimeout)
      ensures state == if ok && old(state).Open? then HalfOpen else old(state)
    {
      match state
      case Closed => return true;
      case Open =>
        if now - lastFailAt > recoveryTimeout {
          state := HalfOpen;
          return true;
        }
        return false;
      case HalfOpen => return true;
    }

    method RecordSuccess()
      modifies this
      ensures View() == Success(old(View()))
      ensures state.Closed? && failCount == 0 && lastFailAt == old(lastFailAt)
    {
      failCount := 0;
      state := Closed;
    }

    method RecordFailure(now: int)
      modifies this
      ensures View() == Failure(old(View()), now)
      ensures failCount == old(failCount) + 1 && lastFailAt == now
      ensures state == if old(state).HalfOpen? || failCount >= failureThreshold then Open else old(state)
    {
      failCount := failCount + 1;
      lastFailAt := now;
      if state == HalfOpen || failCount >= failureThreshold {
        state := Open;
      }
    }

    method CurrentState(now: int) returns (s: State)
      modifies this
      ensures View() == Age(old(View()), now)
      ensures s == state
      ensures state == if old(state).Open? && now - lastFailAt > recoveryTimeout then HalfOpen else old(state)
    {
      if state == Open && now - lastFailAt > recoveryTimeout {
        state := HalfOpen;
      }
      s := state;
    }
  }

  // ----- runs -----

  /** One locked step: a report, or a probe (State or AllowRequest). */
  datatype Op = Succeeded(at: int) | Failed(at: int) | Probed(at: int)

  function Apply(b: Breaker, op: Op): Breaker {
    match op
    case Succeeded(_) => Success(b)
    case Failed(at) => Failure(b, at)
    case Probed(at) => Age(b, at)
  }

  /** The state after the run `ops`, latest step last. */
  function Exec(b: Breaker, ops: seq<Op>): Breaker {
    if ops == [] then b else Apply(Exec(b, ops[..|ops| - 1]), ops[|ops| - 1])
  }

  predicate Clocked(ops: seq<Op>, until: int) {
    && (forall i, j :: 0 <= i < j < |ops| ==> ops[i].at <= ops[j].at)
    && (forall i :: 0 <= i < |ops| ==> ops[i].at <= until)
  }

  /** The run without its probes: the history of reports. */
  function Reports(ops: seq<Op>): seq<Op> {
    if ops == [] then []
    else
      var rest := Reports(ops[..|ops| - 1]);
      if ops[|ops| - 1].Probed? then rest else rest + [ops[|ops| - 1]]
  }

  /** Length of the unbroken run of failures that ends a history of reports. */
  function TrailingFailures(h: seq<Op>): nat {
    if h == [] || !h[|h| - 1].Failed? then 0 else 1 + TrailingFailures(h[..|h| - 1])
  }

  /** The stateless rule: too many failures in a row, the last of them too recent. */
  predicate Admits(h: seq<Op>, threshold: int, timeout: int, now: int) {
    || TrailingFailures(h) < Max(threshold, 1)
    || now - h[|h| - 1].at > timeout
  }

  /** What the machine's fields are after a run, in terms of the history. */
  lemma {:induction false} FieldsFollowHistory(threshold: int, timeout: int, ops: seq<Op>, until: int)
    requires Clocked(ops, until)
    ensures
      var b, h := Exec(New(threshold, timeout), ops), Reports(ops);
      && b.threshold == threshold && b.timeout == timeout
      && b.failCount == TrailingFailures(h)
      && (b.failCount > 0 ==> b.lastFailAt == h[|h| - 1].at)
      && (b.state.Closed? <==> TrailingFailures(h) < Max(threshold, 1))
      && (b.state.HalfOpen? ==> until - b.lastFailAt > timeout)
  {
    if ops != [] {
      var n := |ops| - 1;
      FieldsFollowHistory(threshold, timeout, ops[..n], ops[n].at);
      var h := Reports(ops[..n]);
      assert (h + [ops[n]])[..|h|] == h;
    }
  }

  /**
   The breaker refines its history: after any run with a clock that never goes back, a request at
   `now` is allowed exactly when the formula over the reports says so, and the breaker has left
   Closed exactly when the trailing run of failures has reached the threshold. A threshold below 1
   acts as 1.
   */
  lemma {:induction false} RefinesHistory(threshold: int, timeout: int, ops: seq<Op>, now: int)
    requires Clocked(ops, now)
    ensures
      var b, h := Exec(New(threshold, timeout), ops), Reports(ops);
      && (Allows(b, now) <==> Admits(h, threshold, timeout, now))
      && (Age(b, now).state.Closed? <==> TrailingFailures(h) < Max(threshold, 1))
  {
    FieldsFollowHistory(threshold, timeout, ops, now);
  }

  /** Extra probes never change an answer: runs with the same reports answer alike from then on. */
  lemma {:induction false} ProbesAreInvisible(threshold: int, timeout: int, ops: seq<Op>, ops': seq<Op>, now: int)
    requires Clocked(ops, now) && Clocked(ops', now) && Reports(ops) == Reports(ops')
    ensures
      var b, b' := Exec(New(threshold, timeout), ops), Exec(New(threshold, timeout), ops');
      Allows(b, now) == Allows(b', now) && Age(b, now).state == Age(b', now).state
  {
    RefinesHistory(threshold, timeout, ops, now);
    RefinesHistory(threshold, timeout, ops', now);
  }

  /** Time alone never closes the door: what is allowed now, probed or not, is allowed later. */
  lemma AllowancePersists(b: Breaker, now: int, later: int)
    requires now <= later && Allows(b, now)
    ensures Allows(b, later) && Allows(Age(b, now), later)
  {
  }

  // ----- a half-open breaker -----

  /** If the breaker is open, its timeout has passed. */
  predicate Recovered(b: Breaker, now: int) {
    b.state.Open? ==> now - b.lastFailAt > b.timeout
  }

  function ProbesAt(times: seq<int>): seq<Op> {
    seq(|times|, i requires 0 <= i < |times| => Probed(times[i]))
  }

  /**
   Half-open is no single probe: once an open breaker's timeout has passed, every request is let
   through, however many come, until the next report.
   */
  lemma {:induction false} HalfOpenAdmitsAll(b: Breaker, times: seq<int>, later: int)
    requires Recovered(b, later) && forall i :: 0 <= i < |times| ==> Recovered(b, times[i])
    ensures Allows(Exec(b, ProbesAt(times)), later)
    ensures Exec(b, ProbesAt(times)) == b || Exec(b, ProbesAt(times)) == b.(state := HalfOpen)
  {
    if times != [] {
      var n := |times| - 1;
      assert ProbesAt(times)[..n] == ProbesAt(times[..n]);
      HalfOpenAdmitsAll(b, times[..n], later);
    }
  }

  predicate AllReports(rs: seq<Op>) {
    forall i :: 0 <= i < |rs| ==> !rs[i].Probed?
  }

  predicate AnySuccess(rs: seq<Op>) {
    exists i :: 0 <= i < |rs| && rs[i].Succeeded?
  }

  /** Failures `rs` that reopen a half-open breaker: they are all there is, or they reach the threshold again. */
  predicate Reopens(rs: seq<Op>, threshold: int) {
    TrailingFailures(rs) > 0 && (!AnySuccess(rs) || TrailingFailures(rs) >= threshold)
  }

  lemma {:induction false} ReportsFromHalfOpen(b: Breaker, rs: seq<Op>)
    requires b.state.HalfOpen? && AllReports(rs)
    ensures
      var b' := Exec(b, rs);
      && b'.threshold == b.threshold && b'.timeout == b.timeout
      && (b'.state.HalfOpen? <==> rs == [])
      && (b'.state.Open? <==> Reopens(rs, b.threshold))
      && (rs != [] && rs[|rs| - 1].Failed? ==> b'.lastFailAt == rs[|rs| - 1].at)
      && (AnySuccess(rs) ==> b'.failCount == TrailingFailures(rs))
      && (!AnySuccess(rs) ==> TrailingFailures(rs) == |rs|)
  {
    if rs != [] {
      var n := |rs| - 1;
      ReportsFromHalfOpen(b, rs[..n]);
      AnySuccessAppend(rs[..n], rs[n]);
      assert rs == rs[..n] + [rs[n]];
    }
  }

  lemma AnySuccessAppend(rs: seq<Op>, r: Op)
    ensures AnySuccess(rs + [r]) <==> AnySuccess(rs) || r.Succeeded?
  {
    if r.Succeeded? {
      assert (rs + [r])[|rs|].Succeeded?;
    } else if AnySuccess(rs) {
      var i :| 0 <= i < |rs| && rs[i].Succeeded?;
      assert (rs + [r])[i].Succeeded?;
    }
  }

  /**
   So only failures close the door again: after a first request has been let through a half-open breaker,
   a second one is refused exactly when the reports `rs` in between reopen it and the last of them is recent.
   */
  lemma SecondRequestRefusedIff(b: Breaker, first: int, rs: seq<Op>, second: int)
    requires !b.state.Closed? && Recovered(b, first) && AllReports(rs)
    ensures Allows(b, first)
    ensures !Allows(Exec(Age(b, first), rs), second) <==>
      Reopens(rs, b.threshold) && second - rs[|rs| - 1].at <= b.timeout
  {
    ReportsFromHalfOpen(Age(b, first), rs);
  }

  // ----- prices that fail validation -----

  /**
   What look-ups tell the breaker about prices that arrive: each reports a success when the provider
   answers, and then either a failure, if the price fails validation, or nothing.
   */
  datatype Stage = Answered(at: int) | Rejected(at: int) | Passed

  function Told(ls: seq<Stage>): seq<Op> {
    if ls == [] then []
    else
      var before := Told(ls[..|ls| - 1]);
      match ls[|ls| - 1]
      case Answered(at) => before + [Succeeded(at)]
      case Rejected(at) => before + [Failed(at)]
      case Passed => before
  }

  /** Look-ups that have been answered and not yet judged. */
  function InFlight(ls: seq<Stage>): int {
    if ls == [] then 0 else InFlight(ls[..|ls| - 1]) + if ls[|ls| - 1].Answered? then 1 else -1
  }

  /** At any time at least none and at most c look-ups are in flight. */
  predicate AtMost(ls: seq<Stage>, c: int) {
    0 <= InFlight(ls) <= c && (ls == [] || AtMost(ls[..|ls| - 1], c))
  }

  lemma {:induction false} FailuresWereInFlight(ls: seq<Stage>, c: int)
    requires AtMost(ls, c)
    ensures TrailingFailures(Told(ls)) + InFlight(ls) <= c
  {
    if ls != [] {
      FailuresWereInFlight(ls[..|ls| - 1], c);
      var h := Told(ls[..|ls| - 1]);
      if !ls[|ls| - 1].Passed? {
        assert Told(ls)[..|h|] == h;
      }
    }
  }

  /** c look-ups answered and then rejected, all at the instant 0. */
  function Flock(c: nat, k: nat): seq<Stage>
    requires k <= 2 * c
  {
    if k == 0 then [] else Flock(c, k - 1) + [if k <= c then Answered(0) else Rejected(0)]
  }

  lemma {:induction false} FlockStays(c: nat, k: nat)
    requires k <= 2 * c
    ensures AtMost(Flock(c, k), c) && InFlight(Flock(c, k)) == if k <= c then k else 2 * c - k
  {
    if k > 0 {
      FlockStays(c, k - 1);
      assert Flock(c, k)[..|Flock(c, k)| - 1] == Flock(c, k - 1);
    }
  }

  function Reply(c: nat, k: nat): Op {
    if k <= c then Succeeded(0) else Failed(0)
  }

  lemma FlockTells(c: nat, k: nat)
    requires 0 < k <= 2 * c
    ensures Told(Flock(c, k)) == Told(Flock(c, k - 1)) + [Reply(c, k)]
  {
    assert Flock(c, k)[..|Flock(c, k)| - 1] == Flock(c, k - 1);
  }

  /** Reports, all made at the instant 0. */
  predicate AtOnce(h: seq<Op>) {
    forall i :: 0 <= i < |h| ==> !h[i].Probed? && h[i].at == 0
  }

  lemma TrailingAppend(h: seq<Op>, op: Op)
    ensures TrailingFailures(h + [op]) == if op.Failed? then 1 + TrailingFailures(h) else 0
    ensures AtOnce(h) && !op.Probed? && op.at == 0 ==> AtOnce(h + [op])
  {
    assert (h + [op])[..|h|] == h;
  }

  lemma {:induction false} FlockFails(c: nat, k: nat)
    requires k <= 2 * c
    ensures TrailingFailures(Told(Flock(c, k))) == if k <= c then 0 else k - c
    ensures AtOnce(Told(Flock(c, k)))
  {
    if k > 0 {
      FlockFails(c, k - 1);
      FlockTells(c, k);
      TrailingAppend(Told(Flock(c, k - 1)), Reply(c, k));
    }
  }

  lemma {:induction false} NothingButReports(h: seq<Op>)
    requires AllReports(h)
    ensures Reports(h) == h
  {
    if h != [] {
      NothingButReports(h[..|h| - 1]);
    }
  }

  /** A run in which this breaker, told of such look-ups only, at most c in flight, leaves Closed. */
  ghost predicate Trips(threshold: int, timeout: int, c: nat, ops: seq<Op>, ls: seq<Stage>, now: int) {
    && Clocked(ops, now) && AtMost(ls, c) && Reports(ops) == Told(ls)
    && !Exec(New(threshold, timeout), ops).state.Closed?
  }

  /**
   Prices that fail validation open a breaker only through concurrency: with at most c look-ups in
   flight the trailing run of failures never exceeds c, and some interleaving opens the breaker exactly
   when its threshold (taken as 1 if smaller) is at most c.
   */
  lemma InvalidPricesTripIff(threshold: int, timeout: int, c: nat)
    ensures (exists ops, ls, now :: Trips(threshold, timeout, c, ops, ls, now)) <==> Max(threshold, 1) <= c
  {
    if Max(threshold, 1) <= c {
      FlockTrips(threshold, timeout, c);
    }
    forall ops, ls, now | Trips(threshold, timeout, c, ops, ls, now) ensures Max(threshold, 1) <= c {
      InvalidPricesBounded(threshold, timeout, c, ops, ls, now);
    }
  }

  lemma FlockTrips(threshold: int, timeout: int, c: nat)
    requires Max(threshold, 1) <= c
    ensures Trips(threshold, timeout, c, Told(Flock(c, 2 * c)), Flock(c, 2 * c), 0)
  {
    var ls := Flock(c, 2 * c);
    var ops := Told(ls);
    FlockStays(c, 2 * c);
    FlockFails(c, 2 * c);
    OpenAfter(threshold, timeout, ops);
  }

  lemma OpenAfter(threshold: int, timeout: int, ops: seq<Op>)
    requires AtOnce(ops) && TrailingFailures(ops) >= Max(threshold, 1)
    ensures Clocked(ops, 0) && Reports(ops) == ops && !Exec(New(threshold, timeout), ops).state.Closed?
  {
    NothingButReports(ops);
    FieldsFollowHistory(threshold, timeout, ops, 0);
  }

  lemma InvalidPricesBounded(threshold: int, timeout: int, c: nat, ops: seq<Op>, ls: seq<Stage>, now: int)
    requires Clocked(ops, now) && AtMost(ls, c) && Reports(ops) == Told(ls)
    ensures TrailingFailures(Reports(ops)) <= c
    ensures !Exec(New(threshold, timeout), ops).state.Closed? ==> Max(threshold, 1) <= c
  {
    FailuresWereInFlight(ls, c);
    FieldsFollowHistory(threshold, timeout, ops, now);
  }

  /** A history in which every failure follows a success directly. */
  predicate AnsweredThenFailed(h: seq<Op>) {
    forall i :: 0 <= i < |h| && h[i].Failed? ==> i > 0 && h[i - 1].Succeeded?
  }

  /**
   One look-up at a time: however many prices fail, the breaker leaves Closed only if the threshold is at
   most 1, and then by the latest report alone.
   */
  lemma {:induction false} InvalidPricesOneByOne(threshold: int, timeout: int, ops: seq<Op>, now: int)
    requires Clocked(ops, now) && AnsweredThenFailed(Reports(ops))
    ensures TrailingFailures(Reports(ops)) <= 1
    ensures
      var h := Reports(ops);
      Exec(New(threshold, timeout), ops).state.Closed? <==> threshold >= 2 || h == [] || !h[|h| - 1].Failed?
    ensures threshold >= 2 ==> Allows(Exec(New(threshold, timeout), ops), now)
  {
    var h := Reports(ops);
    if h != [] && h[|h| - 1].Failed? {
      assert h[..|h| - 1][|h| - 2].Succeeded?;
    }
    FieldsFollowHistory(threshold, timeout, ops, now);
  }

  /** With one look-up in flight at most, every failure follows a success directly. */
  lemma {:induction false} OneInFlight(ls: seq<Stage>)
    requires AtMost(ls, 1)
    ensures AnsweredThenFailed(Told(ls))
    ensures InFlight(ls) == 1 ==> Told(ls) != [] && Told(ls)[|Told(ls)| - 1].Succeeded?
  {
    if ls != [] {
      OneInFlight(ls[..|ls| - 1]);
    }
  }
}
