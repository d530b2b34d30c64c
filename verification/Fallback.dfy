/**
 What the retry loop guarantees: its accounting for any router, and, over round robin, that no
 provider that could have helped is missed before the service falls back on a stale price or an error.
 */
module Fallback {
  import opened Common
  import opened Prices
  import opened Providers
  import opened Strategies
  import opened Router
  import opened PriceService
  import RateLimit
  import RouterRuns
  import Sorting
  import MemoryStore

  // ----- accounting, for every strategy -----

  lemma ContactedHas(trace: seq<Attempt>, j: nat, k: nat)
    requires j < k <= |trace| && Contact(trace[j].end).Some?
    ensures Contact(trace[j].end).value in Contacted(trace[..k])
  {
    assert trace[..k][j] == trace[j];
  }

  /** No provider is contacted twice, and there are no more attempts than retries allow. */
  lemma EachContactedOnce(trace: seq<Attempt>, worlds: seq<World>, validator: Option<ValidatorConfig>,
                          answers: string -> Answer, j: nat, k: nat)
    requires Loop(trace, worlds, validator, answers) && j < k < |trace|
    requires Contact(trace[j].end).Some? && Contact(trace[k].end).Some?
    ensures Contact(trace[j].end) != Contact(trace[k].end)
    ensures |trace| <= |worlds|
  {
    ContactedHas(trace, j, k);
    assert AttemptAt(trace, k, worlds, validator, answers);
  }

  /** The service never returns neither a price nor an error. */
  lemma NeverNothing(trace: seq<Attempt>, worlds: seq<World>, validator: Option<ValidatorConfig>,
                     answers: string -> Answer, maxRetries: nat)
    requires Loop(trace, worlds, validator, answers) && Stopped(trace, maxRetries)
    requires !trace[|trace| - 1].end.Accepted?
    ensures LastError(trace).Some?
  {
    var last := |trace| - 1;
    assert AttemptAt(trace, last, worlds, validator, answers);
    if trace[last].end.Repeated? {
      assert trace[last].end.name in Contacted(trace[..last]);
      assert last > 0;
      assert Continues(trace[last - 1].end);
      assert trace[..last][last - 1] == trace[last - 1];
    }
  }

  /** A fresh price is the provider's own answer and passed the validator. */
  lemma AcceptedIsValid(trace: seq<Attempt>, worlds: seq<World>, validator: Option<ValidatorConfig>,
                        answers: string -> Answer, k: nat)
    requires Loop(trace, worlds, validator, answers) && k < |trace| && trace[k].end.Accepted?
    ensures answers(trace[k].end.name) == Priced(trace[k].end.price)
    ensures Verdict(validator, trace[k].end.price, worlds[k].validatedAt).None?
    ensures
      validator.Some? && validator.value.enabled ==>
        var p, cfg := trace[k].end.price, validator.value;
        && p.value > 0.0
        && (p.timestamp != 0 && cfg.maxStaleness > 0 ==> p.timestamp + cfg.maxStaleness >= worlds[k].validatedAt)
  {
    assert AttemptAt(trace, k, worlds, validator, answers);
  }

  /**
   What becomes of a call, in the answer's own terms: an error ends it as a failure with that error; a
   price is accepted exactly if no validator is enabled, or it is positive and, where that is checked, no
   older than allowed; otherwise it is rejected, for its value first.
   */
  lemma AcceptedIff(trace: seq<Attempt>, worlds: seq<World>, validator: Option<ValidatorConfig>,
                    answers: string -> Answer, k: nat)
    requires Loop(trace, worlds, validator, answers) && k < |trace| && Contact(trace[k].end).Some?
    ensures
      var end, now := trace[k].end, worlds[k].validatedAt;
      match answers(Contact(end).value)
      case Refused(e) => end == Failed(Contact(end).value, e)
      case Priced(p) =>
        var stale := validator.Some? && validator.value.maxStaleness > 0 && p.timestamp != 0
                     && now - p.timestamp > validator.value.maxStaleness;
        if validator.None? || !validator.value.enabled || (p.value > 0.0 && !stale) then
          end == Accepted(Contact(end).value, p)
        else
          end == Rejected(Contact(end).value, if p.value <= 0.0 then PriceZero else PriceStale)
  {
    assert AttemptAt(trace, k, worlds, validator, answers);
  }

  /**
   The error left by a loop without an accepted price: that of the last attempt, its provider's own or
   the validator's, or that the router found nobody; at a repeated provider, that of the attempt before.
   */
  lemma LastErrorInFull(trace: seq<Attempt>, worlds: seq<World>, validator: Option<ValidatorConfig>,
                        answers: string -> Answer, maxRetries: nat)
    requires Loop(trace, worlds, validator, answers) && Stopped(trace, maxRetries)
    requires !trace[|trace| - 1].end.Accepted?
    ensures trace[|trace| - 1].end.Repeated? ==> |trace| >= 2 && Continues(trace[|trace| - 2].end)
    ensures
      var last := trace[|trace| - 1].end;
      LastError(trace) == Some(
        if last.Exhausted? then NoHealthyProvider
        else if last.Repeated? then trace[|trace| - 2].end.error
        else last.error)
  {
    var last := |trace| - 1;
    if trace[last].end.Repeated? {
      assert AttemptAt(trace, last, worlds, validator, answers);
      assert last > 0 by {
        assert trace[..0] == [];
      }
      assert Continues(trace[last - 1].end);
      assert trace[..last][last - 1] == trace[last - 1];
    }
  }

  /** Every contact leaves the latency of its provider alone, or adds the time the answer took. */
  lemma AnswerIsTimed(trace: seq<Attempt>, worlds: seq<World>, validator: Option<ValidatorConfig>,
                      answers: string -> Answer, k: nat)
    requires Loop(trace, worlds, validator, answers) && k < |trace| && Contact(trace[k].end).Some?
    ensures
      var a := trace[k];
      var i := LastNamed(Names(a.selected.providers), Contact(a.end).value);
      && i.Some? && i.value < |a.after.providers|
      && var was, now := a.selected.providers[i.value].latency, a.after.providers[i.value].latency;
         if a.end.Failed? then now == was
         else
           && now.count == was.count + 1
           && now.avg == (if was.count == 0 then worlds[k].ms as real else 0.3 * worlds[k].ms as real + 0.7 * was.avg)
  {
    var a := trace[k];
    assert AttemptAt(trace, k, worlds, validator, answers);
    RouterRuns.SelectionSound(a.before, a.selected, a.world.ts, a.world.spend, a.at);
    RouterRuns.SelectionKeepsNames(a.before, a.selected, a.world.ts, a.world.spend, a.at);
    var name := Contact(a.end).value;
    assert Names(a.selected.providers)[a.at.value] == name;
    RouterRuns.ReportsKeepNames(a.selected.providers, name, Success(a.world.ms));
  }

  /**
   Every contacted provider is reported on: a failed call adds a failure to its breaker, an accepted
   price clears it, and a rejected price is reported as a success first, which leaves exactly one failure.
   */
  lemma ContactIsReported(trace: seq<Attempt>, worlds: seq<World>, validator: Option<ValidatorConfig>,
                          answers: string -> Answer, k: nat)
    requires Loop(trace, worlds, validator, answers) && k < |trace| && Contact(trace[k].end).Some?
    ensures
      var a := trace[k];
      var i := LastNamed(Names(a.selected.providers), Contact(a.end).value);
      && i.Some? && i.value < |a.after.providers|
      && var was, now := a.selected.providers[i.value].breaker, a.after.providers[i.value].breaker;
         match a.end
         case Accepted(_, _) => now.failCount == 0 && now.state.Closed?
         case Rejected(_, _) => now.failCount == 1 && now.lastFailAt == worlds[k].failedAt
         case _ => now.failCount == was.failCount + 1 && now.lastFailAt == worlds[k].failedAt
  {
    var a := trace[k];
    assert AttemptAt(trace, k, worlds, validator, answers);
    RouterRuns.SelectionSound(a.before, a.selected, a.world.ts, a.world.spend, a.at);
    RouterRuns.SelectionKeepsNames(a.before, a.selected, a.world.ts, a.world.spend, a.at);
    var name := Contact(a.end).value;
    assert Names(a.selected.providers)[a.at.value] == name;
    RouterRuns.ReportsKeepNames(a.selected.providers, name, Success(a.world.ms));
  }

  // ----- one selection on the ring -----

  /** Distances from a position D steps ahead of `start`. */
  lemma Rotate(start: nat, index: nat, ahead: nat, i: nat, n: nat)
    requires ahead < n && i < n && index % n == Position(start, ahead, n)
    ensures Distance(index, i, n)
         == if Distance(start, i, n) >= ahead then Distance(start, i, n) - ahead
            else Distance(start, i, n) + n - ahead
  {
  }

  /**
   The loop has moved `ahead` steps round the ring from `start`: of the providers behind, those that
   were good have been covered, and of those ahead none has.
   */
  ghost predicate Waiting(n: nat, start: nat, index: nat, ahead: nat, good: set<nat>, covered: set<nat>) {
    && ahead <= n
    && (ahead < n ==> index % n == Position(start, ahead, n))
    && (forall i: nat :: i < n ==>
          if Distance(start, i, n) < ahead then i in covered || i !in good else i !in covered)
  }

  /** While good providers are waiting, a selection moves on round the ring to one not yet covered. */
  lemma ScanMovesOn(ps: seq<Provider>, ts: seq<Readings>, allowPaid: bool, index: nat, start: nat, ahead: nat,
                    good: set<nat>, covered: set<nat>)
    returns (ahead': nat)
    requires |ts| == |ps| && Waiting(|ps|, start, index, ahead, good, covered)
    requires forall i :: i in good ==> i < |ps| && (i !in covered ==> Up(ps, ts, allowPaid, i))
    ensures
      var c := RingScan(ps, ts, allowPaid, index, 0).chosen;
      || good <= covered
      || (&& c.Some? && c.value < |ps| && c.value !in covered && ahead < ahead'
          && Waiting(|ps|, start, NextIndex(index, c, |ps|), ahead', good, covered + {c.value}))
  {
    var n, c := |ps|, RingScan(ps, ts, allowPaid, index, 0).chosen;
    ahead' := 0;
    if !(good <= covered) {
      var g :| g in good && g !in covered;
      assert Distance(start, g, n) >= ahead;
      ChosenAhead(ps, ts, allowPaid, index, start, ahead, g);
      ahead' := Distance(start, c.value, n) + 1;
      MovedOn(n, start, index, ahead, good, covered, c.value);
    }
  }

  /** After the choice of c, the first good one ahead, nothing good is left uncovered behind it. */
  lemma MovedOn(n: nat, start: nat, index: nat, ahead: nat, good: set<nat>, covered: set<nat>, c: nat)
    requires Waiting(n, start, index, ahead, good, covered) && c < n && ahead <= Distance(start, c, n)
    requires forall i: nat :: i < n && i in good && ahead <= Distance(start, i, n) ==>
      Distance(start, c, n) <= Distance(start, i, n)
    ensures c !in covered
    ensures Waiting(n, start, (c + 1) % n, Distance(start, c, n) + 1, good, covered + {c})
  {
    NextPosition(start, c, n);
    forall i: nat | i < n && Distance(start, i, n) == Distance(start, c, n) ensures i == c {
      assert Position(start, Distance(start, i, n), n) == i;
    }
  }

  /** A scan that has an available provider ahead of it chooses the first one ahead, without wrapping round. */
  lemma ChosenAhead(ps: seq<Provider>, ts: seq<Readings>, allowPaid: bool, index: nat, start: nat, ahead: nat, g: nat)
    requires |ts| == |ps| && g < |ps| && ahead <= Distance(start, g, |ps|) && Up(ps, ts, allowPaid, g)
    requires index % |ps| == Position(start, ahead, |ps|)
    ensures
      var c := RingScan(ps, ts, allowPaid, index, 0).chosen;
      && c.Some? && c.value < |ps| && ahead <= Distance(start, c.value, |ps|)
      && forall i: nat :: i < |ps| && ahead <= Distance(start, i, |ps|) < Distance(start, c.value, |ps|) ==>
           !Up(ps, ts, allowPaid, i)
  {
    var n, c := |ps|, RingScan(ps, ts, allowPaid, index, 0).chosen;
    RingScanPicksFirst(ps, ts, allowPaid, index, 0);
    Rotate(start, index, ahead, g, n);
    assert c.Some?;
    Rotate(start, index, ahead, c.value, n);
    forall i: nat | i < n && ahead <= Distance(start, i, n) < Distance(start, c.value, n)
      ensures !Up(ps, ts, allowPaid, i)
    {
      Rotate(start, index, ahead, i, n);
    }
  }

  lemma NextPosition(start: nat, c: nat, n: nat)
    requires c < n
    ensures (c + 1) % n % n == (c + 1) % n
    ensures Distance(start, c, n) + 1 < n ==> (c + 1) % n == Position(start, Distance(start, c, n) + 1, n)
  {
    QuotientUnique(c + 1, if c + 1 == n then 1 else 0, if c + 1 == n then 0 else c + 1, n);
    QuotientUnique((c + 1) % n, 0, (c + 1) % n, n);
  }

  // ----- a whole run over round robin -----

  /** The readings of an attempt lie between `from` and the end of the attempt. */
  predicate WorldClocked(w: World, from: int) {
    && from <= w.doneAt
    && forall i :: 0 <= i < |w.ts| ==> After(w.ts[i], from) && w.ts[i].breaker <= w.doneAt
  }

  function TimeAt(worlds: seq<World>, t0: int, k: nat): int
    requires k <= |worlds|
  {
    if k == 0 then t0 else worlds[k - 1].doneAt
  }

  predicate Timed(worlds: seq<World>, t0: int) {
    forall k: nat :: k < |worlds| ==> WorldClocked(worlds[k], TimeAt(worlds, t0, k))
  }

  /** The providers that are available at time t. */
  function ReadyAt(s: State, t: int): set<nat> {
    set i: nat | i < |s.providers| && Ready(s.providers[i], s.policy.allowPaid, t)
  }

  function Covered(names: seq<string>, contacted: set<string>): set<nat> {
    set i: nat | i < |names| && names[i] in contacted
  }

  /** The good providers not yet contacted are still available. */
  ghost predicate StillReady(s: State, t: int, good: set<nat>, covered: set<nat>) {
    forall i :: i in good && i !in covered ==>
      i < |s.providers| && s.providers[i].limiter.Valid() && Ready(s.providers[i], s.policy.allowPaid, t)
  }

  function AndContact(tried: set<string>, e: Ending): set<string> {
    if Contact(e).Some? then tried + {Contact(e).value} else tried
  }

  lemma CallKeepsNames(s: State, s': State, name: string, w: World, validator: Option<ValidatorConfig>,
                       answers: string -> Answer, end: Ending)
    requires Called(s, s', name, w, validator, answers, end)
    ensures Names(s'.providers) == Names(s.providers) && s'.policy == s.policy && Contact(end) == Some(name)
  {
    RouterRuns.ReportsKeepNames(s.providers, name, Success(w.ms));
    RouterRuns.ReportsKeepNames(s.providers, name, Failure(w.failedAt));
    RouterRuns.ReportsKeepNames(AfterReport(s.providers, name, Success(w.ms)), name, Failure(w.failedAt));
  }

  lemma AttemptKeepsNames(a: Attempt, tried: set<string>, validator: Option<ValidatorConfig>, answers: string -> Answer)
    requires Attempted(a, tried, validator, answers)
    ensures Names(a.after.providers) == Names(a.selected.providers) == Names(a.before.providers)
    ensures a.after.policy == a.selected.policy && a.after.policy.allowPaid == a.before.policy.allowPaid
    ensures a.at.Some? ==> Names(a.before.providers)[a.at.value] in AndContact(tried, a.end)
  {
    RouterRuns.SelectionKeepsNames(a.before, a.selected, a.world.ts, a.world.spend, a.at);
    if a.at.Some? {
      var name := a.before.providers[a.at.value].name;
      if name !in tried {
        CallKeepsNames(a.selected, a.after, name, a.world, validator, answers, a.end);
      }
    }
  }

  /** Reports change only the provider they name. */
  lemma AttemptLeavesOthers(a: Attempt, tried: set<string>, validator: Option<ValidatorConfig>,
                            answers: string -> Answer, i: nat)
    requires Attempted(a, tried, validator, answers)
    requires i < |a.selected.providers| && Contact(a.end) != Some(a.selected.providers[i].name)
    ensures i < |a.after.providers| && a.after.providers[i] == a.selected.providers[i]
  {
  }

  /** A provider that is ready and not contacted by the attempt is ready after it. */
  lemma OtherStaysReady(a: Attempt, tried: set<string>, validator: Option<ValidatorConfig>, answers: string -> Answer,
                        t: int, i: nat)
    requires Attempted(a, tried, validator, answers) && WorldClocked(a.world, t)
    requires i < |a.before.providers| && a.at != Some(i)
    requires Contact(a.end) != Some(a.before.providers[i].name)
    requires a.before.providers[i].limiter.Valid() && Ready(a.before.providers[i], a.before.policy.allowPaid, t)
    ensures i < |a.after.providers| && a.after.providers[i].limiter.Valid()
    ensures Ready(a.after.providers[i], a.before.policy.allowPaid, a.world.doneAt)
  {
    var p := a.before.providers[i];
    RouterRuns.SelectionKeepsNames(a.before, a.selected, a.world.ts, a.world.spend, a.at);
    SelectionLeavesReady(a.before, a.selected, a.world, a.at, t, i);
    assert Names(a.selected.providers)[i] == p.name;
    AttemptLeavesOthers(a, tried, validator, answers, i);
  }

  lemma SelectionLeavesReady(s: State, s': State, w: World, at: Option<nat>, t: int, i: nat)
    requires |w.ts| == |s.providers| && Selects(s, s', w.ts, w.spend, at) && WorldClocked(w, t)
    requires i < |s.providers| && at != Some(i)
    requires s.providers[i].limiter.Valid() && Ready(s.providers[i], s.policy.allowPaid, t)
    ensures i < |s'.providers| && s'.providers[i].limiter.Valid()
    ensures Ready(s'.providers[i], s.policy.allowPaid, w.doneAt)
  {
    RouterRuns.SelectionSound(s, s', w.ts, w.spend, at);
    assert RouterRuns.Touched(s.providers[i], s'.providers[i], s.policy.allowPaid, w.ts[i]);
    ReadinessPersists(s.providers[i], s.policy.allowPaid, t, w.ts[i], w.doneAt);
  }

  lemma AttemptKeepsReady(a: Attempt, tried: set<string>, validator: Option<ValidatorConfig>, answers: string -> Answer,
                          t: int, good: set<nat>)
    requires Attempted(a, tried, validator, answers) && WorldClocked(a.world, t)
    requires StillReady(a.before, t, good, Covered(Names(a.before.providers), tried))
    ensures StillReady(a.after, a.world.doneAt, good, Covered(Names(a.before.providers), AndContact(tried, a.end)))
  {
    var names := Names(a.before.providers);
    AttemptKeepsNames(a, tried, validator, answers);
    forall i | i in good && i !in Covered(names, AndContact(tried, a.end))
      ensures i < |a.after.providers| && a.after.providers[i].limiter.Valid()
      ensures Ready(a.after.providers[i], a.after.policy.allowPaid, a.world.doneAt)
    {
      assert i !in Covered(names, tried);
      assert names[i] !in AndContact(tried, a.end);
      OtherStaysReady(a, tried, validator, answers, t, i);
    }
  }

  lemma WaitingAreUp(s: State, w: World, t: int, good: set<nat>, covered: set<nat>)
    requires |w.ts| == |s.providers| && WorldClocked(w, t) && StillReady(s, t, good, covered)
    ensures forall i :: i in good && i !in covered ==> i < |w.ts| && Up(s.providers, w.ts, s.policy.allowPaid, i)
  {
    forall i | i in good && i !in covered ensures i < |w.ts| && Up(s.providers, w.ts, s.policy.allowPaid, i) {
      ReadinessPersists(s.providers[i], s.policy.allowPaid, t, w.ts[i], w.doneAt);
    }
  }

  /** One attempt: either all good providers are covered, or a further one is contacted. */
  lemma AttemptMovesOn(a: Attempt, tried: set<string>, validator: Option<ValidatorConfig>, answers: string -> Answer,
                       t: int, start: nat, ahead: nat, good: set<nat>)
    returns (ahead': nat)
    requires Attempted(a, tried, validator, answers) && WorldClocked(a.world, t)
    requires a.before.policy.RoundRobin? && Sorting.NoRepeats(Names(a.before.providers))
    requires forall i :: i in good ==> i < |a.before.providers|
    requires StillReady(a.before, t, good, Covered(Names(a.before.providers), tried))
    requires Waiting(|a.before.providers|, start, a.before.policy.index, ahead, good,
                     Covered(Names(a.before.providers), tried))
    ensures a.after.policy.RoundRobin?
    ensures
      var names := Names(a.before.providers);
      || good <= Covered(names, tried)
      || (&& Contact(a.end).Some? && ahead < ahead'
          && Waiting(|names|, start, a.after.policy.index, ahead', good, Covered(names, AndContact(tried, a.end))))
  {
    var names, ps, paid := Names(a.before.providers), a.before.providers, a.before.policy.allowPaid;
    var covered := Covered(names, tried);
    AttemptKeepsNames(a, tried, validator, answers);
    WaitingAreUp(a.before, a.world, t, good, covered);
    RingAttempt(a, tried, validator, answers);
    ahead' := ScanMovesOn(ps, a.world.ts, paid, a.before.policy.index, start, ahead, good, covered);
    if !(good <= covered) {
      assert names[a.at.value] !in tried;
      CoverOneMore(names, tried, a.at.value);
    }
  }

  lemma CoverOneMore(names: seq<string>, tried: set<string>, c: nat)
    requires Sorting.NoRepeats(names) && c < |names|
    ensures Covered(names, tried + {names[c]}) == Covered(names, tried) + {c}
  {
  }

  /** An attempt over round robin: what it selects, where the ring goes, and whom it contacts. */
  lemma RingAttempt(a: Attempt, tried: set<string>, validator: Option<ValidatorConfig>, answers: string -> Answer)
    requires Attempted(a, tried, validator, answers) && a.before.policy.RoundRobin?
    ensures a.at == RingScan(a.before.providers, a.world.ts, a.before.policy.allowPaid, a.before.policy.index, 0).chosen
    ensures a.after.policy.RoundRobin?
    ensures a.after.policy.index == NextIndex(a.before.policy.index, a.at, |a.before.providers|)
    ensures a.at.Some? ==>
      var name := Names(a.before.providers)[a.at.value];
      Contact(a.end) == if name in tried then None else Some(name)
  {
  }

  ghost predicate Start(s: State) {
    && s.policy.RoundRobin? && Sorting.NoRepeats(Names(s.providers))
    && forall i :: 0 <= i < |s.providers| ==> s.providers[i].limiter.Valid()
  }

  /** The state before attempt k, or after the last one. */
  function StateAt(trace: seq<Attempt>, k: nat): State
    requires k <= |trace| && trace != []
  {
    if k < |trace| then trace[k].before else trace[k - 1].after
  }

  /** After k attempts: every provider that was good at the start is contacted, or the scan is waiting. */
  ghost predicate Reached(trace: seq<Attempt>, worlds: seq<World>, t0: int, k: nat, ahead: nat)
    requires k <= |trace| <= |worlds| && trace != [] && Start(trace[0].before)
  {
    var s0, s := trace[0].before, StateAt(trace, k);
    var names, good := Names(s0.providers), ReadyAt(s0, t0);
    var covered := Covered(names, Contacted(trace[..k]));
    && s.policy.RoundRobin? && s.policy.allowPaid == s0.policy.allowPaid && Names(s.providers) == names
    && StillReady(s, TimeAt(worlds, t0, k), good, covered)
    && (good <= covered || (k <= ahead && Waiting(|names|, s0.policy.index, s.policy.index, ahead, good, covered)))
  }

  lemma ContactedStep(trace: seq<Attempt>, k: nat)
    requires k < |trace|
    ensures Contacted(trace[..k + 1]) == AndContact(Contacted(trace[..k]), trace[k].end)
  {
    assert trace[..k + 1] == trace[..k] + [trace[k]];
    ContactedGrows(trace[..k], trace[k]);
  }

  lemma ReachedStep(trace: seq<Attempt>, worlds: seq<World>, validator: Option<ValidatorConfig>,
                    answers: string -> Answer, t0: int, k: nat, ahead: nat)
    returns (ahead': nat)
    requires trace != [] && Loop(trace, worlds, validator, answers) && Start(trace[0].before) && Timed(worlds, t0)
    requires k < |trace| && Reached(trace, worlds, t0, k, ahead)
    ensures Reached(trace, worlds, t0, k + 1, ahead')
    ensures ReadyAt(trace[0].before, t0) <= Covered(Names(trace[0].before.providers), Contacted(trace[..k + 1]))
         || Contact(trace[k].end).Some?
  {
    var s0, a, tried := trace[0].before, trace[k], Contacted(trace[..k]);
    var names, good, t := Names(s0.providers), ReadyAt(s0, t0), TimeAt(worlds, t0, k);
    assert AttemptAt(trace, k, worlds, validator, answers);
    ContactedStep(trace, k);
    AttemptKeepsNames(a, tried, validator, answers);
    AttemptKeepsReady(a, tried, validator, answers, t, good);
    ahead' := 0;
    if good <= Covered(names, tried) {
      RouterRuns.SelectionKeepsNames(a.before, a.selected, a.world.ts, a.world.spend, a.at);
    } else {
      ahead' := AttemptMovesOn(a, tried, validator, answers, t, s0.policy.index, ahead, good);
    }
    assert StateAt(trace, k + 1) == a.after;
  }

  lemma {:induction false} Reach(trace: seq<Attempt>, worlds: seq<World>, validator: Option<ValidatorConfig>,
                                 answers: string -> Answer, t0: int, k: nat)
    returns (ahead: nat)
    requires trace != [] && Loop(trace, worlds, validator, answers) && Start(trace[0].before) && Timed(worlds, t0)
    requires k <= |trace|
    ensures Reached(trace, worlds, t0, k, ahead)
    ensures k > 0 ==>
      || ReadyAt(trace[0].before, t0) <= Covered(Names(trace[0].before.providers), Contacted(trace[..k]))
      || Contact(trace[k - 1].end).Some?
  {
    if k == 0 {
      ahead := 0;
      assert trace[..0] == [];
    } else {
      ahead := Reach(trace, worlds, validator, answers, t0, k - 1);
      ahead := ReachedStep(trace, worlds, validator, answers, t0, k - 1, ahead);
    }
  }

  /**
   Fallback is complete over round robin. Take any run of the loop, on a router whose providers have
   distinct names, that ends without an accepted price: because the router found nobody or came back
   to a provider already tried, or because the retries ran out and there were at least as many as
   providers. Then every provider that was available when the run began has been contacted.
   */
  lemma AllReadyAreContacted(trace: seq<Attempt>, worlds: seq<World>, validator: Option<ValidatorConfig>,
                             answers: string -> Answer, t0: int, maxRetries: nat, i: nat)
    requires Loop(trace, worlds, validator, answers) && Stopped(trace, maxRetries) && |worlds| == maxRetries
    requires Start(trace[0].before) && Timed(worlds, t0)
    requires !trace[|trace| - 1].end.Accepted?
    requires Continues(trace[|trace| - 1].end) ==> maxRetries >= |trace[0].before.providers|
    requires i in ReadyAt(trace[0].before, t0)
    ensures trace[0].before.providers[i].name in Contacted(trace)
  {
    var ahead := Reach(trace, worlds, validator, answers, t0, |trace|);
    assert trace[..|trace|] == trace;
    var names := Names(trace[0].before.providers);
    assert i in Covered(names, Contacted(trace));
  }

  /** Provider `name` answers with a price that passes validation whenever it is validated. */
  ghost predicate AnswersWell(name: string, worlds: seq<World>, validator: Option<ValidatorConfig>,
                              answers: string -> Answer) {
    && answers(name).Priced?
    && forall k :: 0 <= k < |worlds| ==> Verdict(validator, answers(name).price, worlds[k].validatedAt).None?
  }

  /**
   So one good provider is enough: if some provider available at the start answers with a valid price
   and there are at least as many retries as providers, the loop ends with a fresh price.
   */
  lemma OneGoodProviderIsEnough(trace: seq<Attempt>, worlds: seq<World>, validator: Option<ValidatorConfig>,
                                answers: string -> Answer, t0: int, maxRetries: nat, i: nat)
    requires Loop(trace, worlds, validator, answers) && Stopped(trace, maxRetries) && |worlds| == maxRetries
    requires Start(trace[0].before) && Timed(worlds, t0) && maxRetries >= |trace[0].before.providers|
    requires i in ReadyAt(trace[0].before, t0)
    requires AnswersWell(trace[0].before.providers[i].name, worlds, validator, answers)
    ensures trace[|trace| - 1].end.Accepted?
  {
    if !trace[|trace| - 1].end.Accepted? {
      AllReadyAreContacted(trace, worlds, validator, answers, t0, maxRetries, i);
      var name := trace[0].before.providers[i].name;
      var k: nat :| k < |trace| && Contact(trace[k].end) == Some(name);
      GoodContactEndsLoop(trace, worlds, validator, answers, k, name);
    }
  }

  lemma GoodContactEndsLoop(trace: seq<Attempt>, worlds: seq<World>, validator: Option<ValidatorConfig>,
                            answers: string -> Answer, k: nat, name: string)
    requires Loop(trace, worlds, validator, answers) && k < |trace| && Contact(trace[k].end) == Some(name)
    requires AnswersWell(name, worlds, validator, answers)
    ensures trace[k].end.Accepted? && k == |trace| - 1
  {
    assert AttemptAt(trace, k, worlds, validator, answers);
  }

  /** In terms of the reply: the price comes from a provider, not from the store, and there is no error. */
  lemma FreshPriceReturned(trace: seq<Attempt>, worlds: seq<World>, validator: Option<ValidatorConfig>,
                           answers: string -> Answer, t0: int, maxRetries: nat, i: nat,
                           l: Ledger, l': Ledger, hasCache: bool, hasListener: bool,
                           coinID: string, currency: string, r: Reply)
    requires Loop(trace, worlds, validator, answers) && Stopped(trace, maxRetries) && |worlds| == maxRetries
    requires Replied(trace, l, l', hasCache, hasListener, coinID, currency, r)
    requires Start(trace[0].before) && Timed(worlds, t0) && maxRetries >= |trace[0].before.providers|
    requires i in ReadyAt(trace[0].before, t0)
    requires AnswersWell(trace[0].before.providers[i].name, worlds, validator, answers)
    ensures r.via.FromProvider? && r.price.Some? && r.error.None?
    ensures exists name :: name in Contacted(trace) && answers(name) == Priced(r.price.value)
    ensures l' == Publishing(l, hasCache, hasListener, r.price.value)
  {
    OneGoodProviderIsEnough(trace, worlds, validator, answers, t0, maxRetries, i);
    var last := |trace| - 1;
    AcceptedIsValid(trace, worlds, validator, answers, last);
    ContactedHas(trace, last, |trace|);
    assert trace[..|trace|] == trace;
  }

  /** An accepted price is the reply, and goes to the cache, the listener and the store, where there is one. */
  lemma AcceptedIsPublished(trace: seq<Attempt>, l: Ledger, l': Ledger, hasCache: bool, hasListener: bool,
                            coinID: string, currency: string, r: Reply, key: string)
    requires trace != [] && trace[|trace| - 1].end.Accepted?
    requires Replied(trace, l, l', hasCache, hasListener, coinID, currency, r)
    ensures
      var p := trace[|trace| - 1].end.price;
      && r.price == Some(p) && r.error.None?
      && l'.cached == (if hasCache then l.cached + [p] else l.cached)
      && l'.notified == (if hasListener then l.notified + [p] else l.notified)
      && l'.stored.Some? == l.stored.Some?
      && (l.stored.Some? ==>
            MemoryStore.At(l'.stored.value, key) == MemoryStore.At(l.stored.value, key)
              + if key == StoreKey(p.coinID, p.currency) then [p] else [])
  {
    PublishedInFull(l, hasCache, hasListener, trace[|trace| - 1].end.price, key);
  }

  /** Without one, the reply is the price stored last under coin and currency, if any, and else the last error. */
  lemma StaleIsLatest(trace: seq<Attempt>, l: Ledger, l': Ledger, hasCache: bool, hasListener: bool,
                      coinID: string, currency: string, r: Reply)
    requires trace != [] && !trace[|trace| - 1].end.Accepted?
    requires Replied(trace, l, l', hasCache, hasListener, coinID, currency, r)
    ensures l' == l
    ensures
      var key := StoreKey(coinID, currency);
      if l.stored.Some? && key in l.stored.value && l.stored.value[key] != [] then
        && r.error.None? && r.price.Some? && r.price.value in l.stored.value[key]
        && forall p :: p in l.stored.value[key] ==> p.receivedAt <= r.price.value.receivedAt
      else r.price.None? && r.error == LastError(trace)
  {
  }

  /** And in general: the reply has a price or an error, and never both. */
  lemma ReplyIsPriceOrError(trace: seq<Attempt>, worlds: seq<World>, validator: Option<ValidatorConfig>,
                            answers: string -> Answer, maxRetries: nat, l: Ledger, l': Ledger,
                            hasCache: bool, hasListener: bool, coinID: string, currency: string, r: Reply)
    requires Loop(trace, worlds, validator, answers) && Stopped(trace, maxRetries)
    requires Replied(trace, l, l', hasCache, hasListener, coinID, currency, r)
    ensures r.price.Some? <==> r.error.None?
    ensures r.error.Some? ==> StoredUnder(l, coinID, currency) == [] && l' == l
  {
    if !trace[|trace| - 1].end.Accepted? {
      NeverNothing(trace, worlds, validator, answers, maxRetries);
    }
  }
}
