/**
 What the router keeps over whole runs: every selection is of an available provider whose breaker
 history admits it and takes one of its tokens, so the rate bound holds for each provider of the
 router under any mix of selections, status queries and reports.
 */
module RouterRuns {
  import opened Common
  import opened Providers
  import opened Strategies
  import opened Router
  import RateLimit
  import Breakers

  // ----- one selection -----

  /** How a scan can leave a provider. */
  predicate Touched(p: Provider, p': Provider, allowPaid: bool, t: Readings) {
    p' == p || p' == Probed(p, allowPaid, t) || p' == Weighed(p, allowPaid, t)
  }

  /**
   Every strategy is sound and complete: it chooses none exactly when no provider is available, and
   otherwise an available one; besides its token, nothing but lazy resets and breaker ageing changes.
   */
  lemma SelectionSound(r: State, r': State, ts: seq<Readings>, spend: RateLimit.Tick, chosen: Option<nat>)
    requires |ts| == |r.providers| && Selects(r, r', ts, spend, chosen)
    ensures |r'.providers| == |r.providers| && r'.policy.allowPaid == r.policy.allowPaid
    ensures chosen.None? <==> forall i: nat :: i < |ts| ==> !Up(r.providers, ts, r.policy.allowPaid, i)
    ensures chosen.Some? ==> chosen.value < |ts| && Up(r.providers, ts, r.policy.allowPaid, chosen.value)
    ensures forall i: nat :: i < |ts| && chosen != Some(i) ==>
              Touched(r.providers[i], r'.providers[i], r.policy.allowPaid, ts[i])
    ensures chosen.Some? ==>
      var p, t := r.providers[chosen.value], ts[chosen.value];
      || r'.providers[chosen.value] == Spent(Probed(p, r.policy.allowPaid, t), spend)
      || r'.providers[chosen.value] == Spent(Weighed(p, r.policy.allowPaid, t), spend)
  {
    var scanned :| Picks(r.policy, r'.policy, r.providers, ts, Outcome(scanned, chosen))
                && r'.providers == TakeToken(scanned, chosen, spend);
    if r.policy.RoundRobin? {
      RingScanPicksFirst(r.providers, ts, r.policy.allowPaid, r.policy.index, 0);
    }
  }

  /**
   Whom a selection takes, in the providers' own fields and for every strategy: one that nothing bars,
   and none exactly when each is barred.
   */
  lemma SelectionInFull(r: State, r': State, ts: seq<Readings>, spend: RateLimit.Tick, chosen: Option<nat>)
    requires |ts| == |r.providers| && Selects(r, r', ts, spend, chosen)
    ensures chosen.Some? ==> chosen.value < |ts|
    ensures chosen.Some? ==> !Barred(r.providers[chosen.value], r.policy.allowPaid, ts[chosen.value])
    ensures chosen.None? <==> forall i: nat :: i < |ts| ==> Barred(r.providers[i], r.policy.allowPaid, ts[i])
  {
    SelectionSound(r, r', ts, spend, chosen);
    forall i: nat | i < |ts|
      ensures Up(r.providers, ts, r.policy.allowPaid, i) <==> !Barred(r.providers[i], r.policy.allowPaid, ts[i])
    {
      AvailableUnlessBarred(r.providers[i], r.policy.allowPaid, ts[i]);
    }
  }

  /** It changes nothing but what is left in limiters and, past its timeout, an open breaker. */
  lemma SelectionTouches(r: State, r': State, ts: seq<Readings>, spend: RateLimit.Tick, chosen: Option<nat>, i: nat)
    requires |ts| == |r.providers| && Selects(r, r', ts, spend, chosen) && i < |ts|
    ensures |r'.providers| == |r.providers| && r'.policy.allowPaid == r.policy.allowPaid
    ensures
      var p, p' := r.providers[i], r'.providers[i];
      && p' == p.(limiter := p'.limiter, breaker := p'.breaker)
      && p'.limiter.limit == p.limiter.limit && p'.limiter.window == p.limiter.window
      && (p'.breaker == p.breaker
          || (p.breaker.state.Open? && ts[i].breaker - p.breaker.lastFailAt > p.breaker.timeout
              && p'.breaker == p.breaker.(state := Breakers.HalfOpen)))
  {
    SelectionSound(r, r', ts, spend, chosen);
    assert chosen != Some(i) ==> Touched(r.providers[i], r'.providers[i], r.policy.allowPaid, ts[i]);
  }

  lemma SelectionKeepsNames(r: State, r': State, ts: seq<Readings>, spend: RateLimit.Tick, chosen: Option<nat>)
    requires |ts| == |r.providers| && Selects(r, r', ts, spend, chosen)
    ensures |r'.providers| == |r.providers| && Names(r'.providers) == Names(r.providers)
    ensures r'.policy.allowPaid == r.policy.allowPaid && (r.policy.RoundRobin? ==> r'.policy.RoundRobin?)
  {
    SelectionSound(r, r', ts, spend, chosen);
    forall i: nat | i < |r.providers| ensures r'.providers[i].name == r.providers[i].name {
      if chosen != Some(i) {
        assert Touched(r.providers[i], r'.providers[i], r.policy.allowPaid, ts[i]);
      }
    }
  }

  lemma ReportsKeepNames(vs: seq<Provider>, name: string, r: Report)
    ensures Names(AfterReport(vs, name, r)) == Names(vs)
  {
  }

  /** The router returns no provider that its breaker's history of reports does not admit. */
  lemma SelectionAdmitted(r: State, r': State, ts: seq<Readings>, spend: RateLimit.Tick, c: nat,
                          threshold: int, timeout: int, ops: seq<Breakers.Op>)
    requires |ts| == |r.providers| && Selects(r, r', ts, spend, Some(c))
    requires c < |ts| && Breakers.Clocked(ops, ts[c].breaker)
    requires r.providers[c].breaker == Breakers.Exec(Breakers.New(threshold, timeout), ops)
    ensures Breakers.Admits(Breakers.Reports(ops), threshold, timeout, ts[c].breaker)
  {
    SelectionSound(r, r', ts, spend, Some(c));
    Breakers.RefinesHistory(threshold, timeout, ops, ts[c].breaker);
  }

  // ----- runs -----

  datatype Event =
    | Selection(ts: seq<Readings>, spend: RateLimit.Tick, chosen: Option<nat>)
    | Query(ticks: seq<RateLimit.Tick>)
    | Reporting(name: string, report: Report)

  ghost predicate Follows(r: State, e: Event, r': State) {
    match e
    case Selection(ts, spend, chosen) => |ts| == |r.providers| && Selects(r, r', ts, spend, chosen)
    case Query(ticks) => |ticks| == |r.providers| && r' == r.(providers := Queried(r.providers, ticks))
    case Reporting(name, report) => r' == r.(providers := AfterReport(r.providers, name, report))
  }

  /** `trace` lists the router's states before, between and after the events. */
  ghost predicate Run(trace: seq<State>, es: seq<Event>) {
    && |trace| == |es| + 1
    && forall k :: 0 <= k < |es| ==> Follows(trace[k], es[k], trace[k + 1])
  }

  /** The readings of one event on provider i, none before `from`; the last of them. */
  function LastReading(e: Event, i: nat, from: int): int {
    match e
    case Selection(ts, spend, _) => spend.later
    case Query(ticks) => if i < |ticks| then ticks[i].later else from
    case Reporting(_, _) => from
  }

  predicate EventClocked(e: Event, i: nat, from: int) {
    match e
    case Selection(ts, spend, _) =>
      i < |ts| ==>
        && from <= ts[i].limit.now <= ts[i].limit.later <= ts[i].snap.now
        && ts[i].snap.now <= ts[i].snap.later <= spend.now <= spend.later
    case Query(ticks) => i < |ticks| ==> from <= ticks[i].now <= ticks[i].later
    case Reporting(_, _) => true
  }

  /** The clock readings made on provider i never go backwards along the run. */
  predicate RunClocked(es: seq<Event>, i: nat, from: int)
    decreases es
  {
    es == [] || (EventClocked(es[0], i, from) && RunClocked(es[1..], i, LastReading(es[0], i, from)))
  }

  /** How often provider i is selected in the closed interval [a, b]. */
  function TimesSelected(es: seq<Event>, i: nat, a: int, b: int): nat
    decreases es
  {
    if es == [] then 0
    else
      var e := es[0];
      (if e.Selection? && e.chosen == Some(i) && a <= e.spend.now <= b then 1 else 0)
      + TimesSelected(es[1..], i, a, b)
  }

  /** The limiter steps one event makes on provider i. */
  lemma EventSteps(r: State, e: Event, r': State, i: nat, from: int, a: int, b: int)
    returns (es: seq<RateLimit.Step>)
    requires Follows(r, e, r') && i < |r.providers| && EventClocked(e, i, from)
    requires r.providers[i].limiter.Valid()
    ensures |r'.providers| == |r.providers| && r'.providers[i].limiter.Valid()
    ensures
      var s := RateLimit.Slot(r.providers[i].limiter, false);
      && RateLimit.Run(s, es)
      && RateLimit.Exec(s, es) == RateLimit.Slot(r'.providers[i].limiter, false)
    ensures RateLimit.Clocked(es) && from <= LastReading(e, i, from)
    ensures forall k :: 0 <= k < |es| ==> from <= es[k].t.now && es[k].t.later <= LastReading(e, i, from)
    ensures RateLimit.Selections(es, a, b) == TimesSelected([e], i, a, b)
  {
    match e {
      case Reporting(name, report) => es := [];
      case Query(ticks) => es := [RateLimit.Probe(ticks[i])];
      case Selection(ts, spend, chosen) => es := SelectionSteps(r, r', ts, spend, chosen, i, a, b);
    }
  }

  lemma SelectionSteps(r: State, r': State, ts: seq<Readings>, spend: RateLimit.Tick, chosen: Option<nat>,
                       i: nat, a: int, b: int)
    returns (es: seq<RateLimit.Step>)
    requires |ts| == |r.providers| && Selects(r, r', ts, spend, chosen) && i < |ts|
    requires EventClocked(Selection(ts, spend, chosen), i, ts[i].limit.now)
    requires r.providers[i].limiter.Valid()
    ensures |r'.providers| == |r.providers| && r'.providers[i].limiter.Valid()
    ensures
      var s := RateLimit.Slot(r.providers[i].limiter, false);
      && RateLimit.Run(s, es)
      && RateLimit.Exec(s, es) == RateLimit.Slot(r'.providers[i].limiter, false)
    ensures RateLimit.Clocked(es)
    ensures forall k :: 0 <= k < |es| ==> ts[i].limit.now <= es[k].t.now && es[k].t.later <= spend.later
    ensures RateLimit.Selections(es, a, b) == (if chosen == Some(i) && a <= spend.now <= b then 1 else 0)
  {
    SelectionSound(r, r', ts, spend, chosen);
    var p, p', t, paid := r.providers[i], r'.providers[i], ts[i], r.policy.allowPaid;
    if chosen == Some(i) {
      es := ChosenSteps(p.limiter, p'.limiter, t, spend, a, b);
    } else {
      es := PassedOverSteps(p.limiter, p'.limiter, t, a, b);
    }
  }

  lemma ChosenSteps(l: RateLimit.Limiter, l': RateLimit.Limiter, t: Readings, spend: RateLimit.Tick, a: int, b: int)
    returns (es: seq<RateLimit.Step>)
    requires l.Valid() && RateLimit.CheckReset(l, t.limit).remaining > 0
    requires EventClocked(Selection([t], spend, None), 0, t.limit.now)
    requires
      var probed := RateLimit.CheckReset(l, t.limit);
      l' == RateLimit.Consume(probed, spend) || l' == RateLimit.Consume(RateLimit.CheckReset(probed, t.snap), spend)
    ensures l'.Valid()
    ensures
      var s := RateLimit.Slot(l, false);
      RateLimit.Run(s, es) && RateLimit.Exec(s, es) == RateLimit.Slot(l', false)
    ensures RateLimit.Clocked(es)
    ensures forall k :: 0 <= k < |es| ==> t.limit.now <= es[k].t.now && es[k].t.later <= spend.later
    ensures RateLimit.Selections(es, a, b) == (if a <= spend.now <= b then 1 else 0)
  {
    var s := RateLimit.Slot(l, false);
    es := Then(s, [], RateLimit.Choose(t.limit), a, b);
    if l' != RateLimit.Consume(RateLimit.CheckReset(l, t.limit), spend) {
      es := Then(s, es, RateLimit.Probe(t.snap), a, b);
    }
    es := Then(s, es, RateLimit.Spend(spend), a, b);
  }

  lemma PassedOverSteps(l: RateLimit.Limiter, l': RateLimit.Limiter, t: Readings, a: int, b: int)
    returns (es: seq<RateLimit.Step>)
    requires l.Valid()
    requires t.limit.now <= t.limit.later <= t.snap.now <= t.snap.later
    requires
      var probed := RateLimit.CheckReset(l, t.limit);
      l' == l || l' == probed || l' == RateLimit.CheckReset(probed, t.snap)
    ensures l'.Valid()
    ensures
      var s := RateLimit.Slot(l, false);
      RateLimit.Run(s, es) && RateLimit.Exec(s, es) == RateLimit.Slot(l', false)
    ensures RateLimit.Clocked(es)
    ensures forall k :: 0 <= k < |es| ==> t.limit.now <= es[k].t.now && es[k].t.later <= t.snap.later
    ensures RateLimit.Selections(es, a, b) == 0
  {
    var s := RateLimit.Slot(l, false);
    es := [];
    if l' != l {
      es := Then(s, es, RateLimit.Probe(t.limit), a, b);
      if l' != RateLimit.CheckReset(l, t.limit) {
        es := Then(s, es, RateLimit.Probe(t.snap), a, b);
      }
    }
  }

  lemma Then(s: RateLimit.Slot, es: seq<RateLimit.Step>, e: RateLimit.Step, a: int, b: int)
    returns (es': seq<RateLimit.Step>)
    requires RateLimit.Run(s, es) && RateLimit.Enabled(RateLimit.Exec(s, es), e)
    ensures es' == es + [e]
    ensures RateLimit.Run(s, es') && RateLimit.Exec(s, es') == RateLimit.Apply(RateLimit.Exec(s, es), e)
    ensures RateLimit.Selections(es', a, b)
         == RateLimit.Selections(es, a, b) + if e.Spend? && a <= e.t.now <= b then 1 else 0
  {
    RateLimit.RunThen(s, es, e, a, b);
    es' := es + [e];
  }

  /** A router run, seen from provider i's limiter, is a limiter run with the same selections. */
  lemma {:induction false} Project(trace: seq<State>, es: seq<Event>, i: nat, from: int, a: int, b: int)
    returns (steps: seq<RateLimit.Step>)
    requires Run(trace, es) && i < |trace[0].providers| && RunClocked(es, i, from)
    requires trace[0].providers[i].limiter.Valid()
    ensures RateLimit.Run(RateLimit.Slot(trace[0].providers[i].limiter, false), steps)
    ensures RateLimit.Clocked(steps) && forall k :: 0 <= k < |steps| ==> from <= steps[k].t.now
    ensures RateLimit.Selections(steps, a, b) == TimesSelected(es, i, a, b)
    decreases es
  {
    if es == [] {
      steps := [];
    } else {
      assert Follows(trace[0], es[0], trace[1]);
      var first := EventSteps(trace[0], es[0], trace[1], i, from, a, b);
      assert Run(trace[1..], es[1..]) by {
        forall k | 0 <= k < |es| - 1 ensures Follows(trace[1..][k], es[1..][k], trace[1..][k + 1]) {
          assert Follows(trace[k + 1], es[k + 1], trace[k + 2]);
        }
      }
      var rest := Project(trace[1..], es[1..], i, LastReading(es[0], i, from), a, b);
      RateLimit.RunsCompose(RateLimit.Slot(trace[0].providers[i].limiter, false), first, rest, a, b);
      steps := first + rest;
    }
  }

  /**
   The rate bound of the whole router: over any run, whatever the strategy, each provider is selected
   at most limit * (1 + ceil(len / (window + 1))) times in any closed interval of length `len`.
   */
  lemma RouterRateBound(trace: seq<State>, es: seq<Event>, i: nat, from: int, a: int, len: nat)
    requires Run(trace, es) && i < |trace[0].providers| && RunClocked(es, i, from)
    requires trace[0].providers[i].limiter.Valid() && trace[0].providers[i].limiter.window > 0
    ensures
      var l := trace[0].providers[i].limiter;
      TimesSelected(es, i, a, a + len) <= RateLimit.Most(l.limit, l.window, len)
  {
    var steps := Project(trace, es, i, from, a, a + len);
    RateLimit.RateBound(RateLimit.Slot(trace[0].providers[i].limiter, false), steps, a, len);
  }

  // ----- breakers over runs -----

  /** What one event reports to the breaker of provider i; a success is dated by the last reading before it. */
  function ReportTo(names: seq<string>, e: Event, i: nat, last: int): seq<Breakers.Op> {
    if !e.Reporting? || LastNamed(names, e.name) != Some(i) then []
    else
      match e.report
      case Success(_) => [Breakers.Succeeded(last)]
      case Failure(at) => [Breakers.Failed(at)]
      case _ => []
  }

  /** The last clock reading made on the breaker of provider i, `from` if there is none. */
  function BreakerTime(names: seq<string>, es: seq<Event>, i: nat, from: int): int {
    if es == [] then from
    else
      var e, before := es[|es| - 1], BreakerTime(names, es[..|es| - 1], i, from);
      match e
      case Selection(ts, _, _) => if i < |ts| then ts[i].breaker else before
      case Reporting(name, Failure(at)) => if LastNamed(names, name) == Some(i) then at else before
      case _ => before
  }

  /** Those readings never go backwards along the run. */
  predicate BreakerClocked(names: seq<string>, es: seq<Event>, i: nat, from: int) {
    es == []
    || (&& BreakerClocked(names, es[..|es| - 1], i, from)
        && BreakerTime(names, es[..|es| - 1], i, from) <= BreakerTime(names, es, i, from))
  }

  /** All that the run reports to the breaker of provider i. */
  function History(names: seq<string>, es: seq<Event>, i: nat, from: int): seq<Breakers.Op> {
    if es == [] then []
    else
      var before := es[..|es| - 1];
      History(names, before, i, from) + ReportTo(names, es[|es| - 1], i, BreakerTime(names, before, i, from))
  }

  lemma EventKeepsNames(r: State, e: Event, r': State)
    requires Follows(r, e, r')
    ensures |r'.providers| == |r.providers| && Names(r'.providers) == Names(r.providers)
  {
    match e {
      case Selection(ts, spend, chosen) => SelectionKeepsNames(r, r', ts, spend, chosen);
      case Query(ticks) =>
      case Reporting(name, report) => ReportsKeepNames(r.providers, name, report);
    }
  }

  /** One event, as steps of one breaker: at most a probe or a report. */
  lemma BreakerStep(r: State, e: Event, r': State, i: nat, last: int) returns (op: seq<Breakers.Op>)
    requires Follows(r, e, r') && i < |r.providers|
    ensures |r'.providers| == |r.providers| && |op| <= 1
    ensures r'.providers[i].breaker
         == if op == [] then r.providers[i].breaker else Breakers.Apply(r.providers[i].breaker, op[0])
    ensures op == ReportTo(Names(r.providers), e, i, last)
         || (e.Selection? && i < |e.ts| && op == [Breakers.Probed(e.ts[i].breaker)])
  {
    EventKeepsNames(r, e, r');
    if e.Selection? {
      SelectionSound(r, r', e.ts, e.spend, e.chosen);
      assert e.chosen != Some(i) ==> Touched(r.providers[i], r'.providers[i], r.policy.allowPaid, e.ts[i]);
      op := if r'.providers[i].breaker == r.providers[i].breaker then [] else [Breakers.Probed(e.ts[i].breaker)];
    } else {
      op := ReportTo(Names(r.providers), e, i, last);
    }
  }

  lemma OneMoreOp(threshold: int, timeout: int, ops: seq<Breakers.Op>, op: Breakers.Op, until: int)
    requires Breakers.Clocked(ops, until) && until <= op.at
    ensures
      var b, longer := Breakers.New(threshold, timeout), ops + [op];
      && Breakers.Clocked(longer, op.at)
      && Breakers.Exec(b, longer) == Breakers.Apply(Breakers.Exec(b, ops), op)
      && Breakers.Reports(longer) == Breakers.Reports(ops) + if op.Probed? then [] else [op]
  {
    assert (ops + [op])[..|ops|] == ops;
  }

  /** A router run, seen from provider i's breaker, is a breaker run with the reports made under its name. */
  lemma {:induction false} BreakerFollowsHistory(trace: seq<State>, es: seq<Event>, i: nat, from: int,
                                                 threshold: int, timeout: int)
    returns (ops: seq<Breakers.Op>)
    requires Run(trace, es) && i < |trace[0].providers|
    requires trace[0].providers[i].breaker == Breakers.New(threshold, timeout)
    requires BreakerClocked(Names(trace[0].providers), es, i, from)
    ensures Names(trace[|es|].providers) == Names(trace[0].providers) && i < |trace[|es|].providers|
    ensures trace[|es|].providers[i].breaker == Breakers.Exec(Breakers.New(threshold, timeout), ops)
    ensures Breakers.Reports(ops) == History(Names(trace[0].providers), es, i, from)
    ensures Breakers.Clocked(ops, BreakerTime(Names(trace[0].providers), es, i, from))
    decreases |es|
  {
    if es == [] {
      ops := [];
    } else {
      var n, names := |es| - 1, Names(trace[0].providers);
      assert Run(trace[..n + 1], es[..n]) by {
        assert forall k :: 0 <= k < n ==> Follows(trace[k], es[k], trace[k + 1]);
      }
      ops := BreakerFollowsHistory(trace[..n + 1], es[..n], i, from, threshold, timeout);
      assert Follows(trace[n], es[n], trace[n + 1]);
      EventKeepsNames(trace[n], es[n], trace[n + 1]);
      var last := BreakerTime(names, es[..n], i, from);
      var op := BreakerStep(trace[n], es[n], trace[n + 1], i, last);
      if op != [] {
        assert op == [op[0]];
        OneMoreOp(threshold, timeout, ops, op[0], last);
        ops := ops + op;
      }
    }
  }

  /**
   The breaker rule for the whole router: whatever came before, a selection returns provider i only if
   the formula over the reports made under its name admits it at that moment.
   */
  lemma RouterHonoursHistory(trace: seq<State>, es: seq<Event>, i: nat, from: int, threshold: int, timeout: int)
    requires Run(trace, es) && i < |trace[0].providers| && es != []
    requires trace[0].providers[i].breaker == Breakers.New(threshold, timeout)
    requires BreakerClocked(Names(trace[0].providers), es, i, from)
    requires es[|es| - 1].Selection? && es[|es| - 1].chosen == Some(i) && i < |es[|es| - 1].ts|
    ensures Breakers.Admits(History(Names(trace[0].providers), es[..|es| - 1], i, from), threshold, timeout,
                            es[|es| - 1].ts[i].breaker)
  {
    var n := |es| - 1;
    assert Run(trace[..n + 1], es[..n]) by {
      assert forall k :: 0 <= k < n ==> Follows(trace[k], es[k], trace[k + 1]);
    }
    var ops := BreakerFollowsHistory(trace[..n + 1], es[..n], i, from, threshold, timeout);
    assert Follows(trace[n], es[n], trace[n + 1]);
    SelectionAdmitted(trace[n], trace[n + 1], es[n].ts, es[n].spend, i, threshold, timeout, ops);
  }

  // ----- what never changes -----

  /** What is fixed when a provider is registered. */
  predicate SameProvider(p: Provider, p': Provider) {
    && p'.name == p.name && p'.paid == p.paid && p'.priority == p.priority && p'.cost == p.cost
    && p'.enabled == p.enabled
  }

  ghost predicate SameProviders(r: State, r': State) {
    && |r'.providers| == |r.providers| && r'.policy.allowPaid == r.policy.allowPaid
    && forall i :: 0 <= i < |r.providers| ==> SameProvider(r.providers[i], r'.providers[i])
  }

  lemma EventKeepsProviders(r: State, e: Event, r': State)
    requires Follows(r, e, r')
    ensures SameProviders(r, r')
  {
    if e.Selection? {
      SelectionSound(r, r', e.ts, e.spend, e.chosen);
      forall i: nat | i < |r.providers| ensures SameProvider(r.providers[i], r'.providers[i]) {
        SelectionTouches(r, r', e.ts, e.spend, e.chosen, i);
      }
    }
  }

  lemma {:induction false} RunKeepsProviders(trace: seq<State>, es: seq<Event>, k: nat)
    requires Run(trace, es) && k <= |es|
    ensures SameProviders(trace[0], trace[k])
  {
    if k > 0 {
      RunKeepsProviders(trace, es, k - 1);
      assert Follows(trace[k - 1], es[k - 1], trace[k]);
      EventKeepsProviders(trace[k - 1], es[k - 1], trace[k]);
    }
  }

  /**
   Over any run, every selection takes a provider that was enabled and allowed from the start, has fewer
   than five outliers in a row behind it, a breaker that is not open within its timeout, and a token.
   */
  lemma RunSelectsEligible(trace: seq<State>, es: seq<Event>, k: nat, i: nat)
    requires Run(trace, es) && k < |es| && es[k].Selection? && es[k].chosen == Some(i)
    ensures i < |trace[0].providers| == |trace[k].providers| == |es[k].ts|
    ensures trace[0].providers[i].enabled && (trace[0].providers[i].paid ==> trace[0].policy.allowPaid)
    ensures trace[k].providers[i].record.outliers < 5
    ensures !Barred(trace[k].providers[i], trace[0].policy.allowPaid, es[k].ts[i])
  {
    RunKeepsProviders(trace, es, k);
    assert Follows(trace[k], es[k], trace[k + 1]);
    SelectionInFull(trace[k], trace[k + 1], es[k].ts, es[k].spend, es[k].chosen);
    assert SameProvider(trace[0].providers[i], trace[k].providers[i]);
  }
}
