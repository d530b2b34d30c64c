/**
 Selections taken apart. Reports and status queries do not take the router's mutex, so they fall between
 the availability checks of a selection and its spending of a token. Here a selection is one step for each
 provider it visits, in any order, and one to take a token of a provider found available; everything else
 may happen in between. The rate bound and the breaker rule hold for these runs too.
 */
module RouterInterleavings {
  import opened Common
  import opened Providers
  import opened Strategies
  import opened Router
  import RouterRuns
  import RateLimit
  import Breakers

  datatype Step =
    | Enter                                 // a selection takes the mutex
    | Visit(i: nat, t: Readings)            // and checks whether a provider is available
    | Snap(i: nat, t: Readings)             // or takes a snapshot of one that is
    | Take(i: nat, spend: RateLimit.Tick)   // it takes a token of one, and releases the mutex
    | GiveUp                                // or releases it without
    | Query(i: nat, tick: RateLimit.Tick)   // a status query asks one limiter
    | Reporting(name: string, report: Report)

  /** The providers; whether a selection is under way; and which it has found available so far. */
  datatype Fine = Fine(providers: seq<Provider>, allowPaid: bool, busy: bool, found: set<nat>)

  predicate Enabled(s: Fine, e: Step) {
    match e
    case Enter => !s.busy
    case Visit(i, _) => s.busy && i < |s.providers|
    case Snap(i, _) => s.busy && i < |s.providers| && i in s.found
    case Take(i, _) => s.busy && i < |s.providers| && i in s.found
    case GiveUp => s.busy
    case Query(i, _) => i < |s.providers|
    case Reporting(_, _) => true
  }

  function Apply(s: Fine, e: Step): Fine
    requires Enabled(s, e)
  {
    var ps := s.providers;
    match e
    case Enter => s.(busy := true, found := {})
    case Visit(i, t) =>
      s.(providers := ps[i := Probed(ps[i], s.allowPaid, t)],
         found := if Available(ps[i], s.allowPaid, t) then s.found + {i} else s.found)
    case Snap(i, t) => s.(providers := ps[i := Snapped(ps[i], t)])
    case Take(i, spend) => s.(providers := ps[i := Spent(ps[i], spend)], busy := false, found := {})
    case GiveUp => s.(busy := false, found := {})
    case Query(i, tick) => s.(providers := ps[i := ps[i].(limiter := RateLimit.CheckReset(ps[i].limiter, tick))])
    case Reporting(name, report) => s.(providers := AfterReport(ps, name, report))
  }

  ghost predicate Run(s: Fine, es: seq<Step>)
    decreases es
  {
    es == [] || (Enabled(s, es[0]) && Run(Apply(s, es[0]), es[1..]))
  }

  ghost function Exec(s: Fine, es: seq<Step>): Fine
    requires Run(s, es)
    decreases es
  {
    if es == [] then s else Exec(Apply(s, es[0]), es[1..])
  }

  lemma {:induction false} RunThen(s: Fine, es: seq<Step>, fs: seq<Step>)
    requires Run(s, es) && Run(Exec(s, es), fs)
    ensures Run(s, es + fs) && Exec(s, es + fs) == Exec(Exec(s, es), fs)
    decreases es
  {
    if es == [] {
      assert es + fs == fs;
    } else {
      assert (es + fs)[1..] == es[1..] + fs;
      RunThen(Apply(s, es[0]), es[1..], fs);
    }
  }

  lemma {:induction false} RunBefore(s: Fine, es: seq<Step>, k: nat)
    requires Run(s, es) && k <= |es|
    ensures Run(s, es[..k]) && Run(Exec(s, es[..k]), es[k..]) && Exec(s, es) == Exec(Exec(s, es[..k]), es[k..])
    decreases es
  {
    if k > 0 {
      RunBefore(Apply(s, es[0]), es[1..], k - 1);
      assert es[..k][1..] == es[1..][..k - 1] && es[1..][k - 1..] == es[k..];
    }
  }

  lemma LastStep(s: Fine, es: seq<Step>)
    requires Run(s, es) && es != []
    ensures
      var n := |es| - 1;
      Run(s, es[..n]) && Enabled(Exec(s, es[..n]), es[n]) && Exec(s, es) == Apply(Exec(s, es[..n]), es[n])
  {
    var n := |es| - 1;
    RunBefore(s, es, n);
    assert es[n..] == [es[n]] && [es[n]][1..] == [];
    assert Exec(Apply(Exec(s, es[..n]), es[n]), []) == Apply(Exec(s, es[..n]), es[n]);
  }

  // ----- an atomic selection is such a run -----

  function Idle(r: State): Fine {
    Fine(r.providers, r.policy.allowPaid, false, {})
  }

  /** The steps that turn one provider into what a scan has left of it. */
  function StepsOn(p: Provider, p': Provider, allowPaid: bool, i: nat, t: Readings): seq<Step> {
    if p' == Probed(p, allowPaid, t) then [Visit(i, t)]
    else if p' == Weighed(p, allowPaid, t) then [Visit(i, t), Snap(i, t)]
    else []
  }

  /** The provider was available when the scan came to it. */
  predicate SeenUp(p: Provider, p': Provider, allowPaid: bool, t: Readings) {
    Available(p, allowPaid, t) && (p' == Probed(p, allowPaid, t) || p' == Weighed(p, allowPaid, t))
  }

  /** What a scan has left of the first k providers. */
  function Partly(before: seq<Provider>, after: seq<Provider>, k: nat): seq<Provider>
    requires k <= |before| == |after|
  {
    after[..k] + before[k..]
  }

  lemma VisitOne(s: Fine, p': Provider, i: nat, t: Readings)
    requires s.busy && i < |s.providers| && RouterRuns.Touched(s.providers[i], p', s.allowPaid, t)
    ensures
      var es := StepsOn(s.providers[i], p', s.allowPaid, i, t);
      && Run(s, es)
      && Exec(s, es).providers == s.providers[i := p'] && Exec(s, es).busy && Exec(s, es).allowPaid == s.allowPaid
      && s.found <= Exec(s, es).found
      && (SeenUp(s.providers[i], p', s.allowPaid, t) ==> i in Exec(s, es).found)
  {
    var p, es := s.providers[i], StepsOn(s.providers[i], p', s.allowPaid, i, t);
    if es != [] {
      var s1 := Apply(s, Visit(i, t));
      assert es[1..] == [] || es[1..] == [Snap(i, t)];
      if |es| == 2 {
        var s2 := Apply(s1, Snap(i, t));
        assert [Snap(i, t)][1..] == [] && Run(s2, []) && Exec(s2, []) == s2;
        assert Run(s1, es[1..]) && Exec(s1, es[1..]) == s2;
      } else {
        assert Run(s1, []) && Exec(s1, []) == s1;
      }
    } else {
      assert s.providers[i := p'] == s.providers;
    }
  }

  lemma {:induction false} VisitAll(s: Fine, after: seq<Provider>, ts: seq<Readings>, k: nat) returns (es: seq<Step>)
    requires s.busy && k <= |after| == |s.providers| == |ts|
    requires forall i :: 0 <= i < k ==> RouterRuns.Touched(s.providers[i], after[i], s.allowPaid, ts[i])
    ensures Run(s, es) && Exec(s, es).busy && Exec(s, es).allowPaid == s.allowPaid
    ensures Exec(s, es).providers == Partly(s.providers, after, k)
    ensures forall i: nat :: i < k && SeenUp(s.providers[i], after[i], s.allowPaid, ts[i]) ==> i in Exec(s, es).found
  {
    if k == 0 {
      es := [];
    } else {
      es := VisitAll(s, after, ts, k - 1);
      var m, i := Exec(s, es), k - 1;
      assert m.providers[i] == s.providers[i];
      VisitOne(m, after[i], i, ts[i]);
      RunThen(s, es, StepsOn(m.providers[i], after[i], s.allowPaid, i, ts[i]));
      es := es + StepsOn(m.providers[i], after[i], s.allowPaid, i, ts[i]);
      assert Partly(s.providers, after, k) == Partly(s.providers, after, i)[i := after[i]];
    }
  }

  /** What the scan has left, before the token is taken. */
  function Scanned(r: State, r': State, ts: seq<Readings>, spend: RateLimit.Tick, chosen: Option<nat>): seq<Provider>
    requires |r.providers| == |r'.providers| == |ts|
  {
    if chosen.None? || chosen.value >= |ts| then r'.providers
    else
      var c := chosen.value;
      var probed := Probed(r.providers[c], r.policy.allowPaid, ts[c]);
      var weighed := Weighed(r.providers[c], r.policy.allowPaid, ts[c]);
      r'.providers[c := if r'.providers[c] == Spent(probed, spend) then probed else weighed]
  }

  lemma ScannedFacts(r: State, r': State, ts: seq<Readings>, spend: RateLimit.Tick, chosen: Option<nat>)
    requires |ts| == |r.providers| && Selects(r, r', ts, spend, chosen)
    ensures |r'.providers| == |r.providers| && r'.policy.allowPaid == r.policy.allowPaid
    ensures
      var after := Scanned(r, r', ts, spend, chosen);
      && |after| == |ts| && TakeToken(after, chosen, spend) == r'.providers
      && (forall i :: 0 <= i < |ts| ==>
            RouterRuns.Touched(r.providers[i], after[i], r.policy.allowPaid, ts[i]))
      && (chosen.Some? ==>
            && chosen.value < |ts|
            && SeenUp(r.providers[chosen.value], after[chosen.value], r.policy.allowPaid, ts[chosen.value]))
  {
    RouterRuns.SelectionSound(r, r', ts, spend, chosen);
    var after := Scanned(r, r', ts, spend, chosen);
    forall i: nat | i < |ts| ensures RouterRuns.Touched(r.providers[i], after[i], r.policy.allowPaid, ts[i]) {
      if chosen != Some(i) {
        assert RouterRuns.Touched(r.providers[i], r'.providers[i], r.policy.allowPaid, ts[i]);
      }
    }
  }

  /** The step that ends a scan. */
  function Last(chosen: Option<nat>, spend: RateLimit.Tick): Step {
    if chosen.Some? then Take(chosen.value, spend) else GiveUp
  }

  lemma EndsScan(s: Fine, chosen: Option<nat>, spend: RateLimit.Tick)
    requires s.busy && (chosen.Some? ==> chosen.value < |s.providers| && chosen.value in s.found)
    ensures Run(s, [Last(chosen, spend)])
    ensures Exec(s, [Last(chosen, spend)]) == Fine(TakeToken(s.providers, chosen, spend), s.allowPaid, false, {})
  {
    var last := Last(chosen, spend);
    assert [last][1..] == [] && Exec(Apply(s, last), []) == Apply(s, last);
  }

  lemma StartsScan(r: State, es: seq<Step>)
    requires Run(Apply(Idle(r), Enter), es)
    ensures Run(Idle(r), [Enter] + es) && Exec(Idle(r), [Enter] + es) == Exec(Apply(Idle(r), Enter), es)
  {
    assert ([Enter] + es)[1..] == es;
  }

  /** Every selection of every strategy, undisturbed, is a run of visits that ends with a token taken or with none. */
  lemma SelectionUnfolds(r: State, r': State, ts: seq<Readings>, spend: RateLimit.Tick, chosen: Option<nat>)
    returns (es: seq<Step>)
    requires |ts| == |r.providers| && Selects(r, r', ts, spend, chosen)
    ensures Run(Idle(r), es) && Exec(Idle(r), es) == Idle(r')
    ensures es != [] && es[|es| - 1] == Last(chosen, spend)
  {
    ScannedFacts(r, r', ts, spend, chosen);
    var after, entered := Scanned(r, r', ts, spend, chosen), Apply(Idle(r), Enter);
    var visits := VisitAll(entered, after, ts, |ts|);
    assert Partly(r.providers, after, |ts|) == after;
    EndsScan(Exec(entered, visits), chosen, spend);
    RunThen(entered, visits, [Last(chosen, spend)]);
    StartsScan(r, visits + [Last(chosen, spend)]);
    es := [Enter] + (visits + [Last(chosen, spend)]);
  }

  // ----- the rate bound -----

  /** The reading a step makes on the limiter of provider i, if any. */
  function ReadingOn(e: Step, i: nat): Option<RateLimit.Tick> {
    match e
    case Visit(j, t) => if j == i then Some(t.limit) else None
    case Snap(j, t) => if j == i then Some(t.snap) else None
    case Take(j, spend) => if j == i then Some(spend) else None
    case Query(j, tick) => if j == i then Some(tick) else None
    case _ => None
  }

  /** Those readings never go backwards. */
  predicate LimiterClocked(es: seq<Step>, i: nat, from: int)
    decreases es
  {
    es == []
    || match ReadingOn(es[0], i)
       case None => LimiterClocked(es[1..], i, from)
       case Some(t) => from <= t.now <= t.later && LimiterClocked(es[1..], i, t.later)
  }

  /** How often provider i is selected in the closed interval [a, b]. */
  function TimesTaken(es: seq<Step>, i: nat, a: int, b: int): nat
    decreases es
  {
    if es == [] then 0
    else (if es[0].Take? && es[0].i == i && a <= es[0].spend.now <= b then 1 else 0) + TimesTaken(es[1..], i, a, b)
  }

  /** The selection under way, if any, will end by taking a token of provider i. */
  predicate WillTake(es: seq<Step>, i: nat)
    decreases es
  {
    es != []
    && match es[0]
       case Take(j, _) => j == i
       case GiveUp => false
       case Enter => false
       case _ => WillTake(es[1..], i)
  }

  /** The limiter of provider i, held by the selection under way once that has found it available. */
  function SlotOf(s: Fine, es: seq<Step>, i: nat): RateLimit.Slot
    requires i < |s.providers|
  {
    RateLimit.Slot(s.providers[i].limiter, s.busy && i in s.found && WillTake(es, i))
  }

  /** A provider found available keeps a token while the selection lasts: only selections take any. */
  predicate KeepsToken(s: Fine, i: nat)
    requires i < |s.providers|
  {
    s.providers[i].limiter.Valid() && (s.busy && i in s.found ==> s.providers[i].limiter.remaining > 0)
  }

  /** The limiter step that one step of a run is. */
  lemma LimiterStep(s: Fine, es: seq<Step>, i: nat) returns (steps: seq<RateLimit.Step>)
    requires es != [] && Enabled(s, es[0]) && i < |s.providers| && KeepsToken(s, i)
    ensures i < |Apply(s, es[0]).providers| && KeepsToken(Apply(s, es[0]), i)
    ensures |steps| <= 1 && (steps != [] ==> ReadingOn(es[0], i) == Some(steps[0].t))
    ensures steps != [] ==> RateLimit.Enabled(SlotOf(s, es, i), steps[0])
    ensures SlotOf(Apply(s, es[0]), es[1..], i)
         == if steps == [] then SlotOf(s, es, i) else RateLimit.Apply(SlotOf(s, es, i), steps[0])
    ensures (steps != [] && steps[0].Spend?) <==> es[0].Take? && es[0].i == i
  {
    var e, s' := es[0], Apply(s, es[0]);
    steps := [];
    match e {
      case Visit(j, t) =>
        if j == i && s'.providers[i].limiter == RateLimit.CheckReset(s.providers[i].limiter, t.limit) {
          var chosen := SlotOf(s', es[1..], i).held && !SlotOf(s, es, i).held;
          steps := [if chosen then RateLimit.Choose(t.limit) else RateLimit.Probe(t.limit)];
        }
      case Snap(j, t) =>
        steps := if j == i then [RateLimit.Probe(t.snap)] else [];
      case Take(j, spend) =>
        steps := if j == i then [RateLimit.Spend(spend)] else [];
      case Query(j, tick) =>
        steps := if j == i then [RateLimit.Probe(tick)] else [];
      case _ =>
    }
  }

  /** A run, seen from one limiter, is a limiter run with the same selections. */
  lemma {:induction false} ProjectLimiter(s: Fine, es: seq<Step>, i: nat, from: int, a: int, b: int)
    returns (steps: seq<RateLimit.Step>)
    requires Run(s, es) && i < |s.providers| && KeepsToken(s, i) && LimiterClocked(es, i, from)
    ensures RateLimit.Run(SlotOf(s, es, i), steps) && RateLimit.Clocked(steps)
    ensures forall k :: 0 <= k < |steps| ==> from <= steps[k].t.now
    ensures RateLimit.Selections(steps, a, b) == TimesTaken(es, i, a, b)
    decreases es
  {
    steps := [];
    if es != [] {
      var first := LimiterStep(s, es, i);
      var next := if ReadingOn(es[0], i).Some? then ReadingOn(es[0], i).value.later else from;
      var rest := ProjectLimiter(Apply(s, es[0]), es[1..], i, next, a, b);
      Prepend(SlotOf(s, es, i), first, rest, from, next, a, b);
      steps := first + rest;
      assert ReadingOn(es[0], i).Some? && es[0].Take? ==> ReadingOn(es[0], i).value == es[0].spend;
    }
  }

  lemma Prepend(slot: RateLimit.Slot, first: seq<RateLimit.Step>, rest: seq<RateLimit.Step>, from: int, next: int,
                a: int, b: int)
    requires |first| <= 1 && from <= next
    requires first != [] ==> first[0].t.Ordered() && from <= first[0].t.now && first[0].t.later <= next
    requires if first == [] then RateLimit.Run(slot, rest)
             else RateLimit.Enabled(slot, first[0]) && RateLimit.Run(RateLimit.Apply(slot, first[0]), rest)
    requires RateLimit.Clocked(rest) && forall k :: 0 <= k < |rest| ==> next <= rest[k].t.now
    ensures RateLimit.Run(slot, first + rest) && RateLimit.Clocked(first + rest)
    ensures forall k :: 0 <= k < |first + rest| ==> from <= (first + rest)[k].t.now
    ensures RateLimit.Selections(first + rest, a, b) == RateLimit.Selections(rest, a, b)
      + if first != [] && first[0].Spend? && a <= first[0].t.now <= b then 1 else 0
  {
    if first == [] {
      assert first + rest == rest;
    } else {
      assert (first + rest)[1..] == rest;
    }
  }

  /** The rate bound, with reports and queries anywhere inside selections. */
  lemma InterleavedRateBound(s: Fine, es: seq<Step>, i: nat, from: int, a: int, len: nat)
    requires Run(s, es) && !s.busy && i < |s.providers| && LimiterClocked(es, i, from)
    requires s.providers[i].limiter.Valid() && s.providers[i].limiter.window > 0
    ensures
      var l := s.providers[i].limiter;
      TimesTaken(es, i, a, a + len) <= RateLimit.Most(l.limit, l.window, len)
  {
    var steps := ProjectLimiter(s, es, i, from, a, a + len);
    RateLimit.RateBound(SlotOf(s, es, i), steps, a, len);
  }

  // ----- the breaker rule -----

  /** What a step reports to the breaker of provider i. */
  function ToldBy(names: seq<string>, e: Step, i: nat, last: int): seq<Breakers.Op> {
    if e.Reporting? then RouterRuns.ReportTo(names, RouterRuns.Reporting(e.name, e.report), i, last) else []
  }

  /** The last clock reading made on the breaker of provider i, `from` if there is none. */
  function BreakerTime(names: seq<string>, es: seq<Step>, i: nat, from: int): int {
    if es == [] then from
    else
      var before := BreakerTime(names, es[..|es| - 1], i, from);
      match es[|es| - 1]
      case Visit(j, t) => if j == i then t.breaker else before
      case Reporting(name, Failure(at)) => if LastNamed(names, name) == Some(i) then at else before
      case _ => before
  }

  predicate BreakerClocked(names: seq<string>, es: seq<Step>, i: nat, from: int) {
    es == []
    || (&& BreakerClocked(names, es[..|es| - 1], i, from)
        && BreakerTime(names, es[..|es| - 1], i, from) <= BreakerTime(names, es, i, from))
  }

  /** All that the run reports to the breaker of provider i. */
  function History(names: seq<string>, es: seq<Step>, i: nat, from: int): seq<Breakers.Op> {
    if es == [] then []
    else
      var before := es[..|es| - 1];
      History(names, before, i, from) + ToldBy(names, es[|es| - 1], i, BreakerTime(names, before, i, from))
  }

  lemma StepKeepsNames(s: Fine, e: Step)
    requires Enabled(s, e)
    ensures |Apply(s, e).providers| == |s.providers| && Names(Apply(s, e).providers) == Names(s.providers)
  {
    if e.Reporting? {
      RouterRuns.ReportsKeepNames(s.providers, e.name, e.report);
    }
  }

  /** At most one step of the breaker: a probe, or the report made under its name. */
  lemma BreakerStep(s: Fine, e: Step, i: nat, last: int) returns (op: seq<Breakers.Op>)
    requires Enabled(s, e) && i < |s.providers|
    ensures |Apply(s, e).providers| == |s.providers| && |op| <= 1
    ensures Apply(s, e).providers[i].breaker
         == if op == [] then s.providers[i].breaker else Breakers.Apply(s.providers[i].breaker, op[0])
    ensures op == ToldBy(Names(s.providers), e, i, last)
         || (e.Visit? && e.i == i && op == [Breakers.Probed(e.t.breaker)])
  {
    var s' := Apply(s, e);
    op := ToldBy(Names(s.providers), e, i, last);
    if e.Visit? && e.i == i && s'.providers[i].breaker != s.providers[i].breaker {
      op := [Breakers.Probed(e.t.breaker)];
    }
  }

  /** Provider i's breaker has followed its history, all along the run. */
  lemma {:induction false} BreakerFollows(s: Fine, es: seq<Step>, i: nat, from: int, threshold: int, timeout: int)
    returns (ops: seq<Breakers.Op>)
    requires Run(s, es) && i < |s.providers| && BreakerClocked(Names(s.providers), es, i, from)
    requires s.providers[i].breaker == Breakers.New(threshold, timeout)
    ensures |Exec(s, es).providers| == |s.providers| && Names(Exec(s, es).providers) == Names(s.providers)
    ensures Exec(s, es).providers[i].breaker == Breakers.Exec(Breakers.New(threshold, timeout), ops)
    ensures Breakers.Reports(ops) == History(Names(s.providers), es, i, from)
    ensures Breakers.Clocked(ops, BreakerTime(Names(s.providers), es, i, from))
    decreases |es|
  {
    ops := [];
    if es != [] {
      var n, names := |es| - 1, Names(s.providers);
      LastStep(s, es);
      ops := BreakerFollows(s, es[..n], i, from, threshold, timeout);
      var before, last := Exec(s, es[..n]), BreakerTime(names, es[..n], i, from);
      StepKeepsNames(before, es[n]);
      var op := BreakerStep(before, es[n], i, last);
      if op != [] {
        assert op == [op[0]];
        RouterRuns.OneMoreOp(threshold, timeout, ops, op[0], last);
        ops := ops + op;
      }
    }
  }

  /** Step j found provider i available in the selection still under way, and its breaker's history admitted it. */
  ghost predicate AdmittedAt(names: seq<string>, es: seq<Step>, j: nat, i: nat, from: int, threshold: int,
                             timeout: int) {
    && j < |es| && es[j].Visit? && es[j].i == i
    && (forall m :: j < m < |es| ==> !es[m].Enter? && !es[m].Take? && !es[m].GiveUp?)
    && Breakers.Admits(History(names, es[..j], i, from), threshold, timeout, es[j].t.breaker)
  }

  lemma VisitAdmitted(s: Fine, es: seq<Step>, i: nat, t: Readings, from: int, threshold: int, timeout: int)
    requires Run(s, es) && i < |s.providers| && BreakerClocked(Names(s.providers), es + [Visit(i, t)], i, from)
    requires s.providers[i].breaker == Breakers.New(threshold, timeout)
    requires i < |Exec(s, es).providers| && Breakers.Allows(Exec(s, es).providers[i].breaker, t.breaker)
    ensures AdmittedAt(Names(s.providers), es + [Visit(i, t)], |es|, i, from, threshold, timeout)
  {
    var names := Names(s.providers);
    assert (es + [Visit(i, t)])[..|es|] == es;
    assert BreakerTime(names, es, i, from) <= t.breaker;
    var ops := BreakerFollows(s, es, i, from, threshold, timeout);
    Breakers.RefinesHistory(threshold, timeout, ops, t.breaker);
  }

  lemma AdmissionLasts(names: seq<string>, es: seq<Step>, e: Step, j: nat, i: nat, from: int, threshold: int,
                       timeout: int)
    requires AdmittedAt(names, es, j, i, from, threshold, timeout) && !e.Enter? && !e.Take? && !e.GiveUp?
    ensures AdmittedAt(names, es + [e], j, i, from, threshold, timeout)
  {
    assert (es + [e])[..j] == es[..j];
  }

  lemma {:induction false} FoundWasAdmitted(s: Fine, es: seq<Step>, i: nat, from: int, threshold: int, timeout: int)
    returns (j: nat)
    requires Run(s, es) && i < |s.providers| && BreakerClocked(Names(s.providers), es, i, from) && s.found == {}
    requires s.providers[i].breaker == Breakers.New(threshold, timeout) && i in Exec(s, es).found
    ensures AdmittedAt(Names(s.providers), es, j, i, from, threshold, timeout)
    decreases |es|
  {
    var n := |es| - 1;
    var before, e := es[..n], es[n];
    LastStep(s, es);
    assert es == before + [e];
    if i in Exec(s, before).found {
      j := FoundWasAdmitted(s, before, i, from, threshold, timeout);
      AdmissionLasts(Names(s.providers), before, e, j, i, from, threshold, timeout);
    } else {
      VisitAdmitted(s, before, i, e.t, from, threshold, timeout);
      j := n;
    }
  }

  /**
   The breaker rule, with reports anywhere inside selections: a provider whose token is taken was visited
   in the same selection at a moment when the formula over all reports made so far admitted it.
   */
  lemma TakenWasAdmitted(s: Fine, es: seq<Step>, i: nat, spend: RateLimit.Tick, from: int, threshold: int, timeout: int)
    returns (j: nat)
    requires Run(s, es + [Take(i, spend)]) && i < |s.providers| && s.found == {}
    requires BreakerClocked(Names(s.providers), es, i, from)
    requires s.providers[i].breaker == Breakers.New(threshold, timeout)
    ensures AdmittedAt(Names(s.providers), es, j, i, from, threshold, timeout)
  {
    LastStep(s, es + [Take(i, spend)]);
    assert (es + [Take(i, spend)])[..|es|] == es;
    j := FoundWasAdmitted(s, es, i, from, threshold, timeout);
  }

  // ----- eligibility -----

  lemma StepKeepsProviders(s: Fine, e: Step)
    requires Enabled(s, e)
    ensures |Apply(s, e).providers| == |s.providers| && Apply(s, e).allowPaid == s.allowPaid
    ensures forall i :: 0 <= i < |s.providers| ==> RouterRuns.SameProvider(s.providers[i], Apply(s, e).providers[i])
  {
  }

  /** Whatever a selection finds available was enabled and allowed from the start. */
  lemma {:induction false} FoundIsEligible(s: Fine, es: seq<Step>, i: nat)
    requires Run(s, es) && s.found == {} && i < |s.providers|
    ensures |Exec(s, es).providers| == |s.providers| && Exec(s, es).allowPaid == s.allowPaid
    ensures RouterRuns.SameProvider(s.providers[i], Exec(s, es).providers[i])
    ensures i in Exec(s, es).found ==> s.providers[i].enabled && (s.providers[i].paid ==> s.allowPaid)
    decreases |es|
  {
    if es != [] {
      var n := |es| - 1;
      LastStep(s, es);
      FoundIsEligible(s, es[..n], i);
      StepKeepsProviders(Exec(s, es[..n]), es[n]);
      if es[n].Visit? && es[n].i == i {
        AvailableUnlessBarred(Exec(s, es[..n]).providers[i], s.allowPaid, es[n].t);
      }
    }
  }

  /** So is every provider whose token is taken, whatever happens inside the selection. */
  lemma TakenIsEligible(s: Fine, es: seq<Step>, i: nat, spend: RateLimit.Tick)
    requires Run(s, es + [Take(i, spend)]) && s.found == {} && i < |s.providers|
    ensures s.providers[i].enabled && (s.providers[i].paid ==> s.allowPaid)
  {
    LastStep(s, es + [Take(i, spend)]);
    assert (es + [Take(i, spend)])[..|es|] == es;
    FoundIsEligible(s, es, i);
  }
}
