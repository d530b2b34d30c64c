/**
 The multi-provider router: selection and token consumption under one lock, reports routed by name.
 */
module Router {
  import opened Common
  import opened Providers
  import opened Strategies
  import RateLimit
  import Breakers
  import Latency

  // ----- values -----

  /** The configured strategy; only round robin has state of its own. */
  datatype Policy =
    | RoundRobin(index: nat, allowPaid: bool)
    | Smart(weights: Weights, allowPaid: bool)
    | Priority(allowPaid: bool)

  /** What a strategy may pick, and what its scan leaves behind. */
  ghost predicate Picks(s: Policy, s': Policy, vs: seq<Provider>, ts: seq<Readings>, r: Outcome)
    requires |ts| == |vs|
  {
    match s
    case RoundRobin(index, allowPaid) =>
      && r == RingScan(vs, ts, allowPaid, index, 0)
      && s' == RoundRobin(NextIndex(index, r.chosen, |vs|), allowPaid)
    case Smart(w, allowPaid) => s' == s && SmartOutcome(vs, ts, w, allowPaid, |vs|, r)
    case Priority(allowPaid) => s' == s && PriorityOutcome(vs, ts, allowPaid, r)
  }

  function TakeToken(vs: seq<Provider>, chosen: Option<nat>, t: RateLimit.Tick): seq<Provider> {
    if chosen.Some? && chosen.value < |vs| then vs[chosen.value := Spent(vs[chosen.value], t)] else vs
  }

  datatype State = State(policy: Policy, providers: seq<Provider>)

  /** One Select call: the strategy's scan, then one token taken from the provider it picked. */
  ghost predicate Selects(r: State, r': State, ts: seq<Readings>, spend: RateLimit.Tick, chosen: Option<nat>)
    requires |ts| == |r.providers|
  {
    exists scanned: seq<Provider> ::
      && Picks(r.policy, r'.policy, r.providers, ts, Outcome(scanned, chosen))
      && r'.providers == TakeToken(scanned, chosen, spend)
  }

  function Names(vs: seq<Provider>): seq<string> {
    seq(|vs|, i requires 0 <= i < |vs| => vs[i].name)
  }

  /** Where reports under `name` go to: the last of the names that equals it. */
  function LastNamed(names: seq<string>, name: string): (r: Option<nat>)
    ensures r.Some? ==> r.value < |names| && names[r.value] == name
    ensures r.Some? ==> forall i :: r.value < i < |names| ==> names[i] != name
    ensures r.None? ==> name !in names
  {
    if names == [] then None
    else if names[|names| - 1] == name then Some(|names| - 1)
    else LastNamed(names[..|names| - 1], name)
  }

  datatype Report = Success(ms: int) | Failure(at: int) | Accurate | Outlier

  function Reported(p: Provider, r: Report): Provider {
    match r
    case Success(ms) => Succeeded(p, ms as real)
    case Failure(at) => Failed(p, at)
    case Accurate => p.(record := Providers.Accurate(p.record))
    case Outlier => p.(record := Providers.Outlier(p.record))
  }

  /** A report under an unknown name changes nothing. */
  function AfterReport(vs: seq<Provider>, name: string, r: Report): (vs': seq<Provider>)
    ensures |vs'| == |vs|
  {
    match LastNamed(Names(vs), name)
    case None => vs
    case Some(i) => vs[i := Reported(vs[i], r)]
  }

  /**
   A report in the providers' own fields: it reaches the last provider of that name and no other. The
   average latency moves by three tenths of the way to a further sample.
   */
  lemma ReportInFull(vs: seq<Provider>, name: string, r: Report, i: nat)
    requires i < |vs|
    ensures
      var p, p' := vs[i], AfterReport(vs, name, r)[i];
      if p.name == name && forall j :: i < j < |vs| ==> vs[j].name != name then
        match r
        case Success(ms) =>
          && p' == p.(breaker := p'.breaker, latency := p'.latency)
          && p'.breaker == p.breaker.(state := Breakers.Closed, failCount := 0)
          && p'.latency.count == p.latency.count + 1
          && p'.latency.avg == (if p.latency.count == 0 then ms as real else 0.3 * ms as real + 0.7 * p.latency.avg)
        case Failure(at) =>
          && p' == p.(breaker := p'.breaker)
          && p'.breaker.failCount == p.breaker.failCount + 1 && p'.breaker.lastFailAt == at
          && p'.breaker.threshold == p.breaker.threshold && p'.breaker.timeout == p.breaker.timeout
          && p'.breaker.state == (if p.breaker.state.HalfOpen? || p'.breaker.failCount >= p.breaker.threshold
                                  then Breakers.Open else p.breaker.state)
        case Accurate =>
          && p' == p.(record := p'.record) && p'.record.outliers == 0
          && p'.record.total == p.record.total + 1 && p'.record.accurate == p.record.accurate + 1
          && p'.record.score == p'.record.accurate as real / p'.record.total as real
        case Outlier =>
          && p' == p.(record := p'.record) && p'.record.outliers == p.record.outliers + 1
          && p'.record.total == p.record.total + 1 && p'.record.accurate == p.record.accurate
          && p'.record.score == p'.record.accurate as real / p'.record.total as real
      else p' == p
  {
    var names := Names(vs);
    if vs[i].name == name && forall j :: i < j < |vs| ==> vs[j].name != name {
      assert names[i] == name && forall j :: i < j < |names| ==> names[j] != name;
      assert LastNamed(names, name) == Some(i);
    } else {
      assert LastNamed(names, name) != Some(i) by {
        assert forall j :: i < j < |names| ==> names[j] == vs[j].name;
      }
    }
  }

  // ----- the router object -----

  datatype Strategy =
    | RoundRobinBy(rr: RoundRobinStrategy)
    | SmartBy(sm: SmartStrategy)
    | PriorityBy(pr: PriorityStrategy)

  ghost function PolicyOf(s: Strategy): Policy
    reads if s.RoundRobinBy? then {s.rr} else {}
  {
    match s
    case RoundRobinBy(rr) => RoundRobin(rr.index, rr.allowPaid)
    case SmartBy(sm) => Smart(sm.weights, sm.allowPaid)
    case PriorityBy(pr) => Priority(pr.allowPaid)
  }

  datatype Registration = Registration(
    name: string, paid: bool, priority: int, cost: real, limit: int, window: int, threshold: int, timeout: int)

  function Registered(g: Registration, now: int): Provider {
    Provider(g.name, g.paid, g.priority, g.cost, true, RateLimit.New(g.limit, g.window, now),
             Breakers.New(g.threshold, g.timeout), Latency.EMPTY, FRESH)
  }

  /** A provider as registered: all its tokens, a closed breaker, no latency and no verdicts yet. */
  lemma RegisteredInFull(g: Registration, now: int)
    ensures
      var p := Registered(g, now);
      && p.name == g.name && p.paid == g.paid && p.priority == g.priority && p.cost == g.cost && p.enabled
      && p.limiter.limit == p.limiter.remaining == g.limit
      && p.limiter.window == g.window && p.limiter.resetAt == now + g.window
      && p.breaker.state.Closed? && p.breaker.failCount == 0
      && p.breaker.threshold == g.threshold && p.breaker.timeout == g.timeout
      && p.latency.count == 0 && p.latency.avg == 0.0
      && p.record.total == p.record.accurate == p.record.outliers == 0 && p.record.score == 0.0
  {
  }

  class MultiRouter {
    const strategy: Strategy
    const providers: map<string, ProviderState>
    const ordered: seq<ProviderState>

    /** The providers share no state, and the name index points at the last provider of each name. */
    ghost predicate Valid() {
      && Apart(ordered)
      && Indexed(ordered, providers)
    }

    ghost function View(): State
      reads Footprint(ordered), if strategy.RoundRobinBy? then {strategy.rr} else {}
    {
      State(PolicyOf(strategy), Views(ordered))
    }

    constructor (strategy: Strategy, regs: seq<Registration>, nows: seq<int>)
      requires |nows| == |regs|
      ensures Valid() && fresh(Footprint(ordered)) && this.strategy == strategy
      ensures View()
           == State(PolicyOf(strategy), seq(|regs|, i requires 0 <= i < |regs| => Registered(regs[i], nows[i])))
    {
      var ps, byName := Build(regs, nows);
      this.strategy, this.providers, this.ordered := strategy, byName, ps;
    }

    method Select(ts: seq<Readings>, spend: RateLimit.Tick)
      returns (chosen: Option<ProviderState>, ghost at: Option<nat>)
      requires Valid() && |ts| == |ordered|
      modifies Limiters(ordered), Circuits(ordered), if strategy.RoundRobinBy? then {strategy.rr} else {}
      ensures Selects(old(View()), View(), ts, spend, at)
      ensures at.Some? ==> at.value < |ordered| && chosen == Some(ordered[at.value])
      ensures at.None? ==> chosen == None
    {
      ghost var before := View();
      var i := Ask(ts);
      at := i;
      ghost var scanned := Views(ordered);
      assert Picks(before.policy, PolicyOf(strategy), before.providers, ts, Outcome(scanned, i));
      if i.None? {
        return None, at;
      }
      SpendAt(ordered, i.value, spend);
      chosen := Some(ordered[i.value]);
    }

    /** Dispatch to the configured strategy. */
    method Ask(ts: seq<Readings>) returns (i: Option<nat>)
      requires Valid() && |ts| == |ordered|
      modifies Limiters(ordered), Circuits(ordered), if strategy.RoundRobinBy? then {strategy.rr} else {}
      ensures Picks(old(PolicyOf(strategy)), PolicyOf(strategy), old(Views(ordered)), ts, Outcome(Views(ordered), i))
      ensures i.Some? ==> i.value < |ordered|
    {
      match strategy {
        case RoundRobinBy(rr) => i := rr.Select(ordered, ts);
        case SmartBy(sm) => i := sm.Select(ordered, ts);
        case PriorityBy(pr) => i := pr.Select(ordered, ts);
      }
    }

    method ReportSuccess(name: string, ms: int)
      requires Valid()
      modifies Circuits(ordered), Latencies(ordered)
      ensures Views(ordered) == AfterReport(old(Views(ordered)), name, Success(ms))
    {
      assert Names(Views(ordered)) == NamesAt(ordered);
      if name !in providers {
        return;
      }
      ghost var i := Found(ordered, providers, name);
      var ps := providers[name];
      ps.circuitBreaker.RecordSuccess();
      ps.avgLatency.RecordSample(ms as real);
    }

    method ReportFailure(name: string, now: int)
      requires Valid()
      modifies Circuits(ordered)
      ensures Views(ordered) == AfterReport(old(Views(ordered)), name, Failure(now))
    {
      assert Names(Views(ordered)) == NamesAt(ordered);
      if name !in providers {
        return;
      }
      ghost var i := Found(ordered, providers, name);
      providers[name].circuitBreaker.RecordFailure(now);
    }

    method ReportAccurate(name: string)
      requires Valid()
      modifies ordered
      ensures Views(ordered) == AfterReport(old(Views(ordered)), name, Accurate)
    {
      assert Names(Views(ordered)) == NamesAt(ordered);
      if name !in providers {
        return;
      }
      ghost var i := Found(ordered, providers, name);
      providers[name].RecordAccurate();
    }

    method ReportOutlier(name: string)
      requires Valid()
      modifies ordered
      ensures Views(ordered) == AfterReport(old(Views(ordered)), name, Outlier)
    {
      assert Names(Views(ordered)) == NamesAt(ordered);
      if name !in providers {
        return;
      }
      ghost var i := Found(ordered, providers, name);
      providers[name].RecordOutlier();
    }

    /** What the router adds to the providers' own statuses. Asking may start new windows. */
    method ProviderStatuses(ts: seq<RateLimit.Tick>) returns (statuses: seq<Status>)
      requires Valid() && |ts| == |ordered|
      modifies Limiters(ordered)
      ensures Views(ordered) == Queried(old(Views(ordered)), ts)
      ensures |statuses| == |ordered|
      ensures forall i :: 0 <= i < |statuses| ==>
        var p, p' := old(Views(ordered))[i], Views(ordered)[i];
        && statuses[i] == StatusOf(p')
        && statuses[i].remainingRate
             == (if ts[i].now > p.limiter.resetAt then p.limiter.limit else p.limiter.remaining)
        && (p.latency.avg >= 0.0 ==>
              statuses[i].avgLatency as real <= p.latency.avg < statuses[i].avgLatency as real + 1.0)
    {
      ghost var before, now := Views(ordered), Views(ordered);
      statuses := [];
      for k := 0 to |ordered|
        invariant now == Views(ordered) && |statuses| == k
        invariant QueriedUpTo(before, now, ts, k)
        invariant forall i :: 0 <= i < k ==> statuses[i] == StatusOf(now[i])
      {
        var r := QueryAt(ordered, k, ts[k]);
        now := now[k := now[k].(limiter := RateLimit.CheckReset(now[k].limiter, ts[k]))];
        statuses := statuses + [Status(r, WholePart(ordered[k].avgLatency.avg))];
      }
    }
  }

  /** The tokens left, and the average latency in whole milliseconds. */
  datatype Status = Status(remainingRate: int, avgLatency: int)

  /** Conversion to an integer drops the fraction, towards zero. */
  function WholePart(x: real): int {
    if x >= 0.0 then x.Floor else -(-x).Floor
  }

  function StatusOf(p: Provider): Status {
    Status(p.limiter.remaining, WholePart(p.latency.avg))
  }

  ghost predicate QueriedUpTo(before: seq<Provider>, now: seq<Provider>, ts: seq<RateLimit.Tick>, k: nat)
    requires |ts| == |before|
  {
    && |now| == |before|
    && forall i :: 0 <= i < |before| ==>
         now[i] == if i < k then before[i].(limiter := RateLimit.CheckReset(before[i].limiter, ts[i])) else before[i]
  }

  ghost function Ring(r: MultiRouter): set<RoundRobinStrategy> {
    if r.strategy.RoundRobinBy? then {r.strategy.rr} else {}
  }

  ghost function Latencies(ps: seq<ProviderState>): set<Latency.LatencyTracker> {
    set p | p in ps :: p.avgLatency
  }

  function Queried(vs: seq<Provider>, ts: seq<RateLimit.Tick>): seq<Provider>
    requires |ts| == |vs|
  {
    seq(|vs|, i requires 0 <= i < |vs| => vs[i].(limiter := RateLimit.CheckReset(vs[i].limiter, ts[i])))
  }

  ghost function NamesAt(ps: seq<ProviderState>): seq<string> {
    seq(|ps|, i requires 0 <= i < |ps| => ps[i].name)
  }

  ghost predicate Indexed(ps: seq<ProviderState>, byName: map<string, ProviderState>) {
    forall name ::
      match LastNamed(NamesAt(ps), name)
      case None => name !in byName
      case Some(i) => name in byName && byName[name] == ps[i]
  }

  lemma Found(ps: seq<ProviderState>, byName: map<string, ProviderState>, name: string) returns (i: nat)
    requires Apart(ps) && Indexed(ps, byName) && name in byName
    ensures i < |ps| && byName[name] == ps[i] && LastNamed(Names(Views(ps)), name) == Some(i)
    ensures forall j :: 0 <= j < |ps| && j != i ==> ps[j].Repr() !! ps[i].Repr()
  {
    assert Names(Views(ps)) == NamesAt(ps);
    i := LastNamed(NamesAt(ps), name).value;
  }

  method SpendAt(ps: seq<ProviderState>, i: nat, t: RateLimit.Tick)
    requires Apart(ps) && i < |ps|
    modifies Limiters(ps)
    ensures Views(ps) == old(Views(ps))[i := Spent(old(Views(ps))[i], t)]
  {
    ps[i].rateLimit.ConsumeToken(t);
    assert forall j :: 0 <= j < |ps| && j != i ==> ps[j].Repr() !! ps[i].Repr();
  }

  method QueryAt(ps: seq<ProviderState>, i: nat, t: RateLimit.Tick) returns (r: int)
    requires Apart(ps) && i < |ps|
    modifies Limiters(ps)
    ensures
      var p := old(Views(ps))[i];
      Views(ps) == old(Views(ps))[i := p.(limiter := RateLimit.CheckReset(p.limiter, t))]
    ensures r == Views(ps)[i].limiter.remaining
  {
    r := ps[i].rateLimit.Remaining(t);
    assert forall j :: 0 <= j < |ps| && j != i ==> ps[j].Repr() !! ps[i].Repr();
  }

  lemma AppendFootprint(ps: seq<ProviderState>, p: ProviderState)
    ensures Footprint(ps + [p]) == Footprint(ps) + p.Repr()
  {
    var ps' := ps + [p];
    forall o | o in Footprint(ps') ensures o in Footprint(ps) + p.Repr() {
      var i :| 0 <= i < |ps'| && o in ps'[i].Repr();
      assert i < |ps| ==> ps'[i] == ps[i];
    }
    forall o | o in Footprint(ps) ensures o in Footprint(ps') {
      var i :| 0 <= i < |ps| && o in ps[i].Repr();
      assert ps'[i] == ps[i];
    }
    assert ps'[|ps|] == p;
  }

  lemma AppendViews(ps: seq<ProviderState>, p: ProviderState)
    ensures Views(ps + [p]) == Views(ps) + [p.View()]
  {
  }

  lemma AppendApart(ps: seq<ProviderState>, p: ProviderState)
    requires Apart(ps) && Footprint(ps) !! p.Repr()
    ensures Apart(ps + [p])
  {
    var ps' := ps + [p];
    forall i, j | 0 <= i < j < |ps'| ensures ps'[i].Repr() !! ps'[j].Repr() {
      assert ps'[i] == ps[i] && (j < |ps| ==> ps'[j] == ps[j]);
      assert forall o :: o in ps[i].Repr() ==> o in Footprint(ps);
    }
  }

  lemma AppendIndexed(ps: seq<ProviderState>, byName: map<string, ProviderState>, p: ProviderState)
    requires Indexed(ps, byName)
    ensures Indexed(ps + [p], byName[p.name := p])
  {
    var ps' := ps + [p];
    assert NamesAt(ps')[..|ps|] == NamesAt(ps);
  }

  method Enrol(ps: seq<ProviderState>, byName: map<string, ProviderState>, g: Registration, now: int)
    returns (ps': seq<ProviderState>, byName': map<string, ProviderState>)
    requires Apart(ps) && Indexed(ps, byName)
    ensures Apart(ps') && Indexed(ps', byName') && fresh(Footprint(ps') - Footprint(ps))
    ensures Views(ps') == Views(ps) + [Registered(g, now)]
  {
    var p := new ProviderState(g.name, g.paid, g.priority, g.cost, g.limit, g.window, g.threshold, g.timeout, now);
    assert Footprint(ps) !! p.Repr();
    AppendFootprint(ps, p);
    AppendViews(ps, p);
    AppendApart(ps, p);
    AppendIndexed(ps, byName, p);
    ps', byName' := ps + [p], byName[p.name := p];
  }

  method Build(regs: seq<Registration>, nows: seq<int>)
    returns (ps: seq<ProviderState>, byName: map<string, ProviderState>)
    requires |nows| == |regs|
    ensures Apart(ps) && Indexed(ps, byName) && fresh(Footprint(ps))
    ensures Views(ps) == seq(|regs|, i requires 0 <= i < |regs| => Registered(regs[i], nows[i]))
  {
    ps, byName := [], map[];
    for k := 0 to |regs|
      invariant Apart(ps) && Indexed(ps, byName) && fresh(Footprint(ps))
      invariant |Views(ps)| == k && forall i :: 0 <= i < k ==> Views(ps)[i] == Registered(regs[i], nows[i])
    {
      ps, byName := Enrol(ps, byName, regs[k], nows[k]);
    }
  }
}
