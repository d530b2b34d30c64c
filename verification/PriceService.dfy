/**
 The price service: cache, consensus, a retry loop over the router, and stale prices as a last resort.

 A provider is an oracle: what it would answer during the call is a function of its name. The clock
 readings of each attempt are given by its `World`.
 */
module PriceService {
  import opened Common
  import opened Prices
  import opened Providers
  import opened Strategies
  import opened Router
  import opened ConsensusTraffic
  import RateLimit
  import Consensus
  import MemoryStore

  datatype ValidatorConfig = ValidatorConfig(enabled: bool, maxStaleness: int)

  /** The basic check of a price; the zero instant stands for a missing timestamp. */
  function Validate(cfg: ValidatorConfig, p: Price, now: int): Option<Error> {
    if !cfg.enabled then None
    else if p.value <= 0.0 then Some(PriceZero)
    else if cfg.maxStaleness > 0 && p.timestamp != 0 && now - p.timestamp > cfg.maxStaleness then Some(PriceStale)
    else None
  }

  /** The verdict of the service's validator, if it has one. */
  function Verdict(validator: Option<ValidatorConfig>, p: Price, now: int): Option<Error> {
    if validator.Some? then Validate(validator.value, p, now) else None
  }

  /** The clock readings of one attempt: selection, token, failure report, validation, response time. */
  datatype World = World(
    ts: seq<Readings>, spend: RateLimit.Tick, failedAt: int, validatedAt: int, ms: int, doneAt: int)

  // ----- one attempt of the retry loop -----

  datatype Ending =
    | Exhausted                             // the router found no available provider
    | Repeated(name: string)                // the router returned a provider already tried
    | Failed(name: string, error: Error)    // the call failed
    | Rejected(name: string, error: Error)  // the price failed validation
    | Accepted(name: string, price: Price)

  /** The provider this attempt contacted, if any. */
  function Contact(e: Ending): Option<string> {
    match e
    case Exhausted => None
    case Repeated(_) => None
    case Failed(name, _) => Some(name)
    case Rejected(name, _) => Some(name)
    case Accepted(name, _) => Some(name)
  }

  /** The router's state before the attempt, after the selection, and after the reports. */
  datatype Attempt = Attempt(before: State, selected: State, after: State, at: Option<nat>, world: World, end: Ending)

  function WithReport(s: State, name: string, r: Report): State {
    s.(providers := AfterReport(s.providers, name, r))
  }

  /** The provider call of one attempt, with its reports. */
  ghost predicate Called(s: State, s': State, name: string, w: World, validator: Option<ValidatorConfig>,
                         answers: string -> Answer, end: Ending) {
    match answers(name)
    case Refused(e) => end == Failed(name, e) && s' == WithReport(s, name, Failure(w.failedAt))
    case Priced(p) =>
      var answered := WithReport(s, name, Success(w.ms));
      match Verdict(validator, p, w.validatedAt)
      case Some(e) => end == Rejected(name, e) && s' == WithReport(answered, name, Failure(w.failedAt))
      case None => end == Accepted(name, p) && s' == answered
  }

  /** What one pass through the loop body does, given the names tried before it. */
  ghost predicate Attempted(a: Attempt, tried: set<string>, validator: Option<ValidatorConfig>,
                            answers: string -> Answer) {
    && |a.world.ts| == |a.before.providers|
    && Selects(a.before, a.selected, a.world.ts, a.world.spend, a.at)
    && match a.at
       case None => a.end == Exhausted && a.after == a.selected
       case Some(i) =>
         && i < |a.before.providers|
         && var name := a.before.providers[i].name;
            if name in tried then a.end == Repeated(name) && a.after == a.selected
            else Called(a.selected, a.after, name, a.world, validator, answers, a.end)
  }

  /** The names contacted by a run of attempts. */
  function Contacted(trace: seq<Attempt>): set<string> {
    set k | 0 <= k < |trace| && Contact(trace[k].end).Some? :: Contact(trace[k].end).value
  }

  ghost predicate AttemptAt(trace: seq<Attempt>, k: nat, worlds: seq<World>, validator: Option<ValidatorConfig>,
                            answers: string -> Answer)
    requires k < |trace| <= |worlds|
  {
    trace[k].world == worlds[k] && Attempted(trace[k], Contacted(trace[..k]), validator, answers)
  }

  predicate Continues(e: Ending) {
    e.Failed? || e.Rejected?
  }

  /** Each attempt starts where the last ended, and only failures go on to another. */
  ghost predicate Chained(trace: seq<Attempt>) {
    forall k :: 0 <= k < |trace| - 1 ==> trace[k].after == trace[k + 1].before && Continues(trace[k].end)
  }

  /** A run of the loop. */
  ghost predicate Loop(trace: seq<Attempt>, worlds: seq<World>, validator: Option<ValidatorConfig>,
                       answers: string -> Answer) {
    && |trace| <= |worlds|
    && Chained(trace)
    && forall k: nat {:trigger AttemptAt(trace, k, worlds, validator, answers)} ::
         k < |trace| ==> AttemptAt(trace, k, worlds, validator, answers)
  }

  /** The loop has stopped: at most `maxRetries` attempts, fewer only if one ended it early. */
  predicate Stopped(trace: seq<Attempt>, maxRetries: nat) {
    && 0 < |trace| <= maxRetries
    && var end := trace[|trace| - 1].end;
       |trace| == maxRetries || end.Exhausted? || end.Repeated? || end.Accepted?
  }

  /** An attempt overwrites the last error unless it stops at a provider already tried or accepts a price. */
  function ErrorAfter(before: Option<Error>, e: Ending): Option<Error> {
    match e
    case Exhausted => Some(NoHealthyProvider)
    case Failed(_, error) => Some(error)
    case Rejected(_, error) => Some(error)
    case Repeated(_) => before
    case Accepted(_, _) => before
  }

  /** The error the loop leaves behind. */
  function LastError(trace: seq<Attempt>): Option<Error> {
    if trace == [] then None
    else ErrorAfter(LastError(trace[..|trace| - 1]), trace[|trace| - 1].end)
  }

  // ----- the service object -----

  datatype CacheReply = Hit(price: Price) | Miss | CacheError

  datatype Via = FromCache | FromConsensus | FromProvider | FromStore | FromNowhere

  datatype Reply = Reply(price: Option<Price>, error: Option<Error>, via: Via)

  /** What the service has handed on: to the cache, to the listener, and into the store if there is one. */
  datatype Ledger = Ledger(cached: seq<Price>, notified: seq<Price>, stored: Option<map<string, seq<Price>>>)

  /** A new price goes to the cache, the listener and the store, where there is one. */
  function Publishing(l: Ledger, hasCache: bool, hasListener: bool, p: Price): Ledger {
    Ledger(if hasCache then l.cached + [p] else l.cached,
           if hasListener then l.notified + [p] else l.notified,
           if l.stored.Some? then Some(MemoryStore.Saved(l.stored.value, [p])) else None)
  }

  /** Publishing, sink by sink: each gets the price at the end, if it is there. */
  lemma PublishedInFull(l: Ledger, hasCache: bool, hasListener: bool, p: Price, key: string)
    ensures
      var l' := Publishing(l, hasCache, hasListener, p);
      && l'.cached == (if hasCache then l.cached + [p] else l.cached)
      && l'.notified == (if hasListener then l.notified + [p] else l.notified)
      && l'.stored.Some? == l.stored.Some?
      && (l.stored.Some? ==>
            MemoryStore.At(l'.stored.value, key) == MemoryStore.At(l.stored.value, key)
              + if key == StoreKey(p.coinID, p.currency) then [p] else [])
  {
    if l.stored.Some? {
      MemoryStore.SavedAppends(l.stored.value, [p], key);
      assert [p][..0] == [] && MemoryStore.Under([p], key) == if key == StoreKey(p.coinID, p.currency) then [p] else [];
    }
  }

  function StoredUnder(l: Ledger, coinID: string, currency: string): seq<Price> {
    if l.stored.Some? then MemoryStore.At(l.stored.value, StoreKey(coinID, currency)) else []
  }

  ghost predicate LastResort(l: Ledger, coinID: string, currency: string, lastError: Option<Error>, r: Reply) {
    var stored := StoredUnder(l, coinID, currency);
    if stored != [] then r.via.FromStore? && r.error.None? && MemoryStore.IsLatest(stored, r.price)
    else r == Reply(None, lastError, FromNowhere)
  }

  /**
   The reply a run of the loop leads to. An accepted price is published and returned. Otherwise
   nothing is published: the latest stored price is returned if there is one, else the last error.
   */
  ghost predicate Replied(trace: seq<Attempt>, l: Ledger, l': Ledger, hasCache: bool, hasListener: bool,
                          coinID: string, currency: string, r: Reply)
    requires trace != []
  {
    var end := trace[|trace| - 1].end;
    if end.Accepted? then
      r == Reply(Some(end.price), None, FromProvider) && l' == Publishing(l, hasCache, hasListener, end.price)
    else
      l' == l && LastResort(l, coinID, currency, LastError(trace), r)
  }

  class PriceService {
    const router: MultiRouter
    const store: MemoryStore.Store?
    const validator: Option<ValidatorConfig>
    const maxRetries: nat
    const hasCache: bool
    const hasListener: bool
    const engine: Consensus.ConsensusEngine?
    const consensusMode: bool   // the response mode is "consensus"
    var requestCount: int
    var cacheHitCount: int
    var cached: seq<Price>      // prices handed to the cache, in order
    var notified: seq<Price>    // prices handed to the listener, in order

    constructor (router: MultiRouter, store: MemoryStore.Store?, validator: Option<ValidatorConfig>, maxRetries: int,
                 hasCache: bool, hasListener: bool, engine: Consensus.ConsensusEngine?, consensusMode: bool)
      ensures this.router == router && this.store == store && this.validator == validator
      ensures this.maxRetries == (if maxRetries <= 0 then 1 else maxRetries) >= 1
      ensures this.hasCache == hasCache && this.hasListener == hasListener
      ensures this.engine == engine && this.consensusMode == consensusMode
      ensures requestCount == cacheHitCount == 0 && cached == notified == []
    {
      var retries := maxRetries;
      if retries <= 0 {
        retries := 1;
      }
      this.router, this.store, this.validator, this.maxRetries := router, store, validator, retries;
      this.hasCache, this.hasListener := hasCache, hasListener;
      this.engine, this.consensusMode := engine, consensusMode;
      requestCount, cacheHitCount, cached, notified := 0, 0, [], [];
    }

    ghost predicate Valid() {
      maxRetries >= 1 && router.Valid() && (engine != null ==> engine.ulp > 0.0)
    }

    ghost function Stores(): set<MemoryStore.Store> {
      if store != null then {store} else {}
    }

    ghost function View(): Ledger
      reads this, Stores()
    {
      Ledger(cached, notified, if store != null then Some(store.prices) else None)
    }

    method Publish(p: Price)
      modifies this`cached, this`notified, Stores()
      ensures View() == Publishing(old(View()), hasCache, hasListener, p)
      ensures cached == (if hasCache then old(cached) + [p] else old(cached))
      ensures notified == (if hasListener then old(notified) + [p] else old(notified))
      ensures store != null ==> store.Entries(p.coinID, p.currency) == old(store.Entries(p.coinID, p.currency)) + [p]
    {
      if hasCache {
        cached := cached + [p];
      }
      if store != null {
        store.Save(p);
        MemoryStore.SavedOne(old(store.prices), store.prices, p);
      }
      if hasListener {
        notified := notified + [p];
      }
    }

    /** The retry loop. */
    method TryProviders(worlds: seq<World>, answers: string -> Answer)
      returns (got: Option<Price>, lastError: Option<Error>, ghost trace: seq<Attempt>)
      requires Valid() && |worlds| == maxRetries
      requires forall k :: 0 <= k < |worlds| ==> |worlds[k].ts| == |router.ordered|
      modifies Limiters(router.ordered), Circuits(router.ordered), Latencies(router.ordered), Ring(router)
      ensures Loop(trace, worlds, validator, answers) && Stopped(trace, maxRetries)
      ensures trace[0].before == old(router.View()) && trace[|trace| - 1].after == router.View()
      ensures got == PriceOf(trace[|trace| - 1].end) && lastError == LastError(trace)
    {
      var tried: set<string> := {};
      got, lastError, trace := None, None, [];
      for attempt := 0 to |worlds|
        invariant |trace| == attempt
        invariant tried == Contacted(trace) && Loop(trace, worlds, validator, answers)
        invariant UnderWay(trace, old(router.View()), router.View())
        invariant got.None? && lastError == LastError(trace)
      {
        var e, a := AttemptOnce(router, validator, worlds[attempt], tried, answers);
        LoopGrows(trace, a, worlds, validator, answers, old(router.View()));
        LastErrorGrows(trace, a);
        trace := trace + [a];
        match e {
          case Exhausted =>
            lastError := Some(NoHealthyProvider);
            return;
          case Repeated(_) =>
            return;
          case Failed(name, err) =>
            tried, lastError := tried + {name}, Some(err);
          case Rejected(name, err) =>
            tried, lastError := tried + {name}, Some(err);
          case Accepted(_, p) =>
            got := Some(p);
            return;
        }
      }
    }

    /** After cache and consensus: the retry loop, then the last price in the store. */
    method AskProviders(coinID: string, currency: string, worlds: seq<World>, answers: string -> Answer)
      returns (r: Reply, ghost trace: seq<Attempt>)
      requires Valid() && |worlds| == maxRetries
      requires forall k :: 0 <= k < |worlds| ==> |worlds[k].ts| == |router.ordered|
      modifies this`cached, this`notified, Stores()
      modifies Limiters(router.ordered), Circuits(router.ordered), Latencies(router.ordered), Ring(router)
      ensures Loop(trace, worlds, validator, answers) && Stopped(trace, maxRetries)
      ensures trace[0].before == old(router.View()) && trace[|trace| - 1].after == router.View()
      ensures Replied(trace, old(View()), View(), hasCache, hasListener, coinID, currency, r)
    {
      var got, lastError;
      ghost var l := View();
      got, lastError, trace := TryProviders(worlds, answers);
      assert View() == l;
      r := Conclude(coinID, currency, got, lastError, trace);
    }

    /** After the loop: publish the price it found, or fall back. */
    method Conclude(coinID: string, currency: string, got: Option<Price>, lastError: Option<Error>,
                    ghost trace: seq<Attempt>)
      returns (r: Reply)
      requires trace != [] && got == PriceOf(trace[|trace| - 1].end) && lastError == LastError(trace)
      modifies this`cached, this`notified, Stores()
      ensures Replied(trace, old(View()), View(), hasCache, hasListener, coinID, currency, r)
      ensures router.View() == old(router.View())
    {
      ghost var s := router.View();
      if got.Some? {
        Publish(got.value);
        assert router.View() == s;
        r := Reply(got, None, FromProvider);
      } else {
        r := FallBack(coinID, currency, lastError);
      }
    }

    /** The last resort: the latest stored price, however old, else the last error. */
    method FallBack(coinID: string, currency: string, lastError: Option<Error>) returns (r: Reply)
      ensures LastResort(View(), coinID, currency, lastError, r)
    {
      if store != null {
        var latest := store.GetLatest(coinID, currency);
        if latest.Some? {
          return Reply(latest, None, FromStore);
        }
      }
      r := Reply(None, lastError, FromNowhere);
    }

    /**
     Look a price up. Every case of the reply is stated, with all its effects. `traffic` is what the
     consensus did at the router, and `computed` its outcome; `trace` is the run of the retry loop.
     `polled` is what the providers answer the consensus, within its timeout, and `answers` what they
     answer the loop.
     */
    method GetPrice(coinID: string, currency: string, cacheReply: CacheReply, looks: seq<Look>,
                    closings: string -> Closing, polled: string -> Answer, now: int, worlds: seq<World>,
                    answers: string -> Answer)
      returns (r: Reply, ghost computed: Consensus.Outcome, ghost arrived: seq<string>, ghost traffic: Traffic,
               ghost trace: seq<Attempt>)
      requires Valid() && |worlds| == maxRetries && |looks| == 5
      requires forall k :: 0 <= k < |worlds| ==> |worlds[k].ts| == |router.ordered|
      requires forall k :: 0 <= k < |looks| ==> |looks[k].ts| == |router.ordered|
      modifies this`requestCount, this`cacheHitCount, this`cached, this`notified, Stores()
      modifies Limiters(router.ordered), Circuits(router.ordered), Latencies(router.ordered), Ring(router)
      ensures requestCount == old(requestCount) + 1
      ensures cacheHitCount == old(cacheHitCount) + (if hasCache && cacheReply.Hit? then 1 else 0)
      ensures
        if hasCache && cacheReply.Hit? then
          && r == Reply(Some(cacheReply.price), None, FromCache)
          && traffic.events == [] && trace == [] && router.View() == old(router.View()) && View() == old(View())
        else
          && |traffic.states| == |traffic.events| + 1
          && var between := traffic.states[|traffic.events|];
             && Consulted(engine, consensusMode, old(router.View()), between, traffic, looks, polled, arrived, computed)
             && Resolved(this, coinID, currency, Consensus.Usable(computed), now, worlds, answers, between,
                         router.View(), old(View()), View(), r, trace)
    {
      ghost var l, s := View(), router.View();
      requestCount := requestCount + 1;
      computed, arrived, traffic, trace := Consensus.Skipped, [], Traffic([s], []), [];
      assert View() == l && router.View() == s;
      if hasCache && cacheReply.Hit? {
        cacheHitCount := cacheHitCount + 1;
        r := Reply(Some(cacheReply.price), None, FromCache);
        return;
      }
      var c;
      c, arrived, traffic := Consult(looks, closings, polled);
      computed := c;
      assert View() == l;
      r, trace := Resolve(coinID, currency, Consensus.Usable(c), now, worlds, answers);
    }

    /** Ask for a consensus, if that is the response mode and there is an engine. */
    method Consult(looks: seq<Look>, closings: string -> Closing, polled: string -> Answer)
      returns (computed: Consensus.Outcome, ghost arrived: seq<string>, ghost traffic: Traffic)
      requires Valid() && |looks| == 5
      requires forall k :: 0 <= k < |looks| ==> |looks[k].ts| == |router.ordered|
      modifies Limiters(router.ordered), Circuits(router.ordered), Latencies(router.ordered), Ring(router)
      ensures
        Consulted(engine, consensusMode, old(router.View()), router.View(), traffic, looks, polled, arrived, computed)
    {
      computed, arrived, traffic := Consensus.Skipped, [], Traffic([router.View()], []);
      if consensusMode && engine != null {
        computed, traffic, arrived := engine.Compute(router, looks, closings, polled, CONSENSUS_PROVIDERS);
      }
    }

    /** After the consensus: its median if there is some agreement, else the providers one by one. */
    method Resolve(coinID: string, currency: string, median: Option<real>, now: int,
                   worlds: seq<World>, answers: string -> Answer)
      returns (r: Reply, ghost trace: seq<Attempt>)
      requires Valid() && |worlds| == maxRetries
      requires forall k :: 0 <= k < |worlds| ==> |worlds[k].ts| == |router.ordered|
      modifies this`cached, this`notified, Stores()
      modifies Limiters(router.ordered), Circuits(router.ordered), Latencies(router.ordered), Ring(router)
      ensures Resolved(this, coinID, currency, median, now, worlds, answers, old(router.View()), router.View(),
                       old(View()), View(), r, trace)
    {
      if median.Some? {
        ghost var s := router.View();
        Publish(ConsensusPrice(coinID, currency, median.value, now));
        assert router.View() == s;
        r, trace := Reply(Some(ConsensusPrice(coinID, currency, median.value, now)), None, FromConsensus), [];
      } else {
        r, trace := AskProviders(coinID, currency, worlds, answers);
      }
    }
  }

  /** How many providers a consensus asks. */
  const CONSENSUS_PROVIDERS := 5

  function ConsensusPrice(coinID: string, currency: string, median: real, now: int): Price {
    Price(coinID, currency, median, "consensus", now, now)
  }

  /** What the consensus stage did to the router, and its outcome. */
  ghost predicate Consulted(engine: Consensus.ConsensusEngine?, consensusMode: bool, from: State, to: State, t: Traffic,
                            looks: seq<Look>, polled: string -> Answer, arrived: seq<string>,
                            computed: Consensus.Outcome) {
    && Links(t, from, to)
    && if consensusMode && engine != null && engine.cfg.enabled then
         engine.ulp > 0.0
         && Consensus.Consults(t, Names(from.providers), looks, polled, arrived, engine.cfg, engine.ulp, computed)
       else computed.Skipped? && t.events == []
  }

  /**
   What the rest of the look-up did, from the router's state `from` on: a usable median is published
   and returned without asking further; otherwise the retry loop runs and leads to the reply.
   */
  ghost predicate Resolved(service: PriceService, coinID: string, currency: string, median: Option<real>, now: int,
                           worlds: seq<World>, answers: string -> Answer, from: State, to: State,
                           l: Ledger, l': Ledger, r: Reply, trace: seq<Attempt>) {
    if median.Some? then
      var p := ConsensusPrice(coinID, currency, median.value, now);
      && r == Reply(Some(p), None, FromConsensus) && trace == [] && to == from
      && l' == Publishing(l, service.hasCache, service.hasListener, p)
    else
      && Loop(trace, worlds, service.validator, answers) && Stopped(trace, service.maxRetries)
      && trace[0].before == from && trace[|trace| - 1].after == to
      && Replied(trace, l, l', service.hasCache, service.hasListener, coinID, currency, r)
  }

  /** A consensus is asked for exactly in its mode, with an enabled engine; otherwise the router is left alone. */
  lemma ConsultedIff(engine: Consensus.ConsensusEngine?, consensusMode: bool, from: State, to: State, t: Traffic,
                     looks: seq<Look>, polled: string -> Answer, arrived: seq<string>, computed: Consensus.Outcome)
    requires Consulted(engine, consensusMode, from, to, t, looks, polled, arrived, computed)
    ensures computed.Skipped? <==> !(consensusMode && engine != null && engine.cfg.enabled)
    ensures computed.Skipped? ==> t.events == [] && to == from
    ensures !computed.Skipped? ==> |Selections(t.events)| <= |looks|
  {
  }

  /**
   A consensus is used exactly if it has some agreement. The reply, and what is published, is then its
   median as a price of that coin and currency, stamped now; nobody is asked again.
   */
  lemma ConsensusIsUsedIff(service: PriceService, coinID: string, currency: string, now: int, worlds: seq<World>,
                           answers: string -> Answer, computed: Consensus.Outcome, between: State, to: State,
                           l: Ledger, l': Ledger, r: Reply, trace: seq<Attempt>)
    requires Resolved(service, coinID, currency, Consensus.Usable(computed), now, worlds, answers, between, to,
                      l, l', r, trace)
    ensures r.via.FromConsensus? <==> computed.Computed? && computed.result.confidence > 0.0
    ensures r.via.FromConsensus? ==>
      var p := Price(coinID, currency, computed.result.median, "consensus", now, now);
      && r.price == Some(p) && r.error.None? && trace == [] && to == between
      && l' == Publishing(l, service.hasCache, service.hasListener, p)
    ensures !r.via.FromConsensus? ==> trace != [] && trace[0].before == between
  {
  }

  /**
   A consensus that collects an odd number of positive prices, and enough of them, is used: it has a
   positive median and some agreement, so the reply is that median and no provider is asked again.
   */
  lemma OddConsensusIsUsed(service: PriceService, coinID: string, currency: string, now: int, looks: seq<Look>,
                           polled: string -> Answer, worlds: seq<World>, answers: string -> Answer,
                           arrived: seq<string>, computed: Consensus.Outcome, t: Traffic, from: State,
                           between: State, to: State,
                           l: Ledger, l': Ledger, r: Reply, trace: seq<Attempt>)
    requires service.consensusMode && service.engine != null && service.engine.cfg.enabled
    requires service.engine.cfg.maxDeviation >= 0.0
    requires Consulted(service.engine, service.consensusMode, from, between, t, looks, polled, arrived, computed)
    requires Resolved(service, coinID, currency, Consensus.Usable(computed), now, worlds, answers, between, to,
                      l, l', r, trace)
    requires
      var prices := Consensus.Brought(arrived, polled);
      |prices| % 2 == 1 && |prices| >= service.engine.cfg.minProviders && forall p :: p in prices ==> p.value > 0.0
    ensures computed.Computed? && computed.result.median > 0.0
    ensures r.price.Some? && r.error.None? && r.via.FromConsensus?
    ensures
      var p := r.price.value;
      && p.coinID == coinID && p.currency == currency && p.value == computed.result.median
      && p.provider == "consensus" && p.timestamp == now && p.receivedAt == now
    ensures to == between && trace == []
  {
    Consensus.OddNeverLosesConsensus(computed.result, Consensus.Brought(arrived, polled),
                                     service.engine.cfg.maxDeviation, service.engine.ulp);
  }

  function PriceOf(e: Ending): Option<Price> {
    if e.Accepted? then Some(e.price) else None
  }

  lemma ContactedGrows(trace: seq<Attempt>, a: Attempt)
    ensures Contacted(trace + [a])
         == Contacted(trace) + (if Contact(a.end).Some? then {Contact(a.end).value} else {})
  {
    var longer := trace + [a];
    assert longer[|trace|] == a;
    forall name | name in Contacted(trace) ensures name in Contacted(longer) {
      var k :| 0 <= k < |trace| && Contact(trace[k].end) == Some(name);
      assert longer[k] == trace[k];
    }
    forall name | name in Contacted(longer) && Contact(a.end) != Some(name) ensures name in Contacted(trace) {
      var k :| 0 <= k < |longer| && Contact(longer[k].end) == Some(name);
      assert k < |trace| && longer[k] == trace[k];
    }
  }

  /** The loop is still going: `now` is the router's state after the attempts made since `first`. */
  predicate UnderWay(trace: seq<Attempt>, first: State, now: State) {
    if trace == [] then now == first
    else trace[0].before == first && trace[|trace| - 1].after == now && Continues(trace[|trace| - 1].end)
  }

  lemma ChainGrows(trace: seq<Attempt>, a: Attempt, first: State)
    requires Chained(trace) && UnderWay(trace, first, a.before)
    ensures Chained(trace + [a]) && (trace + [a])[0].before == first
    ensures Continues(a.end) ==> UnderWay(trace + [a], first, a.after)
  {
  }

  lemma LoopGrows(trace: seq<Attempt>, a: Attempt, worlds: seq<World>, validator: Option<ValidatorConfig>,
                  answers: string -> Answer, first: State)
    requires Loop(trace, worlds, validator, answers) && |trace| < |worlds| && a.world == worlds[|trace|]
    requires Attempted(a, Contacted(trace), validator, answers) && UnderWay(trace, first, a.before)
    ensures Loop(trace + [a], worlds, validator, answers) && (trace + [a])[0].before == first
    ensures Continues(a.end) ==> UnderWay(trace + [a], first, a.after)
    ensures Contacted(trace + [a])
         == Contacted(trace) + (if Contact(a.end).Some? then {Contact(a.end).value} else {})
  {
    var longer := trace + [a];
    assert longer[..|trace|] == trace;
    ChainGrows(trace, a, first);
    forall k: nat | k < |longer| ensures AttemptAt(longer, k, worlds, validator, answers) {
      if k < |trace| {
        assert AttemptAt(trace, k, worlds, validator, answers);
        AttemptKept(trace, longer, k, worlds, validator, answers);
      }
    }
    ContactedGrows(trace, a);
  }

  lemma LastErrorGrows(trace: seq<Attempt>, a: Attempt)
    ensures LastError(trace + [a]) == ErrorAfter(LastError(trace), a.end)
  {
    assert (trace + [a])[..|trace|] == trace;
  }

  lemma AttemptKept(trace: seq<Attempt>, longer: seq<Attempt>, k: nat, worlds: seq<World>,
                    validator: Option<ValidatorConfig>, answers: string -> Answer)
    requires k < |trace| <= |longer| <= |worlds| && longer[..|trace|] == trace
    requires AttemptAt(trace, k, worlds, validator, answers)
    ensures AttemptAt(longer, k, worlds, validator, answers)
  {
    assert longer[..|trace|][k] == longer[k] && longer[..k] == trace[..k];
  }

  method Call(router: MultiRouter, validator: Option<ValidatorConfig>, w: World, name: string,
              answers: string -> Answer)
    returns (end: Ending)
    requires router.Valid()
    modifies Circuits(router.ordered), Latencies(router.ordered)
    ensures Called(old(router.View()), router.View(), name, w, validator, answers, end)
  {
    match answers(name) {
      case Refused(e) =>
        router.ReportFailure(name, w.failedAt);
        end := Failed(name, e);
      case Priced(p) =>
        router.ReportSuccess(name, w.ms);
        var verdict := Verdict(validator, p, w.validatedAt);
        if verdict.Some? {
          router.ReportFailure(name, w.failedAt);
          end := Rejected(name, verdict.value);
        } else {
          end := Accepted(name, p);
        }
    }
  }

  /** One pass through the loop body. */
  method AttemptOnce(router: MultiRouter, validator: Option<ValidatorConfig>, w: World, tried: set<string>,
                     answers: string -> Answer)
    returns (end: Ending, ghost a: Attempt)
    requires router.Valid() && |w.ts| == |router.ordered|
    modifies Limiters(router.ordered), Circuits(router.ordered), Latencies(router.ordered), Ring(router)
    ensures a.before == old(router.View()) && a.after == router.View() && a.world == w && a.end == end
    ensures Attempted(a, tried, validator, answers)
  {
    ghost var before := router.View();
    var chosen, at := router.Select(w.ts, w.spend);
    ghost var selected := router.View();
    if chosen.None? {
      end := Exhausted;
    } else {
      var name := chosen.value.name;
      assert before.providers[at.value].name == name;
      if name in tried {
        end := Repeated(name);
      } else {
        end := Call(router, validator, w, name, answers);
      }
    }
    a := Attempt(before, selected, router.View(), at, w, end);
  }
}
