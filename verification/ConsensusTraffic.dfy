/**
 What asking several providers at once does to the router: one run of selections and reports, in
 whatever order the goroutines get to make them.
 */
module ConsensusTraffic {
  import opened Common
  import opened Prices
  import opened Providers
  import opened Strategies
  import opened Router
  import opened RouterRuns
  import RateLimit

  /** The clock readings of one selection. */
  datatype Look = Look(ts: seq<Readings>, spend: RateLimit.Tick)

  /** How long a provider took, and when its failure is reported. */
  datatype Closing = Closing(ms: int, failedAt: int)

  /** What one goroutine reported: which provider, and whether it answered with a price. */
  datatype Told = Told(name: string, ok: bool)

  /** A run of the router: its states, and the events between them. */
  datatype Traffic = Traffic(states: seq<State>, events: seq<Event>)

  ghost predicate Links(t: Traffic, from: State, to: State) {
    Run(t.states, t.events) && t.states[0] == from && t.states[|t.events|] == to
  }

  function Extended(t: Traffic, e: Event, s: State): Traffic {
    Traffic(t.states + [s], t.events + [e])
  }

  lemma LinksExtended(t: Traffic, from: State, s: State, e: Event, s': State)
    requires Links(t, from, s) && Follows(s, e, s')
    ensures Links(Extended(t, e, s'), from, s')
  {
    var t' := Extended(t, e, s');
    forall k | 0 <= k < |t'.events| ensures Follows(t'.states[k], t'.events[k], t'.states[k + 1]) {
      assert k < |t.events| ==> Follows(t.states[k], t.events[k], t.states[k + 1]);
    }
  }

  lemma {:induction false} LinksKeepNames(t: Traffic, from: State, to: State)
    requires Links(t, from, to)
    ensures |to.providers| == |from.providers| && Names(to.providers) == Names(from.providers)
    decreases |t.events|
  {
    var n := |t.events| - 1;
    if n >= 0 {
      assert Follows(t.states[n], t.events[n], t.states[n + 1]);
      EventKeepsNames(t.states[n], t.events[n], t.states[n + 1]);
      assert forall k :: 0 <= k < n ==> Follows(t.states[k], t.events[k], t.states[k + 1]);
      LinksKeepNames(Traffic(t.states[..n + 1], t.events[..n]), from, t.states[n]);
    }
  }

  /** The selections of a run, in order. */
  function Selections(es: seq<Event>): seq<Event> {
    if es == [] then []
    else
      var before := Selections(es[..|es| - 1]);
      if es[|es| - 1].Selection? then before + [es[|es| - 1]] else before
  }

  /** The reports of a run, in order. */
  function Reports(es: seq<Event>): seq<Told> {
    if es == [] then []
    else
      var before := Reports(es[..|es| - 1]);
      match es[|es| - 1]
      case Reporting(name, Success(_)) => before + [Told(name, true)]
      case Reporting(name, Failure(_)) => before + [Told(name, false)]
      case _ => before
  }

  /** The names of the providers that a run selects. */
  function Chosen(names: seq<string>, es: seq<Event>): set<string> {
    if es == [] then {}
    else Chosen(names, es[..|es| - 1]) + NameOf(names, es[|es| - 1])
  }

  function NameOf(names: seq<string>, e: Event): set<string> {
    if e.Selection? && e.chosen.Some? && e.chosen.value < |names| then {names[e.chosen.value]} else {}
  }

  lemma OneMoreEvent(names: seq<string>, es: seq<Event>, e: Event)
    ensures Selections(es + [e]) == Selections(es) + if e.Selection? then [e] else []
    ensures Chosen(names, es + [e]) == Chosen(names, es) + NameOf(names, e)
    ensures Reports(es + [e]) == Reports(es)
      + match e
        case Reporting(name, Success(_)) => [Told(name, true)]
        case Reporting(name, Failure(_)) => [Told(name, false)]
        case _ => []
  {
    assert (es + [e])[..|es|] == es;
  }

  predicate MadeWith(e: Event, look: Look) {
    e.Selection? && e.ts == look.ts && e.spend == look.spend
  }

  predicate Finds(e: Event) {
    e.Selection? && e.chosen.Some?
  }

  /** Selections are made with the given readings, one after the other, until the first that finds nobody. */
  ghost predicate Asking(es: seq<Event>, looks: seq<Look>, goesOn: bool) {
    var sel := Selections(es);
    && |sel| <= |looks|
    && (forall k :: 0 <= k < |sel| ==> MadeWith(sel[k], looks[k]) && (k < |sel| - 1 ==> Finds(sel[k])))
    && (goesOn ==> sel == [] || Finds(sel[|sel| - 1]))
    && (!goesOn ==> sel != [] && !Finds(sel[|sel| - 1]))
  }

  lemma AskingGoesOn(es: seq<Event>, looks: seq<Look>, e: Event)
    requires Asking(es, looks, true) && |Selections(es)| < |looks| && MadeWith(e, looks[|Selections(es)|])
    ensures Asking(es + [e], looks, Finds(e)) && |Selections(es + [e])| == |Selections(es)| + 1
  {
    OneMoreEvent([], es, e);
  }

  /** One more selection. */
  method SelectNext(router: MultiRouter, look: Look, ghost t: Traffic, ghost from: State)
    returns (name: Option<string>, ghost at: Option<nat>, ghost t': Traffic)
    requires router.Valid() && |look.ts| == |router.ordered| && Links(t, from, router.View())
    modifies Limiters(router.ordered), Circuits(router.ordered), Ring(router)
    ensures Links(t', from, router.View()) && t'.events == t.events + [Selection(look.ts, look.spend, at)]
    ensures name.Some? <==> at.Some?
    ensures name.Some? ==> at.value < |from.providers| && name.value == Names(from.providers)[at.value]
  {
    ghost var s := router.View();
    var chosen;
    chosen, at := router.Select(look.ts, look.spend);
    var e := Selection(look.ts, look.spend, at);
    LinksKeepNames(t, from, s);
    LinksExtended(t, from, s, e, router.View());
    t' := Extended(t, e, router.View());
    if chosen.Some? {
      assert Names(s.providers)[at.value] == chosen.value.name;
    }
    name := if chosen.Some? then Some(chosen.value.name) else None;
  }

  /** One goroutine's report. */
  method ReportNext(router: MultiRouter, name: string, ok: bool, c: Closing, ghost t: Traffic, ghost from: State)
    returns (ghost t': Traffic)
    requires router.Valid() && Links(t, from, router.View())
    modifies Circuits(router.ordered), Latencies(router.ordered)
    ensures Links(t', from, router.View())
    ensures t'.events == t.events + [Reporting(name, if ok then Success(c.ms) else Failure(c.failedAt))]
  {
    ghost var s := router.View();
    if ok {
      router.ReportSuccess(name, c.ms);
    } else {
      router.ReportFailure(name, c.failedAt);
    }
    var e := Reporting(name, if ok then Success(c.ms) else Failure(c.failedAt));
    LinksExtended(t, from, s, e, router.View());
    t' := Extended(t, e, router.View());
  }
}
