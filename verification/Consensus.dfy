/** Consensus pricing: a median over several providers, the outliers around it, and their agreement. */
module Consensus {
  import opened Common
  import opened Prices
  import opened Router
  import opened Strategies
  import opened ConsensusTraffic
  import opened RouterRuns
  import Decimals
  import OrderStatistics
  import Sorting

  datatype Config = Config(enabled: bool, minProviders: int, maxDeviation: real)

  datatype Result = Result(median: real, prices: seq<Price>, outliers: seq<Price>, confidence: real)

  /** No consensus asked for; no provider answered; or a result. */
  datatype Outcome = Skipped | NobodyAnswered | Computed(result: Result)

  /** The median of an outcome the price service can use: one with some agreement. */
  function Usable(o: Outcome): Option<real> {
    if o.Computed? && o.result.confidence > 0.0 then Some(o.result.median) else None
  }

  predicate Cheaper(x: Price, y: Price) {
    x.value <= y.value
  }

  function Values(ps: seq<Price>): seq<real> {
    seq(|ps|, i requires 0 <= i < |ps| => ps[i].value)
  }

  function Mean(x: real, y: real, ulp: real): real
    requires ulp > 0.0
  {
    Decimals.Div(x + y, 2.0, ulp)
  }

  /** The middle price of a sorted list, or the rounded mean of the middle two; zero for an empty list. */
  function Median(ps: seq<Price>, ulp: real): real
    requires ulp > 0.0
  {
    var n := |ps|;
    if n == 0 then 0.0
    else if n % 2 == 1 then ps[n / 2].value
    else Mean(ps[n / 2 - 1].value, ps[n / 2].value, ulp)
  }

  /** Percentage by which a price deviates from a non-zero median. */
  function Deviation(p: Price, median: real, ulp: real): real
    requires median != 0.0 && ulp > 0.0
  {
    Decimals.Div(Decimals.Abs(p.value - median), median, ulp) * 100.0
  }

  predicate IsOutlier(p: Price, median: real, maxDeviation: real, ulp: real)
    requires median != 0.0 && ulp > 0.0
  {
    Deviation(p, median, ulp) > maxDeviation
  }

  /** The prices of a list that are outliers, or that are not, in list order. */
  function Part(ps: seq<Price>, outlying: bool, median: real, maxDeviation: real, ulp: real): seq<Price>
    requires median != 0.0 && ulp > 0.0
  {
    if ps == [] then []
    else
      var rest := Part(ps[..|ps| - 1], outlying, median, maxDeviation, ulp);
      if IsOutlier(ps[|ps| - 1], median, maxDeviation, ulp) == outlying then rest + [ps[|ps| - 1]] else rest
  }

  /** What computing a result from collected prices promises. */
  ghost predicate IsResult(r: Result, prices: seq<Price>, maxDeviation: real, ulp: real)
    requires ulp > 0.0
  {
    && Sorting.Sorted(r.prices, Cheaper) && multiset(r.prices) == multiset(prices)
    && r.median == Median(r.prices, ulp)
    && if r.median == 0.0 then r.outliers == [] && r.confidence == 0.0
       else
         && r.outliers == Part(r.prices, true, r.median, maxDeviation, ulp)
         && r.prices != []
         && r.confidence == |Part(r.prices, false, r.median, maxDeviation, ulp)| as real / |r.prices| as real
  }

  /** The prices brought by the named providers, in the order of the names. */
  function Brought(names: seq<string>, answers: string -> Answer): seq<Price> {
    if names == [] then []
    else
      var before := Brought(names[..|names| - 1], answers);
      match answers(names[|names| - 1])
      case Priced(p) => before + [p]
      case Refused(_) => before
  }

  /** The names in `arrived` are those of `names` that answer with a price, each once, in any order. */
  ghost predicate Arrivals(arrived: seq<string>, names: set<string>, answers: string -> Answer) {
    Sorting.NoRepeats(arrived) && forall n :: n in arrived <==> n in names && answers(n).Priced?
  }

  /** The outcome for the collected prices, in the order they arrived. */
  ghost predicate Decides(r: Outcome, prices: seq<Price>, cfg: Config, ulp: real)
    requires ulp > 0.0
  {
    if |prices| >= cfg.minProviders then r.Computed? && IsResult(r.result, prices, cfg.maxDeviation, ulp)
    else if prices == [] then r == NobodyAnswered
    else r == Computed(Result(prices[0].value, prices, [], 0.0))
  }

  /**
   A consensus over the router: it asks until the router fails or the looks are used up, each provider
   that was chosen is reported on exactly once, as a success exactly if it answered with a price, and
   the outcome is decided by the prices of those that did, in the order they arrived.
   */
  ghost predicate Consults(t: Traffic, names: seq<string>, looks: seq<Look>, answers: string -> Answer,
                           arrived: seq<string>, cfg: Config, ulp: real, r: Outcome)
    requires ulp > 0.0
  {
    && (exists goesOn :: Asking(t.events, looks, goesOn) && (goesOn ==> |Selections(t.events)| == |looks|))
    && OnePerProvider(Reports(t.events), Chosen(names, t.events), answers)
    && Arrivals(arrived, Chosen(names, t.events), answers)
    && Decides(r, Brought(arrived, answers), cfg, ulp)
  }

  class ConsensusEngine {
    const cfg: Config
    const ulp: real   // one unit in the last place kept by a division

    constructor (cfg: Config, ulp: real)
      ensures this.cfg == cfg && this.ulp == ulp
    {
      this.cfg := cfg;
      this.ulp := ulp;
    }

    method ComputeResult(prices: seq<Price>) returns (r: Result)
      requires ulp > 0.0
      ensures IsResult(r, prices, cfg.maxDeviation, ulp)
    {
      var sorted := Sorting.SortBy(prices, Cheaper);
      var median := Median(sorted, ulp);
      if median == 0.0 {
        return Result(median, sorted, [], 0.0);
      }
      var valid, outliers := Divide(sorted, median);
      r := Result(median, sorted, outliers, |valid| as real / |sorted| as real);
    }

    /** The loop over the sorted prices. */
    method Divide(sorted: seq<Price>, median: real) returns (valid: seq<Price>, outliers: seq<Price>)
      requires ulp > 0.0 && median != 0.0
      ensures valid == Part(sorted, false, median, cfg.maxDeviation, ulp)
      ensures outliers == Part(sorted, true, median, cfg.maxDeviation, ulp)
    {
      valid, outliers := [], [];
      for k := 0 to |sorted|
        invariant valid == Part(sorted[..k], false, median, cfg.maxDeviation, ulp)
        invariant outliers == Part(sorted[..k], true, median, cfg.maxDeviation, ulp)
      {
        var p := sorted[k];
        assert sorted[..k + 1][..k] == sorted[..k];
        if Deviation(p, median, ulp) > cfg.maxDeviation {
          outliers := outliers + [p];
        } else {
          valid := valid + [p];
        }
      }
      assert sorted[..|sorted|] == sorted;
    }

    /**
     Ask several providers at once. Selecting, reporting and collecting may happen in any order that
     leaves each goroutine's report between its selection and its price; the random moves stand for it.
     */
    method Compute(router: MultiRouter, looks: seq<Look>, closings: string -> Closing, answers: string -> Answer,
                   maxProviders: int)
      returns (r: Outcome, ghost t: Traffic, ghost arrived: seq<string>)
      requires ulp > 0.0 && router.Valid() && |looks| == Max(0, maxProviders)
      requires forall k :: 0 <= k < |looks| ==> |looks[k].ts| == |router.ordered|
      modifies Limiters(router.ordered), Circuits(router.ordered), Latencies(router.ordered), Ring(router)
      ensures Links(t, old(router.View()), router.View())
      ensures !cfg.enabled || maxProviders <= 1 ==> r == Skipped && t.events == [] && arrived == []
      ensures cfg.enabled && maxProviders > 1 ==>
        Consults(t, Names(old(router.View()).providers), looks, answers, arrived, cfg, ulp, r)
    {
      ghost var from := router.View();
      t, arrived := Traffic([from], []), [];
      if !cfg.enabled || maxProviders <= 1 {
        return Skipped, t, arrived;
      }
      var prices;
      prices, t, arrived := Collect(router, looks, closings, answers);
      if |prices| < cfg.minProviders {
        if |prices| == 0 {
          return NobodyAnswered, t, arrived;
        }
        return Computed(Result(prices[0].value, prices, [], 0.0)), t, arrived;
      }
      var result := ComputeResult(prices);
      r := Computed(result);
    }

    /** The selection loop and its goroutines, up to the point where all are done. */
    method Collect(router: MultiRouter, looks: seq<Look>, closings: string -> Closing, answers: string -> Answer)
      returns (prices: seq<Price>, ghost t: Traffic, ghost arrived: seq<string>)
      requires router.Valid() && forall k :: 0 <= k < |looks| ==> |looks[k].ts| == |router.ordered|
      modifies Limiters(router.ordered), Circuits(router.ordered), Latencies(router.ordered), Ring(router)
      ensures Links(t, old(router.View()), router.View())
      ensures exists goesOn :: Asking(t.events, looks, goesOn) && (goesOn ==> |Selections(t.events)| == |looks|)
      ensures
        var names := Chosen(Names(old(router.View()).providers), t.events);
        OnePerProvider(Reports(t.events), names, answers) && Arrivals(arrived, names, answers)
      ensures prices == Brought(arrived, answers)
    {
      ghost var from := router.View();
      t, arrived := Traffic([from], []), [];
      var w := Work(0, true, {}, {}, {}, []);
      while w.Open(|looks|)
        invariant Links(t, from, router.View())
        invariant Progress(t.events, looks, w, Names(from.providers), arrived, answers)
        decreases if w.selecting then |looks| - w.i + 1 else 0, 2 * |w.running| + |w.answered|
      {
        var move: int := *;
        if w.selecting && w.i < |looks| && (move == 0 || w.running + w.answered == {}) {
          w, t := SelectMove(router, looks, w, answers, t, from, arrived);
        } else if w.running != {} && (move == 1 || w.answered == {}) {
          w, t := ReportMove(router, looks, w, closings, answers, t, from, arrived);
        } else {
          w, arrived := ArriveMove(w, answers, t.events, looks, Names(from.providers), arrived);
        }
      }
      assert w.selected - {} - {} == w.selected;
      prices := w.prices;
    }
  }

  /**
   The variables of a consensus under way: how many selections were made and whether to go on, whom they
   chose, the goroutines still `running`, those that have `answered` and reported a success but not yet
   handed in their price, and the prices handed in.
   */
  datatype Work = Work(i: nat, selecting: bool, selected: set<string>, running: set<string>, answered: set<string>,
                       prices: seq<Price>)
  {
    predicate Open(looks: nat) {
      (selecting && i < looks) || running != {} || answered != {}
    }
  }

  /** Where a consensus has got. */
  ghost predicate Progress(es: seq<Event>, looks: seq<Look>, w: Work, names: seq<string>, arrived: seq<string>,
                           answers: string -> Answer) {
    && w.i == |Selections(es)| <= |looks| && Asking(es, looks, w.selecting) && w.selected == Chosen(names, es)
    && Stages(es, arrived, w.selected, w.running, w.answered, answers)
    && w.prices == Brought(arrived, answers)
  }

  method SelectMove(router: MultiRouter, looks: seq<Look>, w: Work, answers: string -> Answer, ghost t: Traffic,
                    ghost from: State, ghost arrived: seq<string>)
    returns (w': Work, ghost t': Traffic)
    requires router.Valid() && Links(t, from, router.View()) && w.selecting && w.i < |looks|
    requires |looks[w.i].ts| == |router.ordered|
    requires Progress(t.events, looks, w, Names(from.providers), arrived, answers)
    modifies Limiters(router.ordered), Circuits(router.ordered), Ring(router)
    ensures Links(t', from, router.View()) && Progress(t'.events, looks, w', Names(from.providers), arrived, answers)
    ensures w'.i == w.i + 1
  {
    ghost var names, es := Names(from.providers), t.events;
    var name;
    ghost var at;
    name, at, t' := SelectNext(router, looks[w.i], t, from);
    SelectedNext(es, t'.events[|es|], looks, w, names, arrived, answers);
    w' := if name.None? then w.(i := w.i + 1, selecting := false)
          else if name.value in w.selected then w.(i := w.i + 1)
          else w.(i := w.i + 1, selected := w.selected + {name.value}, running := w.running + {name.value});
  }

  method ReportMove(router: MultiRouter, looks: seq<Look>, w: Work, closings: string -> Closing,
                    answers: string -> Answer, ghost t: Traffic, ghost from: State, ghost arrived: seq<string>)
    returns (w': Work, ghost t': Traffic)
    requires router.Valid() && Links(t, from, router.View()) && w.running != {}
    requires Progress(t.events, looks, w, Names(from.providers), arrived, answers)
    modifies Circuits(router.ordered), Latencies(router.ordered)
    ensures Links(t', from, router.View()) && Progress(t'.events, looks, w', Names(from.providers), arrived, answers)
    ensures w'.i == w.i && w'.selecting == w.selecting
    ensures 2 * |w'.running| + |w'.answered| < 2 * |w.running| + |w.answered|
  {
    ghost var some := SomeMember(w.running);
    var name :| name in w.running;
    var ok := answers(name).Priced?;
    t' := ReportNext(router, name, ok, closings(name), t, from);
    ReportedNext(t.events, t'.events[|t.events|], looks, w, Names(from.providers), arrived, answers, name);
    w' := w.(running := w.running - {name}, answered := if ok then w.answered + {name} else w.answered);
  }

  method ArriveMove(w: Work, answers: string -> Answer, ghost es: seq<Event>, ghost looks: seq<Look>,
                    ghost names: seq<string>, ghost arrived: seq<string>)
    returns (w': Work, ghost arrived': seq<string>)
    requires w.answered != {} && Progress(es, looks, w, names, arrived, answers)
    ensures Progress(es, looks, w', names, arrived', answers)
    ensures w'.i == w.i && w'.selecting == w.selecting
    ensures 2 * |w'.running| + |w'.answered| < 2 * |w.running| + |w.answered|
  {
    ghost var some := SomeMember(w.answered);
    var name :| name in w.answered;
    ArrivedNext(es, looks, w, names, arrived, answers, name);
    arrived' := arrived + [name];
    w' := w.(prices := w.prices + [answers(name).price], answered := w.answered - {name});
  }

  lemma ArrivedNext(es: seq<Event>, looks: seq<Look>, w: Work, names: seq<string>, arrived: seq<string>,
                    answers: string -> Answer, name: string)
    requires Progress(es, looks, w, names, arrived, answers) && name in w.answered
    ensures answers(name).Priced?
    ensures
      var w' := w.(prices := w.prices + [answers(name).price], answered := w.answered - {name});
      Progress(es, looks, w', names, arrived + [name], answers)
  {
    Arrives(es, arrived, w.selected, w.running, w.answered, answers, name);
  }

  lemma SelectedNext(es: seq<Event>, e: Event, looks: seq<Look>, w: Work, names: seq<string>, arrived: seq<string>,
                     answers: string -> Answer)
    requires Progress(es, looks, w, names, arrived, answers)
    requires w.selecting && w.i < |looks| && MadeWith(e, looks[w.i]) && (e.chosen.Some? ==> e.chosen.value < |names|)
    ensures
      var first := NameOf(names, e) - w.selected;
      var w' := Work(w.i + 1, e.chosen.Some?, w.selected + first, w.running + first, w.answered, w.prices);
      Progress(es + [e], looks, w', names, arrived, answers)
  {
    OneMoreEvent(names, es, e);
    AskingGoesOn(es, looks, e);
    var first := NameOf(names, e) - w.selected;
    if e.chosen.Some? && names[e.chosen.value] !in w.selected {
      Starts(es, es + [e], arrived, w.selected, w.running, w.answered, answers, names[e.chosen.value]);
      assert first == {names[e.chosen.value]};
    } else {
      assert first == {} && w.running + first == w.running && w.selected + first == w.selected;
    }
  }

  lemma ReportedNext(es: seq<Event>, e: Event, looks: seq<Look>, w: Work, names: seq<string>, arrived: seq<string>,
                     answers: string -> Answer, name: string)
    requires Progress(es, looks, w, names, arrived, answers)
    requires name in w.running && e.Reporting? && e.name == name
    requires if answers(name).Priced? then e.report.Success? else e.report.Failure?
    ensures
      var answered' := if answers(name).Priced? then w.answered + {name} else w.answered;
      Progress(es + [e], looks, w.(running := w.running - {name}, answered := answered'), names, arrived, answers)
  {
    OneMoreEvent(names, es, e);
    Finish(es, es + [e], arrived, w.selected, w.running, w.answered, answers, name);
  }

  /**
   Where the goroutines are: `running` have not reported yet, `answered` have reported a success and not
   yet handed in their price, and the prices of those in `arrived` are in.
   */
  ghost predicate Stages(es: seq<Event>, arrived: seq<string>, selected: set<string>, running: set<string>,
                         answered: set<string>, answers: string -> Answer) {
    && running <= selected && answered <= selected - running
    && OnePerProvider(Reports(es), selected - running, answers)
    && Arrivals(arrived, selected - running - answered, answers)
    && forall n :: n in answered ==> answers(n).Priced?
  }

  lemma Starts(es: seq<Event>, es': seq<Event>, arrived: seq<string>, selected: set<string>, running: set<string>,
               answered: set<string>, answers: string -> Answer, name: string)
    requires Stages(es, arrived, selected, running, answered, answers) && name !in selected
    requires Reports(es') == Reports(es)
    ensures Stages(es', arrived, selected + {name}, running + {name}, answered, answers)
  {
    assert selected + {name} - (running + {name}) == selected - running;
  }

  lemma Finish(es: seq<Event>, es': seq<Event>, arrived: seq<string>, selected: set<string>, running: set<string>,
               answered: set<string>, answers: string -> Answer, name: string)
    requires Stages(es, arrived, selected, running, answered, answers) && name in running
    requires Reports(es') == Reports(es) + [Told(name, answers(name).Priced?)]
    ensures
      var answered' := if answers(name).Priced? then answered + {name} else answered;
      Stages(es', arrived, selected, running - {name}, answered', answers)
  {
    ToldOnce(Reports(es), selected - running, answers, name);
    assert selected - (running - {name}) == selected - running + {name};
  }

  lemma Arrives(es: seq<Event>, arrived: seq<string>, selected: set<string>, running: set<string>,
                answered: set<string>, answers: string -> Answer, name: string)
    requires Stages(es, arrived, selected, running, answered, answers) && name in answered
    ensures Stages(es, arrived + [name], selected, running, answered - {name}, answers)
    ensures (arrived + [name])[..|arrived|] == arrived
    ensures Brought(arrived + [name], answers) == Brought(arrived, answers) + [answers(name).price]
  {
    OneMoreBrought(arrived, answers, name);
    ArrivalMoves(arrived, selected, running, answered, answers, name);
  }

  lemma OneMoreBrought(arrived: seq<string>, answers: string -> Answer, name: string)
    requires answers(name).Priced?
    ensures (arrived + [name])[..|arrived|] == arrived
    ensures Brought(arrived + [name], answers) == Brought(arrived, answers) + [answers(name).price]
  {
    assert (arrived + [name])[..|arrived|] == arrived;
  }

  lemma ArrivalMoves(arrived: seq<string>, selected: set<string>, running: set<string>, answered: set<string>,
                     answers: string -> Answer, name: string)
    requires answered <= selected - running && Arrivals(arrived, selected - running - answered, answers)
    requires name in answered && answers(name).Priced?
    ensures Arrivals(arrived + [name], selected - running - (answered - {name}), answers)
  {
    OneMoreArrival(arrived, selected - running - answered, answers, name);
    assert selected - running - (answered - {name}) == selected - running - answered + {name};
  }

  lemma OneMoreArrival(arrived: seq<string>, names: set<string>, answers: string -> Answer, name: string)
    requires Arrivals(arrived, names, answers) && name !in names && answers(name).Priced?
    ensures Arrivals(arrived + [name], names + {name}, answers)
  {
    var longer := arrived + [name];
    forall n ensures n in longer <==> n in names + {name} && answers(n).Priced? {
      assert n in longer <==> n in arrived || n == name;
    }
    assert name !in arrived;
  }

  /** Each provider asked is reported on exactly once, as a success exactly if it brought a price. */
  ghost predicate OnePerProvider(reports: seq<Told>, names: set<string>, answers: string -> Answer) {
    && (forall i, j :: 0 <= i < j < |reports| ==> reports[i].name != reports[j].name)
    && (forall i :: 0 <= i < |reports| ==> reports[i].name in names)
    && (forall i :: 0 <= i < |reports| ==> reports[i].ok == answers(reports[i].name).Priced?)
    && (forall name :: name in names ==> Reported(reports, name))
  }

  ghost predicate Reported(reports: seq<Told>, name: string) {
    exists i :: 0 <= i < |reports| && reports[i].name == name
  }

  lemma ToldOnce(reports: seq<Told>, names: set<string>, answers: string -> Answer, name: string)
    requires OnePerProvider(reports, names, answers) && name !in names
    ensures OnePerProvider(reports + [Told(name, answers(name).Priced?)], names + {name}, answers)
  {
    var longer := reports + [Told(name, answers(name).Priced?)];
    assert longer[|reports|].name == name;
    forall n | n in names ensures Reported(longer, n) {
      assert Reported(reports, n);
      var i :| 0 <= i < |reports| && reports[i].name == n;
      assert longer[i].name == n;
    }
  }

  lemma {:induction false} BroughtInOrder(names: seq<string>, answers: string -> Answer)
    requires forall n :: n in names ==> answers(n).Priced?
    ensures |Brought(names, answers)| == |names|
    ensures forall k :: 0 <= k < |names| ==> Brought(names, answers)[k] == answers(names[k]).price
  {
    if names != [] {
      BroughtInOrder(names[..|names| - 1], answers);
    }
  }

  /**
   The outcome in terms of the answers: with too few of them an error if there was none, else the first
   that arrived, without confidence; otherwise a result computed from exactly the prices answered.
   */
  lemma OutcomeInFull(t: Traffic, names: seq<string>, looks: seq<Look>, answers: string -> Answer,
                      arrived: seq<string>, cfg: Config, ulp: real, r: Outcome)
    requires ulp > 0.0 && Consults(t, names, looks, answers, arrived, cfg, ulp, r)
    ensures forall k :: 0 <= k < |arrived| ==> answers(arrived[k]).Priced?
    ensures
      var prices := seq(|arrived|, k requires 0 <= k < |arrived| => answers(arrived[k]).price);
      if |arrived| >= cfg.minProviders then
        r.Computed? && multiset(r.result.prices) == multiset(prices)
        && IsResult(r.result, prices, cfg.maxDeviation, ulp)
      else if |arrived| == 0 then r.NobodyAnswered?
      else
        r.Computed? && r.result.median == answers(arrived[0]).price.value && r.result.prices == prices
        && r.result.outliers == [] && r.result.confidence == 0.0
  {
    assert forall n :: n in arrived ==> answers(n).Priced?;
    BroughtInOrder(arrived, answers);
    assert Brought(arrived, answers)
        == seq(|arrived|, k requires 0 <= k < |arrived| => answers(arrived[k]).price);
  }

  // ----- the partition into valid prices and outliers -----

  lemma {:induction false} PartMembers(ps: seq<Price>, outlying: bool, median: real, maxDeviation: real, ulp: real)
    requires median != 0.0 && ulp > 0.0
    ensures forall p :: p in Part(ps, outlying, median, maxDeviation, ulp) <==>
                        p in ps && IsOutlier(p, median, maxDeviation, ulp) == outlying
  {
    if ps != [] {
      PartMembers(ps[..|ps| - 1], outlying, median, maxDeviation, ulp);
      assert ps == ps[..|ps| - 1] + [ps[|ps| - 1]];
    }
  }

  /** Valid prices and outliers together are the collected prices, each once. */
  lemma {:induction false} Partition(ps: seq<Price>, median: real, maxDeviation: real, ulp: real)
    requires median != 0.0 && ulp > 0.0
    ensures multiset(Part(ps, false, median, maxDeviation, ulp)) + multiset(Part(ps, true, median, maxDeviation, ulp))
         == multiset(ps)
    ensures |Part(ps, false, median, maxDeviation, ulp)| + |Part(ps, true, median, maxDeviation, ulp)| == |ps|
  {
    if ps != [] {
      Partition(ps[..|ps| - 1], median, maxDeviation, ulp);
      assert ps == ps[..|ps| - 1] + [ps[|ps| - 1]];
    }
  }

  lemma {:induction false} PartCounts(ps: seq<Price>, outlying: bool, median: real, maxDeviation: real, ulp: real,
                                      p: Price)
    requires median != 0.0 && ulp > 0.0
    ensures multiset(Part(ps, outlying, median, maxDeviation, ulp))[p]
         == if IsOutlier(p, median, maxDeviation, ulp) == outlying then multiset(ps)[p] else 0
  {
    if ps != [] {
      PartCounts(ps[..|ps| - 1], outlying, median, maxDeviation, ulp, p);
      assert ps == ps[..|ps| - 1] + [ps[|ps| - 1]];
    }
  }

  lemma {:induction false} PartSorted(ps: seq<Price>, outlying: bool, median: real, maxDeviation: real, ulp: real)
    requires median != 0.0 && ulp > 0.0 && Sorting.Sorted(ps, Cheaper)
    ensures Sorting.Sorted(Part(ps, outlying, median, maxDeviation, ulp), Cheaper)
  {
    if ps != [] {
      var n := |ps| - 1;
      PartSorted(ps[..n], outlying, median, maxDeviation, ulp);
      PartMembers(ps[..n], outlying, median, maxDeviation, ulp);
      var part := Part(ps[..n], outlying, median, maxDeviation, ulp);
      forall i | 0 <= i < |part| ensures Cheaper(part[i], ps[n]) {
        assert part[i] in part;
        var j :| 0 <= j < n && ps[..n][j] == part[i];
        assert Cheaper(ps[j], ps[n]);
      }
    }
  }

  /** The distance `far` is more than so many percent of the median. */
  predicate Beyond(far: real, percent: real, median: real) {
    100.0 * far > percent * median
  }

  lemma DeviationError(p: Price, median: real, maxDeviation: real, ulp: real, far: real)
    requires median > 0.0 && ulp > 0.0 && far == if p.value >= median then p.value - median else median - p.value
    ensures IsOutlier(p, median, maxDeviation, ulp) ==> Beyond(far, maxDeviation - 50.0 * ulp, median)
    ensures !IsOutlier(p, median, maxDeviation, ulp) ==> !Beyond(far, maxDeviation + 50.0 * ulp, median)
  {
    var q := far / median;
    Decimals.RoundError(q, ulp);
    assert q * median == far;
    if IsOutlier(p, median, maxDeviation, ulp) {
      assert (100.0 * q - (maxDeviation - 50.0 * ulp)) * median > 0.0;
    } else {
      Decimals.MulMonotone(100.0 * q, maxDeviation + 50.0 * ulp, median);
    }
  }

  lemma OutliersAre(r: Result, prices: seq<Price>, maxDeviation: real, ulp: real, p: Price)
    requires ulp > 0.0 && IsResult(r, prices, maxDeviation, ulp) && r.median != 0.0 && p in prices
    ensures p in r.outliers <==> IsOutlier(p, r.median, maxDeviation, ulp)
    ensures p in r.outliers ==> multiset(r.outliers)[p] == multiset(prices)[p]
  {
    PartCounts(r.prices, true, r.median, maxDeviation, ulp, p);
    assert p in multiset(prices);
    assert p in r.outliers <==> p in multiset(r.outliers);
  }

  /**
   Outliers in a price's own terms, around a positive median: it is one exactly if it lies more than
   maxDeviation percent of the median away, up to the rounding of one division. It is then listed as
   often as it was collected.
   */
  lemma OutlierInFull(r: Result, prices: seq<Price>, maxDeviation: real, ulp: real, p: Price, far: real)
    requires ulp > 0.0 && IsResult(r, prices, maxDeviation, ulp) && r.median > 0.0 && p in prices
    requires far == if p.value >= r.median then p.value - r.median else r.median - p.value
    ensures p in r.outliers ==> Beyond(far, maxDeviation - 50.0 * ulp, r.median)
    ensures p !in r.outliers ==> !Beyond(far, maxDeviation + 50.0 * ulp, r.median)
    ensures p in r.outliers ==> multiset(r.outliers)[p] == multiset(prices)[p]
  {
    OutliersAre(r, prices, maxDeviation, ulp, p);
    DeviationError(p, r.median, maxDeviation, ulp, far);
  }

  /** The outliers are collected prices, in ascending order, and the confidence is the share of the others. */
  lemma OutliersListed(r: Result, prices: seq<Price>, maxDeviation: real, ulp: real)
    requires ulp > 0.0 && IsResult(r, prices, maxDeviation, ulp) && r.median != 0.0
    ensures forall p :: p in r.outliers ==> p in prices
    ensures forall i, j :: 0 <= i < j < |r.outliers| ==> r.outliers[i].value <= r.outliers[j].value
    ensures prices != [] && r.confidence == (|prices| - |r.outliers|) as real / |prices| as real
  {
    Sorting.MembersAgree(r.prices, prices);
    Partition(r.prices, r.median, maxDeviation, ulp);
    PartMembers(r.prices, true, r.median, maxDeviation, ulp);
    PartSorted(r.prices, true, r.median, maxDeviation, ulp);
    assert Sorting.Sorted(r.outliers, Cheaper);
  }

  /** Raising the tolerance never adds an outlier. */
  lemma {:induction false} ToleranceMonotone(ps: seq<Price>, median: real, tight: real, loose: real, ulp: real)
    requires median != 0.0 && ulp > 0.0 && tight <= loose
    ensures multiset(Part(ps, true, median, loose, ulp)) <= multiset(Part(ps, true, median, tight, ulp))
  {
    if ps != [] {
      ToleranceMonotone(ps[..|ps| - 1], median, tight, loose, ulp);
    }
  }

  /** A price between another and the median deviates no more than the other. */
  lemma NearerDeviatesLess(near: Price, far: Price, median: real, ulp: real)
    requires median > 0.0 && ulp > 0.0
    requires far.value <= near.value <= median || median <= near.value <= far.value
    ensures Deviation(near, median, ulp) <= Deviation(far, median, ulp)
  {
    var x, y := Decimals.Abs(near.value - median), Decimals.Abs(far.value - median);
    Decimals.DivMonotone(x, y, median);
    Decimals.RoundMonotone(x / median, y / median, ulp);
  }

  /** A price between two others deviates no more than one of them. */
  lemma BetweenDeviatesLess(x: Price, y: Price, z: Price, median: real, ulp: real)
    requires median > 0.0 && ulp > 0.0 && x.value <= y.value <= z.value
    ensures
      || Deviation(y, median, ulp) <= Deviation(x, median, ulp)
      || Deviation(y, median, ulp) <= Deviation(z, median, ulp)
  {
    NearerDeviatesLess(y, if y.value <= median then x else z, median, ulp);
  }

  /** Against a negative median every deviation is at most zero. */
  lemma NegativeMedianFlagsNothing(p: Price, median: real, maxDeviation: real, ulp: real)
    requires median < 0.0 && ulp > 0.0 && maxDeviation >= 0.0
    ensures !IsOutlier(p, median, maxDeviation, ulp)
  {
    var x := Decimals.Abs(p.value - median);
    var q := x / median;
    assert q * median == x;
    assert q > 0.0 ==> q * median < 0.0;
    Decimals.RoundMonotone(q, 0.0, ulp);
    RoundZero(ulp);
  }

  lemma RoundZero(ulp: real)
    requires ulp > 0.0
    ensures Decimals.Round(0.0, ulp) == 0.0
  {
    assert 0.0 / ulp == 0.0;
    assert (0.0 / ulp + 0.5).Floor == 0;
  }

  /** The valid prices are a contiguous stretch of the sorted list. */
  lemma ValidAreContiguous(r: Result, prices: seq<Price>, maxDeviation: real, ulp: real, i: nat, j: nat, k: nat)
    requires ulp > 0.0 && maxDeviation >= 0.0 && IsResult(r, prices, maxDeviation, ulp) && r.median != 0.0
    requires i <= j <= k < |r.prices|
    requires !IsOutlier(r.prices[i], r.median, maxDeviation, ulp)
    requires !IsOutlier(r.prices[k], r.median, maxDeviation, ulp)
    ensures !IsOutlier(r.prices[j], r.median, maxDeviation, ulp)
  {
    assert i < j ==> Cheaper(r.prices[i], r.prices[j]);
    assert j < k ==> Cheaper(r.prices[j], r.prices[k]);
    if r.median > 0.0 {
      BetweenDeviatesLess(r.prices[i], r.prices[j], r.prices[k], r.median, ulp);
    } else {
      NegativeMedianFlagsNothing(r.prices[j], r.median, maxDeviation, ulp);
    }
  }

  /** With an odd number of positive prices the median itself agrees, so consensus is never lost. */
  lemma OddNeverLosesConsensus(r: Result, prices: seq<Price>, maxDeviation: real, ulp: real)
    requires ulp > 0.0 && maxDeviation >= 0.0 && IsResult(r, prices, maxDeviation, ulp)
    requires |prices| % 2 == 1 && forall p :: p in prices ==> p.value > 0.0
    ensures r.median > 0.0 && r.confidence >= 1.0 / |prices| as real > 0.0
  {
    Sorting.MembersAgree(r.prices, prices);
    var n := |r.prices|;
    var mid := r.prices[n / 2];
    assert mid in r.prices;
    assert Deviation(mid, r.median, ulp) == 0.0 by {
      assert 0.0 / r.median == 0.0;
      RoundZero(ulp);
    }
    var valid := Part(r.prices, false, r.median, maxDeviation, ulp);
    PartMembers(r.prices, false, r.median, maxDeviation, ulp);
    assert mid in valid;
    Decimals.DivMonotone(1.0, |valid| as real, n as real);
    assert 1.0 / n as real > 0.0;
  }

  lemma NoMembers(ps: seq<Price>)
    ensures (forall p :: p !in ps) ==> ps == []
  {
    if ps != [] {
      assert ps[0] in ps;
    }
  }

  /**
   Whether consensus is reached at all is decided in the middle: for positive prices, the middle ones
   with no more digits than a division keeps, the confidence is positive exactly when one of the
   middle two (for an odd number, the middle one) is not an outlier.
   */
  lemma MiddleDecidesConsensus(r: Result, prices: seq<Price>, maxDeviation: real, ulp: real, lower: Price, upper: Price)
    requires ulp > 0.0 && IsResult(r, prices, maxDeviation, ulp)
    requires prices != [] && forall p :: p in prices ==> p.value > 0.0
    requires |r.prices| == |prices| && lower == r.prices[(|prices| - 1) / 2] && upper == r.prices[|prices| / 2]
    requires Decimals.Representable(lower.value, ulp) && Decimals.Representable(upper.value, ulp)
    ensures 0.0 < lower.value <= r.median <= upper.value
    ensures r.confidence > 0.0 <==>
      !IsOutlier(lower, r.median, maxDeviation, ulp) || !IsOutlier(upper, r.median, maxDeviation, ulp)
  {
    var n := |prices|;
    Sorting.MembersAgree(r.prices, prices);
    assert lower in r.prices && upper in r.prices;
    assert n % 2 == 0 ==> Cheaper(lower, upper);
    MeansStayInRange(lower.value, upper.value, ulp);
    var valid := Part(r.prices, false, r.median, maxDeviation, ulp);
    PartMembers(r.prices, false, r.median, maxDeviation, ulp);
    ShareIsPositive(|valid|, n);
    if valid == [] {
      assert lower !in valid && upper !in valid;
    } else {
      assert valid[0] in valid;
      var j :| 0 <= j < n && r.prices[j] == valid[0];
      if j <= (n - 1) / 2 {
        assert j < (n - 1) / 2 ==> Cheaper(r.prices[j], r.prices[(n - 1) / 2]);
        NearerDeviatesLess(lower, r.prices[j], r.median, ulp);
      } else {
        assert j > n / 2 ==> Cheaper(r.prices[n / 2], r.prices[j]);
        NearerDeviatesLess(upper, r.prices[j], r.median, ulp);
      }
    }
  }

  lemma ShareIsPositive(k: nat, n: nat)
    requires n > 0
    ensures k as real / n as real > 0.0 <==> k > 0
  {
    var q := k as real / n as real;
    assert q * n as real == k as real;
    assert q <= 0.0 ==> q * n as real <= 0.0;
  }

  /** With an even number it can be: two distant prices are both outliers around their mean. */
  lemma EvenCanLoseConsensus(r: Result, prices: seq<Price>, low: Price, high: Price)
    requires low.value == 1.0 && high.value == 3.0 && prices == [low, high]
    requires IsResult(r, prices, 10.0, 0.01)
    ensures r.confidence == 0.0 && r.median == 2.0
  {
    Sorting.MembersAgree(r.prices, prices);
    assert r.prices == [low, high] by {
      assert r.prices[0] in r.prices && r.prices[1] in r.prices;
      assert Cheaper(r.prices[0], r.prices[1]);
      assert multiset(r.prices)[high] == 1 && multiset(r.prices)[low] == 1;
    }
    assert (4.0 / 2.0 / 0.01 + 0.5).Floor == 200;
    assert (1.0 / 2.0 / 0.01 + 0.5).Floor == 50;
    assert Deviation(low, 2.0, 0.01) == 50.0 == Deviation(high, 2.0, 0.01);
    var valid := Part(r.prices, false, r.median, 10.0, 0.01);
    PartMembers(r.prices, false, r.median, 10.0, 0.01);
    NoMembers(valid);
  }

  // ----- the median -----

  /**
   The median in the prices' own terms: of an odd number of sorted prices the middle one; of an even
   number a whole number of units, within half a unit of the exact mean of the middle two.
   */
  lemma MedianInFull(r: Result, prices: seq<Price>, maxDeviation: real, ulp: real)
    requires ulp > 0.0 && IsResult(r, prices, maxDeviation, ulp)
    ensures |r.prices| == |prices| && multiset(r.prices) == multiset(prices)
    ensures forall i, j :: 0 <= i < j < |r.prices| ==> r.prices[i].value <= r.prices[j].value
    ensures
      var n := |r.prices|;
      if n == 0 then r.median == 0.0
      else if n % 2 == 1 then r.median == r.prices[n / 2].value
      else
        var mean := (r.prices[n / 2 - 1].value + r.prices[n / 2].value) / 2.0;
        && -ulp / 2.0 <= r.median - mean <= ulp / 2.0
        && exists k: int :: r.median == Decimals.Units(k, ulp)
    ensures r.median == 0.0 ==> r.outliers == [] && r.confidence == 0.0
  {
    Sorting.MembersAgree(r.prices, prices);
    forall i, j | 0 <= i < j < |r.prices| ensures r.prices[i].value <= r.prices[j].value {
      assert Cheaper(r.prices[i], r.prices[j]);
    }
    var n := |r.prices|;
    if n > 0 && n % 2 == 0 {
      var mean := (r.prices[n / 2 - 1].value + r.prices[n / 2].value) / 2.0;
      Decimals.RoundError(mean, ulp);
      Decimals.RoundsToUnits(mean, ulp);
    }
  }

  /**
   Robustness: if fewer than half of the prices are arbitrary, the median lies within the range of the
   others; for an even number of prices, up to the rounding of one division.
   */
  lemma MedianIsRobust(r: Result, prices: seq<Price>, maxDeviation: real, ulp: real,
                       honest: seq<real>, bad: seq<real>, lo: real, hi: real)
    requires ulp > 0.0 && IsResult(r, prices, maxDeviation, ulp)
    requires multiset(Values(prices)) == multiset(honest) + multiset(bad) && 2 * |bad| < |prices|
    requires forall i :: 0 <= i < |honest| ==> lo <= honest[i] <= hi
    ensures |prices| % 2 == 1 ==> lo <= r.median <= hi
    ensures |prices| % 2 == 0 ==> Decimals.Round(lo, ulp) <= r.median <= Decimals.Round(hi, ulp)
    ensures RoundsInwards(lo, hi, ulp) ==> lo <= r.median <= hi
  {
    var n, sorted := |prices|, Values(r.prices);
    SortedValues(r.prices, prices);
    OrderStatistics.MiddleIsEnclosed(sorted, honest, bad, n / 2, lo, hi);
    if n % 2 == 0 {
      OrderStatistics.MiddleIsEnclosed(sorted, honest, bad, n / 2 - 1, lo, hi);
      var mean := (sorted[n / 2 - 1] + sorted[n / 2]) / 2.0;
      Decimals.RoundMonotone(lo, mean, ulp);
      Decimals.RoundMonotone(mean, hi, ulp);
    }
  }

  /** The ends of a range do not round out of it; ends with no more digits than a division keeps never do. */
  predicate RoundsInwards(lo: real, hi: real, ulp: real)
    requires ulp > 0.0
  {
    lo <= Decimals.Round(lo, ulp) && Decimals.Round(hi, ulp) <= hi
  }

  /** The rounding matters: the mean of two prices of a range stays in it exactly when its ends round inwards. */
  lemma MeansStayInRange(lo: real, hi: real, ulp: real)
    requires ulp > 0.0 && lo <= hi
    ensures (forall x, y :: lo <= x <= hi && lo <= y <= hi ==> lo <= Mean(x, y, ulp) <= hi)
       <==> RoundsInwards(lo, hi, ulp)
  {
    assert Mean(lo, lo, ulp) == Decimals.Round(lo, ulp) && Mean(hi, hi, ulp) == Decimals.Round(hi, ulp);
    forall x, y | lo <= x <= hi && lo <= y <= hi
      ensures Decimals.Round(lo, ulp) <= Mean(x, y, ulp) <= Decimals.Round(hi, ulp)
    {
      Decimals.RoundMonotone(lo, (x + y) / 2.0, ulp);
      Decimals.RoundMonotone((x + y) / 2.0, hi, ulp);
    }
  }

  /** So two equal prices have a different median exactly when they have more digits than a division keeps. */
  lemma MedianCanBeRoundedOut(r: Result, p: Price, maxDeviation: real, ulp: real)
    requires ulp > 0.0 && IsResult(r, [p, p], maxDeviation, ulp)
    ensures r.median == p.value <==> Decimals.Representable(p.value, ulp)
  {
    Sorting.MembersAgree(r.prices, [p, p]);
    assert r.prices[0] in r.prices && r.prices[1] in r.prices;
    assert Mean(p.value, p.value, ulp) == Decimals.Round(p.value, ulp);
  }

  /** Half a cent, kept to whole cents, comes out of the mean of two equal prices as a whole cent. */
  lemma HalfCentIsRoundedOut(p: Price, r: Result, maxDeviation: real)
    requires p.value == 0.005 && IsResult(r, [p, p], maxDeviation, 0.01)
    ensures r.median == 0.01
  {
    Sorting.MembersAgree(r.prices, [p, p]);
    assert r.prices[0] in r.prices && r.prices[1] in r.prices;
    assert (0.01 / 2.0 / 0.01 + 0.5).Floor == 1;
  }

  /** A sorted permutation of prices has a sorted permutation of their values. */
  lemma SortedValues(sorted: seq<Price>, prices: seq<Price>)
    requires Sorting.Sorted(sorted, Cheaper) && multiset(sorted) == multiset(prices)
    ensures |sorted| == |prices| && OrderStatistics.Ascending(Values(sorted))
    ensures multiset(Values(sorted)) == multiset(Values(prices))
  {
    Sorting.MembersAgree(sorted, prices);
    forall i, j | 0 <= i < j < |sorted| ensures Values(sorted)[i] <= Values(sorted)[j] {
      assert Cheaper(sorted[i], sorted[j]);
    }
    ValuesPermute(sorted, prices);
  }

  lemma {:induction false} ValuesPermute(s: seq<Price>, t: seq<Price>)
    requires multiset(s) == multiset(t)
    ensures multiset(Values(s)) == multiset(Values(t))
    decreases |s|
  {
    if s == [] {
      assert |multiset(t)| == 0;
      assert t == [];
    } else {
      assert s[0] in multiset(t);
      var j :| 0 <= j < |t| && t[j] == s[0];
      var rest := t[..j] + t[j + 1..];
      TakeOut(s, t, j);
      ValuesPermute(s[1..], rest);
      assert Values(s) == [s[0].value] + Values(s[1..]);
      assert Values(t) == Values(t[..j]) + [t[j].value] + Values(t[j + 1..]);
      assert Values(rest) == Values(t[..j]) + Values(t[j + 1..]);
    }
  }

  /** The median in terms of the sorted values. */
  function MedianOf(s: seq<real>, ulp: real): real
    requires ulp > 0.0
  {
    if |s| == 0 then 0.0
    else if |s| % 2 == 1 then s[|s| / 2]
    else Mean(s[|s| / 2 - 1], s[|s| / 2], ulp)
  }

  lemma MedianOfPointwise(s: seq<real>, t: seq<real>, ulp: real)
    requires ulp > 0.0 && |s| == |t| && forall k :: 0 <= k < |s| ==> s[k] <= t[k]
    ensures MedianOf(s, ulp) <= MedianOf(t, ulp)
  {
    var n := |s|;
    if n > 0 && n % 2 == 0 {
      Decimals.RoundMonotone((s[n / 2 - 1] + s[n / 2]) / 2.0, (t[n / 2 - 1] + t[n / 2]) / 2.0, ulp);
    }
  }

  /** Raising prices never lowers the median. */
  lemma MedianIsMonotone(r: Result, r': Result, prices: seq<Price>, prices': seq<Price>, maxDeviation: real, ulp: real)
    requires ulp > 0.0 && IsResult(r, prices, maxDeviation, ulp) && IsResult(r', prices', maxDeviation, ulp)
    requires |prices| == |prices'| && forall i :: 0 <= i < |prices| ==> prices[i].value <= prices'[i].value
    ensures r.median <= r'.median
  {
    var s, s' := Values(r.prices), Values(r'.prices);
    SortedValues(r.prices, prices);
    SortedValues(r'.prices, prices');
    forall k: nat | k < |s| ensures s[k] <= s'[k] {
      OrderStatistics.OrderMonotone(Values(prices), Values(prices'), s, s', k);
    }
    MedianOfPointwise(s, s', ulp);
    assert r.median == MedianOf(s, ulp) && r'.median == MedianOf(s', ulp);
  }

  /** The median depends only on which values were collected, not on the order they arrived in. */
  lemma MedianIgnoresOrder(r: Result, r': Result, prices: seq<Price>, prices': seq<Price>, maxDeviation: real,
                           ulp: real)
    requires ulp > 0.0 && IsResult(r, prices, maxDeviation, ulp) && IsResult(r', prices', maxDeviation, ulp)
    requires multiset(Values(prices)) == multiset(Values(prices'))
    ensures r.median == r'.median
  {
    SortedValues(r.prices, prices);
    SortedValues(r'.prices, prices');
    OrderStatistics.AscendingUnique(Values(r.prices), Values(r'.prices));
    assert r.median == MedianOf(Values(r.prices), ulp) && r'.median == MedianOf(Values(r'.prices), ulp);
  }
}
