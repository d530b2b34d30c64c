/**
 The retry loop over the priority strategy, which does not rotate: whom it contacts depends on whether
 each provider that fails drops out of selection or is picked again.
 */
module PriorityFallback {
  import opened Common
  import opened Prices
  import opened Providers
  import opened Strategies
  import opened Router
  import opened PriceService
  import opened Fallback
  import Breakers
  import RateLimit
  import RouterRuns
  import Sorting

  // ----- one provider during one look-up -----

  /** The time a look-up takes. */
  datatype Span = Span(start: int, end: int)

  predicate Within(x: int, span: Span) {
    span.start <= x <= span.end
  }

  /** The whole span lies in one window, or a new window starts with the first probe and outlasts the span. */
  predicate SteadyLimiter(l: RateLimit.Limiter, span: Span) {
    if l.resetAt < span.start then l.window >= span.end - span.start else span.end <= l.resetAt
  }

  function Tokens(l: RateLimit.Limiter, span: Span): int {
    if l.resetAt < span.start then l.limit else l.remaining
  }

  /** No recovery timeout runs out during the span, neither a pending one nor one that starts in it. */
  predicate SteadyBreaker(b: Breakers.Breaker, span: Span) {
    && b.timeout >= span.end - span.start
    && (b.state.Open? ==> span.start - b.lastFailAt > b.timeout || span.end - b.lastFailAt <= b.timeout)
  }

  predicate Steady(p: Provider, span: Span) {
    SteadyLimiter(p.limiter, span) && SteadyBreaker(p.breaker, span)
  }

  predicate ReadingsIn(t: Readings, span: Span) {
    && Within(t.breaker, span)
    && Within(t.limit.now, span) && t.limit.Ordered()
    && Within(t.snap.now, span) && t.snap.Ordered()
  }

  /** What becomes of a call to a provider. */
  datatype Fate = Errs | Invalid | Good

  /**
   The provider would still be available after one more call that fails: a second token is left, and the
   failure does not open its breaker. A price that fails validation clears the count of failures first.
   */
  predicate Survives(p: Provider, fate: Fate, span: Span) {
    && Tokens(p.limiter, span) >= 2
    && match fate
       case Errs => p.breaker.state.Closed? && p.breaker.failCount + 1 < p.breaker.threshold
       case Invalid => p.breaker.threshold >= 2
       case Good => true
  }

  /** Nothing the strategy looks at tells p' from p. */
  predicate Alike(p: Provider, p': Provider, allowPaid: bool, span: Span) {
    && Steady(p', span) && p'.priority == p.priority
    && Ready(p', allowPaid, span.start) == Ready(p, allowPaid, span.start)
    && forall fate :: Survives(p', fate, span) == Survives(p, fate, span)
  }

  /** During the span, availability is settled, and probing changes nothing that matters. */
  lemma ProbingIsNeutral(p: Provider, allowPaid: bool, t: Readings, span: Span)
    requires Steady(p, span) && ReadingsIn(t, span)
    ensures Available(p, allowPaid, t) == Ready(p, allowPaid, span.start)
    ensures Alike(p, p, allowPaid, span) && Alike(p, Probed(p, allowPaid, t), allowPaid, span)
    ensures Alike(p, Weighed(p, allowPaid, t), allowPaid, span)
  {
  }

  /** How a failed call, of either kind, leaves the provider. */
  function AfterFailure(p: Provider, fate: Fate, ms: real, failedAt: int): Provider {
    Providers.Failed(if fate.Invalid? then Succeeded(p, ms) else p, failedAt)
  }

  /**
   A provider that is available, selected and then fails is available again during the same look-up
   exactly when it survives in the sense above, which can be told before the call.
   */
  lemma AvailableAgainIff(p: Provider, taken: Provider, allowPaid: bool, t: Readings, spend: RateLimit.Tick,
                          fate: Fate, ms: real, failedAt: int, span: Span)
    requires Steady(p, span) && Ready(p, allowPaid, span.start) && !fate.Good?
    requires ReadingsIn(t, span) && Within(spend.now, span) && spend.Ordered() && Within(failedAt, span)
    requires taken == Spent(Probed(p, allowPaid, t), spend) || taken == Spent(Weighed(p, allowPaid, t), spend)
    ensures
      var p' := AfterFailure(taken, fate, ms, failedAt);
      && Steady(p', span) && p'.priority == p.priority
      && (Ready(p', allowPaid, span.start) <==> Survives(p, fate, span))
  {
  }

  // ----- one attempt -----

  ghost predicate Calm(s: State, span: Span) {
    forall i :: 0 <= i < |s.providers| ==> Steady(s.providers[i], span)
  }

  predicate WorldIn(w: World, span: Span) {
    && (forall i :: 0 <= i < |w.ts| ==> ReadingsIn(w.ts[i], span))
    && Within(w.spend.now, span) && w.spend.Ordered() && Within(w.failedAt, span)
  }

  function FateAt(name: string, w: World, validator: Option<ValidatorConfig>, answers: string -> Answer): Fate {
    match answers(name)
    case Refused(_) => Errs
    case Priced(p) => if Verdict(validator, p, w.validatedAt).Some? then Invalid else Good
  }

  /** No price goes stale during the look-up: what becomes of a call does not depend on when it is made. */
  ghost predicate Settled(fate: string -> Fate, w: World, validator: Option<ValidatorConfig>,
                          answers: string -> Answer) {
    forall name :: FateAt(name, w, validator, answers) == fate(name)
  }

  /** The provider at position c has failed, in the way `fate` tells; nobody else has changed in a way that matters. */
  ghost predicate FailedAt(s: State, s': State, c: nat, fate: Fate, span: Span) {
    && c < |s.providers| == |s'.providers| && Calm(s', span) && !fate.Good?
    && s'.providers[c].priority == s.providers[c].priority
    && (Ready(s'.providers[c], s.policy.allowPaid, span.start) <==> Survives(s.providers[c], fate, span))
    && forall i: nat :: i < |s.providers| && i != c ==>
         Alike(s.providers[i], s'.providers[i], s.policy.allowPaid, span)
  }

  lemma SelectionIsCalm(s: State, s': State, w: World, at: Option<nat>, span: Span)
    requires |w.ts| == |s.providers| && Selects(s, s', w.ts, w.spend, at) && Calm(s, span) && WorldIn(w, span)
    ensures |s'.providers| == |s.providers|
    ensures forall i: nat :: i < |w.ts| ==>
      Up(s.providers, w.ts, s.policy.allowPaid, i) == (i in ReadyAt(s, span.start))
    ensures forall i: nat :: i < |w.ts| && at != Some(i) ==>
      Alike(s.providers[i], s'.providers[i], s.policy.allowPaid, span)
  {
    RouterRuns.SelectionSound(s, s', w.ts, w.spend, at);
    forall i: nat | i < |w.ts|
      ensures Up(s.providers, w.ts, s.policy.allowPaid, i) == (i in ReadyAt(s, span.start))
      ensures at != Some(i) ==> Alike(s.providers[i], s'.providers[i], s.policy.allowPaid, span)
    {
      ProbingIsNeutral(s.providers[i], s.policy.allowPaid, w.ts[i], span);
      assert at != Some(i) ==> RouterRuns.Touched(s.providers[i], s'.providers[i], s.policy.allowPaid, w.ts[i]);
    }
  }

  /** The chosen provider is available, and none that is has a smaller priority value. */
  ghost predicate LeastReady(s: State, at: Option<nat>, start: int) {
    match at
    case None => ReadyAt(s, start) == {}
    case Some(c) =>
      c in ReadyAt(s, start)
      && forall i :: i in ReadyAt(s, start) ==> s.providers[c].priority <= s.providers[i].priority
  }

  lemma PriorityPicksLeast(s: State, s': State, w: World, at: Option<nat>, span: Span)
    requires |w.ts| == |s.providers| && Selects(s, s', w.ts, w.spend, at) && Calm(s, span) && WorldIn(w, span)
    requires s.policy.Priority?
    ensures LeastReady(s, at, span.start) && s'.policy == s.policy
  {
    SelectionIsCalm(s, s', w, at, span);
    RouterRuns.SelectionSound(s, s', w.ts, w.spend, at);
    var scanned :| Picks(s.policy, s'.policy, s.providers, w.ts, Outcome(scanned, at))
                && s'.providers == TakeToken(scanned, at, w.spend);
    if at.Some? {
      forall i | i in ReadyAt(s, span.start) ensures s.providers[at.value].priority <= s.providers[i].priority {
        assert Up(s.providers, w.ts, s.policy.allowPaid, i);
      }
    }
  }

  /** The reports of a failed call, under distinct names, reach the provider called and no other. */
  lemma FailureReported(s: State, s': State, c: nat, w: World, validator: Option<ValidatorConfig>,
                        answers: string -> Answer, end: Ending)
    requires c < |s.providers| && Sorting.NoRepeats(Names(s.providers))
    requires Called(s, s', Names(s.providers)[c], w, validator, answers, end) && Continues(end)
    ensures |s'.providers| == |s.providers| && s'.policy == s.policy
    ensures
      var fate := FateAt(Names(s.providers)[c], w, validator, answers);
      !fate.Good? && s'.providers == s.providers[c := AfterFailure(s.providers[c], fate, w.ms as real, w.failedAt)]
  {
    var names, name := Names(s.providers), Names(s.providers)[c];
    assert LastNamed(names, name) == Some(c) by {
      LastOfDistinct(names, c);
    }
    RouterRuns.ReportsKeepNames(s.providers, name, Success(w.ms));
  }

  lemma LastOfDistinct(names: seq<string>, c: nat)
    requires Sorting.NoRepeats(names) && c < |names|
    ensures LastNamed(names, names[c]) == Some(c)
  {
  }

  /** The chosen provider, once its call has failed. */
  lemma ChosenFails(s: State, s': State, w: World, c: nat, fate: Fate, span: Span)
    requires |w.ts| == |s.providers| && Selects(s, s', w.ts, w.spend, Some(c)) && Calm(s, span) && WorldIn(w, span)
    requires c in ReadyAt(s, span.start) && !fate.Good?
    ensures |s'.providers| == |s.providers|
    ensures
      var p' := AfterFailure(s'.providers[c], fate, w.ms as real, w.failedAt);
      && Steady(p', span) && p'.priority == s.providers[c].priority
      && (Ready(p', s.policy.allowPaid, span.start) <==> Survives(s.providers[c], fate, span))
  {
    RouterRuns.SelectionSound(s, s', w.ts, w.spend, Some(c));
    AvailableAgainIff(s.providers[c], s'.providers[c], s.policy.allowPaid, w.ts[c], w.spend, fate, w.ms as real,
                      w.failedAt, span);
  }

  lemma FailureAssembled(s: State, selected: State, s': State, c: nat, fate: Fate, ms: real, failedAt: int, span: Span)
    requires c < |s.providers| == |selected.providers| && !fate.Good?
    requires s'.providers == selected.providers[c := AfterFailure(selected.providers[c], fate, ms, failedAt)]
    requires Steady(s'.providers[c], span) && s'.providers[c].priority == s.providers[c].priority
    requires Ready(s'.providers[c], s.policy.allowPaid, span.start) <==> Survives(s.providers[c], fate, span)
    requires forall i: nat :: i < |s.providers| && i != c ==>
      Alike(s.providers[i], selected.providers[i], s.policy.allowPaid, span)
    ensures FailedAt(s, s', c, fate, span)
  {
    forall i: nat | i < |s.providers| && i != c
      ensures Alike(s.providers[i], s'.providers[i], s.policy.allowPaid, span)
    {
      assert s'.providers[i] == selected.providers[i];
    }
  }

  /** A failed attempt over any strategy, while time stands still. */
  lemma CalmFailure(a: Attempt, tried: set<string>, validator: Option<ValidatorConfig>, answers: string -> Answer,
                    span: Span)
    requires Attempted(a, tried, validator, answers) && Continues(a.end)
    requires Calm(a.before, span) && WorldIn(a.world, span) && Sorting.NoRepeats(Names(a.before.providers))
    requires a.at.Some? ==> a.at.value in ReadyAt(a.before, span.start)
    ensures a.at.Some? && a.at.value < |a.before.providers|
    ensures
      var c := a.at.value;
      FailedAt(a.before, a.after, c, FateAt(a.before.providers[c].name, a.world, validator, answers), span)
  {
    var c, w := a.at.value, a.world;
    var name := a.before.providers[c].name;
    SelectionIsCalm(a.before, a.selected, w, a.at, span);
    RouterRuns.SelectionKeepsNames(a.before, a.selected, w.ts, w.spend, a.at);
    assert Names(a.selected.providers)[c] == Names(a.before.providers)[c] == name;
    FailureReported(a.selected, a.after, c, w, validator, answers, a.end);
    var fate := FateAt(name, w, validator, answers);
    ChosenFails(a.before, a.selected, w, c, fate, span);
    FailureAssembled(a.before, a.selected, a.after, c, fate, w.ms as real, w.failedAt, span);
  }

  // ----- the whole loop -----

  /** The providers that one failed call takes out of selection for the rest of the look-up. */
  ghost function Droppers(s: State, fate: string -> Fate, span: Span): set<nat> {
    set i: nat | i < |s.providers|
      && var f := fate(s.providers[i].name); !f.Good? && !Survives(s.providers[i], f, span)
  }

  /** Every available provider of smaller priority value drops out. */
  ghost predicate Cleared(s: State, fate: string -> Fate, span: Span, i: nat)
    requires i < |s.providers|
  {
    forall j :: j in ReadyAt(s, span.start) && s.providers[j].priority < s.providers[i].priority ==>
      j in Droppers(s, fate, span)
  }

  /** Those contacted are available providers, and before each come contacted providers that dropped out. */
  ghost predicate InOrder(s: State, ready: set<nat>, drop: set<nat>, covered: set<nat>) {
    && covered <= ready && (forall i :: i in ready ==> i < |s.providers|)
    && forall i, j :: i in ready && j in covered && s.providers[i].priority < s.providers[j].priority ==>
         i in covered && i in drop
  }

  lemma NextInOrder(s: State, ready: set<nat>, drop: set<nat>, covered: set<nat>, c: nat)
    requires InOrder(s, ready, drop, covered) && c in ready
    requires forall i :: i in ready - covered * drop ==> s.providers[c].priority <= s.providers[i].priority
    ensures InOrder(s, ready, drop, covered + {c})
  {
  }

  /** The router's state `s` after k failed attempts on providers `covered`, begun in state s0. */
  ghost predicate OnTrack(s0: State, s: State, fate: string -> Fate, span: Span, covered: set<nat>, k: nat) {
    && Names(s.providers) == Names(s0.providers) && |s.providers| == |s0.providers| && s.policy == s0.policy
    && Calm(s, span) && |covered| == k
    && InOrder(s0, ReadyAt(s0, span.start), Droppers(s0, fate, span), covered)
    && ReadyAt(s, span.start) == ReadyAt(s0, span.start) - covered * Droppers(s0, fate, span)
    && (forall i: nat :: i < |s.providers| ==> s.providers[i].priority == s0.providers[i].priority)
    && (forall i: nat :: i < |s.providers| && i !in covered ==>
          forall f :: Survives(s.providers[i], f, span) == Survives(s0.providers[i], f, span))
  }

  lemma TrackGoesOn(s0: State, s: State, s': State, fate: string -> Fate, span: Span, covered: set<nat>, k: nat, c: nat)
    requires OnTrack(s0, s, fate, span, covered, k) && LeastReady(s, Some(c), span.start) && c !in covered
    requires c < |s0.providers| && FailedAt(s, s', c, fate(s0.providers[c].name), span)
    requires Names(s'.providers) == Names(s.providers) && s'.policy == s.policy
    ensures OnTrack(s0, s', fate, span, covered + {c}, k + 1)
  {
    var ready, drop := ReadyAt(s0, span.start), Droppers(s0, fate, span);
    NextInOrder(s0, ready, drop, covered, c);
    assert c in drop <==> !Survives(s.providers[c], fate(s0.providers[c].name), span);
    forall i ensures i in ReadyAt(s', span.start) <==> i in ready - (covered + {c}) * drop {
      assert i in ReadyAt(s, span.start) <==> i in ready - covered * drop;
    }
  }

  /** A failed attempt, as a step of the router from one state to the next. */
  lemma FailureFound(a: Attempt, tried: set<string>, validator: Option<ValidatorConfig>, answers: string -> Answer,
                     fate: string -> Fate, span: Span)
    requires Attempted(a, tried, validator, answers) && Continues(a.end) && WorldIn(a.world, span)
    requires Settled(fate, a.world, validator, answers) && Calm(a.before, span)
    requires Sorting.NoRepeats(Names(a.before.providers))
    requires a.at.Some? ==> a.at.value in ReadyAt(a.before, span.start)
    ensures a.at.Some? && a.at.value < |a.before.providers|
    ensures
      var name := Names(a.before.providers)[a.at.value];
      && Contact(a.end) == Some(name) && name !in tried
      && FailedAt(a.before, a.after, a.at.value, fate(name), span)
    ensures Names(a.after.providers) == Names(a.before.providers) && a.after.policy == a.selected.policy
  {
    CalmFailure(a, tried, validator, answers, span);
    AttemptKeepsNames(a, tried, validator, answers);
    var name := a.before.providers[a.at.value].name;
    assert Names(a.before.providers)[a.at.value] == name;
    assert FateAt(name, a.world, validator, answers) == fate(name);
  }

  lemma AttemptOnTrack(a: Attempt, tried: set<string>, validator: Option<ValidatorConfig>, answers: string -> Answer,
                       s0: State, fate: string -> Fate, span: Span, k: nat)
    requires Attempted(a, tried, validator, answers) && WorldIn(a.world, span)
    requires Settled(fate, a.world, validator, answers)
    requires s0.policy.Priority? && Sorting.NoRepeats(Names(s0.providers))
    requires OnTrack(s0, a.before, fate, span, Covered(Names(s0.providers), tried), k)
    ensures LeastReady(a.before, a.at, span.start)
    ensures Continues(a.end) ==>
      && a.at.Some? && Contact(a.end) == Some(Names(s0.providers)[a.at.value])
      && OnTrack(s0, a.after, fate, span, Covered(Names(s0.providers), AndContact(tried, a.end)), k + 1)
  {
    var names := Names(s0.providers);
    PriorityPicksLeast(a.before, a.selected, a.world, a.at, span);
    if Continues(a.end) {
      var c := a.at.value;
      FailureFound(a, tried, validator, answers, fate, span);
      assert names[c] == s0.providers[c].name;
      TrackGoesOn(s0, a.before, a.after, fate, span, Covered(names, tried), k, c);
      CoverOneMore(names, tried, c);
    }
  }

  /** A look-up over the priority strategy during which time stands still. */
  ghost predicate CalmLookUp(trace: seq<Attempt>, worlds: seq<World>, validator: Option<ValidatorConfig>,
                             answers: string -> Answer, fate: string -> Fate, span: Span) {
    && trace != [] && Loop(trace, worlds, validator, answers)
    && trace[0].before.policy.Priority? && Calm(trace[0].before, span)
    && Sorting.NoRepeats(Names(trace[0].before.providers))
    && (forall k :: 0 <= k < |worlds| ==> WorldIn(worlds[k], span) && Settled(fate, worlds[k], validator, answers))
  }

  lemma StartsOnTrack(s: State, fate: string -> Fate, span: Span)
    requires Calm(s, span)
    ensures OnTrack(s, s, fate, span, {}, 0)
  {
  }

  lemma {:induction false} StaysOnTrack(trace: seq<Attempt>, worlds: seq<World>, validator: Option<ValidatorConfig>,
                                        answers: string -> Answer, fate: string -> Fate, span: Span, k: nat)
    requires CalmLookUp(trace, worlds, validator, answers, fate, span) && k <= |trace|
    requires k == |trace| ==> Continues(trace[k - 1].end)
    ensures
      var s0 := trace[0].before;
      OnTrack(s0, StateAt(trace, k), fate, span, Covered(Names(s0.providers), Contacted(trace[..k])), k)
  {
    var s0 := trace[0].before;
    if k == 0 {
      assert trace[..0] == [];
      assert Covered(Names(s0.providers), Contacted([])) == {};
      StartsOnTrack(s0, fate, span);
    } else {
      StaysOnTrack(trace, worlds, validator, answers, fate, span, k - 1);
      assert AttemptAt(trace, k - 1, worlds, validator, answers);
      AttemptOnTrack(trace[k - 1], Contacted(trace[..k - 1]), validator, answers, s0, fate, span, k - 1);
      ContactedStep(trace, k - 1);
      assert StateAt(trace, k) == trace[k - 1].after;
    }
  }

  /** The last attempt, whatever its end: what it chose, and what has been contacted in all. */
  lemma LastAttempt(trace: seq<Attempt>, worlds: seq<World>, validator: Option<ValidatorConfig>,
                    answers: string -> Answer, fate: string -> Fate, span: Span)
    requires CalmLookUp(trace, worlds, validator, answers, fate, span)
    ensures
      var s0, n := trace[0].before, |trace| - 1;
      var names, a := Names(s0.providers), trace[n];
      && Attempted(a, Contacted(trace[..n]), validator, answers) && a.world == worlds[n]
      && OnTrack(s0, a.before, fate, span, Covered(names, Contacted(trace[..n])), n)
      && LeastReady(a.before, a.at, span.start)
      && Contacted(trace) == AndContact(Contacted(trace[..n]), a.end)
      && (Continues(a.end) ==> OnTrack(s0, a.after, fate, span, Covered(names, Contacted(trace)), |trace|))
  {
    var s0, n := trace[0].before, |trace| - 1;
    StaysOnTrack(trace, worlds, validator, answers, fate, span, n);
    assert AttemptAt(trace, n, worlds, validator, answers);
    AttemptOnTrack(trace[n], Contacted(trace[..n]), validator, answers, s0, fate, span, n);
    ContactedStep(trace, n);
    assert trace[..n + 1] == trace;
  }

  lemma AcceptedInOrder(a: Attempt, tried: set<string>, s0: State, fate: string -> Fate, span: Span, k: nat)
    requires OnTrack(s0, a.before, fate, span, Covered(Names(s0.providers), tried), k)
    requires LeastReady(a.before, a.at, span.start) && Sorting.NoRepeats(Names(s0.providers))
    requires a.end.Accepted? && a.at.Some? && a.end.name == Names(a.before.providers)[a.at.value]
    ensures InOrder(s0, ReadyAt(s0, span.start), Droppers(s0, fate, span),
                    Covered(Names(s0.providers), AndContact(tried, a.end)))
  {
    var names, c := Names(s0.providers), a.at.value;
    CoverOneMore(names, tried, c);
    NextInOrder(s0, ReadyAt(s0, span.start), Droppers(s0, fate, span), Covered(names, tried), c);
  }

  /** However the look-up ends, providers have been contacted in order. */
  lemma EndsInOrder(trace: seq<Attempt>, worlds: seq<World>, validator: Option<ValidatorConfig>,
                    answers: string -> Answer, fate: string -> Fate, span: Span)
    requires CalmLookUp(trace, worlds, validator, answers, fate, span)
    ensures
      var s0 := trace[0].before;
      InOrder(s0, ReadyAt(s0, span.start), Droppers(s0, fate, span), Covered(Names(s0.providers), Contacted(trace)))
  {
    LastAttempt(trace, worlds, validator, answers, fate, span);
    var n := |trace| - 1;
    if trace[n].end.Accepted? {
      AcceptedInOrder(trace[n], Contacted(trace[..n]), trace[0].before, fate, span, n);
    }
  }

  ghost predicate DistinctPriorities(s: State) {
    forall i, j :: 0 <= i < j < |s.providers| ==> s.providers[i].priority != s.providers[j].priority
  }

  lemma AllCovered(n: nat, covered: set<nat>, i: nat)
    requires |covered| >= n && (forall j :: j in covered ==> j < n) && i < n
    ensures i in covered
  {
    TooMany(n, covered + {i});
  }

  lemma TooMany(n: nat, covered: set<nat>)
    requires forall i :: i in covered ==> i < n
    ensures |covered| <= n
    decreases n
  {
    if n > 0 {
      TooMany(n - 1, covered - {n - 1});
    } else if covered != {} {
      var i := SomeMember(covered);
    }
  }

  /** An attempt that ends the loop has not passed over an available provider to which the way was cleared. */
  lemma NotPassedOver(a: Attempt, tried: set<string>, validator: Option<ValidatorConfig>, answers: string -> Answer,
                      s0: State, fate: string -> Fate, span: Span, k: nat, i: nat)
    requires Attempted(a, tried, validator, answers) && !Continues(a.end) && Settled(fate, a.world, validator, answers)
    requires OnTrack(s0, a.before, fate, span, Covered(Names(s0.providers), tried), k)
    requires LeastReady(a.before, a.at, span.start) && DistinctPriorities(s0)
    requires i in ReadyAt(s0, span.start) && Cleared(s0, fate, span, i)
    ensures Names(s0.providers)[i] in AndContact(tried, a.end)
  {
    var names := Names(s0.providers);
    if names[i] !in tried {
      assert i in ReadyAt(a.before, span.start);
      var c := a.at.value;
      assert names[c] == Names(a.before.providers)[c] == a.before.providers[c].name;
      assert names[c] !in tried ==> a.end.Accepted? && FateAt(names[c], a.world, validator, answers) == fate(names[c]);
      assert c !in Droppers(s0, fate, span) || c !in Covered(names, tried);
      assert c !in Droppers(s0, fate, span);
    }
  }

  /** When every attempt has failed, as many providers have been contacted as there were attempts. */
  lemma NobodyLeft(s0: State, s: State, fate: string -> Fate, span: Span, contacted: set<string>, k: nat, i: nat)
    requires OnTrack(s0, s, fate, span, Covered(Names(s0.providers), contacted), k)
    requires k >= |s0.providers| && i < |s0.providers|
    ensures Names(s0.providers)[i] in contacted
  {
    AllCovered(|s0.providers|, Covered(Names(s0.providers), contacted), i);
  }

  lemma OrderClears(s0: State, fate: string -> Fate, span: Span, contacted: set<string>, i: nat)
    requires InOrder(s0, ReadyAt(s0, span.start), Droppers(s0, fate, span), Covered(Names(s0.providers), contacted))
    requires i < |s0.providers| && Names(s0.providers)[i] in contacted
    ensures Cleared(s0, fate, span, i)
  {
    assert i in Covered(Names(s0.providers), contacted);
  }

  /**
   Whom the priority strategy lets the loop contact. Take a look-up during which no window ends, no
   timeout runs out and no price goes stale, on providers with distinct names and priorities, with at
   least as many retries as providers. A provider available at the start is contacted exactly when every
   available provider of smaller priority value fails and drops out; both can be told beforehand.
   */
  lemma ContactedIff(trace: seq<Attempt>, worlds: seq<World>, validator: Option<ValidatorConfig>,
                     answers: string -> Answer, fate: string -> Fate, span: Span, maxRetries: nat, i: nat)
    requires CalmLookUp(trace, worlds, validator, answers, fate, span) && Stopped(trace, maxRetries)
    requires DistinctPriorities(trace[0].before) && maxRetries >= |trace[0].before.providers|
    requires i in ReadyAt(trace[0].before, span.start)
    ensures trace[0].before.providers[i].name in Contacted(trace) <==> Cleared(trace[0].before, fate, span, i)
  {
    var s0, n := trace[0].before, |trace| - 1;
    assert Names(s0.providers)[i] == s0.providers[i].name;
    if s0.providers[i].name in Contacted(trace) {
      EndsInOrder(trace, worlds, validator, answers, fate, span);
      OrderClears(s0, fate, span, Contacted(trace), i);
    } else if Cleared(s0, fate, span, i) {
      LastAttempt(trace, worlds, validator, answers, fate, span);
      if Continues(trace[n].end) {
        NobodyLeft(s0, trace[n].after, fate, span, Contacted(trace), |trace|, i);
      } else {
        NotPassedOver(trace[n], Contacted(trace[..n]), validator, answers, s0, fate, span, n, i);
      }
    }
  }

  /** Provider i is available, its call succeeds, and the way to it is cleared. */
  ghost predicate Answers(s: State, fate: string -> Fate, span: Span, i: nat) {
    i in ReadyAt(s, span.start) && fate(s.providers[i].name).Good? && Cleared(s, fate, span, i)
  }

  /**
   So the look-up ends with a fresh price exactly when some available provider would answer well and
   every available one of smaller priority value fails and drops out.
   */
  lemma FreshPriceIff(trace: seq<Attempt>, worlds: seq<World>, validator: Option<ValidatorConfig>,
                      answers: string -> Answer, fate: string -> Fate, span: Span, maxRetries: nat)
    requires CalmLookUp(trace, worlds, validator, answers, fate, span) && Stopped(trace, maxRetries)
    requires DistinctPriorities(trace[0].before) && maxRetries >= |trace[0].before.providers|
    ensures trace[|trace| - 1].end.Accepted? <==> exists i: nat :: Answers(trace[0].before, fate, span, i)
  {
    var s0, n := trace[0].before, |trace| - 1;
    if trace[n].end.Accepted? {
      var i := AcceptedOne(trace, worlds, validator, answers, fate, span);
      ContactedIff(trace, worlds, validator, answers, fate, span, maxRetries, i);
      assert Answers(s0, fate, span, i);
    } else if i: nat :| Answers(s0, fate, span, i) {
      ContactedIff(trace, worlds, validator, answers, fate, span, maxRetries, i);
      GoodEnds(trace, worlds, validator, answers, fate, span, s0.providers[i].name);
    }
  }

  lemma AcceptedOne(trace: seq<Attempt>, worlds: seq<World>, validator: Option<ValidatorConfig>,
                    answers: string -> Answer, fate: string -> Fate, span: Span)
    returns (i: nat)
    requires CalmLookUp(trace, worlds, validator, answers, fate, span) && trace[|trace| - 1].end.Accepted?
    ensures i in ReadyAt(trace[0].before, span.start)
    ensures
      var name := trace[0].before.providers[i].name;
      name in Contacted(trace) && fate(name).Good?
  {
    var n := |trace| - 1;
    LastAttempt(trace, worlds, validator, answers, fate, span);
    i := AcceptedHere(trace[n], Contacted(trace[..n]), validator, answers, trace[0].before, fate, span, n);
  }

  lemma AcceptedHere(a: Attempt, tried: set<string>, validator: Option<ValidatorConfig>, answers: string -> Answer,
                     s0: State, fate: string -> Fate, span: Span, k: nat)
    returns (i: nat)
    requires Attempted(a, tried, validator, answers) && a.end.Accepted? && Settled(fate, a.world, validator, answers)
    requires OnTrack(s0, a.before, fate, span, Covered(Names(s0.providers), tried), k)
    requires LeastReady(a.before, a.at, span.start)
    ensures i in ReadyAt(s0, span.start) && s0.providers[i].name in AndContact(tried, a.end)
    ensures fate(s0.providers[i].name).Good?
  {
    i := a.at.value;
    assert Names(s0.providers)[i] == Names(a.before.providers)[i];
    assert FateAt(a.end.name, a.world, validator, answers) == fate(a.end.name);
  }

  lemma GoodEnds(trace: seq<Attempt>, worlds: seq<World>, validator: Option<ValidatorConfig>,
                 answers: string -> Answer, fate: string -> Fate, span: Span, name: string)
    requires CalmLookUp(trace, worlds, validator, answers, fate, span)
    requires name in Contacted(trace) && fate(name).Good?
    ensures trace[|trace| - 1].end.Accepted?
  {
    var k: nat :| k < |trace| && Contact(trace[k].end) == Some(name);
    assert AttemptAt(trace, k, worlds, validator, answers);
    assert FateAt(name, worlds[k], validator, answers) == fate(name);
    assert !Continues(trace[k].end);
  }

  // ----- whatever the clock does -----

  /** The second attempt knows the provider of the first by its name. */
  lemma FirstIsTried(trace: seq<Attempt>, worlds: seq<World>, validator: Option<ValidatorConfig>,
                     answers: string -> Answer, c: nat)
    requires Loop(trace, worlds, validator, answers) && |trace| >= 2 && trace[0].at == Some(c)
    ensures c < |trace[0].before.providers| == |trace[1].before.providers|
    ensures trace[1].before.providers[c].name in Contacted(trace[..1])
    ensures Attempted(trace[1], Contacted(trace[..1]), validator, answers)
    ensures trace[1].before.policy.Priority? <==> trace[0].before.policy.Priority?
  {
    var a, b := trace[0], trace[1];
    assert AttemptAt(trace, 0, worlds, validator, answers) && AttemptAt(trace, 1, worlds, validator, answers);
    assert trace[..0] == [];
    ContactedStep(trace, 0);
    AttemptKeepsNames(a, {}, validator, answers);
    assert Names(b.before.providers)[c] == Names(a.before.providers)[c];
  }

  lemma PriorityAlone(r: State, r': State, ts: seq<Readings>, spend: RateLimit.Tick, at: Option<nat>, c: nat)
    requires |ts| == |r.providers| && Selects(r, r', ts, spend, at) && r.policy.Priority?
    requires c < |ts| && Up(r.providers, ts, r.policy.allowPaid, c)
    requires forall i: nat :: i < |ts| && i != c ==> r.providers[c].priority < r.providers[i].priority
    ensures at == Some(c)
  {
  }

  /**
   At any time: if the provider picked first has a strictly smaller priority value than all others and
   is still available at the second attempt, that attempt picks it again and the loop gives up.
   */
  lemma PriorityGivesUp(trace: seq<Attempt>, worlds: seq<World>, validator: Option<ValidatorConfig>,
                        answers: string -> Answer, c: nat)
    requires Loop(trace, worlds, validator, answers) && |trace| >= 2 && trace[0].before.policy.Priority?
    requires c < |trace[0].before.providers| && trace[0].at == Some(c)
    requires c < |trace[1].before.providers| == |trace[1].world.ts|
    requires Up(trace[1].before.providers, trace[1].world.ts, trace[1].before.policy.allowPaid, c)
    requires forall i: nat :: i < |trace[1].before.providers| && i != c ==>
      trace[1].before.providers[c].priority < trace[1].before.providers[i].priority
    ensures trace[1].end.Repeated? && |trace| == 2
  {
    var b := trace[1];
    FirstIsTried(trace, worlds, validator, answers, c);
    PriorityAlone(b.before, b.selected, b.world.ts, b.world.spend, b.at, c);
    assert |trace| > 2 ==> Continues(b.end);
  }

  // ----- a look-up that misses a good provider -----

  const BAD := Registration("bad", false, 1, 0.0, 10, 60, 5, 60)
  const GOOD := Registration("good", false, 2, 0.0, 10, 60, 5, 60)

  function Pair(bad: Provider): State {
    State(Priority(true), [bad, Registered(GOOD, 0)])
  }

  /** Everything happens at the instant 1. */
  function AtOne(): World {
    var one := RateLimit.Tick(1, 1);
    var t := Readings(1, one, one);
    World([t, t], one, 1, 1, 0, 1)
  }

  function OnlyGoodAnswers(price: Price): string -> Answer {
    name => if name == "good" then Priced(price) else Refused(CallFailed(500))
  }

  lemma PicksBad(bad: Provider)
    requires bad.priority == 1 && Available(bad, true, AtOne().ts[0])
    ensures
      var w, s := AtOne(), Pair(bad);
      Selects(s, Pair(Spent(Probed(bad, true, w.ts[0]), w.spend)), w.ts, w.spend, Some(0))
  {
    var w, s := AtOne(), Pair(bad);
    var scanned := [Probed(bad, true, w.ts[0]), s.providers[1]];
    var s' := Pair(Spent(Probed(bad, true, w.ts[0]), w.spend));
    assert Picks(s.policy, s'.policy, s.providers, w.ts, Outcome(scanned, Some(0)));
    assert s'.providers == TakeToken(scanned, Some(0), w.spend);
  }

  function Taken(bad: Provider): Provider {
    Spent(Probed(bad, true, AtOne().ts[0]), AtOne().spend)
  }

  function MissingRun(): seq<Attempt> {
    var w, p0 := AtOne(), Registered(BAD, 0);
    var p1 := Taken(p0);
    var p2 := Providers.Failed(p1, 1);
    [Attempt(Pair(p0), Pair(p1), Pair(p2), Some(0), w, Failed("bad", CallFailed(500))),
     Attempt(Pair(p2), Pair(Taken(p2)), Pair(Taken(p2)), Some(0), w, Repeated("bad"))]
  }

  lemma MissingAttempts(answers: string -> Answer)
    requires answers("bad") == Refused(CallFailed(500))
    ensures Attempted(MissingRun()[0], {}, None, answers) && Attempted(MissingRun()[1], {"bad"}, None, answers)
  {
    PicksBad(Registered(BAD, 0));
    PicksBad(MissingRun()[1].before.providers[0]);
    FirstMisses(answers);
  }

  lemma MissingContacts()
    ensures Contacted(MissingRun()[..0]) == {} && Contacted(MissingRun()[..1]) == Contacted(MissingRun()) == {"bad"}
  {
    var trace := MissingRun();
    ContactedGrows([], trace[0]);
    ContactedGrows([trace[0]], trace[1]);
    assert trace[..0] == [] && trace[..1] == [] + [trace[0]] && trace == [trace[0]] + [trace[1]];
  }

  /**
   Two providers, ten tokens and a threshold of five each: the first choice fails once, is picked again,
   and the loop gives up, although the second is available and would have answered.
   */
  lemma GoodOneMissed(price: Price)
    ensures
      var trace, worlds := MissingRun(), [AtOne(), AtOne()];
      && Loop(trace, worlds, None, OnlyGoodAnswers(price)) && Stopped(trace, 2)
      && trace[1].end == Repeated("bad") && Contacted(trace) == {"bad"}
      && Ready(trace[1].after.providers[1], true, 1) && trace[1].after.providers[1].name == "good"
      && AnswersWell("good", worlds, None, OnlyGoodAnswers(price))
  {
    var trace, worlds, answers := MissingRun(), [AtOne(), AtOne()], OnlyGoodAnswers(price);
    MissingAttempts(answers);
    MissingContacts();
    assert AttemptAt(trace, 0, worlds, None, answers);
    assert AttemptAt(trace, 1, worlds, None, answers);
  }

  lemma FirstMisses(answers: string -> Answer)
    requires answers("bad") == Refused(CallFailed(500))
    ensures Called(MissingRun()[0].selected, MissingRun()[0].after, "bad", AtOne(), None, answers, MissingRun()[0].end)
  {
    var s := MissingRun()[0].selected;
    var names := Names(s.providers);
    assert names[0] == "bad" && names[1] == "good";
    assert "bad" != "good" by { assert |"bad"| != |"good"|; }
    assert LastNamed(names[..1], "bad") == Some(0);
    assert LastNamed(names, "bad") == Some(0);
  }
}
