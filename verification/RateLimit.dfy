/**
 The lazily reset rate limiter, and the bound it puts on how often a provider is selected.

 Every method of the tracker runs under the tracker's own mutex and is one atomic step here. The clock
 is a parameter: `checkReset` may read it twice, so a step receives two readings.
 */
module RateLimit {
  import opened Common

  /** Two consecutive clock readings made inside one critical section. */
  datatype Tick = Tick(now: int, later: int) {
    predicate Ordered() { now <= later }
  }

  datatype Limiter = Limiter(limit: int, window: int, remaining: int, resetAt: int) {
    predicate Valid() {
      && remaining <= limit
      && (limit >= 0 ==> remaining >= 0)
    }
  }

  function New(limit: int, window: int, now: int): Limiter {
    Limiter(limit, window, limit, now + window)
  }

  function CheckReset(l: Limiter, t: Tick): Limiter {
    if t.now > l.resetAt then l.(remaining := l.limit, resetAt := t.later + l.window) else l
  }

  function Consume(l: Limiter, t: Tick): Limiter {
    var c := CheckReset(l, t);
    if c.remaining > 0 then c.(remaining := c.remaining - 1) else c
  }

  function Ratio(l: Limiter): real {
    if l.limit == 0 then 0.0 else l.remaining as real / l.limit as real
  }

  class RateLimitTracker {
    const limit: int
    const window: int
    var remaining: int
    var resetAt: int

    function View(): Limiter
      reads this
    {
      Limiter(limit, window, remaining, resetAt)
    }

    constructor (limit: int, window: int, now: int)
      ensures View() == New(limit, window, now) && View().Valid()
      ensures this.limit == limit && this.window == window && remaining == limit && resetAt == now + window
    {
      this.limit := limit;
      this.window := window;
      this.remaining := limit;
      this.resetAt := now + window;
    }

    method CheckResetNow(t: Tick)
      modifies this
      ensures View() == CheckReset(old(View()), t)
      ensures if t.now > old(resetAt) then remaining == limit && resetAt == t.later + window
              else remaining == old(remaining) && resetAt == old(resetAt)
    {
      if t.now > resetAt {
        remaining := limit;
        resetAt := t.later + window;
      }
    }

    method ConsumeToken(t: Tick)
      modifies this
      ensures View() == Consume(old(View()), t)
      ensures
        var left := if t.now > old(resetAt) then limit else old(remaining);
        && remaining == (if left > 0 then left - 1 else left)
        && resetAt == if t.now > old(resetAt) then t.later + window else old(resetAt)
    {
      CheckResetNow(t);
      if remaining > 0 {
        remaining := remaining - 1;
      }
    }

    method Remaining(t: Tick) returns (r: int)
      modifies this
      ensures View() == CheckReset(old(View()), t)
      ensures r == remaining == if t.now > old(resetAt) then limit else old(remaining)
    {
      CheckResetNow(t);
      r := remaining;
    }

    method IsExhausted(t: Tick) returns (b: bool)
      modifies this
      ensures View() == CheckReset(old(View()), t)
      ensures b == (remaining <= 0)
    {
      var r := Remaining(t);
      b := r <= 0;
    }

    method RemainingRatio(t: Tick) returns (r: real)
      modifies this
      ensures View() == CheckReset(old(View()), t)
      ensures r == Ratio(View())
      ensures
        var left := if t.now > old(resetAt) then limit else old(remaining);
        r == if limit == 0 then 0.0 else left as real / limit as real
    {
      CheckResetNow(t);
      if limit == 0 {
        return 0.0;
      }
      r := remaining as real / limit as real;
    }
  }

  // ----- one limiter under every interleaving of selections with probes -----

  /**
   `held` says that the `Select` holding the router's mutex has found this limiter not exhausted and
   will consume from it next. Only `Select` consumes, so at most one caller holds a limiter.
   */
  datatype Slot = Slot(lim: Limiter, held: bool)

  datatype Step =
    | Probe(t: Tick)   // Remaining, IsExhausted or RemainingRatio, from any goroutine
    | Choose(t: Tick)  // the IsExhausted call of a Select that then picks this provider
    | Spend(t: Tick)   // the Consume call of that Select: the provider is returned

  predicate Enabled(s: Slot, e: Step) {
    match e
    case Probe(_) => true
    case Choose(t) => !s.held && CheckReset(s.lim, t).remaining > 0
    case Spend(_) => s.held
  }

  function Apply(s: Slot, e: Step): Slot {
    match e
    case Probe(t) => s.(lim := CheckReset(s.lim, t))
    case Choose(t) => Slot(CheckReset(s.lim, t), true)
    case Spend(t) => Slot(Consume(s.lim, t), false)
  }

  predicate Run(s: Slot, es: seq<Step>)
    decreases es
  {
    es == [] || (Enabled(s, es[0]) && Run(Apply(s, es[0]), es[1..]))
  }

  /** Readings never go backwards, neither inside a step nor from one step to the next. */
  predicate Clocked(es: seq<Step>) {
    && (forall i :: 0 <= i < |es| ==> es[i].t.Ordered())
    && (forall i, j :: 0 <= i < j < |es| ==> es[i].t.later <= es[j].t.now)
  }

  /** How many selections of this provider the run makes in the closed interval [a, b]. */
  function Selections(es: seq<Step>, a: int, b: int): nat {
    if es == [] then 0
    else (if es[0].Spend? && a <= es[0].t.now <= b then 1 else 0) + Selections(es[1..], a, b)
  }

  predicate Sound(s: Slot) {
    && s.lim.Valid()
    && s.lim.window > 0
    && (s.held ==> s.lim.remaining > 0)
  }

  function CeilDiv(x: int, w: int): int
    requires w > 0
  {
    (x + w - 1) / w
  }

  /** Every enabled step keeps the invariant: probing never loses the token a selection counts on. */
  lemma StepKeepsSound(s: Slot, e: Step)
    requires Sound(s) && Enabled(s, e)
    ensures Sound(Apply(s, e))
    ensures Apply(s, e).lim.limit == s.lim.limit && Apply(s, e).lim.window == s.lim.window
    ensures e.Spend? ==> Apply(s, e).lim.remaining == CheckReset(s.lim, e.t).remaining - 1
  {
  }

  /** How many resets fit into [from, b]: one window ends before the next reset, so they lie w + 1 apart. */
  function ResetsLeft(from: int, b: int, w: int): int
    requires w > 0
  {
    if from > b then 0 else 1 + (b - from) / (w + 1)
  }

  /** The first instant of [a, ..] at which a reset can happen when the current window ends at `resetAt`. */
  function NextReset(resetAt: int, a: int): int {
    Max(resetAt + 1, a)
  }

  /** A reset at a time in [a, b] uses up one of the resets left, because windows do not overlap. */
  lemma ResetUsesOne(r: int, now: int, later: int, a: int, b: int, w: int)
    requires w > 0 && r < now <= later && a <= now <= b
    ensures 1 + ResetsLeft(NextReset(later + w, a), b, w) <= ResetsLeft(NextReset(r, a), b, w)
  {
    var from, from' := NextReset(r, a), NextReset(later + w, a);
    DivMonotone(0, b - from, w + 1);
    QuotientUnique(0, 0, 0, w + 1);
    if from' <= b {
      DivMonotone(b - from', b - from - (w + 1), w + 1);
      DivStep(b - from - (w + 1), w + 1);
    }
  }

  lemma {:induction false} NoneAfter(es: seq<Step>, a: int, b: int)
    requires Clocked(es) && (es != [] ==> es[0].t.now > b)
    ensures Selections(es, a, b) == 0
  {
    if es != [] {
      NoneAfter(es[1..], a, b);
    }
  }

  /**
   What can be spent in [a, b]: the tokens left, unless their window is over before the interval
   begins, and a full window's worth for every reset still possible.
   */
  function Budget(l: Limiter, a: int, b: int): int
    requires l.window > 0
  {
    (if l.resetAt < a then 0 else Max(0, l.remaining))
    + Max(0, l.limit) * ResetsLeft(NextReset(l.resetAt, a), b, l.window)
  }

  lemma ScaleUp(cap: int, x: int, y: int)
    requires cap >= 0 && x <= y
    ensures cap * x <= cap * y
  {
  }

  lemma StepPays(s: Slot, e: Step, a: int, b: int)
    requires Sound(s) && Enabled(s, e) && e.t.Ordered() && a <= e.t.now <= b
    ensures Apply(s, e).lim.window > 0
    ensures (if e.Spend? then 1 else 0) + Budget(Apply(s, e).lim, a, b) <= Budget(s.lim, a, b)
  {
    var cap, w, r := Max(0, s.lim.limit), s.lim.window, s.lim.resetAt;
    if e.t.now > r {
      var before, after := ResetsLeft(NextReset(r, a), b, w), ResetsLeft(NextReset(e.t.later + w, a), b, w);
      ResetUsesOne(r, e.t.now, e.t.later, a, b, w);
      OneResetMore(cap, after, before);
    }
  }

  lemma OneResetMore(cap: int, after: int, before: int)
    requires cap >= 0 && 1 + after <= before
    ensures cap + cap * after <= cap * before
  {
    ScaleUp(cap, 1 + after, before);
    assert cap * (1 + after) == cap + cap * after;
  }

  /** Inside the interval, selections are paid for by the tokens left and those of future resets. */
  lemma {:induction false} TokensPay(s: Slot, es: seq<Step>, a: int, b: int)
    requires Sound(s) && Run(s, es) && Clocked(es)
    requires es != [] ==> a <= es[0].t.now
    ensures Selections(es, a, b) <= Budget(s.lim, a, b)
    decreases es
  {
    if es == [] || es[0].t.now > b {
      NoneAfter(es, a, b);
      NoNegativeResets(NextReset(s.lim.resetAt, a), b, s.lim.window);
      ScaleUp(Max(0, s.lim.limit), 0, ResetsLeft(NextReset(s.lim.resetAt, a), b, s.lim.window));
    } else {
      StepKeepsSound(s, es[0]);
      StepPays(s, es[0], a, b);
      TokensPay(Apply(s, es[0]), es[1..], a, b);
    }
  }

  lemma NoNegativeResets(from: int, b: int, w: int)
    requires w > 0
    ensures ResetsLeft(from, b, w) >= 0
  {
    if from <= b {
      DivMonotone(0, b - from, w + 1);
      QuotientUnique(0, 0, 0, w + 1);
    }
  }

  /** Selections that fit into a closed interval of length `len`. */
  function Most(limit: int, window: int, len: nat): int
    requires window > 0
  {
    Max(0, limit) * (1 + CeilDiv(len, window + 1))
  }

  lemma ResetsInside(from: int, a: int, len: nat, w: int)
    requires w > 0 && from >= a
    ensures ResetsLeft(from, a + len, w) <= 1 + CeilDiv(len, w + 1)
    ensures from > a ==> ResetsLeft(from, a + len, w) <= CeilDiv(len, w + 1)
  {
    DivMonotone(0, len + w, w + 1);
    QuotientUnique(0, 0, 0, w + 1);
    if from <= a + len {
      DivMonotone(a + len - from, len + w, w + 1);
      if from > a {
        DivMonotone(a + len - from, len - 1, w + 1);
        DivStep(len - 1, w + 1);
      }
    }
  }

  lemma BudgetIsMost(l: Limiter, a: int, len: nat)
    requires l.Valid() && l.window > 0
    ensures Budget(l, a, a + len) <= Most(l.limit, l.window, len)
  {
    var cap, most, from := Max(0, l.limit), CeilDiv(len, l.window + 1), NextReset(l.resetAt, a);
    var left := ResetsLeft(from, a + len, l.window);
    ResetsInside(from, a, len, l.window);
    if l.resetAt < a {
      ScaleUp(cap, left, 1 + most);
    } else {
      ScaleUp(cap, 1 + left, 1 + most);
      assert cap * (1 + left) == cap + cap * left;
    }
  }

  /**
   The rate bound: in every run, any closed interval of length `len` holds at most
   limit * (1 + ceil(len / (window + 1))) selections of the provider, none at all if the limit is
   not positive. A window of w instants ends before the next reset, so resets lie w + 1 apart.
   */
  lemma {:induction false} RateBound(s: Slot, es: seq<Step>, a: int, len: nat)
    requires Sound(s) && Run(s, es) && Clocked(es)
    ensures Selections(es, a, a + len) <= Most(s.lim.limit, s.lim.window, len)
    decreases es
  {
    if es != [] && es[0].t.now < a {
      StepKeepsSound(s, es[0]);
      RateBound(Apply(s, es[0]), es[1..], a, len);
    } else {
      TokensPay(s, es, a, a + len);
      BudgetIsMost(s.lim, a, len);
    }
  }

  function Exec(s: Slot, es: seq<Step>): Slot
    decreases es
  {
    if es == [] then s else Exec(Apply(s, es[0]), es[1..])
  }

  /** Runs compose, and so do their counts of selections. */
  lemma {:induction false} RunsCompose(s: Slot, es: seq<Step>, fs: seq<Step>, a: int, b: int)
    requires Run(s, es) && Run(Exec(s, es), fs)
    ensures Run(s, es + fs) && Exec(s, es + fs) == Exec(Exec(s, es), fs)
    ensures Selections(es + fs, a, b) == Selections(es, a, b) + Selections(fs, a, b)
    decreases es
  {
    if es == [] {
      assert es + fs == fs;
    } else {
      RunsCompose(Apply(s, es[0]), es[1..], fs, a, b);
      assert (es + fs)[1..] == es[1..] + fs;
    }
  }

  lemma RunThen(s: Slot, es: seq<Step>, e: Step, a: int, b: int)
    requires Run(s, es) && Enabled(Exec(s, es), e)
    ensures Run(s, es + [e]) && Exec(s, es + [e]) == Apply(Exec(s, es), e)
    ensures Selections(es + [e], a, b)
         == Selections(es, a, b) + if e.Spend? && a <= e.t.now <= b then 1 else 0
  {
    assert [e][1..] == [];
    assert Exec(Exec(s, es), [e]) == Exec(Apply(Exec(s, es), e), []);
    assert Selections([e], a, b) == (if e.Spend? && a <= e.t.now <= b then 1 else 0) + Selections([], a, b);
    RunsCompose(s, es, [e], a, b);
  }

  // ----- the bound is reached -----

  /** Spend n tokens at one instant. */
  function Burst(t: int, n: nat): seq<Step> {
    if n == 0 then [] else Burst(t, n - 1) + [Choose(Tick(t, t)), Spend(Tick(t, t))]
  }

  lemma {:induction false} BurstSpends(s: Slot, t: int, n: nat, a: int, b: int)
    requires s.lim.window > 0 && !s.held && CheckReset(s.lim, Tick(t, t)).remaining >= n && a <= t <= b
    ensures Run(s, Burst(t, n)) && Selections(Burst(t, n), a, b) == n
    ensures forall i :: 0 <= i < |Burst(t, n)| ==> Burst(t, n)[i].t == Tick(t, t)
    ensures
      var c := CheckReset(s.lim, Tick(t, t));
      Exec(s, Burst(t, n)) == Slot(if n == 0 then s.lim else c.(remaining := c.remaining - n), false)
  {
    if n > 0 {
      BurstSpends(s, t, n - 1, a, b);
      var k := Tick(t, t);
      var before := Exec(s, Burst(t, n - 1));
      RunThen(s, Burst(t, n - 1), Choose(k), a, b);
      RunThen(s, Burst(t, n - 1) + [Choose(k)], Spend(k), a, b);
      assert Burst(t, n) == Burst(t, n - 1) + [Choose(k)] + [Spend(k)];
    }
  }

  /** All tokens of the first window at its last instant, then those of each of m windows at its first. */
  function Bursts(limit: nat, w: int, m: nat): seq<Step> {
    if m == 0 then Burst(w, limit) else Bursts(limit, w, m - 1) + Burst(m * (w + 1), limit)
  }

  lemma {:induction false} BurstsSpend(limit: nat, w: int, m: nat, b: int)
    requires w > 0 && limit > 0 && w <= b && m * (w + 1) <= b
    ensures
      var s, es := Slot(New(limit, w, 0), false), Bursts(limit, w, m);
      && Run(s, es) && Clocked(es) && Selections(es, w, b) == limit * (1 + m)
      && Exec(s, es) == Slot(Limiter(limit, w, 0, m * (w + 1) + w), false)
      && forall i :: 0 <= i < |es| ==> es[i].t.later <= m * (w + 1) + w
  {
    var s, es := Slot(New(limit, w, 0), false), Bursts(limit, w, m);
    if m == 0 {
      BurstSpends(s, w, limit, w, b);
    } else {
      var t := m * (w + 1);
      NextStart(m, w);
      BurstsSpend(limit, w, m - 1, b);
      var before := Bursts(limit, w, m - 1);
      BurstSpends(Exec(s, before), t, limit, w, b);
      RunsCompose(s, before, Burst(t, limit), w, b);
      assert limit * (1 + m) == limit * m + limit;
    }
  }

  lemma NextStart(m: nat, w: int)
    requires m > 0 && w > 0
    ensures m * (w + 1) == (m - 1) * (w + 1) + w + 1 >= w + 1
  {
  }

  /** For every limit, window and length some run of a fresh limiter reaches the bound. */
  lemma RateBoundIsReached(limit: int, w: int, len: nat) returns (es: seq<Step>)
    requires w > 0
    ensures Run(Slot(New(limit, w, 0), false), es) && Clocked(es)
    ensures Selections(es, w, w + len) == Most(limit, w, len)
  {
    if limit <= 0 {
      es := [];
    } else {
      var m := CeilDiv(len, w + 1);
      DivMonotone(0, len + w, w + 1);
      QuotientUnique(0, 0, 0, w + 1);
      assert m * (w + 1) <= len + w by {
        assert len + w == (w + 1) * m + (len + w) % (w + 1);
      }
      es := Bursts(limit, w, m);
      BurstsSpend(limit, w, m, w + len);
    }
  }
}
