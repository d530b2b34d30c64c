/**
 The write buffer in front of the analytics store, as a protocol over its lock steps: any number of
 goroutines add prices, a ticker flushes periodically, and Stop drains what is left.
 */
module BatchBuffer {
  import opened Prices

  datatype Thread = Adder(id: nat) | Ticker | Stopper

  /** A batch that has been swapped out: on its first or second try, delivered, or counted as lost. */
  datatype Fate = FirstTry | SecondTry | Delivered | Lost

  datatype Batch = Batch(prices: seq<Price>, fate: Fate)

  /** Stop closes the done channel, waits for the ticker goroutine to exit, and then flushes. */
  datatype Phase = Running | Stopping | Draining

  /**
   `prices`, `flushCount` and `flushErrors` are the buffer's fields. The rest is bookkeeping of the
   protocol: who is about to flush, who is sending which batch, and what was added and swapped so far.
   */
  datatype State = State(
    prices: seq<Price>, maxSize: int, flushCount: nat, flushErrors: nat,
    phase: Phase, waiting: set<Thread>, sending: map<Thread, nat>, batches: seq<Batch>, added: seq<Price>)

  function New(maxSize: int): State {
    State([], maxSize, 0, 0, Running, {}, map[], [], [])
  }

  datatype Step =
    | Append(t: Thread, p: Price)    // the locked part of Add
    | Tick                           // the ticker fires
    | CloseDone                      // Stop signals the ticker goroutine
    | TickerExits                    // and sees it exit; it goes on to flush
    | Swap(t: Thread)                // the locked part of flush
    | Send(t: Thread, ok: bool)      // one call of the flush function

  predicate Idle(s: State, t: Thread) {
    t !in s.waiting && t !in s.sending
  }

  predicate Enabled(s: State, e: Step) {
    match e
    case Append(t, _) => t.Adder? && Idle(s, t)
    case Tick => s.phase != Draining && Idle(s, Ticker)
    case CloseDone => s.phase == Running
    case TickerExits => s.phase == Stopping && Idle(s, Ticker)
    case Swap(t) => t in s.waiting
    case Send(t, _) => t in s.sending && s.sending[t] < |s.batches|
  }

  function Settle(s: State, t: Thread, fate: Fate): State
    requires t in s.sending && s.sending[t] < |s.batches|
  {
    var i := s.sending[t];
    s.(batches := s.batches[i := s.batches[i].(fate := fate)],
       sending := if fate.Delivered? || fate.Lost? then s.sending - {t} else s.sending,
       flushCount := if fate.Delivered? then s.flushCount + 1 else s.flushCount,
       flushErrors := if fate.Lost? then s.flushErrors + 1 else s.flushErrors)
  }

  function Apply(s: State, e: Step): State
    requires Enabled(s, e)
  {
    match e
    case Append(t, p) =>
      var prices := s.prices + [p];
      s.(prices := prices, added := s.added + [p],
         waiting := if |prices| >= s.maxSize then s.waiting + {t} else s.waiting)
    case Tick => s.(waiting := s.waiting + {Ticker})
    case CloseDone => s.(phase := Stopping)
    case TickerExits => s.(phase := Draining, waiting := s.waiting + {Stopper})
    case Swap(t) =>
      if s.prices == [] then s.(waiting := s.waiting - {t})
      else s.(waiting := s.waiting - {t}, prices := [],
              sending := s.sending[t := |s.batches|], batches := s.batches + [Batch(s.prices, FirstTry)])
    case Send(t, ok) =>
      var first := s.batches[s.sending[t]].fate.FirstTry?;
      Settle(s, t, if ok then Delivered else if first then SecondTry else Lost)
  }

  // ----- invariants -----

  /** All swapped-out prices, in swap order. */
  function Concat(bs: seq<Batch>): seq<Price> {
    if bs == [] then [] else Concat(bs[..|bs| - 1]) + bs[|bs| - 1].prices
  }

  function CountFate(bs: seq<Batch>, fate: Fate): nat {
    if bs == [] then 0
    else CountFate(bs[..|bs| - 1], fate) + if bs[|bs| - 1].fate == fate then 1 else 0
  }

  function AddersWaiting(s: State): set<Thread> {
    set t | t in s.waiting && t.Adder?
  }

  /** Nothing is lost, duplicated or reordered between the adders and the batches. */
  predicate Conserved(s: State) {
    Concat(s.batches) + s.prices == s.added
  }

  predicate InFlight(b: Batch) {
    b.fate.FirstTry? || b.fate.SecondTry?
  }

  /** Exactly the batches in flight are being sent, each by one goroutine, which is doing nothing else. */
  ghost predicate OneSenderEach(s: State) {
    && (forall t :: t in s.sending ==> s.sending[t] < |s.batches| && InFlight(s.batches[s.sending[t]]))
    && (forall t, u :: t in s.sending && u in s.sending && t != u ==> s.sending[t] != s.sending[u])
    && (forall i :: 0 <= i < |s.batches| && InFlight(s.batches[i]) ==> BeingSent(s, i))
    && (forall t :: t in s.sending ==> t !in s.waiting)
    && (s.phase != Draining ==> Idle(s, Stopper))
  }

  ghost predicate BeingSent(s: State, i: int) {
    exists t :: t in s.sending && s.sending[t] == i
  }

  /** The two counters say how many batches were delivered and how many were lost. */
  predicate Counted(s: State) {
    s.flushCount == CountFate(s.batches, Delivered) && s.flushErrors == CountFate(s.batches, Lost)
  }

  /** Only adders that have yet to flush let the buffer grow past its size. */
  predicate Bounded(s: State) {
    s.maxSize >= 1 ==> |s.prices| <= s.maxSize - 1 + |AddersWaiting(s)|
  }

  ghost predicate Invariant(s: State) {
    Conserved(s) && OneSenderEach(s) && Counted(s) && Bounded(s)
  }

  lemma {:induction false} ConcatUpdate(bs: seq<Batch>, i: nat, fate: Fate)
    requires i < |bs|
    ensures Concat(bs[i := bs[i].(fate := fate)]) == Concat(bs)
  {
    var n := |bs| - 1;
    var bs' := bs[i := bs[i].(fate := fate)];
    if i == n {
      assert bs'[..n] == bs[..n];
    } else {
      ConcatUpdate(bs[..n], i, fate);
      assert bs'[..n] == bs[..n][i := bs[i].(fate := fate)];
    }
  }

  lemma {:induction false} CountUpdate(bs: seq<Batch>, i: nat, fate: Fate, counted: Fate)
    requires i < |bs|
    ensures CountFate(bs[i := bs[i].(fate := fate)], counted)
         == CountFate(bs, counted) - (if bs[i].fate == counted then 1 else 0) + (if fate == counted then 1 else 0)
  {
    var n := |bs| - 1;
    var bs' := bs[i := bs[i].(fate := fate)];
    if i == n {
      assert bs'[..n] == bs[..n];
    } else {
      CountUpdate(bs[..n], i, fate, counted);
      assert bs'[..n] == bs[..n][i := bs[i].(fate := fate)];
    }
  }

  lemma ConcatOneMore(bs: seq<Batch>, b: Batch)
    ensures Concat(bs + [b]) == Concat(bs) + b.prices
    ensures forall fate :: CountFate(bs + [b], fate) == CountFate(bs, fate) + if b.fate == fate then 1 else 0
  {
    assert (bs + [b])[..|bs|] == bs;
  }

  lemma StepKeepsConserved(s: State, e: Step)
    requires Conserved(s) && Enabled(s, e)
    ensures Conserved(Apply(s, e))
  {
    var c, s' := Concat(s.batches), Apply(s, e);
    match e {
      case Append(t, p) =>
        assert c + (s.prices + [p]) == (c + s.prices) + [p];
      case Swap(t) =>
        ConcatOneMore(s.batches, Batch(s.prices, FirstTry));
        assert (c + s.prices) + [] == c + s.prices;
      case Send(t, ok) =>
        ConcatUpdate(s.batches, s.sending[t], s'.batches[s.sending[t]].fate);
      case _ =>
    }
  }

  lemma StepKeepsCounted(s: State, e: Step)
    requires Invariant(s) && Enabled(s, e)
    ensures Counted(Apply(s, e))
  {
    match e {
      case Swap(t) =>
        ConcatOneMore(s.batches, Batch(s.prices, FirstTry));
      case Send(t, ok) =>
        var i := s.sending[t];
        CountUpdate(s.batches, i, Apply(s, e).batches[i].fate, Delivered);
        CountUpdate(s.batches, i, Apply(s, e).batches[i].fate, Lost);
      case _ =>
    }
  }

  lemma SwapKeepsSenders(s: State, t: Thread)
    requires OneSenderEach(s) && t in s.waiting
    ensures OneSenderEach(Apply(s, Swap(t)))
  {
    var s' := Apply(s, Swap(t));
    forall i | 0 <= i < |s'.batches| && InFlight(s'.batches[i]) ensures BeingSent(s', i) {
      if i < |s.batches| {
        assert BeingSent(s, i);
        var u :| u in s.sending && s.sending[u] == i;
        assert u in s'.sending && s'.sending[u] == i;
      } else {
        assert t in s'.sending && s'.sending[t] == i;
      }
    }
  }

  lemma SendKeepsSenders(s: State, t: Thread, ok: bool)
    requires OneSenderEach(s) && t in s.sending
    ensures OneSenderEach(Apply(s, Send(t, ok)))
  {
    var s', sent := Apply(s, Send(t, ok)), s.sending[t];
    forall i | 0 <= i < |s'.batches| && InFlight(s'.batches[i]) ensures BeingSent(s', i) {
      assert InFlight(s.batches[i]);
      assert BeingSent(s, i);
      var u :| u in s.sending && s.sending[u] == i;
      assert u in s'.sending && s'.sending[u] == i;
    }
  }

  lemma StepKeepsSenders(s: State, e: Step)
    requires OneSenderEach(s) && Enabled(s, e)
    ensures OneSenderEach(Apply(s, e))
  {
    match e {
      case Swap(t) => SwapKeepsSenders(s, t);
      case Send(t, ok) => SendKeepsSenders(s, t, ok);
      case _ => QuietKeepsSenders(s, Apply(s, e));
    }
  }

  lemma QuietKeepsSenders(s: State, s': State)
    requires OneSenderEach(s) && s'.sending == s.sending && s'.batches == s.batches
    requires forall t :: t in s'.waiting && t !in s.waiting ==> t !in s.sending
    requires s'.phase != Draining ==> s.phase != Draining && (Stopper in s'.waiting ==> Stopper in s.waiting)
    ensures OneSenderEach(s')
  {
    forall i | 0 <= i < |s'.batches| && InFlight(s'.batches[i]) ensures BeingSent(s', i) {
      assert BeingSent(s, i);
      var t :| t in s.sending && s.sending[t] == i;
      assert t in s'.sending && s'.sending[t] == i;
    }
  }

  lemma StepKeepsBounded(s: State, e: Step)
    requires Invariant(s) && Enabled(s, e)
    ensures Bounded(Apply(s, e))
  {
    var s' := Apply(s, e);
    match e {
      case Append(t, p) =>
        assert AddersWaiting(s') == if t in s'.waiting then AddersWaiting(s) + {t} else AddersWaiting(s);
      case Tick => assert AddersWaiting(s') == AddersWaiting(s);
      case TickerExits => assert AddersWaiting(s') == AddersWaiting(s);
      case Swap(t) => assert s'.prices == [];
      case _ => assert AddersWaiting(s') == AddersWaiting(s);
    }
  }

  // ----- runs -----

  ghost predicate Run(s: State, es: seq<Step>)
    decreases es
  {
    es == [] || (Enabled(s, es[0]) && Run(Apply(s, es[0]), es[1..]))
  }

  ghost function Exec(s: State, es: seq<Step>): State
    requires Run(s, es)
    decreases es
  {
    if es == [] then s else Exec(Apply(s, es[0]), es[1..])
  }

  /** The invariant holds in every reachable state, whatever the interleaving. */
  lemma {:induction false} RunKeepsInvariant(s: State, es: seq<Step>)
    requires Invariant(s) && Run(s, es)
    ensures Invariant(Exec(s, es))
    ensures Exec(s, es).maxSize == s.maxSize
    decreases es
  {
    if es != [] {
      StepKeepsAll(s, es[0]);
      RunKeepsInvariant(Apply(s, es[0]), es[1..]);
    }
  }

  lemma InvariantAtStart(maxSize: int)
    ensures Invariant(New(maxSize))
  {
    assert AddersWaiting(New(maxSize)) == {};
  }

  /** In every reachable state with no adder about to flush, the buffer is below its size. */
  lemma BelowSizeWhenNobodyWaits(maxSize: int, es: seq<Step>)
    requires maxSize >= 1 && Run(New(maxSize), es)
    requires forall t :: t in Exec(New(maxSize), es).waiting ==> !t.Adder?
    ensures |Exec(New(maxSize), es).prices| < maxSize
  {
    InvariantAtStart(maxSize);
    RunKeepsInvariant(New(maxSize), es);
    assert AddersWaiting(Exec(New(maxSize), es)) == {};
  }

  predicate Settled(b: Batch) {
    b.fate.Delivered? || b.fate.Lost?
  }

  lemma {:induction false} CountsCover(bs: seq<Batch>)
    requires forall i :: 0 <= i < |bs| ==> Settled(bs[i])
    ensures CountFate(bs, Delivered) + CountFate(bs, Lost) == |bs|
  {
    if bs != [] {
      CountsCover(bs[..|bs| - 1]);
    }
  }

  /**
   Once nobody is sending, every added price is either still in the buffer or in a batch that was
   delivered or counted as lost, and the counters account for every batch.
   */
  lemma EveryPriceAccountedFor(maxSize: int, es: seq<Step>)
    requires Run(New(maxSize), es) && Exec(New(maxSize), es).sending == map[]
    ensures
      var s := Exec(New(maxSize), es);
      && Concat(s.batches) + s.prices == s.added
      && (forall i :: 0 <= i < |s.batches| ==> Settled(s.batches[i]))
      && s.flushCount + s.flushErrors == |s.batches|
  {
    var s := Exec(New(maxSize), es);
    InvariantAtStart(maxSize);
    RunKeepsInvariant(New(maxSize), es);
    forall i | 0 <= i < |s.batches| ensures Settled(s.batches[i]) {
      assert InFlight(s.batches[i]) ==> BeingSent(s, i);
    }
    CountsCover(s.batches);
  }

  /** A batch keeps its prices for ever, and its fate once it is settled: no batch is settled twice. */
  lemma {:induction false} SettledForGood(s: State, es: seq<Step>, i: nat)
    requires Invariant(s) && Run(s, es) && i < |s.batches|
    ensures
      var s' := Exec(s, es);
      && i < |s'.batches| && s'.batches[i].prices == s.batches[i].prices
      && (Settled(s.batches[i]) ==> s'.batches[i] == s.batches[i])
    decreases es
  {
    if es != [] {
      StepKeepsAll(s, es[0]);
      SettledForGood(Apply(s, es[0]), es[1..], i);
    }
  }

  predicate NoAppends(es: seq<Step>) {
    forall i :: 0 <= i < |es| ==> !es[i].Append?
  }

  lemma {:induction false} EmptyStaysEmpty(s: State, es: seq<Step>)
    requires s.prices == [] && Run(s, es) && NoAppends(es)
    ensures Exec(s, es).prices == [] && Exec(s, es).added == s.added
    decreases es
  {
    if es != [] {
      EmptyStaysEmpty(Apply(s, es[0]), es[1..]);
    }
  }

  /**
   Stop drains: if nothing is added after its flush has swapped the buffer out, the buffer stays
   empty, and once nobody is sending every price ever added is in a settled batch.
   */
  lemma StopDrains(maxSize: int, before: seq<Step>, after: seq<Step>)
    requires Run(New(maxSize), before) && Stopper in Exec(New(maxSize), before).waiting
    requires Run(Apply(Exec(New(maxSize), before), Swap(Stopper)), after) && NoAppends(after)
    ensures
      var s := Exec(Apply(Exec(New(maxSize), before), Swap(Stopper)), after);
      && s.prices == [] && Concat(s.batches) == s.added
      && (s.sending == map[] ==> forall i :: 0 <= i < |s.batches| ==> Settled(s.batches[i]))
  {
    var drained := Apply(Exec(New(maxSize), before), Swap(Stopper));
    InvariantAtStart(maxSize);
    RunKeepsInvariant(New(maxSize), before);
    StepKeepsAll(Exec(New(maxSize), before), Swap(Stopper));
    RunKeepsInvariant(drained, after);
    EmptyStaysEmpty(drained, after);
    var s := Exec(drained, after);
    assert Concat(s.batches) + [] == Concat(s.batches);
    forall i | 0 <= i < |s.batches| && s.sending == map[] ensures Settled(s.batches[i]) {
      assert InFlight(s.batches[i]) ==> BeingSent(s, i);
    }
  }

  lemma StepKeepsAll(s: State, e: Step)
    requires Invariant(s) && Enabled(s, e)
    ensures Invariant(Apply(s, e))
  {
    StepKeepsConserved(s, e);
    StepKeepsCounted(s, e);
    StepKeepsSenders(s, e);
    StepKeepsBounded(s, e);
  }

  /**
   The condition matters: once Stop is done and everyone is idle, an added price is stranded, only
   further Adds being possible, exactly when it does not fill the buffer.
   */
  lemma AddAfterStopIsStranded(s: State, t: Thread, p: Price)
    requires s.phase == Draining && s.waiting == {} && s.sending == map[] && t.Adder?
    ensures Enabled(s, Append(t, p)) && Apply(s, Append(t, p)).prices == s.prices + [p]
    ensures (forall e :: Enabled(Apply(s, Append(t, p)), e) ==> e.Append?) <==> |s.prices| + 1 < s.maxSize
  {
    var s' := Apply(s, Append(t, p));
    if |s.prices| + 1 >= s.maxSize {
      assert Enabled(s', Swap(t));
    }
  }

  /** What an uninterrupted flush achieves: the buffer's contents, if any, end as one settled batch. */
  ghost predicate Flushed(s: State, s': State, t: Thread, ok: bool) {
    && Idle(s', t) && s'.added == s.added && s'.prices == []
    && s'.batches == if s.prices == [] then s.batches
                     else s.batches + [Batch(s.prices, if ok then Delivered else Lost)]
  }

  lemma FlushEffect(s: State, t: Thread, firstOk: bool, secondOk: bool)
    requires t in s.waiting && t !in s.sending
    ensures
      var swapped := Apply(s, Swap(t));
      if s.prices == [] then Flushed(s, swapped, t, firstOk || secondOk)
      else
        && Enabled(swapped, Send(t, firstOk)) && swapped.batches[swapped.sending[t]].fate.FirstTry?
        && var once := Apply(swapped, Send(t, firstOk));
           if firstOk then Flushed(s, once, t, true)
           else
             && Enabled(once, Send(t, secondOk)) && once.batches[once.sending[t]].fate.SecondTry?
             && Flushed(s, Apply(once, Send(t, secondOk)), t, secondOk)
  {
  }

  // ----- the buffer object -----

  /** The fields of the buffer, with the protocol state they belong to. */
  class BatchBuffer {
    const maxSize: int
    var prices: seq<Price>
    var flushCount: nat
    var flushErrors: nat
    ghost var state: State

    ghost predicate Valid()
      reads this
    {
      && state.prices == prices && state.maxSize == maxSize
      && state.flushCount == flushCount && state.flushErrors == flushErrors
      && Invariant(state)
    }

    constructor (maxSize: int)
      ensures Valid() && this.maxSize == maxSize && state == New(maxSize)
    {
      this.maxSize := maxSize;
      prices, flushCount, flushErrors, state := [], 0, 0, New(maxSize);
      InvariantAtStart(maxSize);
    }

    /** The locked part of Add. */
    method AppendLocked(ghost t: Thread, p: Price) returns (shouldFlush: bool)
      requires Valid() && Enabled(state, Append(t, p))
      modifies this
      ensures Valid() && state == Apply(old(state), Append(t, p))
      ensures shouldFlush == (t in state.waiting)
      ensures prices == old(prices) + [p] && shouldFlush == (|prices| >= maxSize)
    {
      StepKeepsAll(state, Append(t, p));
      state := Apply(state, Append(t, p));
      prices := prices + [p];
      shouldFlush := |prices| >= maxSize;
    }

    /** The locked part of flush; an empty batch means there was nothing to do. */
    method SwapLocked(ghost t: Thread) returns (batch: seq<Price>)
      requires Valid() && Enabled(state, Swap(t))
      modifies this
      ensures Valid() && state == Apply(old(state), Swap(t))
      ensures batch == old(prices) && prices == []
    {
      StepKeepsAll(state, Swap(t));
      state := Apply(state, Swap(t));
      batch := prices;
      prices := [];
    }

    /** One call of the flush function, with the counter it bumps. */
    method SendOnce(ghost t: Thread, ok: bool, first: bool)
      requires Valid() && Enabled(state, Send(t, ok))
      requires first == state.batches[state.sending[t]].fate.FirstTry?
      modifies this
      ensures Valid() && state == Apply(old(state), Send(t, ok))
      ensures flushCount == old(flushCount) + if ok then 1 else 0
      ensures flushErrors == old(flushErrors) + if !ok && !first then 1 else 0
    {
      StepKeepsAll(state, Send(t, ok));
      state := Apply(state, Send(t, ok));
      if ok {
        flushCount := flushCount + 1;
      } else if !first {
        flushErrors := flushErrors + 1;
      }
    }

    /**
     A flush that nobody interrupts. `firstOk` and `secondOk` say how the flush function would fare on
     its first and second call.
     */
    method Flush(ghost t: Thread, firstOk: bool, secondOk: bool)
      requires Valid() && t in state.waiting && t !in state.sending
      modifies this
      ensures Valid() && prices == [] && Flushed(old(state), state, t, firstOk || secondOk)
    {
      FlushEffect(state, t, firstOk, secondOk);
      var batch := SwapLocked(t);
      if |batch| == 0 {
        return;
      }
      SendOnce(t, firstOk, true);
      if !firstOk {
        SendOnce(t, secondOk, false);
      }
    }

    /** An Add that nobody interrupts. */
    method Add(ghost t: Thread, p: Price, firstOk: bool, secondOk: bool)
      requires Valid() && t.Adder? && Idle(state, t)
      modifies this
      ensures Valid() && Idle(state, t) && state.added == old(state.added) + [p]
      ensures prices == if |old(prices)| + 1 >= maxSize then [] else old(prices) + [p]
      ensures
        if |old(prices)| + 1 < maxSize then state.batches == old(state.batches)
        else state.batches == old(state.batches)
               + [Batch(old(prices) + [p], if firstOk || secondOk then Delivered else Lost)]
    {
      var shouldFlush := AppendLocked(t, p);
      if shouldFlush {
        Flush(t, firstOk, secondOk);
      }
    }

    method FlushStats() returns (flushed: nat, errors: nat)
      requires Valid()
      ensures flushed == CountFate(state.batches, Delivered) && errors == CountFate(state.batches, Lost)
    {
      flushed, errors := flushCount, flushErrors;
    }
  }
}
