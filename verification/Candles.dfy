/**
 What price history and candles over a list of prices mean, independent of how they are computed,
 and the algebra of candles: uniqueness, splitting a range, coarsening an interval.
 */
module Candles {
  import opened Common
  import opened Prices
  import Sorting

  /** The start of the interval an instant falls in. A non-positive interval truncates nothing. */
  function Trunc(t: int, d: int): int {
    if d <= 0 then t else t - t % d
  }

  predicate InRange(e: Price, from: int, to: int) {
    from <= e.receivedAt < to
  }

  predicate InBucket(e: Price, from: int, to: int, d: int, time: int) {
    InRange(e, from, to) && Trunc(e.receivedAt, d) == time
  }

  predicate Earlier(x: Price, y: Price) {
    x.receivedAt <= y.receivedAt
  }

  function Filter(es: seq<Price>, from: int, to: int): seq<Price> {
    if es == [] then []
    else
      var rest := Filter(es[..|es| - 1], from, to);
      if InRange(es[|es| - 1], from, to) then rest + [es[|es| - 1]] else rest
  }

  // ----- histories -----

  ghost predicate IsHistory(es: seq<Price>, from: int, to: int, r: seq<Price>) {
    Sorting.Sorted(r, Earlier) && multiset(r) == multiset(Filter(es, from, to))
  }

  lemma {:induction false} FilterMembers(es: seq<Price>, from: int, to: int)
    ensures forall e :: e in Filter(es, from, to) <==> e in es && InRange(e, from, to)
  {
    if es != [] {
      FilterMembers(es[..|es| - 1], from, to);
      assert es == es[..|es| - 1] + [es[|es| - 1]];
    }
  }

  lemma {:induction false} FilterCounts(es: seq<Price>, from: int, to: int, p: Price)
    ensures multiset(Filter(es, from, to))[p] == if from <= p.receivedAt < to then multiset(es)[p] else 0
  {
    if es != [] {
      FilterCounts(es[..|es| - 1], from, to, p);
      assert es == es[..|es| - 1] + [es[|es| - 1]];
    }
  }

  lemma {:induction false} FilterSplits(es: seq<Price>, from: int, mid: int, to: int)
    requires from <= mid <= to
    ensures multiset(Filter(es, from, to)) == multiset(Filter(es, from, mid)) + multiset(Filter(es, mid, to))
  {
    if es != [] {
      FilterSplits(es[..|es| - 1], from, mid, to);
    }
  }

  /** No two different prices in the range were received at the same instant. */
  ghost predicate DistinctTimes(es: seq<Price>, from: int, to: int) {
    forall x, y | x in es && y in es && InRange(x, from, to) && InRange(y, from, to) ::
      x.receivedAt == y.receivedAt ==> x == y
  }

  /** Histories of adjacent half-open ranges, one after the other, are a history of the whole range. */
  lemma HistorySplits(es: seq<Price>, from: int, mid: int, to: int, a: seq<Price>, b: seq<Price>)
    requires from <= mid <= to && IsHistory(es, from, mid, a) && IsHistory(es, mid, to, b)
    ensures IsHistory(es, from, to, a + b)
  {
    FilterSplits(es, from, mid, to);
    FilterMembers(es, from, mid);
    FilterMembers(es, mid, to);
    Sorting.MembersAgree(a, Filter(es, from, mid));
    Sorting.MembersAgree(b, Filter(es, mid, to));
    forall i, j | 0 <= i < j < |a + b| ensures Earlier((a + b)[i], (a + b)[j]) {
      if i < |a| <= j {
        assert a[i] in a && b[j - |a|] in b;
      }
    }
  }

  /** Without ties there is one history only. */
  lemma HistoryUnique(es: seq<Price>, from: int, to: int, a: seq<Price>, b: seq<Price>)
    requires IsHistory(es, from, to, a) && IsHistory(es, from, to, b) && DistinctTimes(es, from, to)
    ensures a == b
  {
    FilterMembers(es, from, to);
    Sorting.MembersAgree(a, Filter(es, from, to));
    Sorting.SortedUnique(a, b, Earlier);
  }

  // ----- candles -----

  ghost predicate OpensWith(es: seq<Price>, from: int, to: int, d: int, time: int, open: real) {
    exists e :: e in es && InBucket(e, from, to, d, time) && e.value == open
      && forall x :: x in es && InBucket(x, from, to, d, time) ==> e.receivedAt <= x.receivedAt
  }

  ghost predicate ClosesWith(es: seq<Price>, from: int, to: int, d: int, time: int, close: real) {
    exists e :: e in es && InBucket(e, from, to, d, time) && e.value == close
      && forall x :: x in es && InBucket(x, from, to, d, time) ==> x.receivedAt <= e.receivedAt
  }

  ghost predicate Peaks(es: seq<Price>, from: int, to: int, d: int, time: int, high: real) {
    && (exists e :: e in es && InBucket(e, from, to, d, time) && e.value == high)
    && (forall x :: x in es && InBucket(x, from, to, d, time) ==> x.value <= high)
  }

  ghost predicate Bottoms(es: seq<Price>, from: int, to: int, d: int, time: int, low: real) {
    && (exists e :: e in es && InBucket(e, from, to, d, time) && e.value == low)
    && (forall x :: x in es && InBucket(x, from, to, d, time) ==> low <= x.value)
  }

  /** The candle of one interval: first, greatest, least and last value in it. */
  ghost predicate IsCandle(es: seq<Price>, from: int, to: int, d: int, c: OHLC) {
    && OpensWith(es, from, to, d, c.time, c.open)
    && ClosesWith(es, from, to, d, c.time, c.close)
    && Peaks(es, from, to, d, c.time, c.high)
    && Bottoms(es, from, to, d, c.time, c.low)
  }

  predicate Increasing(cs: seq<OHLC>) {
    forall i, j :: 0 <= i < j < |cs| ==> cs[i].time < cs[j].time
  }

  predicate HasTime(cs: seq<OHLC>, time: int) {
    exists i :: 0 <= i < |cs| && cs[i].time == time
  }

  ghost predicate AllCandles(es: seq<Price>, from: int, to: int, d: int, cs: seq<OHLC>) {
    forall i {:trigger IsCandle(es, from, to, d, cs[i])} :: 0 <= i < |cs| ==> IsCandle(es, from, to, d, cs[i])
  }

  ghost predicate AllCovered(es: seq<Price>, from: int, to: int, d: int, cs: seq<OHLC>) {
    forall e :: e in es && InRange(e, from, to) ==> HasTime(cs, Trunc(e.receivedAt, d))
  }

  /** A chart: candles in time order, one for each interval that holds a price and no others. */
  ghost predicate IsChart(es: seq<Price>, from: int, to: int, d: int, cs: seq<OHLC>) {
    && Increasing(cs)
    && AllCandles(es, from, to, d, cs)
    && AllCovered(es, from, to, d, cs)
  }

  // ----- truncation -----

  lemma TruncFacts(t: int, d: int)
    ensures Trunc(t, d) <= t && (d > 0 ==> t < Trunc(t, d) + d && Trunc(t, d) % d == 0)
    ensures Trunc(Trunc(t, d), d) == Trunc(t, d) && (d <= 0 ==> Trunc(t, d) == t)
  {
    if d > 0 {
      var q := t / d;
      assert t == d * q + t % d;
      QuotientUnique(d * q, q, 0, d);
    }
  }

  lemma TruncMonotone(s: int, t: int, d: int)
    requires s <= t
    ensures Trunc(s, d) <= Trunc(t, d)
  {
    if d > 0 {
      DivMonotone(s, t, d);
      var p, q := s / d, t / d;
      assert s == d * p + s % d && t == d * q + t % d;
      assert d * p <= d * q by { assert d * (q - p) >= 0; }
    }
  }

  lemma Regroup(d: int, k: int, m: int, q: int, p: int)
    requires m == d * k
    ensures q * m + p * d == (k * q + p) * d
  {
    assert q * (d * k) == k * q * d;
  }

  lemma TruncIsStart(t: int, q: int, r: int, d: int)
    requires d > 0 && t == q * d + r && 0 <= r < d
    ensures Trunc(t, d) == t - r
  {
    QuotientUnique(t, q, r, d);
  }

  lemma Quotients(t: int, d: int) returns (q: int, r: int)
    requires d > 0
    ensures t == q * d + r && 0 <= r < d && (t >= 0 ==> q >= 0)
  {
    q, r := t / d, t % d;
  }

  lemma NonNegativeProduct(p: int, d: int)
    requires p >= 0 && d > 0
    ensures p * d >= 0
  {
  }

  /** Truncating to d first changes nothing for a multiple m of d. */
  lemma TruncTwice(t: int, d: int, k: int, m: int)
    requires d > 0 && k > 0 && m == d * k
    ensures m > 0 && Trunc(Trunc(t, d), m) == Trunc(t, m)
  {
    assert m > 0;
    var q, r := Quotients(t, m);
    var p, s := Quotients(r, d);
    Regroup(d, k, m, q, p);
    NonNegativeProduct(p, d);
    TruncIsStart(t, k * q + p, s, d);
    TruncIsStart(t, q, r, m);
    TruncIsStart(t - s, q, r - s, m);
  }

  // ----- facts about every chart -----

  /** Every price of the range lies in the interval of exactly one candle, whose low and high enclose it. */
  lemma EveryPriceInOneCandle(es: seq<Price>, from: int, to: int, d: int, cs: seq<OHLC>, e: Price) returns (i: nat)
    requires IsChart(es, from, to, d, cs) && e in es && InRange(e, from, to)
    ensures i < |cs| && InBucket(e, from, to, d, cs[i].time) && cs[i].low <= e.value <= cs[i].high
    ensures if d > 0 then cs[i].time <= e.receivedAt < cs[i].time + d else cs[i].time == e.receivedAt
    ensures forall j :: 0 <= j < |cs| && j != i ==> !InBucket(e, from, to, d, cs[j].time)
  {
    var t := Trunc(e.receivedAt, d);
    TruncFacts(e.receivedAt, d);
    assert HasTime(cs, t);
    i :| i < |cs| && cs[i].time == t;
    assert IsCandle(es, from, to, d, cs[i]);
    assert InBucket(e, from, to, d, t);
    forall j | 0 <= j < |cs| && j != i ensures cs[j].time != t {
      assert if j < i then cs[j].time < cs[i].time else cs[i].time < cs[j].time;
    }
  }

  /** Candle times are aligned to the interval and overlap the range; low and high enclose open and close. */
  lemma CandleShape(es: seq<Price>, from: int, to: int, d: int, cs: seq<OHLC>, i: nat)
    requires IsChart(es, from, to, d, cs) && i < |cs|
    ensures Trunc(cs[i].time, d) == cs[i].time && cs[i].time < to
    ensures d > 0 ==> cs[i].time % d == 0 && from < cs[i].time + d
    ensures cs[i].low <= cs[i].open <= cs[i].high && cs[i].low <= cs[i].close <= cs[i].high
  {
    var c := cs[i];
    assert IsCandle(es, from, to, d, c);
    var e :| e in es && InBucket(e, from, to, d, c.time) && e.value == c.open;
    var f :| f in es && InBucket(f, from, to, d, c.time) && f.value == c.close;
    TruncFacts(e.receivedAt, d);
  }

  /** Prices received at one instant have one value; weaker than no ties at all. */
  ghost predicate Agreeing(es: seq<Price>, from: int, to: int) {
    forall x, y | x in es && y in es && InRange(x, from, to) && InRange(y, from, to) ::
      x.receivedAt == y.receivedAt ==> x.value == y.value
  }

  lemma CandleUnique(es: seq<Price>, from: int, to: int, d: int, a: OHLC, b: OHLC)
    requires IsCandle(es, from, to, d, a) && IsCandle(es, from, to, d, b) && a.time == b.time
    requires Agreeing(es, from, to)
    ensures a == b
  {
  }

  lemma HasTimeMeans(es: seq<Price>, from: int, to: int, d: int, cs: seq<OHLC>, time: int)
    requires IsChart(es, from, to, d, cs)
    ensures HasTime(cs, time) <==> exists e :: e in es && InBucket(e, from, to, d, time)
  {
    if HasTime(cs, time) {
      var i :| 0 <= i < |cs| && cs[i].time == time;
      assert IsCandle(es, from, to, d, cs[i]);
    }
  }

  lemma TailTimes(cs: seq<OHLC>, time: int)
    requires Increasing(cs) && cs != []
    ensures HasTime(cs[1..], time) <==> HasTime(cs, time) && time != cs[0].time
    ensures HasTime(cs, time) ==> cs[0].time <= time
    ensures HasTime(cs, cs[0].time)
  {
    if HasTime(cs, time) && time != cs[0].time {
      var i :| 0 <= i < |cs| && cs[i].time == time;
      assert cs[1..][i - 1].time == time;
    }
    if HasTime(cs[1..], time) {
      var i :| 0 <= i < |cs[1..]| && cs[1..][i].time == time;
      assert cs[i + 1].time == time;
    }
  }

  lemma FirstTime(cs: seq<OHLC>)
    ensures cs != [] ==> HasTime(cs, cs[0].time)
  {
  }

  /** Increasing sequences with the same times have them in the same positions. */
  lemma {:induction false} TimesAgree(a: seq<OHLC>, b: seq<OHLC>)
    requires Increasing(a) && Increasing(b)
    requires forall t :: HasTime(a, t) <==> HasTime(b, t)
    ensures |a| == |b| && forall i :: 0 <= i < |a| ==> a[i].time == b[i].time
    decreases |a|
  {
    if a == [] || b == [] {
      assert forall c: OHLC :: !HasTime([], c.time);
      FirstTime(a);
      FirstTime(b);
    } else {
      TailTimes(a, a[0].time);
      assert HasTime(b, a[0].time);
      TailTimes(b, a[0].time);
      TailTimes(a, b[0].time);
      forall t ensures HasTime(a[1..], t) <==> HasTime(b[1..], t) {
        TailTimes(a, t);
        TailTimes(b, t);
      }
      TimesAgree(a[1..], b[1..]);
      assert forall i :: 1 <= i < |a| ==> a[i] == a[1..][i - 1] && b[i] == b[1..][i - 1];
    }
  }

  /** Unless prices received at one instant disagree, there is one chart only. */
  lemma ChartUnique(es: seq<Price>, from: int, to: int, d: int, a: seq<OHLC>, b: seq<OHLC>)
    requires IsChart(es, from, to, d, a) && IsChart(es, from, to, d, b) && Agreeing(es, from, to)
    ensures a == b
  {
    forall t ensures HasTime(a, t) <==> HasTime(b, t) {
      HasTimeMeans(es, from, to, d, a, t);
      HasTimeMeans(es, from, to, d, b, t);
    }
    TimesAgree(a, b);
    forall i | 0 <= i < |a| ensures a[i] == b[i] {
      CandleUnique(es, from, to, d, a[i], b[i]);
    }
  }

  // ----- splitting a range -----

  lemma CandleOfPart(es: seq<Price>, from: int, to: int, from': int, to': int, d: int, c: OHLC)
    requires IsCandle(es, from, to, d, c)
    requires forall e :: e in es ==>
      (InBucket(e, from, to, d, c.time) <==> InBucket(e, from', to', d, c.time))
    ensures IsCandle(es, from', to', d, c)
  {
  }

  /** No interval has prices of the range on both sides of the boundary. */
  ghost predicate Clean(es: seq<Price>, from: int, mid: int, to: int, d: int) {
    forall x, y | x in es && y in es && InRange(x, from, mid) && InRange(y, mid, to) ::
      Trunc(x.receivedAt, d) != Trunc(y.receivedAt, d)
  }

  /** On an aligned boundary no interval has prices on both sides. */
  lemma AlignedIsClean(es: seq<Price>, from: int, mid: int, to: int, d: int)
    requires Trunc(mid, d) == mid
    ensures Clean(es, from, mid, to, d)
  {
    forall x, y | x in es && y in es && InRange(x, from, mid) && InRange(y, mid, to)
      ensures Trunc(x.receivedAt, d) < Trunc(y.receivedAt, d)
    {
      TruncFacts(x.receivedAt, d);
      TruncMonotone(mid, y.receivedAt, d);
    }
  }

  lemma LeftCandle(es: seq<Price>, from: int, mid: int, to: int, d: int, c: OHLC)
    requires from <= mid <= to && Clean(es, from, mid, to, d) && IsCandle(es, from, mid, d, c)
    ensures IsCandle(es, from, to, d, c)
  {
    CandleOfPart(es, from, mid, from, to, d, c);
  }

  lemma RightCandle(es: seq<Price>, from: int, mid: int, to: int, d: int, c: OHLC)
    requires from <= mid <= to && Clean(es, from, mid, to, d) && IsCandle(es, mid, to, d, c)
    ensures IsCandle(es, from, to, d, c)
  {
    CandleOfPart(es, mid, to, from, to, d, c);
  }

  lemma LeftBeforeRight(es: seq<Price>, from: int, mid: int, to: int, d: int, c: OHLC, c': OHLC)
    requires Clean(es, from, mid, to, d) && IsCandle(es, from, mid, d, c) && IsCandle(es, mid, to, d, c')
    ensures c.time < c'.time
  {
    var x :| x in es && InBucket(x, from, mid, d, c.time);
    var y :| y in es && InBucket(y, mid, to, d, c'.time);
    TruncMonotone(x.receivedAt, y.receivedAt, d);
  }

  lemma CleanSplits(es: seq<Price>, from: int, mid: int, to: int, d: int, a: seq<OHLC>, b: seq<OHLC>)
    requires from <= mid <= to && Clean(es, from, mid, to, d)
    requires IsChart(es, from, mid, d, a) && IsChart(es, mid, to, d, b)
    ensures IsChart(es, from, to, d, a + b)
  {
    var cs := a + b;
    forall i | 0 <= i < |cs| ensures IsCandle(es, from, to, d, cs[i]) {
      if i < |a| {
        assert IsCandle(es, from, mid, d, a[i]);
        LeftCandle(es, from, mid, to, d, a[i]);
      } else {
        assert IsCandle(es, mid, to, d, b[i - |a|]);
        RightCandle(es, from, mid, to, d, b[i - |a|]);
      }
    }
    forall i, j | 0 <= i < |a| && 0 <= j < |b| ensures a[i].time < b[j].time {
      assert IsCandle(es, from, mid, d, a[i]) && IsCandle(es, mid, to, d, b[j]);
      LeftBeforeRight(es, from, mid, to, d, a[i], b[j]);
    }
    forall e | e in es && InRange(e, from, to) ensures HasTime(cs, Trunc(e.receivedAt, d)) {
      HasTimeAppend(a, b, Trunc(e.receivedAt, d));
      assert InRange(e, from, mid) || InRange(e, mid, to);
    }
  }

  /**
   Charts of adjacent ranges, one after the other, are a chart of the whole range exactly when no
   interval has prices on both sides of the boundary. Every aligned boundary is such a boundary.
   */
  lemma ChartSplits(es: seq<Price>, from: int, mid: int, to: int, d: int, a: seq<OHLC>, b: seq<OHLC>)
    requires from <= mid <= to && IsChart(es, from, mid, d, a) && IsChart(es, mid, to, d, b)
    ensures IsChart(es, from, to, d, a + b) <==> Clean(es, from, mid, to, d)
    ensures Trunc(mid, d) == mid ==> IsChart(es, from, to, d, a + b)
  {
    if Trunc(mid, d) == mid {
      AlignedIsClean(es, from, mid, to, d);
    }
    if Clean(es, from, mid, to, d) {
      CleanSplits(es, from, mid, to, d, a, b);
    } else {
      var x, y :| x in es && y in es && InRange(x, from, mid) && InRange(y, mid, to)
               && Trunc(x.receivedAt, d) == Trunc(y.receivedAt, d);
      assert HasTime(a, Trunc(x.receivedAt, d)) && HasTime(b, Trunc(y.receivedAt, d));
      RepeatedTime(a, b, Trunc(x.receivedAt, d));
    }
  }

  lemma RepeatedTime(a: seq<OHLC>, b: seq<OHLC>, time: int)
    requires HasTime(a, time) && HasTime(b, time)
    ensures !Increasing(a + b)
  {
    var i :| 0 <= i < |a| && a[i].time == time;
    var j :| 0 <= j < |b| && b[j].time == time;
    assert (a + b)[i].time == (a + b)[|a| + j].time;
  }

  lemma HasTimeAppend(a: seq<OHLC>, b: seq<OHLC>, time: int)
    ensures HasTime(a + b, time) <==> HasTime(a, time) || HasTime(b, time)
  {
    if HasTime(a, time) {
      var i :| 0 <= i < |a| && a[i].time == time;
      assert (a + b)[i].time == time;
    }
    if HasTime(b, time) {
      var i :| 0 <= i < |b| && b[i].time == time;
      assert (a + b)[|a| + i].time == time;
    }
  }

  // ----- coarsening an interval -----

  function MaxOf(x: real, y: real): real {
    if x >= y then x else y
  }

  function MinOf(x: real, y: real): real {
    if x <= y then x else y
  }

  /** The candle over two consecutive stretches of one interval. */
  function Join(c: OHLC, next: OHLC): OHLC {
    OHLC(c.time, c.open, MaxOf(c.high, next.high), MinOf(c.low, next.low), next.close)
  }

  /** Merge the candles that share an interval of the coarser length m. */
  function Merge(cs: seq<OHLC>, m: int): seq<OHLC> {
    if cs == [] then []
    else
      var rest := Merge(cs[1..], m);
      var c := cs[0].(time := Trunc(cs[0].time, m));
      if rest != [] && rest[0].time == c.time then [Join(c, rest[0])] + rest[1..] else [c] + rest
  }

  lemma TruncIs(t: int, a: int, d: int)
    requires d > 0 && Trunc(a, d) == a && a <= t < a + d
    ensures Trunc(t, d) == a && Trunc(a + d, d) == a + d
  {
    var q := a / d;
    assert a == d * q + a % d;
    assert d * (q + 1) == d * q + d;
    QuotientUnique(t, q, t - a, d);
    QuotientUnique(a + d, q + 1, 0, d);
  }

  /** The prices at or after an aligned boundary are those in intervals at or after it. */
  lemma BucketAbove(e: Price, from: int, mid: int, to: int, d: int, time: int)
    requires from <= mid && Trunc(mid, d) == mid
    ensures InBucket(e, mid, to, d, time) <==> InBucket(e, from, to, d, time) && mid <= time
  {
    TruncFacts(e.receivedAt, d);
    if mid <= e.receivedAt {
      TruncMonotone(mid, e.receivedAt, d);
    }
  }

  lemma TailCandle(es: seq<Price>, from: int, to: int, d: int, cs: seq<OHLC>, i: nat)
    requires d > 0 && 0 < i < |cs| && IsChart(es, from, to, d, cs)
    ensures IsCandle(es, cs[0].time + d, to, d, cs[i])
  {
    var a, mid := cs[0].time, cs[0].time + d;
    assert cs[0].time < cs[i].time;
    CandleShape(es, from, to, d, cs, 0);
    CandleShape(es, from, to, d, cs, i);
    TruncIs(a, a, d);
    if cs[i].time < mid {
      TruncIs(cs[i].time, a, d);
    }
    forall e ensures InBucket(e, mid, to, d, cs[i].time) <==> InBucket(e, from, to, d, cs[i].time) {
      BucketAbove(e, from, mid, to, d, cs[i].time);
    }
    assert IsCandle(es, from, to, d, cs[i]);
    CandleOfPart(es, from, to, mid, to, d, cs[i]);
  }

  lemma TailCovers(es: seq<Price>, from: int, to: int, d: int, cs: seq<OHLC>, e: Price)
    requires d > 0 && cs != [] && IsChart(es, from, to, d, cs)
    requires e in es && InRange(e, cs[0].time + d, to)
    ensures HasTime(cs[1..], Trunc(e.receivedAt, d))
  {
    CandleShape(es, from, to, d, cs, 0);
    TruncIs(cs[0].time, cs[0].time, d);
    BucketAbove(e, from, cs[0].time + d, to, d, Trunc(e.receivedAt, d));
    TailTimes(cs, Trunc(e.receivedAt, d));
  }

  lemma FirstEnds(es: seq<Price>, from: int, to: int, d: int, cs: seq<OHLC>)
    requires d > 0 && cs != [] && IsChart(es, from, to, d, cs)
    ensures from < cs[0].time + d
  {
    CandleShape(es, from, to, d, cs, 0);
  }

  lemma TailCandles(es: seq<Price>, from: int, to: int, d: int, cs: seq<OHLC>)
    requires d > 0 && cs != [] && IsChart(es, from, to, d, cs)
    ensures AllCandles(es, cs[0].time + d, to, d, cs[1..])
  {
    forall i | 0 <= i < |cs[1..]| ensures IsCandle(es, cs[0].time + d, to, d, cs[1..][i]) {
      TailCandle(es, from, to, d, cs, i + 1);
    }
  }

  lemma TailCovered(es: seq<Price>, from: int, to: int, d: int, cs: seq<OHLC>)
    requires d > 0 && cs != [] && IsChart(es, from, to, d, cs)
    ensures AllCovered(es, cs[0].time + d, to, d, cs[1..])
  {
    forall e | e in es && InRange(e, cs[0].time + d, to) ensures HasTime(cs[1..], Trunc(e.receivedAt, d)) {
      TailCovers(es, from, to, d, cs, e);
    }
  }

  /** Without its first candle, a chart is a chart of the range that starts where that candle ends. */
  lemma TailChart(es: seq<Price>, from: int, to: int, d: int, cs: seq<OHLC>)
    requires d > 0 && cs != [] && IsChart(es, from, to, d, cs)
    ensures from < cs[0].time + d && IsChart(es, cs[0].time + d, to, d, cs[1..])
  {
    FirstEnds(es, from, to, d, cs);
    TailCandles(es, from, to, d, cs);
    TailCovered(es, from, to, d, cs);
  }

  /**
   A coarse interval t holds the prices it has from `mid` on and, if it is `time`, the coarse interval
   of the first candle, that candle's prices too. Those all come before `mid`.
   */
  ghost predicate CoarseAt(e: Price, t: int, from: int, mid: int, to: int, d: int, m: int, first: int, time: int) {
    && (InBucket(e, from, to, d, first) ==> e.receivedAt < mid)
    && (InBucket(e, from, to, m, t) <==>
          InBucket(e, mid, to, m, t) || (t == time && InBucket(e, from, to, d, first)))
  }

  ghost predicate FirstThen(es: seq<Price>, from: int, mid: int, to: int, d: int, m: int, first: int, time: int) {
    forall e, t {:trigger CoarseAt(e, t, from, mid, to, d, m, first, time)}
               {:trigger InBucket(e, from, to, m, t)} {:trigger InBucket(e, mid, to, m, t)} ::
      e in es ==> CoarseAt(e, t, from, mid, to, d, m, first, time)
  }

  lemma CoarseBucket(es: seq<Price>, from: int, to: int, d: int, k: int, m: int, cs: seq<OHLC>, e: Price, t: int)
    requires d > 0 && k > 0 && m == d * k && cs != [] && IsChart(es, from, to, d, cs) && e in es
    ensures CoarseAt(e, t, from, cs[0].time + d, to, d, m, cs[0].time, Trunc(cs[0].time, m))
  {
    var a, mid := cs[0].time, cs[0].time + d;
    FirstEnds(es, from, to, d, cs);
    TruncFacts(e.receivedAt, d);
    TruncTwice(e.receivedAt, d, k, m);
    if InRange(e, from, to) && e.receivedAt < mid {
      CandleShape(es, from, to, d, cs, 0);
      TailTimes(cs, Trunc(e.receivedAt, d));
      TruncIs(e.receivedAt, a, d);
    }
  }

  lemma CoarseBuckets(es: seq<Price>, from: int, to: int, d: int, k: int, m: int, cs: seq<OHLC>)
    requires d > 0 && k > 0 && m == d * k && cs != [] && IsChart(es, from, to, d, cs)
    ensures FirstThen(es, from, cs[0].time + d, to, d, m, cs[0].time, Trunc(cs[0].time, m))
  {
    var mid, first, time := cs[0].time + d, cs[0].time, Trunc(cs[0].time, m);
    forall e, t | e in es ensures CoarseAt(e, t, from, mid, to, d, m, first, time) {
      CoarseBucket(es, from, to, d, k, m, cs, e, t);
    }
  }

  lemma JoinIsCandle(es: seq<Price>, from: int, mid: int, to: int, d: int, m: int, c: OHLC, next: OHLC)
    requires IsCandle(es, from, to, d, c) && IsCandle(es, mid, to, m, next)
    requires forall e :: e in es ==>
      && (InBucket(e, from, to, d, c.time) ==> e.receivedAt < mid)
      && (InBucket(e, from, to, m, next.time) <==>
            InBucket(e, mid, to, m, next.time) || InBucket(e, from, to, d, c.time))
    ensures IsCandle(es, from, to, m, Join(c.(time := next.time), next))
  {
  }

  lemma WidenIsCandle(es: seq<Price>, from: int, to: int, d: int, m: int, c: OHLC, time: int)
    requires IsCandle(es, from, to, d, c)
    requires forall e :: e in es ==> (InBucket(e, from, to, m, time) <==> InBucket(e, from, to, d, c.time))
    ensures IsCandle(es, from, to, m, c.(time := time))
  {
  }

  lemma RestStays(es: seq<Price>, from: int, mid: int, to: int, d: int, m: int, first: int, rest: seq<OHLC>, i: nat)
    requires IsChart(es, mid, to, m, rest) && i < |rest| && first <= mid
    requires FirstThen(es, from, mid, to, d, m, first, Trunc(first, m))
    ensures Trunc(first, m) <= rest[i].time
    ensures rest[i].time != Trunc(first, m) ==> IsCandle(es, from, to, m, rest[i])
  {
    assert IsCandle(es, mid, to, m, rest[i]);
    var e :| e in es && InBucket(e, mid, to, m, rest[i].time);
    TruncMonotone(first, e.receivedAt, m);
    if rest[i].time != Trunc(first, m) {
      CandleOfPart(es, mid, to, from, to, m, rest[i]);
    }
  }

  lemma ConsIncreasing(c: OHLC, rest: seq<OHLC>)
    requires Increasing(rest) && forall i :: 0 <= i < |rest| ==> c.time < rest[i].time
    ensures Increasing([c] + rest)
  {
  }

  lemma ChartCons(es: seq<Price>, from: int, to: int, m: int, c: OHLC, rest: seq<OHLC>)
    requires IsCandle(es, from, to, m, c) && Increasing(rest)
    requires forall i :: 0 <= i < |rest| ==> c.time < rest[i].time && IsCandle(es, from, to, m, rest[i])
    requires forall e :: e in es && InRange(e, from, to) ==>
      Trunc(e.receivedAt, m) == c.time || HasTime(rest, Trunc(e.receivedAt, m))
    ensures IsChart(es, from, to, m, [c] + rest)
  {
    var r := [c] + rest;
    ConsIncreasing(c, rest);
    forall i | 0 <= i < |r| ensures IsCandle(es, from, to, m, r[i]) {
      if i > 0 {
        assert r[i] == rest[i - 1];
      }
    }
    forall e | e in es && InRange(e, from, to) ensures HasTime(r, Trunc(e.receivedAt, m)) {
      FirstTime(r);
      HasTimeAppend([c], rest, Trunc(e.receivedAt, m));
    }
  }

  /** The first candle's coarse interval goes on after it. */
  lemma MergeInto(es: seq<Price>, from: int, mid: int, to: int, d: int, m: int, c: OHLC, rest: seq<OHLC>)
    requires IsCandle(es, from, to, d, c) && IsChart(es, mid, to, m, rest) && c.time <= mid
    requires FirstThen(es, from, mid, to, d, m, c.time, Trunc(c.time, m))
    requires rest != [] && rest[0].time == Trunc(c.time, m)
    ensures IsChart(es, from, to, m, [Join(c.(time := Trunc(c.time, m)), rest[0])] + rest[1..])
  {
    assert IsCandle(es, mid, to, m, rest[0]);
    JoinIsCandle(es, from, mid, to, d, m, c, rest[0]);
    forall i | 0 <= i < |rest[1..]|
      ensures rest[0].time < rest[1..][i].time && IsCandle(es, from, to, m, rest[1..][i])
    {
      RestStays(es, from, mid, to, d, m, c.time, rest, i + 1);
    }
    forall e | e in es && InRange(e, from, to)
      ensures Trunc(e.receivedAt, m) == rest[0].time || HasTime(rest[1..], Trunc(e.receivedAt, m))
    {
      assert InBucket(e, from, to, m, Trunc(e.receivedAt, m));
      TailTimes(rest, Trunc(e.receivedAt, m));
    }
    ChartCons(es, from, to, m, Join(c.(time := Trunc(c.time, m)), rest[0]), rest[1..]);
  }

  /** The first candle has its coarse interval to itself. */
  lemma MergeAlone(es: seq<Price>, from: int, mid: int, to: int, d: int, m: int, c: OHLC, rest: seq<OHLC>)
    requires IsCandle(es, from, to, d, c) && IsChart(es, mid, to, m, rest) && c.time <= mid
    requires FirstThen(es, from, mid, to, d, m, c.time, Trunc(c.time, m))
    requires rest == [] || rest[0].time != Trunc(c.time, m)
    ensures IsChart(es, from, to, m, [c.(time := Trunc(c.time, m))] + rest)
  {
    var time := Trunc(c.time, m);
    forall i: nat | i < |rest| ensures time < rest[i].time && IsCandle(es, from, to, m, rest[i]) {
      RestStays(es, from, mid, to, d, m, c.time, rest, 0);
      RestStays(es, from, mid, to, d, m, c.time, rest, i);
    }
    HasTimeMeans(es, mid, to, m, rest, time);
    WidenIsCandle(es, from, to, d, m, c, time);
    forall e | e in es && InRange(e, from, to)
      ensures Trunc(e.receivedAt, m) == time || HasTime(rest, Trunc(e.receivedAt, m))
    {
      assert InBucket(e, from, to, m, Trunc(e.receivedAt, m));
    }
    ChartCons(es, from, to, m, c.(time := time), rest);
  }

  /** Coarsening: merging the candles of a chart gives a chart for any multiple of its interval. */
  lemma {:induction false} ChartCoarsens(es: seq<Price>, from: int, to: int, d: int, k: int, cs: seq<OHLC>)
    requires d > 0 && k > 0 && IsChart(es, from, to, d, cs)
    ensures IsChart(es, from, to, d * k, Merge(cs, d * k))
    decreases |cs|
  {
    if cs == [] {
      NothingInRange(es, from, to, d, d * k);
    } else {
      var c, mid, m := cs[0], cs[0].time + d, d * k;
      TailChart(es, from, to, d, cs);
      ChartCoarsens(es, mid, to, d, k, cs[1..]);
      CoarseBuckets(es, from, to, d, k, m, cs);
      assert IsCandle(es, from, to, d, c);
      var rest := Merge(cs[1..], m);
      if rest != [] && rest[0].time == Trunc(c.time, m) {
        MergeInto(es, from, mid, to, d, m, c, rest);
      } else {
        MergeAlone(es, from, mid, to, d, m, c, rest);
      }
    }
  }

  lemma NothingInRange(es: seq<Price>, from: int, to: int, d: int, m: int)
    requires IsChart(es, from, to, d, [])
    ensures IsChart(es, from, to, m, [])
  {
    assert forall t :: !HasTime([], t);
  }

  // ----- what queries answer -----

  /** The answer to a coarse query is the merged answer to the fine one. */
  lemma CoarseQueryIsMerged(es: seq<Price>, from: int, to: int, d: int, k: int, fine: seq<OHLC>, coarse: seq<OHLC>)
    requires d > 0 && k > 0 && Agreeing(es, from, to)
    requires IsChart(es, from, to, d, fine) && IsChart(es, from, to, d * k, coarse)
    ensures coarse == Merge(fine, d * k)
  {
    ChartCoarsens(es, from, to, d, k, fine);
    ChartUnique(es, from, to, d * k, coarse, Merge(fine, d * k));
  }

  /** The answer for a range is the answers for its two aligned parts, one after the other. */
  lemma QueriesConcatenate(es: seq<Price>, from: int, mid: int, to: int, d: int,
                           a: seq<OHLC>, b: seq<OHLC>, whole: seq<OHLC>)
    requires from <= mid <= to && Trunc(mid, d) == mid && Agreeing(es, from, to)
    requires IsChart(es, from, mid, d, a) && IsChart(es, mid, to, d, b) && IsChart(es, from, to, d, whole)
    ensures whole == a + b
  {
    ChartSplits(es, from, mid, to, d, a, b);
    ChartUnique(es, from, to, d, whole, a + b);
  }
}
