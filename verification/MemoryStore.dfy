/** The in-memory price store, proved against the histories and charts of module Candles. */
module MemoryStore {
  import opened Common
  import opened Prices
  import opened Candles
  import Sorting

  /** The entries saved under a key, oldest first. */
  function At(prices: map<string, seq<Price>>, key: string): seq<Price> {
    if key in prices then prices[key] else []
  }

  function KeyOf(p: Price): string {
    StoreKey(p.coinID, p.currency)
  }

  /** The members of a batch that belong under a key, in batch order. */
  function Under(batch: seq<Price>, key: string): seq<Price> {
    if batch == [] then []
    else
      var rest := Under(batch[..|batch| - 1], key);
      if KeyOf(batch[|batch| - 1]) == key then rest + [batch[|batch| - 1]] else rest
  }

  /** The store after saving a batch one price at a time. */
  function Saved(prices: map<string, seq<Price>>, batch: seq<Price>): map<string, seq<Price>> {
    if batch == [] then prices
    else
      var before, p := Saved(prices, batch[..|batch| - 1]), batch[|batch| - 1];
      before[KeyOf(p) := At(before, KeyOf(p)) + [p]]
  }

  /** Saving a batch appends to each key what belongs under it, in batch order, and loses nothing. */
  lemma {:induction false} SavedAppends(prices: map<string, seq<Price>>, batch: seq<Price>, key: string)
    ensures At(Saved(prices, batch), key) == At(prices, key) + Under(batch, key)
    ensures key in Saved(prices, batch) <==> key in prices || Under(batch, key) != []
  {
    if batch != [] {
      SavedAppends(prices, batch[..|batch| - 1], key);
    }
  }

  /** Saving one price is saving a batch of one. */
  lemma SavedOne(before: map<string, seq<Price>>, after: map<string, seq<Price>>, p: Price)
    requires after.Keys == before.Keys + {KeyOf(p)}
    requires forall key :: At(after, key) == At(before, key) + if key == KeyOf(p) then [p] else []
    ensures after == Saved(before, [p])
  {
    assert [p][..0] == [];
    assert Saved(before, [p]) == before[KeyOf(p) := At(before, KeyOf(p)) + [p]];
    forall key | key in after ensures after[key] == Saved(before, [p])[key] {
      assert after[key] == At(after, key);
      assert key != KeyOf(p) ==> At(before, key) + [] == At(before, key);
    }
  }

  class Store {
    var prices: map<string, seq<Price>>

    constructor ()
      ensures prices == map[]
    {
      prices := map[];
    }

    function Entries(coinID: string, currency: string): seq<Price>
      reads this
    {
      At(prices, StoreKey(coinID, currency))
    }

    method Save(p: Price)
      modifies this
      ensures prices.Keys == old(prices).Keys + {KeyOf(p)}
      ensures forall key :: At(prices, key) == At(old(prices), key) + if key == KeyOf(p) then [p] else []
      ensures Entries(p.coinID, p.currency) == old(Entries(p.coinID, p.currency)) + [p]
    {
      prices := prices[KeyOf(p) := At(prices, KeyOf(p)) + [p]];
    }

    method SaveBatch(batch: seq<Price>)
      modifies this
      ensures prices == Saved(old(prices), batch)
      ensures forall key :: At(prices, key) == At(old(prices), key) + Under(batch, key)
    {
      for k := 0 to |batch|
        invariant prices == Saved(old(prices), batch[..k])
      {
        var p := batch[k];
        assert batch[..k + 1][..k] == batch[..k];
        prices := prices[KeyOf(p) := At(prices, KeyOf(p)) + [p]];
      }
      forall key ensures At(prices, key) == At(old(prices), key) + Under(batch, key) {
        assert batch[..|batch|] == batch;
        SavedAppends(old(prices), batch, key);
      }
      assert batch[..|batch|] == batch;
    }

    /** The latest entry, the one saved first among those received at the same instant. */
    method GetLatest(coinID: string, currency: string) returns (r: Option<Price>)
      ensures IsLatest(Entries(coinID, currency), r)
      ensures
        var es := Entries(coinID, currency);
        if es == [] then r.None?
        else
          && r.Some? && (forall k :: 0 <= k < |es| ==> es[k].receivedAt <= r.value.receivedAt)
          && (exists at :: 0 <= at < |es| && es[at] == r.value
                && (forall k :: 0 <= k < at ==> es[k].receivedAt < r.value.receivedAt))
    {
      var entries := Entries(coinID, currency);
      if |entries| == 0 {
        return None;
      }
      var latest := entries[0];
      ghost var at := 0;
      for k := 1 to |entries|
        invariant at < k && latest == entries[at] && FirstLatest(entries[..k], at)
      {
        if entries[k].receivedAt > latest.receivedAt {
          latest := entries[k];
          at := k;
        }
      }
      assert entries[..|entries|] == entries;
      r := Some(latest);
    }

    method GetHistory(coinID: string, currency: string, from: int, to: int) returns (r: seq<Price>)
      ensures IsHistory(Entries(coinID, currency), from, to, r)
      ensures forall i, j :: 0 <= i < j < |r| ==> r[i].receivedAt <= r[j].receivedAt
      ensures forall p ::
        multiset(r)[p] == if from <= p.receivedAt < to then multiset(Entries(coinID, currency))[p] else 0
    {
      var entries := Entries(coinID, currency);
      var found := FilterRange(entries, from, to);
      r := Sorting.SortBy(found, Earlier);
      forall p ensures multiset(r)[p] == if from <= p.receivedAt < to then multiset(entries)[p] else 0 {
        FilterCounts(entries, from, to, p);
      }
      forall i, j | 0 <= i < j < |r| ensures r[i].receivedAt <= r[j].receivedAt {
        assert Earlier(r[i], r[j]);
      }
    }

    method GetOHLC(coinID: string, currency: string, from: int, to: int, interval: int) returns (r: seq<OHLC>)
      ensures IsChart(Entries(coinID, currency), from, to, interval, r)
    {
      var entries := Entries(coinID, currency);
      var filtered := FilterRange(entries, from, to);
      FilterMembers(entries, from, to);
      if |filtered| == 0 {
        assert forall e :: e in entries ==> !InRange(e, from, to);
        return [];
      }
      var sorted := Sorting.SortBy(filtered, Earlier);
      Sorting.MembersAgree(sorted, filtered);
      var buckets := Bucketed(sorted, interval);
      var unordered := CandlesOf(sorted, interval, buckets);
      r := Sorting.SortBy(unordered, ByTime);
      SortedChart(entries, from, to, interval, sorted, buckets.Keys, unordered, r);
    }
  }

  /** Position `at` holds the latest entry, and no entry before it is as late. */
  predicate FirstLatest(es: seq<Price>, at: int) {
    && 0 <= at < |es|
    && (forall k :: 0 <= k < |es| ==> es[k].receivedAt <= es[at].receivedAt)
    && (forall k :: 0 <= k < at ==> es[k].receivedAt < es[at].receivedAt)
  }

  ghost predicate IsLatest(es: seq<Price>, r: Option<Price>) {
    && (r.None? <==> es == [])
    && (r.Some? ==> exists at :: FirstLatest(es, at) && es[at] == r.value)
  }

  /** The filtering loop shared by the two range queries. */
  method FilterRange(entries: seq<Price>, from: int, to: int) returns (r: seq<Price>)
    ensures r == Filter(entries, from, to)
  {
    r := [];
    for k := 0 to |entries|
      invariant r == Filter(entries[..k], from, to)
    {
      var e := entries[k];
      assert entries[..k + 1][..k] == entries[..k];
      if from <= e.receivedAt && e.receivedAt < to {
        r := r + [e];
      }
    }
    assert entries[..|entries|] == entries;
  }

  // ----- buckets -----

  /** The prices of one interval, in the order they stand in. */
  function Bucket(ps: seq<Price>, d: int, time: int): seq<Price> {
    if ps == [] then []
    else
      var rest := Bucket(ps[..|ps| - 1], d, time);
      if Trunc(ps[|ps| - 1].receivedAt, d) == time then rest + [ps[|ps| - 1]] else rest
  }

  lemma {:induction false} BucketFacts(ps: seq<Price>, d: int, time: int)
    requires Sorting.Sorted(ps, Earlier)
    ensures Sorting.Sorted(Bucket(ps, d, time), Earlier)
    ensures forall e :: e in Bucket(ps, d, time) <==> e in ps && Trunc(e.receivedAt, d) == time
  {
    if ps != [] {
      var n := |ps| - 1;
      BucketFacts(ps[..n], d, time);
      assert ps == ps[..n] + [ps[n]];
      assert forall e :: e in ps[..n] ==> Earlier(e, ps[n]);
    }
  }

  /** The bucket-filling loop: one non-empty bucket for each interval that occurs. */
  method Bucketed(ps: seq<Price>, d: int) returns (buckets: map<int, seq<Price>>)
    ensures forall t :: t in buckets <==> Bucket(ps, d, t) != []
    ensures forall t :: t in buckets ==> buckets[t] == Bucket(ps, d, t)
  {
    buckets := map[];
    for k := 0 to |ps|
      invariant forall t :: t in buckets <==> Bucket(ps[..k], d, t) != []
      invariant forall t :: t in buckets ==> buckets[t] == Bucket(ps[..k], d, t)
    {
      var p := ps[k];
      var time := Trunc(p.receivedAt, d);
      assert ps[..k + 1][..k] == ps[..k];
      buckets := buckets[time := (if time in buckets then buckets[time] else []) + [p]];
    }
    assert ps[..|ps|] == ps;
  }

  /** The candle of one non-empty bucket: first value, greatest, least, last. */
  ghost predicate Summarises(c: OHLC, time: int, ps: seq<Price>)
    requires ps != []
  {
    && c.time == time && c.open == ps[0].value && c.close == ps[|ps| - 1].value
    && (exists k :: 0 <= k < |ps| && ps[k].value == c.high)
    && (exists k :: 0 <= k < |ps| && ps[k].value == c.low)
    && (forall k :: 0 <= k < |ps| ==> c.low <= ps[k].value <= c.high)
  }

  method Candle(time: int, ps: seq<Price>) returns (c: OHLC)
    requires ps != []
    ensures Summarises(c, time, ps)
  {
    c := OHLC(time, ps[0].value, ps[0].value, ps[0].value, ps[|ps| - 1].value);
    for k := 0 to |ps|
      invariant c.time == time && c.open == ps[0].value && c.close == ps[|ps| - 1].value
      invariant exists j :: 0 <= j < |ps| && ps[j].value == c.high
      invariant exists j :: 0 <= j < |ps| && ps[j].value == c.low
      invariant forall j :: 0 <= j < k ==> c.low <= ps[j].value <= c.high
      invariant c.low <= ps[0].value <= c.high
    {
      if ps[k].value > c.high {
        c := c.(high := ps[k].value);
      }
      if ps[k].value < c.low {
        c := c.(low := ps[k].value);
      }
    }
  }

  predicate ByTime(c: OHLC, c': OHLC) {
    c.time <= c'.time
  }

  /** One candle for each bucket, in no particular order. */
  ghost predicate OnePerBucket(cs: seq<OHLC>, ps: seq<Price>, d: int, times: set<int>) {
    && (forall i, j :: 0 <= i < j < |cs| ==> cs[i].time != cs[j].time)
    && (forall i :: 0 <= i < |cs| ==>
          && cs[i].time in times && Bucket(ps, d, cs[i].time) != []
          && Summarises(cs[i], cs[i].time, Bucket(ps, d, cs[i].time)))
    && (forall t :: t in times ==> HasTime(cs, t))
  }

  /** The loop over the bucket map, whose order is arbitrary. */
  method CandlesOf(ghost ps: seq<Price>, ghost d: int, buckets: map<int, seq<Price>>) returns (cs: seq<OHLC>)
    requires forall t :: t in buckets <==> Bucket(ps, d, t) != []
    requires forall t :: t in buckets ==> buckets[t] == Bucket(ps, d, t)
    ensures OnePerBucket(cs, ps, d, buckets.Keys)
  {
    cs := [];
    var pending := buckets.Keys;
    assert buckets.Keys - pending == {};
    while pending != {}
      invariant pending <= buckets.Keys
      invariant OnePerBucket(cs, ps, d, buckets.Keys - pending)
    {
      ghost var some := SomeMember(pending);
      var t :| t in pending;
      var c := Candle(t, buckets[t]);
      AddCandle(cs, ps, d, buckets.Keys - pending, c);
      assert buckets.Keys - (pending - {t}) == (buckets.Keys - pending) + {t};
      cs := cs + [c];
      pending := pending - {t};
    }
    assert buckets.Keys - {} == buckets.Keys;
  }

  lemma AddCandle(cs: seq<OHLC>, ps: seq<Price>, d: int, times: set<int>, c: OHLC)
    requires OnePerBucket(cs, ps, d, times) && c.time !in times && Bucket(ps, d, c.time) != []
    requires Summarises(c, c.time, Bucket(ps, d, c.time))
    ensures OnePerBucket(cs + [c], ps, d, times + {c.time})
  {
    forall t | t in times + {c.time} ensures HasTime(cs + [c], t) {
      HasTimeAppend(cs, [c], t);
      FirstTime([c]);
    }
  }

  // ----- the sorted candles are the chart -----

  lemma SummaryIsCandle(es: seq<Price>, from: int, to: int, d: int, b: seq<Price>, c: OHLC)
    requires Sorting.Sorted(b, Earlier) && b != [] && Summarises(c, c.time, b)
    requires forall e :: e in b <==> e in es && InBucket(e, from, to, d, c.time)
    ensures IsCandle(es, from, to, d, c)
  {
    var first, last := b[0], b[|b| - 1];
    assert OpensWith(es, from, to, d, c.time, c.open) by {
      assert first in b;
      forall x | x in b ensures first.receivedAt <= x.receivedAt {
        var k :| 0 <= k < |b| && b[k] == x;
        assert k > 0 ==> Earlier(b[0], b[k]);
      }
    }
    assert ClosesWith(es, from, to, d, c.time, c.close) by {
      assert last in b;
      forall x | x in b ensures x.receivedAt <= last.receivedAt {
        var k :| 0 <= k < |b| && b[k] == x;
        assert k < |b| - 1 ==> Earlier(b[k], b[|b| - 1]);
      }
    }
    var h, l :| 0 <= h < |b| && 0 <= l < |b| && b[h].value == c.high && b[l].value == c.low;
    assert b[h] in b && b[l] in b;
  }

  lemma DistinctTimesIncrease(r: seq<OHLC>, cs: seq<OHLC>)
    requires Sorting.Sorted(r, ByTime) && multiset(r) == multiset(cs)
    requires forall i, j :: 0 <= i < j < |cs| ==> cs[i].time != cs[j].time
    ensures Increasing(r)
  {
    Sorting.MembersAgree(r, cs);
    Sorting.NoRepeatsKept(r, cs);
    forall i, j | 0 <= i < j < |r| ensures r[i].time < r[j].time {
      assert ByTime(r[i], r[j]);
      assert r[i] in r && r[j] in r;
      var m, n :| 0 <= m < |cs| && 0 <= n < |cs| && cs[m] == r[i] && cs[n] == r[j];
    }
  }

  lemma SameTimesSorted(r: seq<OHLC>, cs: seq<OHLC>, time: int)
    requires multiset(r) == multiset(cs) && HasTime(cs, time)
    ensures HasTime(r, time)
  {
    Sorting.MembersAgree(r, cs);
    var i :| 0 <= i < |cs| && cs[i].time == time;
    assert cs[i] in r;
  }

  lemma SortedChart(es: seq<Price>, from: int, to: int, d: int, ps: seq<Price>, times: set<int>,
                    cs: seq<OHLC>, r: seq<OHLC>)
    requires Sorting.Sorted(ps, Earlier) && forall e :: e in ps <==> e in es && InRange(e, from, to)
    requires OnePerBucket(cs, ps, d, times) && forall t :: t in times <==> Bucket(ps, d, t) != []
    requires Sorting.Sorted(r, ByTime) && multiset(r) == multiset(cs)
    ensures IsChart(es, from, to, d, r)
  {
    DistinctTimesIncrease(r, cs);
    Sorting.MembersAgree(r, cs);
    forall i | 0 <= i < |r| ensures IsCandle(es, from, to, d, r[i]) {
      assert r[i] in cs;
      var b := Bucket(ps, d, r[i].time);
      BucketFacts(ps, d, r[i].time);
      assert forall e :: e in b <==> e in es && InBucket(e, from, to, d, r[i].time);
      SummaryIsCandle(es, from, to, d, b, r[i]);
    }
    forall e | e in es && InRange(e, from, to) ensures HasTime(r, Trunc(e.receivedAt, d)) {
      var t := Trunc(e.receivedAt, d);
      BucketFacts(ps, d, t);
      assert e in Bucket(ps, d, t);
      SameTimesSorted(r, cs, t);
    }
  }
}
