/** The background poller: one live worker for each subscription, whatever is subscribed and cancelled. */
module Poller {
  import opened Common
  import opened Prices

  datatype Subscription = Subscription(coinID: string, currency: string, interval: int)

  function KeyOf(s: Subscription): string {
    StoreKey(s.coinID, s.currency)
  }

  /** One polling goroutine; it runs until its context is cancelled. */
  class Worker {
    const sub: Subscription
    var cancelled: bool

    constructor (sub: Subscription)
      ensures this.sub == sub && !cancelled
    {
      this.sub := sub;
      cancelled := false;
    }
  }

  class Poller {
    const minInterval: int
    var subs: map<string, Worker>
    ghost var launched: set<Worker>           // every worker ever started
    ghost var live: map<string, Subscription>  // the live subscriptions, by key

    /** The workers still running are exactly those in the map, each under its own key. */
    ghost predicate Valid()
      reads this, launched
    {
      && live.Keys == subs.Keys
      && (forall key :: key in subs ==>
            && subs[key] in launched && !subs[key].cancelled
            && subs[key].sub == live[key] && KeyOf(live[key]) == key && live[key].interval >= minInterval)
      && (forall w :: w in launched && !w.cancelled ==> KeyOf(w.sub) in subs && subs[KeyOf(w.sub)] == w)
    }

    constructor (minInterval: int)
      ensures Valid() && live == map[] && launched == {} && this.minInterval == minInterval
    {
      this.minInterval := minInterval;
      subs, launched, live := map[], {}, map[];
    }

    /** Cancel the worker of one key and drop the key. */
    method Cancel(key: string)
      requires Valid() && key in subs
      modifies this, subs[key]
      ensures Valid() && launched == old(launched) && subs == old(subs) - {key} && live == old(live) - {key}
      ensures old(subs[key]).cancelled
    {
      subs[key].cancelled := true;
      subs, live := subs - {key}, live - {key};
    }

    /** Start a worker under a key that has none. */
    method Launch(s: Subscription)
      requires Valid() && KeyOf(s) !in subs && s.interval >= minInterval
      modifies this
      ensures Valid() && live == old(live)[KeyOf(s) := s]
      ensures fresh(launched - old(launched)) && old(launched) <= launched && |launched| == |old(launched)| + 1
    {
      var w := new Worker(s);
      subs, live, launched := subs[KeyOf(s) := w], live[KeyOf(s) := s], launched + {w};
    }

    /**
     A new subscription replaces the one under its key, whose worker is cancelled. (The old entry is
     dropped here before the new one is set, and overwritten by it in the source; one lock covers both.)
     */
    method Subscribe(sub: Subscription)
      requires Valid()
      modifies this, launched
      ensures Valid()
      ensures
        var s := sub.(interval := if sub.interval < minInterval then minInterval else sub.interval);
        live == old(live)[StoreKey(sub.coinID, sub.currency) := s]
      ensures fresh(launched - old(launched)) && old(launched) <= launched && |launched| == |old(launched)| + 1
    {
      var s := sub;
      if s.interval < minInterval {
        s := s.(interval := minInterval);
      }
      ghost var before, key := live, KeyOf(sub);
      assert KeyOf(s) == key;
      if KeyOf(s) in subs {
        Cancel(KeyOf(s));
      }
      assert live == before - {key};
      Launch(s);
      assert live == before[key := s];
    }

    method Unsubscribe(coinID: string, currency: string) returns (ok: bool)
      requires Valid()
      modifies this, launched
      ensures Valid() && launched == old(launched)
      ensures ok == (StoreKey(coinID, currency) in old(live))
      ensures live == old(live) - {StoreKey(coinID, currency)}
    {
      var key := StoreKey(coinID, currency);
      if key !in subs {
        return false;
      }
      Cancel(key);
      ok := true;
    }

    /** Stop visits the map in arbitrary order. */
    method Stop()
      requires Valid()
      modifies this, launched
      ensures Valid() && launched == old(launched) && live == map[]
      ensures forall w :: w in launched ==> w.cancelled
    {
      var pending := subs.Keys;
      while pending != {}
        invariant pending == subs.Keys && launched == old(launched) && Valid()
        decreases pending
      {
        ghost var some := SomeMember(pending);
        var key :| key in pending;
        Cancel(key);
        pending := pending - {key};
      }
    }

    method Subscriptions() returns (r: seq<Subscription>)
      requires Valid()
      ensures |r| == |subs|
      ensures forall s :: s in r <==> KeyOf(s) in live && live[KeyOf(s)] == s
    {
      r := [];
      var pending := subs.Keys;
      ghost var done: set<string> := {};
      while pending != {}
        invariant done + pending == subs.Keys && done !! pending && |r| == |done|
        invariant forall s :: s in r <==> KeyOf(s) in done && subs[KeyOf(s)].sub == s
        decreases pending
      {
        ghost var some := SomeMember(pending);
        var key :| key in pending;
        r := r + [subs[key].sub];
        done := done + {key};
        pending := pending - {key};
      }
    }

    /** Never two live workers for one pair of coin and currency; and none polls faster than allowed. */
    lemma OneLiveWorker(w: Worker, u: Worker)
      requires Valid() && w in launched && u in launched && !w.cancelled && !u.cancelled
      requires ':' !in w.sub.currency && ':' !in u.sub.currency
      ensures w == u <==> w.sub.coinID == u.sub.coinID && w.sub.currency == u.sub.currency
      ensures w.sub.interval >= minInterval
    {
      KeyDetermines(w.sub.coinID, w.sub.currency, u.sub.coinID, u.sub.currency);
      assert subs[KeyOf(w.sub)] == w && subs[KeyOf(u.sub)] == u;
    }
  }

}
