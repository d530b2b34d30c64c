/**
 Price alerts: each fires at most once. First the service object, then the protocol of its lock steps
 under races between updates, creations and deletions.
 */
module Alerts {
  import opened Common
  import opened Prices

  datatype Condition = Above | Below | Unknown

  /** What an alert waits for; it never changes. */
  datatype Terms = Terms(coinID: string, currency: string, condition: Condition, threshold: real)

  predicate ConditionMet(t: Terms, p: Price) {
    match t.condition
    case Above => p.value >= t.threshold
    case Below => p.value <= t.threshold
    case Unknown => false
  }

  predicate Matches(t: Terms, p: Price) {
    t.coinID == p.coinID && t.currency == p.currency && ConditionMet(t, p)
  }

  /** What fires an alert, in the fields of price and alert. */
  lemma MatchesInFull(t: Terms, p: Price)
    ensures Matches(t, p) <==>
      && p.coinID == t.coinID && p.currency == t.currency
      && ((t.condition.Above? && p.value >= t.threshold) || (t.condition.Below? && p.value <= t.threshold))
  {
  }

  // ----- the service object -----

  class Alert {
    const terms: Terms
    var id: string
    var active: bool
    var createdAt: Option<int>
    var triggeredAt: Option<int>

    /** An alert as it comes in, perhaps without an ID. */
    constructor (id: string, terms: Terms)
      ensures this.id == id && this.terms == terms && !active && createdAt.None? && triggeredAt.None?
    {
      this.id, this.terms := id, terms;
      active, createdAt, triggeredAt := false, None, None;
    }
  }

  /** A webhook delivery that was launched: for which alert, with which price, triggered when. */
  datatype Launch = Launch(alert: Alert, price: Price, at: int)

  class AlertService {
    var alerts: map<string, Alert>
    var launched: seq<Launch>

    constructor ()
      ensures alerts == map[] && launched == []
    {
      alerts, launched := map[], [];
    }

    /** `urlOk` is the verdict of the webhook URL check; `freshID` is what the generator of IDs would return. */
    method Create(alert: Alert, urlOk: bool, freshID: string, now: int) returns (ok: bool)
      modifies this`alerts, alert`id, alert`active, alert`createdAt
      ensures ok == urlOk
      ensures
        if urlOk then
          && alert.id == (if old(alert.id) == "" then freshID else old(alert.id))
          && alert.active && alert.createdAt == Some(now) && alerts == old(alerts)[alert.id := alert]
        else
          && alert.id == old(alert.id) && alert.active == old(alert.active)
          && alert.createdAt == old(alert.createdAt) && alerts == old(alerts)
    {
      if !urlOk {
        return false;
      }
      if alert.id == "" {
        alert.id := freshID;
      }
      alert.active := true;
      alert.createdAt := Some(now);
      alerts := alerts[alert.id := alert];
      ok := true;
    }

    method Delete(id: string) returns (ok: bool)
      modifies this`alerts
      ensures ok == (id in old(alerts)) && alerts == old(alerts) - {id}
    {
      if id !in alerts {
        return false;
      }
      alerts := alerts - {id};
      ok := true;
    }

    /** The snapshot taken under the read lock, in the map's arbitrary order. */
    method Snapshot(p: Price) returns (triggered: seq<Alert>)
      ensures forall a :: a in triggered <==> a in alerts.Values && a.active && Matches(a.terms, p)
      ensures forall a :: a in triggered <==>
        && a in alerts.Values && a.active && p.coinID == a.terms.coinID && p.currency == a.terms.currency
        && ((a.terms.condition.Above? && p.value >= a.terms.threshold)
            || (a.terms.condition.Below? && p.value <= a.terms.threshold))
    {
      triggered := [];
      var pending := alerts.Keys;
      while pending != {}
        invariant pending <= alerts.Keys
        invariant forall a :: a in triggered <==>
                    a.active && Matches(a.terms, p) && Holds(alerts, alerts.Keys - pending, a)
      {
        ghost var some := SomeMember(pending);
        var id :| id in pending;
        var alert := alerts[id];
        HoldsMore(alerts, alerts.Keys - pending, id);
        assert alerts.Keys - (pending - {id}) == (alerts.Keys - pending) + {id};
        if alert.active && alert.terms.coinID == p.coinID && alert.terms.currency == p.currency
           && ConditionMet(alert.terms, p) {
          triggered := triggered + [alert];
        }
        pending := pending - {id};
      }
      assert alerts.Keys - pending == alerts.Keys;
      forall a ensures a in alerts.Values <==> Holds(alerts, alerts.Keys, a) {
      }
    }

    /** Fire one alert, unless another goroutine already has. */
    method Trigger(alert: Alert, p: Price, now: int)
      modifies this`launched, alert`active, alert`triggeredAt
      ensures !alert.active && alerts == old(alerts)
      ensures if old(alert.active) then
                alert.triggeredAt == Some(now) && launched == old(launched) + [Launch(alert, p, now)]
              else alert.triggeredAt == old(alert.triggeredAt) && launched == old(launched)
    {
      if !alert.active {
        return;
      }
      alert.active := false;
      alert.triggeredAt := Some(now);
      launched := launched + [Launch(alert, p, now)];
    }

    /** An update that nobody interrupts. `clock` gives the time each alert is triggered at. */
    method OnPriceUpdate(p: Price, clock: nat -> int)
      modifies this`launched, alerts.Values`active, alerts.Values`triggeredAt
      ensures |old(launched)| <= |launched| && launched[..|old(launched)|] == old(launched)
      ensures forall a :: a in alerts.Values ==>
        var fires := old(a.active) && Matches(a.terms, p);
        && a.active == (old(a.active) && !fires)
        && (a.triggeredAt == if fires then LaunchTime(launched[|old(launched)|..], a) else old(a.triggeredAt))
        && (fires <==> LaunchTime(launched[|old(launched)|..], a).Some?)
      ensures OneLaunchEach(launched[|old(launched)|..], p)
      ensures forall a :: a in alerts.Values ==>
        (Fired(launched, |old(launched)|, a, p) <==>
          && old(a.active) && p.coinID == a.terms.coinID && p.currency == a.terms.currency
          && ((a.terms.condition.Above? && p.value >= a.terms.threshold)
              || (a.terms.condition.Below? && p.value <= a.terms.threshold)))
    {
      var triggered := Snapshot(p);
      ghost var before := launched;
      ghost var fired: seq<Launch> := [];
      for k := 0 to |triggered|
        invariant launched == before + fired && OneLaunchEach(fired, p)
        invariant forall a :: a in alerts.Values ==>
          var fires := a in triggered[..k];
          && a.active == (old(a.active) && !fires)
          && a.triggeredAt == (if fires then LaunchTime(fired, a) else old(a.triggeredAt))
          && (fires <==> LaunchTime(fired, a).Some?)
      {
        var alert := triggered[k];
        assert triggered[..k + 1] == triggered[..k] + [alert];
        if alert.active {
          LaunchTimeMore(fired, Launch(alert, p, clock(k)));
          fired := fired + [Launch(alert, p, clock(k))];
        }
        Trigger(alert, p, clock(k));
      }
      assert triggered[..|triggered|] == triggered;
      assert launched[|before|..] == fired;
      forall a ensures Fired(launched, |before|, a, p) <==> LaunchTime(fired, a).Some? {
        FiredIsLaunched(before, fired, a, p);
      }
    }
  }

  /** Some launch from position `from` on is for the alert, with this price. */
  ghost predicate Fired(ls: seq<Launch>, from: nat, a: Alert, p: Price) {
    exists k :: from <= k < |ls| && ls[k].alert == a && ls[k].price == p
  }

  lemma {:induction false} LaunchedHas(ls: seq<Launch>, a: Alert)
    ensures LaunchTime(ls, a).Some? <==> exists k :: 0 <= k < |ls| && ls[k].alert == a
    decreases |ls|
  {
    if ls != [] {
      LaunchedHas(ls[1..], a);
      if k :| 0 <= k < |ls| && ls[k].alert == a {
        assert k > 0 ==> ls[1..][k - 1].alert == a;
      }
    }
  }

  lemma FiredIsLaunched(before: seq<Launch>, fired: seq<Launch>, a: Alert, p: Price)
    requires OneLaunchEach(fired, p)
    ensures Fired(before + fired, |before|, a, p) <==> LaunchTime(fired, a).Some?
  {
    LaunchedHas(fired, a);
    var ls := before + fired;
    if k :| 0 <= k < |fired| && fired[k].alert == a {
      assert ls[|before| + k].alert == a && ls[|before| + k].price == p;
    }
    if k :| |before| <= k < |ls| && ls[k].alert == a && ls[k].price == p {
      assert fired[k - |before|].alert == a;
    }
  }

  ghost predicate Holds(alerts: map<string, Alert>, ids: set<string>, a: Alert) {
    exists id :: id in ids && id in alerts && alerts[id] == a
  }

  lemma HoldsMore(alerts: map<string, Alert>, ids: set<string>, id: string)
    requires id in alerts
    ensures forall a :: Holds(alerts, ids + {id}, a) <==> Holds(alerts, ids, a) || a == alerts[id]
  {
    assert id in ids + {id};
  }

  /** When an alert was triggered, by the first of a series of launches that is for it. */
  function LaunchTime(ls: seq<Launch>, a: Alert): Option<int> {
    if ls == [] then None
    else if ls[0].alert == a then Some(ls[0].at)
    else LaunchTime(ls[1..], a)
  }

  /** No alert is launched twice, and every launch is for an alert that the price meets. */
  ghost predicate OneLaunchEach(ls: seq<Launch>, p: Price) {
    && (forall i, j :: 0 <= i < j < |ls| ==> ls[i].alert != ls[j].alert)
    && (forall i :: 0 <= i < |ls| ==> ls[i].price == p && Matches(ls[i].alert.terms, p))
  }

  lemma {:induction false} LaunchTimeMore(ls: seq<Launch>, l: Launch)
    ensures forall a ::
      LaunchTime(ls + [l], a)
        == if LaunchTime(ls, a).Some? then LaunchTime(ls, a) else if l.alert == a then Some(l.at) else None
    ensures LaunchTime(ls, l.alert).None? ==> forall i :: 0 <= i < |ls| ==> ls[i].alert != l.alert
    decreases |ls|
  {
    if ls == [] {
      assert [] + [l] == [l] && [l][1..] == [];
    } else {
      LaunchTimeMore(ls[1..], l);
      assert (ls + [l])[1..] == ls[1..] + [l];
    }
  }
}
