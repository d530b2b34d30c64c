/**
 The alert service under races. An update takes a snapshot of the matching alerts under the read lock
 and then fires them one by one under the write lock; creations, deletions and other updates happen
 in between. Alerts are named by references, since a deleted alert lives on in the snapshots that hold it.
 */
module AlertRaces {
  import opened Common
  import opened Prices
  import opened Alerts

  datatype Record = Record(id: string, terms: Terms, active: bool, triggeredAt: Option<int>)

  /** A webhook delivery launched for the alert behind `ref`. */
  datatype Job = Job(ref: nat, price: Price, at: int)

  /** An update in progress: its price, the alerts it saw, and those it has yet to fire. */
  datatype Update = Update(price: Price, seen: set<nat>, pending: set<nat>)

  datatype State = State(heap: map<nat, Record>, alerts: map<string, nat>, updates: map<nat, Update>, jobs: seq<Job>)

  const EMPTY := State(map[], map[], map[], [])

  datatype Step =
    | Create(ref: nat, id: string, terms: Terms)  // a fresh alert
    | Delete(id: string)
    | Observe(thread: nat, price: Price)          // the snapshot of an update
    | Fire(thread: nat, ref: nat, now: int)       // one trigger of an update
    | Finish(thread: nat)

  predicate Enabled(s: State, e: Step) {
    match e
    case Create(ref, _, _) => ref !in s.heap
    case Delete(_) => true
    case Observe(t, _) => t !in s.updates && s.alerts.Values <= s.heap.Keys
    case Fire(t, ref, _) => t in s.updates && ref in s.updates[t].pending && ref in s.heap
    case Finish(t) => t in s.updates && s.updates[t].pending == {}
  }

  function Matching(s: State, p: Price): set<nat>
    requires s.alerts.Values <= s.heap.Keys
  {
    set ref | ref in s.alerts.Values && s.heap[ref].active && Matches(s.heap[ref].terms, p)
  }

  function Apply(s: State, e: Step): State
    requires Enabled(s, e)
  {
    match e
    case Create(ref, id, terms) =>
      s.(heap := s.heap[ref := Record(id, terms, true, None)], alerts := s.alerts[id := ref])
    case Delete(id) => s.(alerts := s.alerts - {id})
    case Observe(t, p) => s.(updates := s.updates[t := Update(p, Matching(s, p), Matching(s, p))])
    case Fire(t, ref, now) =>
      var u, a := s.updates[t], s.heap[ref];
      var updates := s.updates[t := u.(pending := u.pending - {ref})];
      if a.active then
        s.(heap := s.heap[ref := a.(active := false, triggeredAt := Some(now))],
           updates := updates, jobs := s.jobs + [Job(ref, u.price, now)])
      else s.(updates := updates)
    case Finish(t) => s.(updates := s.updates - {t})
  }

  ghost predicate HasJob(s: State, ref: nat) {
    exists k :: 0 <= k < |s.jobs| && s.jobs[k].ref == ref
  }

  /** Each alert has launched at most one job, and exactly those that have are inactive and stamped. */
  ghost predicate OneShot(s: State) {
    && (forall j, k :: 0 <= j < k < |s.jobs| ==> s.jobs[j].ref != s.jobs[k].ref)
    && (forall k :: 0 <= k < |s.jobs| ==> s.jobs[k].ref in s.heap)
    && (forall ref :: ref in s.heap ==>
          && (HasJob(s, ref) <==> s.heap[ref].triggeredAt.Some?)
          && (s.heap[ref].active <==> s.heap[ref].triggeredAt.None?))
  }

  /** A job carries a price that meets its alert, and the time its alert is stamped with. */
  predicate Justified(s: State) {
    forall k :: 0 <= k < |s.jobs| ==>
      && s.jobs[k].ref in s.heap && Matches(s.heap[s.jobs[k].ref].terms, s.jobs[k].price)
      && s.heap[s.jobs[k].ref].triggeredAt == Some(s.jobs[k].at)
  }

  /**
   The map holds alerts under their own IDs. Updates in progress hold matching alerts only, and those
   they are done with are inactive.
   */
  predicate SnapshotsHold(s: State) {
    && s.alerts.Values <= s.heap.Keys
    && (forall id :: id in s.alerts ==> s.heap[s.alerts[id]].id == id)
    && forall t :: t in s.updates ==>
         && s.updates[t].pending <= s.updates[t].seen <= s.heap.Keys
         && (forall ref :: ref in s.updates[t].seen ==>
               && Matches(s.heap[ref].terms, s.updates[t].price)
               && (ref !in s.updates[t].pending ==> !s.heap[ref].active))
  }

  ghost predicate Invariant(s: State) {
    OneShot(s) && Justified(s) && SnapshotsHold(s)
  }

  lemma FireKeepsOneShot(s: State, e: Step)
    requires Invariant(s) && Enabled(s, e) && e.Fire?
    ensures OneShot(Apply(s, e))
  {
    var s', ref := Apply(s, e), e.ref;
    if s.heap[ref].active {
      assert !HasJob(s, ref);
      assert s'.jobs[|s.jobs|].ref == ref;
      forall r | r in s'.heap && r != ref ensures HasJob(s', r) <==> HasJob(s, r) {
        JobsKept(s, s', r);
      }
      assert forall k :: 0 <= k < |s.jobs| ==> s'.jobs[k] == s.jobs[k];
    } else {
      forall r ensures HasJob(s', r) <==> HasJob(s, r) {
      }
    }
  }

  lemma JobsKept(s: State, s': State, ref: nat)
    requires |s.jobs| < |s'.jobs| && s'.jobs == s.jobs + [s'.jobs[|s.jobs|]] && s'.jobs[|s.jobs|].ref != ref
    ensures HasJob(s', ref) <==> HasJob(s, ref)
  {
    if HasJob(s, ref) {
      var k :| 0 <= k < |s.jobs| && s.jobs[k].ref == ref;
      assert s'.jobs[k].ref == ref;
    }
  }

  lemma OthersKeepOneShot(s: State, e: Step)
    requires Invariant(s) && Enabled(s, e) && !e.Fire?
    ensures OneShot(Apply(s, e))
  {
    var s' := Apply(s, e);
    forall ref ensures HasJob(s', ref) <==> HasJob(s, ref) {
    }
    if e.Create? {
      assert !HasJob(s, e.ref);
    }
  }

  lemma StepKeepsJustified(s: State, e: Step)
    requires Invariant(s) && Enabled(s, e)
    ensures Justified(Apply(s, e))
  {
    if e.Fire? {
      assert s.heap[e.ref].active ==> !HasJob(s, e.ref);
    }
  }

  lemma StepKeepsSnapshots(s: State, e: Step)
    requires Invariant(s) && Enabled(s, e)
    ensures SnapshotsHold(Apply(s, e))
  {
  }

  lemma StepKeepsAll(s: State, e: Step)
    requires Invariant(s) && Enabled(s, e)
    ensures Invariant(Apply(s, e))
  {
    if e.Fire? {
      FireKeepsOneShot(s, e);
    } else {
      OthersKeepOneShot(s, e);
    }
    StepKeepsJustified(s, e);
    StepKeepsSnapshots(s, e);
  }

  ghost predicate Run(s: State, es: seq<Step>)
    decreases es
  {
    es == [] || (Enabled(s, es[0]) && Run(Apply(s, es[0]), es[1..]))
  }

  ghost function Exec(s: State, es: seq<Step>): State
    requires Run(s, es)
    decreases es
  {
    if es == [] then s else Exec(Apply(s, es[0]), es[1..])
  }

  /** In every interleaving, the invariant holds throughout. */
  lemma {:induction false} RunKeepsInvariant(s: State, es: seq<Step>)
    requires Invariant(s) && Run(s, es)
    ensures Invariant(Exec(s, es))
    decreases es
  {
    if es != [] {
      StepKeepsAll(s, es[0]);
      RunKeepsInvariant(Apply(s, es[0]), es[1..]);
    }
  }

  /**
   One-shot under races: in any interleaving from the start, an alert launches at most one webhook job,
   it is stamped exactly if it has launched one, and the job's price meets its coin, currency and condition.
   */
  lemma OneJobPerAlert(es: seq<Step>, j: nat, k: nat)
    requires Run(EMPTY, es) && j < |Exec(EMPTY, es).jobs| && k < |Exec(EMPTY, es).jobs|
    ensures
      var s := Exec(EMPTY, es);
      var job := s.jobs[k];
      && (s.jobs[j].ref == job.ref ==> j == k)
      && job.ref in s.heap && s.heap[job.ref].triggeredAt == Some(job.at) && !s.heap[job.ref].active
      && var t, p := s.heap[job.ref].terms, job.price;
         && p.coinID == t.coinID && p.currency == t.currency
         && ((t.condition.Above? && p.value >= t.threshold) || (t.condition.Below? && p.value <= t.threshold))
  {
    RunKeepsInvariant(EMPTY, es);
    var s := Exec(EMPTY, es);
    MatchesInFull(s.heap[s.jobs[k].ref].terms, s.jobs[k].price);
    assert HasJob(s, s.jobs[k].ref);
  }

  /** An update sees exactly the active alerts in the map whose coin, currency and condition the price meets. */
  lemma ObservedInFull(s: State, t: nat, p: Price, id: string)
    requires Invariant(s) && Enabled(s, Observe(t, p)) && id in s.alerts
    ensures
      var a, u := s.heap[s.alerts[id]], Apply(s, Observe(t, p)).updates[t];
      && u.price == p && u.pending == u.seen
      && (s.alerts[id] in u.seen <==>
            && a.active && p.coinID == a.terms.coinID && p.currency == a.terms.currency
            && ((a.terms.condition.Above? && p.value >= a.terms.threshold)
                || (a.terms.condition.Below? && p.value <= a.terms.threshold)))
  {
    MatchesInFull(s.heap[s.alerts[id]].terms, p);
  }

  /** An update that has fired all it saw leaves none of it active: each has been fired, by it or by a rival. */
  lemma FinishedUpdateMissesNothing(es: seq<Step>, t: nat, ref: nat)
    requires Run(EMPTY, es) && t in Exec(EMPTY, es).updates && Exec(EMPTY, es).updates[t].pending == {}
    requires ref in Exec(EMPTY, es).updates[t].seen
    ensures ref in Exec(EMPTY, es).heap && HasJob(Exec(EMPTY, es), ref)
  {
    RunKeepsInvariant(EMPTY, es);
  }

  // ----- deleted alerts -----

  ghost predicate Pending(s: State, ref: nat) {
    exists t :: t in s.updates && ref in s.updates[t].pending
  }

  /** The alert is out of reach: not in the map, and no update in progress has yet to fire it. */
  ghost predicate Unreachable(s: State, ref: nat) {
    ref in s.heap && ref !in s.alerts.Values && !Pending(s, ref)
  }

  lemma StepKeepsUnreachable(s: State, e: Step, ref: nat)
    requires Invariant(s) && Enabled(s, e) && Unreachable(s, ref)
    ensures Unreachable(Apply(s, e), ref)
    ensures HasJob(Apply(s, e), ref) <==> HasJob(s, ref)
  {
    var s' := Apply(s, e);
    forall t | t in s'.updates ensures ref !in s'.updates[t].pending {
      assert t in s.updates ==> ref !in s.updates[t].pending;
    }
    if e.Create? || e.Delete? {
      assert ref !in s'.alerts.Values;
    }
    if e.Fire? && s.heap[e.ref].active {
      assert e.ref != ref;
      JobsKept(s, s', ref);
    }
  }

  /** Out of reach, an alert launches nothing more, whatever happens. */
  lemma {:induction false} UnreachableNeverFires(s: State, es: seq<Step>, ref: nat)
    requires Invariant(s) && Run(s, es) && Unreachable(s, ref)
    ensures HasJob(Exec(s, es), ref) <==> HasJob(s, ref)
    decreases es
  {
    if es != [] {
      StepKeepsAll(s, es[0]);
      StepKeepsUnreachable(s, es[0], ref);
      UnreachableNeverFires(Apply(s, es[0]), es[1..], ref);
    }
  }

  ghost predicate FiresIn(s: State, es: seq<Step>, ref: nat) {
    Run(s, es) && HasJob(Exec(s, es), ref)
  }

  /**
   Deleting an alert does not recall it. A deleted alert that is still active can fire in some run from
   there exactly when an update in progress has seen it and has yet to fire it; otherwise it never does.
   */
  lemma DeletedAlertFiresIff(s: State, id: string)
    requires Invariant(s) && id in s.alerts && s.heap[s.alerts[id]].active
    ensures
      var ref, deleted := s.alerts[id], Apply(s, Delete(id));
      (exists es :: FiresIn(deleted, es, ref)) <==> Pending(s, ref)
  {
    var ref, deleted := s.alerts[id], Apply(s, Delete(id));
    StepKeepsAll(s, Delete(id));
    assert ref !in deleted.alerts.Values by {
      forall other | other in deleted.alerts ensures deleted.alerts[other] != ref {
        assert s.heap[s.alerts[other]].id == other;
      }
    }
    assert !HasJob(deleted, ref);
    if Pending(s, ref) {
      var t :| t in s.updates && ref in s.updates[t].pending;
      FireLaunches(deleted, t, ref, 0);
    } else {
      forall es | Run(deleted, es) ensures !FiresIn(deleted, es, ref) {
        UnreachableNeverFires(deleted, es, ref);
      }
    }
  }

  lemma FireLaunches(s: State, t: nat, ref: nat, now: int)
    requires Enabled(s, Fire(t, ref, now)) && s.heap[ref].active
    ensures FiresIn(s, [Fire(t, ref, now)], ref)
  {
    var e := Fire(t, ref, now);
    var s' := Apply(s, e);
    assert [e][1..] == [];
    assert Run(s', []) && Exec(s', []) == s';
    assert s'.jobs[|s.jobs|].ref == ref;
    assert HasJob(s', ref);
  }

  /** A run from the start in which an alert is created, seen, deleted, and fires. */
  lemma DeletedAlertFires(p: Price, id: string, now: int)
    ensures
      var terms := Terms(p.coinID, p.currency, Above, p.value);
      var es := [Create(0, id, terms), Observe(0, p), Delete(id), Fire(0, 0, now)];
      && Run(EMPTY, es) && Exec(EMPTY, es).jobs == [Job(0, p, now)] && id !in Exec(EMPTY, es).alerts
  {
    var terms := Terms(p.coinID, p.currency, Above, p.value);
    var es := [Create(0, id, terms), Observe(0, p), Delete(id), Fire(0, 0, now)];
    var s1 := Apply(EMPTY, es[0]);
    var s2 := Apply(s1, es[1]);
    var s3 := Apply(s2, es[2]);
    var s4 := Apply(s3, es[3]);
    assert s1.alerts[id] == 0;
    assert 0 in Matching(s1, p);
    assert es[1..][1..] == es[2..] && es[2..][1..] == es[3..] && es[3..][1..] == [];
    assert Run(s4, []) && Exec(s4, []) == s4;
    assert Run(s3, es[3..]) && Exec(s3, es[3..]) == s4;
    assert Run(s2, es[2..]) && Exec(s2, es[2..]) == s4;
    assert Run(s1, es[1..]) && Exec(s1, es[1..]) == s4;
  }
}
