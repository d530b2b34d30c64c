/** Order statistics of sequences of reals, by counting. */
module OrderStatistics {
  import opened Common

  /** How many elements are at most v. */
  function CountLe(s: seq<real>, v: real): nat {
    if s == [] then 0 else (if s[0] <= v then 1 else 0) + CountLe(s[1..], v)
  }

  predicate Ascending(s: seq<real>) {
    forall i, j :: 0 <= i < j < |s| ==> s[i] <= s[j]
  }

  lemma {:induction false} CountAppend(s: seq<real>, t: seq<real>, v: real)
    ensures CountLe(s + t, v) == CountLe(s, v) + CountLe(t, v)
    decreases |s|
  {
    if s == [] {
      assert s + t == t;
    } else {
      assert (s + t)[1..] == s[1..] + t;
      CountAppend(s[1..], t, v);
    }
  }

  lemma {:induction false} CountBounds(s: seq<real>, v: real)
    ensures CountLe(s, v) <= |s|
    ensures (forall i :: 0 <= i < |s| ==> s[i] <= v) ==> CountLe(s, v) == |s|
    ensures (forall i :: 0 <= i < |s| ==> v < s[i]) ==> CountLe(s, v) == 0
    decreases |s|
  {
    if s != [] {
      CountBounds(s[1..], v);
    }
  }

  /** Counting depends on the elements only, not on their order. */
  lemma {:induction false} CountPermutation(s: seq<real>, t: seq<real>, v: real)
    requires multiset(s) == multiset(t)
    ensures CountLe(s, v) == CountLe(t, v)
    decreases |s|
  {
    if s == [] {
      assert |multiset(t)| == 0;
      assert t == [];
    } else {
      assert s[0] in multiset(t);
      var j :| 0 <= j < |t| && t[j] == s[0];
      TakeOut(s, t, j);
      CountPermutation(s[1..], t[..j] + t[j + 1..], v);
      assert t == t[..j] + ([t[j]] + t[j + 1..]);
      CountAppend(t[..j], [t[j]] + t[j + 1..], v);
      CountAppend([t[j]], t[j + 1..], v);
      CountAppend(t[..j], t[j + 1..], v);
      assert [t[j]][1..] == [];
    }
  }

  /** In ascending order, the k-th element is at most v exactly when more than k elements are. */
  lemma {:induction false} Rank(s: seq<real>, k: nat, v: real)
    requires Ascending(s) && k < |s|
    ensures s[k] <= v <==> CountLe(s, v) > k
  {
    assert s == s[..k + 1] + s[k + 1..] && s == s[..k] + s[k..];
    CountAppend(s[..k + 1], s[k + 1..], v);
    CountAppend(s[..k], s[k..], v);
    CountBounds(s[..k + 1], v);
    CountBounds(s[..k], v);
    CountBounds(s[k..], v);
  }

  lemma {:induction false} CountPointwise(s: seq<real>, t: seq<real>, v: real)
    requires |s| == |t| && forall i :: 0 <= i < |s| ==> s[i] <= t[i]
    ensures CountLe(t, v) <= CountLe(s, v)
    decreases |s|
  {
    if s != [] {
      CountPointwise(s[1..], t[1..], v);
    }
  }

  /** Raising elements never lowers an order statistic. */
  lemma OrderMonotone(s: seq<real>, t: seq<real>, sorted: seq<real>, sorted': seq<real>, k: nat)
    requires |s| == |t| && forall i :: 0 <= i < |s| ==> s[i] <= t[i]
    requires Ascending(sorted) && multiset(sorted) == multiset(s)
    requires Ascending(sorted') && multiset(sorted') == multiset(t)
    requires k < |sorted|
    ensures |sorted| == |sorted'| && sorted[k] <= sorted'[k]
  {
    assert |sorted| == |multiset(sorted)| == |s| && |sorted'| == |multiset(sorted')| == |t|;
    var v := sorted'[k];
    Rank(sorted', k, v);
    CountPermutation(sorted', t, v);
    CountPointwise(s, t, v);
    CountPermutation(s, sorted, v);
    Rank(sorted, k, v);
  }

  /** Elements have one ascending order. */
  lemma AscendingUnique(s: seq<real>, t: seq<real>)
    requires Ascending(s) && Ascending(t) && multiset(s) == multiset(t)
    ensures s == t
  {
    assert |s| == |multiset(s)| == |multiset(t)| == |t|;
    forall k: nat | k < |s| ensures s[k] == t[k] {
      OrderMonotone(s, s, s, t, k);
      OrderMonotone(s, s, t, s, k);
    }
  }

  /**
   Robustness: if all honest elements lie in [lo, hi], an order statistic with at least as many
   elements on either side as there are bad ones lies there too.
   */
  lemma MiddleIsEnclosed(sorted: seq<real>, honest: seq<real>, bad: seq<real>, k: nat, lo: real, hi: real)
    requires Ascending(sorted) && multiset(sorted) == multiset(honest) + multiset(bad)
    requires k < |sorted| && |bad| <= k && |bad| < |sorted| - k
    requires forall i :: 0 <= i < |honest| ==> lo <= honest[i] <= hi
    ensures lo <= sorted[k] <= hi
  {
    assert multiset(honest + bad) == multiset(sorted);
    assert |sorted| == |multiset(sorted)| == |multiset(honest + bad)| == |honest| + |bad|;
    forall v ensures CountLe(sorted, v) == CountLe(honest, v) + CountLe(bad, v) {
      CountPermutation(sorted, honest + bad, v);
      CountAppend(honest, bad, v);
    }
    CountBounds(honest, hi);
    Rank(sorted, k, hi);
    var v := sorted[k];
    Rank(sorted, k, v);
    CountBounds(honest, v);
    CountBounds(bad, v);
  }
}
