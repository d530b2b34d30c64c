/**
 The contract of the library sort (`sort.Slice`): a permutation in order, ties in no particular order.
 The body is an insertion sort, but callers see only the contract.
 */
module Sorting {

  predicate TotalOn<T(==)>(s: seq<T>, leq: (T, T) -> bool) {
    && (forall x, y :: x in s && y in s ==> leq(x, y) || leq(y, x))
    && (forall x, y, z :: x in s && y in s && z in s && leq(x, y) && leq(y, z) ==> leq(x, z))
  }

  predicate Sorted<T>(s: seq<T>, leq: (T, T) -> bool) {
    forall i, j :: 0 <= i < j < |s| ==> leq(s[i], s[j])
  }

  lemma MembersAgree<T>(r: seq<T>, s: seq<T>)
    requires multiset(r) == multiset(s)
    ensures |r| == |s|
    ensures forall x :: x in r <==> x in s
  {
    assert |multiset(r)| == |r| && |multiset(s)| == |s|;
    forall x ensures x in r <==> x in s {
      assert x in r <==> x in multiset(r);
      assert x in s <==> x in multiset(s);
    }
  }

  lemma InsertSorted<T>(x: T, s: seq<T>, k: nat, leq: (T, T) -> bool)
    requires TotalOn([x] + s, leq) && Sorted(s, leq) && k <= |s|
    requires forall i :: 0 <= i < k ==> leq(s[i], x)
    requires k < |s| ==> leq(x, s[k])
    ensures Sorted(s[..k] + [x] + s[k..], leq)
  {
    assert forall y :: y in s ==> y in [x] + s;
    assert x in [x] + s;
    forall j | k < j < |s| ensures leq(x, s[j]) {
      assert leq(x, s[k]) && leq(s[k], s[j]);
    }
  }

  method InsertBy<T(==)>(x: T, s: seq<T>, leq: (T, T) -> bool) returns (r: seq<T>)
    requires TotalOn([x] + s, leq) && Sorted(s, leq)
    ensures Sorted(r, leq) && multiset(r) == multiset(s) + multiset{x}
  {
    var k := 0;
    while k < |s| && !leq(x, s[k])
      invariant 0 <= k <= |s|
      invariant forall i :: 0 <= i < k ==> leq(s[i], x)
    {
      assert x in [x] + s && s[k] in [x] + s;
      k := k + 1;
    }
    r := s[..k] + [x] + s[k..];
    assert s == s[..k] + s[k..];
    InsertSorted(x, s, k, leq);
  }

  method SortBy<T(==)>(s: seq<T>, leq: (T, T) -> bool) returns (r: seq<T>)
    requires TotalOn(s, leq)
    ensures Sorted(r, leq) && multiset(r) == multiset(s)
  {
    r := [];
    for k := 0 to |s|
      invariant Sorted(r, leq) && multiset(r) == multiset(s[..k])
    {
      MembersAgree(r, s[..k]);
      forall x | x in [s[k]] + r ensures x in s {
        if x != s[k] {
          assert x in r;
        }
      }
      r := InsertBy(s[k], r, leq);
      assert s[..k + 1] == s[..k] + [s[k]];
    }
    assert s[..|s|] == s;
  }

  predicate NoRepeats<T(==)>(s: seq<T>) {
    forall i, j :: 0 <= i < j < |s| ==> s[i] != s[j]
  }

  lemma OccursOnce<T>(s: seq<T>, x: T)
    requires NoRepeats(s)
    ensures multiset(s)[x] <= 1
    decreases |s|
  {
    if s != [] {
      OccursOnce(s[1..], x);
      assert s == [s[0]] + s[1..];
      if s[0] == x {
        assert x !in s[1..];
      }
    }
  }

  /** A permutation of a sequence without repeats has none either. */
  lemma NoRepeatsKept<T>(r: seq<T>, s: seq<T>)
    requires NoRepeats(s) && multiset(r) == multiset(s)
    ensures NoRepeats(r)
  {
    forall i, j | 0 <= i < j < |r| ensures r[i] != r[j] {
      OccursOnce(s, r[i]);
      assert r == r[..j] + r[j..];
      assert r[i] in r[..j] && r[j] in r[j..];
    }
  }

  predicate NoTies<T(==)>(s: seq<T>, leq: (T, T) -> bool) {
    forall x, y :: x in s && y in s && leq(x, y) && leq(y, x) ==> x == y
  }

  lemma FirstAgrees<T>(r: seq<T>, s: seq<T>, leq: (T, T) -> bool)
    requires Sorted(r, leq) && Sorted(s, leq) && multiset(r) == multiset(s) && NoTies(r, leq)
    requires r != [] && s != []
    ensures r[0] == s[0]
  {
    var x, y := r[0], s[0];
    assert x in multiset(s) && y in multiset(r);
    var i :| 0 <= i < |s| && s[i] == x;
    var j :| 0 <= j < |r| && r[j] == y;
    if i > 0 && j > 0 {
      assert leq(s[0], s[i]) && leq(r[0], r[j]);
      assert x in r && y in r;
    }
  }

  lemma TailsAgree<T>(r: seq<T>, s: seq<T>)
    requires r != [] && s != [] && r[0] == s[0] && multiset(r) == multiset(s)
    ensures multiset(r[1..]) == multiset(s[1..])
  {
    assert r == [r[0]] + r[1..] && s == [s[0]] + s[1..];
    assert multiset(r[1..]) == multiset(r) - multiset{r[0]};
    assert multiset(s[1..]) == multiset(s) - multiset{s[0]};
  }

  /** When no two elements tie, there is only one way to sort them. */
  lemma {:induction false} SortedUnique<T>(r: seq<T>, s: seq<T>, leq: (T, T) -> bool)
    requires Sorted(r, leq) && Sorted(s, leq) && multiset(r) == multiset(s) && NoTies(r, leq)
    ensures r == s
    decreases |r|
  {
    MembersAgree(r, s);
    if r != [] {
      FirstAgrees(r, s, leq);
      TailsAgree(r, s);
      assert NoTies(r[1..], leq) by {
        assert forall x :: x in r[1..] ==> x in r;
      }
      SortedUnique(r[1..], s[1..], leq);
      assert r == [r[0]] + r[1..] && s == [s[0]] + s[1..];
    }
  }
}
