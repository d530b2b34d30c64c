/** Small definitions shared by the whole model. */
module Common {

  datatype Option<+T> = None | Some(value: T)

  function Max(a: int, b: int): int {
    if a >= b then a else b
  }

  lemma EmptyOrNot<T>(s: set<T>)
    ensures s == {} || exists x :: x in s
  {
    if forall x :: x !in s {
      assert s == {};
    }
  }

  lemma SomeMember<T>(s: set<T>) returns (x: T)
    requires s != {}
    ensures x in s
  {
    EmptyOrNot(s);
    x :| x in s;
  }

  /** Taking one element out of two permutations of each other. */
  lemma TakeOut<T>(s: seq<T>, t: seq<T>, j: nat)
    requires s != [] && multiset(s) == multiset(t) && j < |t| && t[j] == s[0]
    ensures multiset(s[1..]) == multiset(t[..j] + t[j + 1..])
  {
    assert s == [s[0]] + s[1..];
    assert t == t[..j] + [t[j]] + t[j + 1..];
    assert multiset(s[1..]) == multiset(s) - multiset{s[0]};
    assert multiset(t[..j] + t[j + 1..]) == multiset(t) - multiset{t[j]};
  }

  // ----- Euclidean division by a variable divisor -----

  lemma MulAtLeast(k: int, w: int)
    requires w > 0
    ensures k >= 1 ==> k * w >= w
    ensures k <= -1 ==> k * w <= -w
  {
    assert (k - 1) * w == k * w - w;
    assert (k + 1) * w == k * w + w;
    assert k >= 1 ==> (k - 1) * w >= 0;
    assert k <= -1 ==> (k + 1) * w <= 0;
  }

  lemma QuotientUnique(x: int, q: int, r: int, w: int)
    requires w > 0 && x == q * w + r && 0 <= r < w
    ensures x / w == q && x % w == r
  {
    var p := x / w;
    assert x == w * p + x % w;
    assert (p - q) * w == p * w - q * w;
    MulAtLeast(p - q, w);
  }

  lemma DivStep(y: int, w: int)
    requires w > 0
    ensures (y + w) / w == y / w + 1
  {
    var p := y / w;
    assert y == w * p + y % w;
    assert (p + 1) * w == p * w + w;
    QuotientUnique(y + w, p + 1, y % w, w);
  }

  lemma DivMonotone(x: int, y: int, w: int)
    requires w > 0 && x <= y
    ensures x / w <= y / w
  {
    var p, q := x / w, y / w;
    assert x == w * p + x % w && y == w * q + y % w;
    assert (p - q) * w == p * w - q * w;
    MulAtLeast(p - q, w);
  }
}
