/**
 Decimal arithmetic as reals. Addition, subtraction and multiplication are exact; a division keeps
 digits down to one unit in the last place, `ulp`, rounding halves away from zero.
 */
module Decimals {

  function Abs(x: real): real {
    if x >= 0.0 then x else -x
  }

  /** k units in the last place. */
  function Units(k: int, ulp: real): real {
    k as real * ulp
  }

  /** The whole number of units nearest to x, halves upwards. */
  function Nearest(x: real, ulp: real): int
    requires ulp > 0.0
  {
    (x / ulp + 0.5).Floor
  }

  function HalfUp(x: real, ulp: real): real
    requires ulp > 0.0
  {
    Units(Nearest(x, ulp), ulp)
  }

  function Round(x: real, ulp: real): real
    requires ulp > 0.0
  {
    if x >= 0.0 then HalfUp(x, ulp) else -HalfUp(-x, ulp)
  }

  function Div(x: real, y: real, ulp: real): real
    requires y != 0.0 && ulp > 0.0
  {
    Round(x / y, ulp)
  }

  lemma MulMonotone(x: real, y: real, u: real)
    requires x <= y && u >= 0.0
    ensures x * u <= y * u
  {
    assert (y - x) * u >= 0.0;
    assert (y - x) * u == y * u - x * u;
  }

  lemma DivMonotone(x: real, y: real, u: real)
    requires x <= y && u > 0.0
    ensures x / u <= y / u
  {
    var p, q := x / u, y / u;
    assert p * u == x && q * u == y;
    assert (p - q) * u == p * u - q * u;
    assert p > q ==> (p - q) * u > 0.0;
  }

  lemma FloorMonotone(x: real, y: real)
    requires x <= y
    ensures x.Floor <= y.Floor
  {
  }

  lemma HalfUpError(x: real, ulp: real)
    requires ulp > 0.0
    ensures x - ulp / 2.0 <= HalfUp(x, ulp) <= x + ulp / 2.0
    ensures x >= 0.0 ==> HalfUp(x, ulp) >= 0.0
  {
    var q := x / ulp;
    var f := (q + 0.5).Floor as real;
    assert q * ulp == x && q - 0.5 <= f <= q + 0.5;
    MulMonotone(q - 0.5, f, ulp);
    MulMonotone(f, q + 0.5, ulp);
    assert (q - 0.5) * ulp == x - ulp / 2.0 && (q + 0.5) * ulp == x + ulp / 2.0;
    if x >= 0.0 {
      DivMonotone(0.0, x, ulp);
      MulMonotone(0.0, f, ulp);
    }
  }

  lemma UnitsMonotone(j: int, k: int, ulp: real)
    requires j <= k && ulp > 0.0
    ensures Units(j, ulp) <= Units(k, ulp)
  {
    MulMonotone(j as real, k as real, ulp);
  }

  lemma NearestMonotone(x: real, y: real, ulp: real)
    requires ulp > 0.0 && x <= y
    ensures Nearest(x, ulp) <= Nearest(y, ulp)
  {
    DivMonotone(x, y, ulp);
    FloorMonotone(x / ulp + 0.5, y / ulp + 0.5);
  }

  lemma HalfUpMonotone(x: real, y: real, ulp: real)
    requires ulp > 0.0 && x <= y
    ensures HalfUp(x, ulp) <= HalfUp(y, ulp)
  {
    NearestMonotone(x, y, ulp);
    UnitsMonotone(Nearest(x, ulp), Nearest(y, ulp), ulp);
  }

  /** Rounding errs by at most half a unit. */
  lemma RoundError(x: real, ulp: real)
    requires ulp > 0.0
    ensures Abs(Round(x, ulp) - x) <= ulp / 2.0
  {
    HalfUpError(Abs(x), ulp);
  }

  lemma RoundMonotone(x: real, y: real, ulp: real)
    requires ulp > 0.0 && x <= y
    ensures Round(x, ulp) <= Round(y, ulp)
  {
    HalfUpError(Abs(x), ulp);
    HalfUpError(Abs(y), ulp);
    if x >= 0.0 {
      HalfUpMonotone(x, y, ulp);
    } else if y < 0.0 {
      HalfUpMonotone(-y, -x, ulp);
    }
  }

  /** Decimals with no more digits than a division keeps are not changed by rounding. */
  predicate Representable(x: real, ulp: real)
    requires ulp > 0.0
  {
    Round(x, ulp) == x
  }

  lemma NearestOfUnits(k: int, ulp: real)
    requires ulp > 0.0
    ensures Nearest(Units(k, ulp), ulp) == k
  {
    var x := Units(k, ulp);
    assert x / ulp == k as real by {
      assert (k as real * ulp) / ulp == k as real;
    }
    assert (k as real + 0.5).Floor == k;
  }

  lemma RoundsToUnits(x: real, ulp: real)
    requires ulp > 0.0
    ensures exists k: int :: Round(x, ulp) == Units(k, ulp)
  {
    if x >= 0.0 {
      assert Round(x, ulp) == Units(Nearest(x, ulp), ulp);
    } else {
      UnitsNegated(Nearest(-x, ulp), ulp);
      assert Round(x, ulp) == Units(-Nearest(-x, ulp), ulp);
    }
  }

  lemma DividesBack(x: real, u: real, y: real)
    requires u > 0.0 && y == x * u
    ensures y / u == x
  {
    var q := y / u;
    assert q * u == x * u;
    assert (q - x) * u == q * u - x * u;
    assert q > x ==> (q - x) * u > 0.0;
    assert q < x ==> (x - q) * u > 0.0;
  }

  /** A value halfway between two units goes to the one further from zero. */
  lemma HalvesRoundAway(k: nat, ulp: real)
    requires ulp > 0.0
    ensures Round(k as real * ulp + ulp / 2.0, ulp) == (k + 1) as real * ulp
    ensures Round(-(k as real * ulp + ulp / 2.0), ulp) == -((k + 1) as real * ulp)
  {
    var x := k as real * ulp + ulp / 2.0;
    DividesBack(k as real + 0.5, ulp, x);
    assert x / ulp + 0.5 == (k + 1) as real;
    assert Nearest(x, ulp) == k + 1;
    MulMonotone(0.0, k as real, ulp);
  }

  lemma UnitsNegated(k: int, ulp: real)
    ensures Units(-k, ulp) == -Units(k, ulp)
  {
    assert (-k) as real == -(k as real);
    assert -(k as real) * ulp == -(k as real * ulp);
  }

  lemma UnitsRepresentable(k: int, ulp: real)
    requires ulp > 0.0
    ensures Representable(Units(k, ulp), ulp)
  {
    NearestOfUnits(k, ulp);
    NearestOfUnits(-k, ulp);
    UnitsNegated(k, ulp);
  }
}
