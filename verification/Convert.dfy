/** Converting an amount of one coin into another through a common currency. */
module Convert {
  import opened Prices
  import opened Decimals

  datatype Outcome = Converted(rate: real, result: real) | NoPrice(coin: string, error: Error) | ZeroPrice(coin: string)

  /**
   The two price look-ups are given by what they returned; a look-up that failed ends the conversion.
   Every error is about one coin: both look-ups come before both zero checks, the source coin first.
   */
  function ConvertAmount(from: string, to: string, amount: real, fromAnswer: Answer, toAnswer: Answer, ulp: real)
    : (r: Outcome)
    requires ulp > 0.0
    ensures r.Converted? <==>
      fromAnswer.Priced? && fromAnswer.price.value != 0.0 && toAnswer.Priced? && toAnswer.price.value != 0.0
    ensures r.NoPrice? <==> fromAnswer.Refused? || toAnswer.Refused?
    ensures r.NoPrice? ==> r.error == (if fromAnswer.Refused? then fromAnswer.error else toAnswer.error)
    ensures r.NoPrice? ==> r.coin == (if fromAnswer.Refused? then from else to)
    ensures r.ZeroPrice? ==> r.coin == (if fromAnswer.price.value == 0.0 then from else to)
  {
    match fromAnswer
    case Refused(e) => NoPrice(from, e)
    case Priced(p) =>
      match toAnswer
      case Refused(e) => NoPrice(to, e)
      case Priced(q) =>
        if p.value == 0.0 then ZeroPrice(from)
        else if q.value == 0.0 then ZeroPrice(to)
        else
          var rate := Div(p.value, q.value, ulp);
          Converted(rate, amount * rate)
  }

  lemma AbsScale(x: real, y: real, bound: real)
    requires Abs(x) <= bound
    ensures Abs(x * y) <= bound * Abs(y)
  {
    if x >= 0.0 && y >= 0.0 {
      MulMonotone(x, bound, y);
    } else if x >= 0.0 {
      MulMonotone(x, bound, -y);
      assert x * y == -(x * -y);
    } else if y >= 0.0 {
      MulMonotone(-x, bound, y);
      assert x * y == -(-x * y);
    } else {
      MulMonotone(-x, bound, -y);
      assert x * y == -x * -y;
    }
  }

  /** The rate is within half a unit of the true ratio. */
  lemma RateError(p: real, q: real, ulp: real)
    requires ulp > 0.0 && q != 0.0
    ensures Abs(Div(p, q, ulp) - p / q) <= ulp / 2.0
  {
    RoundError(p / q, ulp);
  }

  /** A conversion keeps value: what comes out is worth what went in, up to the rounding of one division. */
  lemma ConversionKeepsValue(from: string, to: string, amount: real, p: Price, q: Price, ulp: real)
    requires ulp > 0.0 && p.value != 0.0 && q.value != 0.0
    ensures
      var c := ConvertAmount(from, to, amount, Priced(p), Priced(q), ulp);
      c.Converted? && SameWorth(c.result, q.value, amount, p.value, ulp / 2.0)
  {
    Rounded(from, to, amount, p, q, ulp);
    KeepsValue(ConvertAmount(from, to, amount, Priced(p), Priced(q), ulp), amount, p.value, q.value, ulp / 2.0);
  }

  /** `out` units at price q are worth `amount` units at price p, up to e for each unit of |amount| at |q|. */
  predicate SameWorth(out: real, q: real, amount: real, p: real, e: real) {
    Abs(out * q - amount * p) <= e * (Abs(amount) * Abs(q))
  }

  lemma KeepsValue(c: Outcome, amount: real, p: real, q: real, e: real)
    requires q != 0.0 && ConvertsAt(c, amount, p / q, e)
    ensures SameWorth(c.result, q, amount, p, e)
  {
    ScaledError(amount, c.rate, p / q, p, q, e);
  }

  lemma ScaledError(amount: real, rate: real, exact: real, p: real, q: real, e: real)
    requires exact * q == p && Abs(rate - exact) <= e
    ensures Abs(amount * rate * q - amount * p) <= e * (Abs(amount) * Abs(q))
  {
    var worth := amount * q;
    Rearrange(amount, rate, exact, p, q);
    AbsScale(rate - exact, worth, e);
    AbsProduct(amount, q);
  }

  lemma Rearrange(amount: real, rate: real, exact: real, p: real, q: real)
    requires exact * q == p
    ensures amount * rate * q - amount * p == (rate - exact) * (amount * q)
  {
    assert (rate - exact) * (amount * q) == rate * (amount * q) - exact * (amount * q);
    assert exact * (amount * q) == amount * (exact * q);
    assert rate * (amount * q) == amount * rate * q;
  }

  lemma AbsProduct(x: real, y: real)
    ensures Abs(x * y) == Abs(x) * Abs(y)
  {
  }

  lemma Assoc(x: real, y: real, z: real)
    ensures x * y * z == x * (y * z)
  {
  }

  /** Replacing x by r, within e of it, in a product with s. */
  lemma FirstTerm(r: real, x: real, s: real, y: real, e: real) returns (u: real)
    requires Abs(r - x) <= e && Abs(s - y) <= e && y > 0.0
    ensures u == r * s - x * s && Abs(u) <= e * (y + e)
  {
    u := (r - x) * s;
    BoundFirst(r - x, s, y, e);
    SplitProduct(r, x, s);
  }

  lemma BoundFirst(d: real, s: real, y: real, e: real)
    requires Abs(d) <= e && Abs(s - y) <= e && y > 0.0
    ensures Abs(d * s) <= e * (y + e)
  {
    AbsScale(d, s, e);
    MulLeft(Abs(s), y + e, e);
  }

  lemma SplitProduct(r: real, x: real, s: real)
    ensures (r - x) * s == r * s - x * s
  {
  }

  lemma MulLeft(x: real, y: real, u: real)
    requires x <= y && u >= 0.0
    ensures u * x <= u * y
  {
    MulMonotone(x, y, u);
  }

  /** Replacing y by s, within e of it, in a product with x. */
  lemma SecondTerm(x: real, s: real, y: real, e: real) returns (v: real)
    requires Abs(s - y) <= e && x > 0.0
    ensures v == x * s - x * y && Abs(v) <= e * x
  {
    v := (s - y) * x;
    AbsScale(s - y, x, e);
    Distribute(x, s, -y);
    Commute(x, s - y);
  }

  /** Two rates cancel out, up to the error of a round trip. */
  predicate Cancel(r: real, s: real, x: real, y: real, e: real) {
    Abs(r * s - 1.0) <= RoundTripError(x, y, e)
  }

  lemma ProductError(r: real, x: real, s: real, y: real, e: real)
    requires Abs(r - x) <= e && Abs(s - y) <= e && x > 0.0 && y > 0.0 && x * y == 1.0
    ensures Cancel(r, s, x, y, e)
  {
    var u := FirstTerm(r, x, s, y, e);
    var v := SecondTerm(x, s, y, e);
    Distribute(e, y, e);
    Distribute(e, x, y);
  }

  lemma Distribute(e: real, x: real, y: real)
    ensures e * (x + y) == e * x + e * y
  {
  }

  lemma Commute(x: real, y: real)
    ensures x * y == y * x
  {
  }

  /** The amount that came back is the one sent out, up to a relative error. */
  predicate Returns(back: real, amount: real, x: real, y: real, e: real) {
    Abs(back - amount) <= RoundTripError(x, y, e) * Abs(amount)
  }

  /** A conversion at a rate within e of the true ratio x. */
  predicate ConvertsAt(c: Outcome, amount: real, x: real, e: real) {
    c.Converted? && c.result == amount * c.rate && Abs(c.rate - x) <= e
  }

  lemma Rounded(from: string, to: string, amount: real, p: Price, q: Price, ulp: real)
    requires ulp > 0.0 && p.value != 0.0 && q.value != 0.0
    ensures ConvertsAt(ConvertAmount(from, to, amount, Priced(p), Priced(q), ulp), amount, p.value / q.value, ulp / 2.0)
  {
    RateError(p.value, q.value, ulp);
  }

  /** Converting there and back returns the amount, up to the rounding of both divisions. */
  lemma RoundTrip(from: string, to: string, amount: real, p: Price, q: Price, ulp: real)
    requires ulp > 0.0 && p.value > 0.0 && q.value > 0.0
    ensures
      var there := ConvertAmount(from, to, amount, Priced(p), Priced(q), ulp);
      && there.Converted?
      && var back := ConvertAmount(to, from, there.result, Priced(q), Priced(p), ulp);
         && back.Converted?
         && Returns(back.result, amount, p.value / q.value, q.value / p.value, ulp / 2.0)
  {
    var there := ConvertAmount(from, to, amount, Priced(p), Priced(q), ulp);
    Rounded(from, to, amount, p, q, ulp);
    var back := ConvertAmount(to, from, there.result, Priced(q), Priced(p), ulp);
    Rounded(to, from, there.result, q, p, ulp);
    var x, y := Ratios(p.value, q.value);
    ThereAndBack(amount, x, y, there, back, ulp / 2.0);
  }

  lemma ThereAndBack(amount: real, x: real, y: real, there: Outcome, back: Outcome, e: real)
    requires x > 0.0 && y > 0.0 && x * y == 1.0
    requires ConvertsAt(there, amount, x, e) && ConvertsAt(back, there.result, y, e)
    ensures Returns(back.result, amount, x, y, e)
  {
    ProductError(there.rate, x, back.rate, y, e);
    Returned(amount, there.rate, back.rate, there.result, back.result, x, y, e);
  }

  lemma Ratios(p: real, q: real) returns (x: real, y: real)
    requires p > 0.0 && q > 0.0
    ensures x == p / q && y == q / p && x > 0.0 && y > 0.0 && x * y == 1.0
  {
    x, y := p / q, q / p;
    InversePositive(p, q);
  }

  lemma Returned(amount: real, r: real, s: real, there: real, back: real, x: real, y: real, e: real)
    requires Cancel(r, s, x, y, e) && there == amount * r && back == there * s
    ensures Returns(back, amount, x, y, e)
  {
    var bound := RoundTripError(x, y, e);
    Scaled(amount, r, s, bound);
  }

  lemma Scaled(amount: real, r: real, s: real, bound: real)
    requires Abs(r * s - 1.0) <= bound
    ensures Abs(amount * r * s - amount) <= bound * Abs(amount)
  {
    Assoc(amount, r, s);
    Distribute(amount, r * s, -1.0);
    Commute(amount, r * s - 1.0);
    AbsScale(r * s - 1.0, amount, bound);
  }

  /** The relative error of a round trip when each rate errs by at most e. */
  function RoundTripError(x: real, y: real, e: real): real {
    e * (x + y) + e * e
  }

  lemma InversePositive(p: real, q: real)
    requires p > 0.0 && q > 0.0
    ensures p / q > 0.0 && q / p > 0.0 && (p / q) * (q / p) == 1.0
  {
    var x, y := p / q, q / p;
    assert x * q == p && y * p == q;
    Assoc(x, y, p);
    Distribute(p, x * y, -1.0);
    Commute(p, x * y - 1.0);
    Commute(p, x * y);
    assert p * (x * y - 1.0) == 0.0;
    PositiveFactor(x, q);
    PositiveFactor(y, p);
    ZeroFactor(p, x * y - 1.0);
  }

  lemma PositiveFactor(x: real, q: real)
    requires q > 0.0 && x * q > 0.0
    ensures x > 0.0
  {
    if x <= 0.0 {
      MulMonotone(x, 0.0, q);
    }
  }

  lemma ZeroFactor(p: real, z: real)
    requires p > 0.0 && p * z == 0.0
    ensures z == 0.0
  {
    Commute(p, z);
    assert z > 0.0 ==> z * p > 0.0;
    assert z < 0.0 ==> -z * p > 0.0;
  }
}
