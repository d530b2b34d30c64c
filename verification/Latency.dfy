/** The exponential moving average of response times. */
module Latency {

  const ALPHA: real := 0.3

  datatype Average = Average(avg: real, count: int)

  const EMPTY := Average(0.0, 0)

  function Record(l: Average, ms: real): Average {
    Average(if l.count == 0 then ms else ALPHA * ms + (1.0 - ALPHA) * l.avg, l.count + 1)
  }

  class LatencyTracker {
    var avg: real
    var count: int

    function View(): Average
      reads this
    {
      Average(avg, count)
    }

    constructor ()
      ensures View() == EMPTY
    {
      avg := 0.0;
      count := 0;
    }

    method RecordSample(ms: real)
      modifies this
      ensures View() == Record(old(View()), ms)
      ensures count == old(count) + 1 && avg == (if old(count) == 0 then ms else 0.3 * ms + 0.7 * old(avg))
    {
      if count == 0 {
        avg := ms;
      } else {
        avg := ALPHA * ms + (1.0 - ALPHA) * avg;
      }
      count := count + 1;
    }
  }

  /** The tracker after recording `samples`, the last one most recently. */
  function After(samples: seq<real>): Average {
    if samples == [] then EMPTY else Record(After(samples[..|samples| - 1]), samples[|samples| - 1])
  }

  function Decay(k: nat): real {
    if k == 0 then 1.0 else (1.0 - ALPHA) * Decay(k - 1)
  }

  /** The share of the k-th of n samples: the first keeps the whole of what later samples leave over. */
  function Weight(n: nat, k: nat): real
    requires k < n
  {
    if k == 0 then Decay(n - 1) else ALPHA * Decay(n - 1 - k)
  }

  function WeightTotal(n: nat, k: nat): real
    requires k <= n
  {
    if k == 0 then 0.0 else WeightTotal(n, k - 1) + Weight(n, k - 1)
  }

  function WeightedSum(samples: seq<real>, n: nat, k: nat): real
    requires k <= |samples| && k <= n
  {
    if k == 0 then 0.0 else WeightedSum(samples, n, k - 1) + Weight(n, k - 1) * samples[k - 1]
  }

  lemma WeightShrinks(n: nat, k: nat)
    requires k < n
    ensures Weight(n + 1, k) == (1.0 - ALPHA) * Weight(n, k)
  {
  }

  lemma {:induction false} TotalShrinks(n: nat, k: nat)
    requires k <= n
    ensures WeightTotal(n + 1, k) == (1.0 - ALPHA) * WeightTotal(n, k)
  {
    if k > 0 {
      TotalShrinks(n, k - 1);
      WeightShrinks(n, k - 1);
    }
  }

  /** A further sample scales down what the earlier ones contribute. */
  lemma {:induction false} SumShrinks(samples: seq<real>, prefix: seq<real>, n: nat, k: nat)
    requires k <= n && k <= |prefix| <= |samples| && samples[..|prefix|] == prefix
    ensures WeightedSum(samples, n + 1, k) == (1.0 - ALPHA) * WeightedSum(prefix, n, k)
  {
    if k > 0 {
      SumShrinks(samples, prefix, n, k - 1);
      WeightShrinks(n, k - 1);
      assert samples[k - 1] == prefix[k - 1];
      Regroup(1.0 - ALPHA, Weight(n, k - 1), prefix[k - 1]);
    }
  }

  lemma Regroup(c: real, w: real, x: real)
    ensures (c * w) * x == c * (w * x)
  {
  }

  /** The average is the weighted sum of all samples, and the weights total 1. */
  lemma {:induction false} IsWeightedSum(samples: seq<real>)
    requires samples != []
    ensures WeightTotal(|samples|, |samples|) == 1.0
    ensures After(samples).avg == WeightedSum(samples, |samples|, |samples|)
    ensures After(samples).count == |samples|
  {
    var n := |samples| - 1;
    if n > 0 {
      IsWeightedSum(samples[..n]);
      TotalShrinks(n, n);
      SumShrinks(samples, samples[..n], n, n);
    }
  }

  /** The average never leaves the range of the samples. */
  lemma {:induction false} StaysInRange(samples: seq<real>, lo: real, hi: real)
    requires samples != [] && (forall i :: 0 <= i < |samples| ==> lo <= samples[i] <= hi)
    ensures lo <= After(samples).avg <= hi && After(samples).count == |samples|
  {
    var n := |samples| - 1;
    if n > 0 {
      StaysInRange(samples[..n], lo, hi);
    }
  }
}
