/** Histogram bins and the running aggregates kept by the sample accumulator. */
module Aggregates {

  /** Number of histogram bins; bin i counts the outcome value i + 1. */
  const Bins: nat := 100

  function Pow(x: int, p: nat): int
  {
    if p == 0 then 1 else x * Pow(x, p - 1)
  }

  /** How many of the draws `ds` (bin indices) fell into bin `i`. */
  function Occurrences(ds: seq<int>, i: int): nat
  {
    if ds == [] then 0
    else Occurrences(ds[..|ds| - 1], i) + (if ds[|ds| - 1] == i then 1 else 0)
  }

  /** Sum of the outcome values (bin index + 1) of the draws `ds`. */
  function ValueSum(ds: seq<int>): int
  {
    if ds == [] then 0 else ValueSum(ds[..|ds| - 1]) + ds[|ds| - 1] + 1
  }

  /** The running mean after the first k + 1 draws. */
  function RunningMean(ds: seq<int>, k: nat): real
    requires k < |ds|
  {
    ValueSum(ds[..k + 1]) as real / (k + 1) as real
  }

  /**
   * The p-th moment of a histogram: the sum over bins of (i + 1)^p times the
   * count in bin i. p = 0 gives the number of samples, p = 1 their sum and
   * p = 2 their sum of squares.
   */
  function Moment(h: seq<int>, p: nat): int
  {
    if h == [] then 0 else Moment(h[..|h| - 1], p) + Pow(|h|, p) * h[|h| - 1]
  }

  /** An all-zero histogram has every moment 0. */
  lemma {:induction false} MomentOfEmptyHistogram(h: seq<int>, p: nat)
    requires forall i :: 0 <= i < |h| ==> h[i] == 0
    ensures Moment(h, p) == 0
  {
    if h != [] {
      MomentOfEmptyHistogram(h[..|h| - 1], p);
    }
  }

  /** Adding one sample to bin v raises the p-th moment by (v + 1)^p and no more. */
  lemma {:induction false} MomentIncrement(h: seq<int>, v: nat, p: nat)
    requires v < |h|
    ensures Moment(h[v := h[v] + 1], p) == Moment(h, p) + Pow(v + 1, p)
  {
    var h' := h[v := h[v] + 1];
    var n := |h|;
    if v == n - 1 {
      assert h'[..n - 1] == h[..n - 1];
      assert Pow(n, p) * (h[n - 1] + 1) == Pow(n, p) * h[n - 1] + Pow(n, p);
    } else {
      assert h'[..n - 1] == h[..n - 1][v := h[v] + 1];
      assert h'[n - 1] == h[n - 1];
      MomentIncrement(h[..n - 1], v, p);
    }
  }

  /** Appending a draw: the other prefixes, counts and sums extend as expected. */
  lemma AppendDraw(ds: seq<int>, v: int)
    ensures (ds + [v])[..|ds|] == ds
    ensures forall i :: Occurrences(ds + [v], i) == Occurrences(ds, i) + (if v == i then 1 else 0)
    ensures ValueSum(ds + [v]) == ValueSum(ds) + v + 1
    ensures forall k :: 0 <= k < |ds| ==> RunningMean(ds + [v], k) == RunningMean(ds, k)
  {
    assert (ds + [v])[..|ds|] == ds;
    forall k | 0 <= k < |ds|
      ensures RunningMean(ds + [v], k) == RunningMean(ds, k)
    {
      assert (ds + [v])[..k + 1] == ds[..k + 1];
    }
  }

  /**
   * The accumulator's invariant: histogram h, sum, count, sumOfSquares and the
   * running means describe exactly the draws `drawn` (bin indices, in order).
   * The histogram counts each bin's draws, count, sum and sumOfSquares are its
   * moments, and averages[k] is the mean of the first k + 1 outcomes.
   */
  ghost predicate Accumulates(h: seq<int>, sum: int, count: int, sumOfSquares: int,
                              averages: seq<real>, drawn: seq<int>)
  {
    && |h| == Bins
    && (forall j :: 0 <= j < |drawn| ==> 0 <= drawn[j] < Bins)
    && (forall i :: 0 <= i < Bins ==> h[i] == Occurrences(drawn, i))
    && count == |drawn| && |averages| == count
    && count == Moment(h, 0)
    && sum == Moment(h, 1)
    && sumOfSquares == Moment(h, 2)
    && sum == ValueSum(drawn)
    && (forall k :: 0 <= k < |averages| ==> averages[k] == RunningMean(drawn, k))
  }

  /** resetState's all-zero histogram with no samples satisfies the invariant. */
  lemma EmptyAccumulates(h: seq<int>)
    requires |h| == Bins && forall i :: 0 <= i < |h| ==> h[i] == 0
    ensures Accumulates(h, 0, 0, 0, [], [])
  {
    MomentOfEmptyHistogram(h, 0);
    MomentOfEmptyHistogram(h, 1);
    MomentOfEmptyHistogram(h, 2);
  }

  /**
   * generateNumber preserves the invariant: one more draw v raises bin v by 1,
   * the sum by v + 1, the sum of squares by (v + 1)^2, the count by 1, and
   * appends the new running mean.
   */
  lemma AccumulateStep(h: seq<int>, sum: int, count: int, sumOfSquares: int,
                       averages: seq<real>, drawn: seq<int>, v: int)
    requires Accumulates(h, sum, count, sumOfSquares, averages, drawn)
    requires 0 <= v < Bins
    ensures Accumulates(h[v := h[v] + 1], sum + v + 1, count + 1, sumOfSquares + (v + 1) * (v + 1),
                        averages + [(sum + v + 1) as real / (count + 1) as real], drawn + [v])
  {
    var drawn' := drawn + [v];
    var averages' := averages + [(sum + v + 1) as real / (count + 1) as real];
    MomentIncrement(h, v, 0);
    MomentIncrement(h, v, 1);
    MomentIncrement(h, v, 2);
    assert Pow(v + 1, 1) == v + 1 && Pow(v + 1, 2) == (v + 1) * (v + 1);
    AppendDraw(drawn, v);
    assert drawn'[..|drawn'|] == drawn';
    assert averages'[|averages|] == RunningMean(drawn', |drawn|);
    var h' := h[v := h[v] + 1];
    forall i | 0 <= i < Bins
      ensures h'[i] == Occurrences(drawn', i)
    {
    }
    forall k | 0 <= k < |averages'|
      ensures averages'[k] == RunningMean(drawn', k)
    {
      if k < |averages| {
        assert averages'[k] == averages[k];
      }
    }
  }
}
