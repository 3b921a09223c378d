/**
 * The thinning of the running-mean series that drawLineChart plots: a long
 * series is reduced to every stride-th point plus the final one.
 */
module Downsampling {

  /** Target number of plotted points (config.maxDataPoints). */
  const MaxDataPoints: nat := 1000
  /** Series longer than this are thinned (config.sampleThreshold). */
  const SampleThreshold: nat := 10000

  /** Math.ceil(len / maxPoints): the least k with len <= k * maxPoints. */
  function Stride(len: nat, maxPoints: nat): (k: nat)
    requires maxPoints > 0
    ensures len <= k * maxPoints
    ensures k > 0 ==> (k - 1) * maxPoints < len
  {
    (len + maxPoints - 1) / maxPoints
  }

  /** The filter's test: the index is a multiple of the stride or the last one. */
  predicate Kept(i: nat, len: nat, stride: nat)
    requires stride > 0
  {
    i % stride == 0 || i == len - 1
  }

  /** The indices in [from, len) that pass the filter, in ascending order. */
  function KeptIndices(len: nat, stride: nat, from: nat): (ks: seq<nat>)
    requires stride > 0
    ensures ks == [] || from + |ks| <= len
    ensures forall k :: 0 <= k < |ks| ==> from <= ks[k] < len && Kept(ks[k], len, stride)
    ensures forall k, l :: 0 <= k < l < |ks| ==> ks[k] < ks[l]
    ensures forall i :: from <= i < len && Kept(i, len, stride) ==> i in ks
    decreases len - from
  {
    if from >= len then []
    else if Kept(from, len, stride) then [from] + KeptIndices(len, stride, from + 1)
    else KeptIndices(len, stride, from + 1)
  }

  /** The elements of s at the indices ks, in the order of ks. */
  function Select(s: seq<real>, ks: seq<nat>): seq<real>
    requires forall k :: 0 <= k < |ks| ==> ks[k] < |s|
  {
    seq(|ks|, k requires 0 <= k < |ks| => s[ks[k]])
  }

  /**
   * The points drawLineChart plots: the series itself up to the threshold,
   * otherwise the elements the filter keeps, in their original order.
   */
  function Downsample(series: seq<real>, maxPoints: nat, threshold: nat): (r: seq<real>)
    requires maxPoints > 0
    ensures |series| <= threshold ==> r == series
    ensures |r| <= |series|
    ensures |series| > threshold ==> |r| <= maxPoints + 1
    ensures |series| > 0 ==> |r| > 0 && r[0] == series[0] && r[|r| - 1] == series[|series| - 1]
  {
    if |series| > threshold then
      var stride := Stride(|series|, maxPoints);
      var ks := KeptIndices(|series|, stride, 0);
      KeptBounds(|series|, maxPoints, ks);
      Select(series, ks)
    else
      series
  }

  /** Strictly increasing multiples of the stride grow by at least the stride. */
  lemma MultiplesGrow(x: nat, y: nat, stride: nat)
    requires stride > 0 && x % stride == 0 && y % stride == 0 && x < y
    ensures x / stride < y / stride
  {
    assert x == stride * (x / stride);
    assert y == stride * (y / stride);
  }

  /** An index below len <= stride * maxPoints lies in one of the first maxPoints strides. */
  lemma QuotientBelow(v: nat, stride: nat, len: nat, maxPoints: nat)
    requires stride > 0 && v < len <= stride * maxPoints
    ensures v / stride < maxPoints
  {
    assert stride * (v / stride) <= v;
  }

  /** In the kept indices, the k-th one (other than the last) is at least k * stride. */
  lemma {:induction false} KeptSpacing(len: nat, stride: nat, ks: seq<nat>, k: nat)
    requires stride > 0 && ks == KeptIndices(len, stride, 0)
    requires k < |ks| - 1
    ensures ks[k] % stride == 0 && ks[k] / stride >= k
  {
    assert ks[k] < ks[|ks| - 1] < len;
    if k > 0 {
      KeptSpacing(len, stride, ks, k - 1);
      MultiplesGrow(ks[k - 1], ks[k], stride);
    }
  }

  /** The filter keeps index 0 and index len - 1, as the first and the last. */
  lemma {:induction false} KeptEnds(len: nat, stride: nat, ks: seq<nat>)
    requires stride > 0 && len > 0 && ks == KeptIndices(len, stride, 0)
    ensures |ks| > 0 && ks[0] == 0 && ks[|ks| - 1] == len - 1
  {
    assert Kept(0, len, stride);
    assert Kept(len - 1, len, stride);
    var j0 :| 0 <= j0 < |ks| && ks[j0] == 0;
    var j1 :| 0 <= j1 < |ks| && ks[j1] == len - 1;
    assert ks[0] <= ks[j0];
    assert ks[j1] <= ks[|ks| - 1];
  }

  /** The first kept index is 0, the last is len - 1, and there are at most maxPoints + 1. */
  lemma KeptBounds(len: nat, maxPoints: nat, ks: seq<nat>)
    requires maxPoints > 0 && len > 0
    requires ks == KeptIndices(len, Stride(len, maxPoints), 0)
    ensures |ks| > 0 && ks[0] == 0 && ks[|ks| - 1] == len - 1
    ensures |ks| <= maxPoints + 1
  {
    var stride := Stride(len, maxPoints);
    KeptEnds(len, stride, ks);
    if |ks| >= 2 {
      KeptSpacing(len, stride, ks, |ks| - 2);
      QuotientBelow(ks[|ks| - 2], stride, len, maxPoints);
    }
  }

  /** An ordered selection: r lists s at the strictly increasing indices ks. */
  ghost predicate SelectedAt(r: seq<real>, s: seq<real>, ks: seq<nat>)
  {
    && |r| == |ks|
    && (forall k :: 0 <= k < |ks| ==> ks[k] < |s| && r[k] == s[ks[k]])
    && (forall k, l :: 0 <= k < l < |ks| ==> ks[k] < ks[l])
  }

  /**
   * Above the threshold the plotted points are, in order, exactly the
   * elements whose index is a multiple of the stride or is the last index.
   */
  lemma DownsampleSelects(series: seq<real>, maxPoints: nat, threshold: nat)
    requires maxPoints > 0 && |series| > threshold
    ensures var stride := Stride(|series|, maxPoints);
            var ks := KeptIndices(|series|, stride, 0);
            && SelectedAt(Downsample(series, maxPoints, threshold), series, ks)
            && forall i :: 0 <= i < |series| ==> (i in ks <==> Kept(i, |series|, stride))
  {
  }
}
