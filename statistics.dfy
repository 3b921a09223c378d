/**
 * The figures calculateStatistics derives from the accumulator, over exact
 * reals: the mean, the population variance and the chi-squared statistic
 * against a uniform distribution over the histogram's bins.
 */
module Statistics {
  import opened Aggregates

  datatype Option<T> = None | Some(value: T)

  /** The statistics before the square roots and the formatting to two decimals. */
  datatype Stats = Stats(mean: real, variance: real, chiSquared: real)

  function Square(x: real): real
  {
    x * x
  }

  /** One bin's contribution (observed - expected)^2 / expected. */
  function ChiTerm(observed: int, expected: real): (r: real)
    requires expected != 0.0
    ensures expected > 0.0 ==> r >= 0.0
  {
    Square(observed as real - expected) / expected
  }

  /**
   * The left fold over the bins of (observed - expected)^2 / expected, starting
   * from 0. With a positive expected count it is never negative, it is at least
   * the contribution of any single bin, and it is 0 when every bin holds
   * exactly the expected count.
   */
  function ChiSquared(h: seq<int>, expected: real): (r: real)
    requires expected != 0.0
    ensures expected > 0.0 ==> r >= 0.0
    ensures expected > 0.0 ==> forall i :: 0 <= i < |h| ==> r >= ChiTerm(h[i], expected)
    ensures (forall i :: 0 <= i < |h| ==> h[i] as real == expected) ==> r == 0.0
  {
    if h == [] then 0.0
    else
      var r0 := ChiSquared(h[..|h| - 1], expected);
      assert forall i :: 0 <= i < |h| - 1 ==> h[..|h| - 1][i] == h[i];
      r0 + ChiTerm(h[|h| - 1], expected)
  }

  /** The population variance from the aggregates: sumOfSquares / count - (sum / count)^2. */
  function Variance(count: nat, sum: int, sumOfSquares: int): real
    requires count > 0
  {
    sumOfSquares as real / count as real - (sum as real / count as real) * (sum as real / count as real)
  }

  /**
   * calculateStatistics: no statistics without samples; otherwise the mean
   * sum / count, the variance sumOfSquares / count - mean^2 and the
   * chi-squared statistic of the bins against count / 100 per bin.
   */
  function Calculate(data: seq<int>, sum: int, count: nat, sumOfSquares: int): (r: Option<Stats>)
    ensures r.None? <==> count == 0
    ensures r.Some? ==> r.value.mean * count as real == sum as real
    ensures r.Some? ==> r.value.chiSquared >= 0.0
    ensures r.Some? ==> forall i :: 0 <= i < |data| ==> r.value.chiSquared >= ChiTerm(data[i], count as real / Bins as real)
  {
    if count == 0 then None
    else
      var expected := count as real / Bins as real;
      Some(Stats(sum as real / count as real, Variance(count, sum, sumOfSquares), ChiSquared(data, expected)))
  }

  lemma SquareExpansion(w: int, x: int, y: int)
    ensures w * (y * y) - 2 * x * (w * y) + x * x * w == w * ((y - x) * (y - x))
  {
    assert (y - x) * (y - x) == y * y - 2 * x * y + x * x;
  }

  lemma MulNonNegative(a: int, b: int)
    requires a >= 0 && b >= 0
    ensures a * b >= 0
  {
  }

  lemma CrossExpansion(n0: int, q0: int, s0: int, w: int, y: int)
    ensures (n0 + w) * (q0 + y * y * w) - (s0 + y * w) * (s0 + y * w)
         == (n0 * q0 - s0 * s0) + w * (q0 - 2 * y * s0 + y * y * n0)
  {
  }

  /**
   * For a histogram with non-negative counts, the deviation sum
   * sum_i h[i] * (i + 1 - x)^2, written through the moments, is not negative.
   */
  lemma {:induction false} DeviationNonNegative(h: seq<int>, x: int)
    requires forall i :: 0 <= i < |h| ==> h[i] >= 0
    ensures Moment(h, 2) - 2 * x * Moment(h, 1) + x * x * Moment(h, 0) >= 0
  {
    if h != [] {
      var h0, w, y := h[..|h| - 1], h[|h| - 1], |h|;
      DeviationNonNegative(h0, x);
      assert Pow(y, 1) == y;
      assert Pow(y, 2) == y * y;
      assert Moment(h, 0) == Moment(h0, 0) + w;
      assert Moment(h, 1) == Moment(h0, 1) + y * w;
      assert Moment(h, 2) == Moment(h0, 2) + y * y * w;
      DeviationStep(Moment(h0, 0), Moment(h0, 1), Moment(h0, 2), w, x, y);
    }
  }

  /** Adding w >= 0 samples of value y adds w * (y - x)^2 to the deviation sum. */
  lemma DeviationStep(n0: int, s0: int, q0: int, w: int, x: int, y: int)
    requires q0 - 2 * x * s0 + x * x * n0 >= 0 && w >= 0
    ensures (q0 + y * y * w) - 2 * x * (s0 + y * w) + x * x * (n0 + w) >= 0
  {
    SquareExpansion(w, x, y);
    MulNonNegative(w, (y - x) * (y - x));
    assert y * y * w == w * (y * y);
    assert 2 * x * (s0 + y * w) == 2 * x * s0 + 2 * x * (w * y);
    assert x * x * (n0 + w) == x * x * n0 + x * x * w;
  }

  /**
   * Cauchy-Schwarz for a histogram with non-negative counts:
   * count * sumOfSquares >= sum^2.
   */
  lemma {:induction false} MomentInequality(h: seq<int>)
    requires forall i :: 0 <= i < |h| ==> h[i] >= 0
    ensures Moment(h, 0) * Moment(h, 2) >= Moment(h, 1) * Moment(h, 1)
  {
    if h != [] {
      var h0, w, y := h[..|h| - 1], h[|h| - 1], |h|;
      var n0, s0, q0 := Moment(h0, 0), Moment(h0, 1), Moment(h0, 2);
      MomentInequality(h0);
      DeviationNonNegative(h0, y);
      assert Pow(y, 1) == y;
      assert Pow(y, 2) == y * y;
      assert Moment(h, 0) == n0 + w && Moment(h, 1) == s0 + y * w && Moment(h, 2) == q0 + y * y * w;
      CrossExpansion(n0, q0, s0, w, y);
      MulNonNegative(w, q0 - 2 * y * s0 + y * y * n0);
    }
  }

  /** Over exact reals, sumOfSquares / n - (sum / n)^2 >= 0 once n * sumOfSquares >= sum^2. */
  lemma VarianceFromMoments(n: nat, s: int, q: int)
    requires n > 0 && n * q >= s * s
    ensures Variance(n, s, q) >= 0.0
  {
    var nr, sr, qr := n as real, s as real, q as real;
    var m := sr / nr;
    var v := qr / nr - m * m;
    ScaledVariance(nr, sr, qr, m, v);
    assert (n * q - s * s) as real == nr * qr - sr * sr;
    MulNonNegative(n, n * q - s * s);
    assert (n * (n * q - s * s)) as real == nr * (nr * qr - sr * sr);
    SignOfQuotient(v, nr * nr * nr, nr * (nr * qr - sr * sr));
  }

  lemma SignOfQuotient(v: real, k: real, d: real)
    requires k > 0.0 && v * k == d && d >= 0.0
    ensures v >= 0.0
  {
  }

  /**
   * When sum, count and sumOfSquares are the moments of a histogram with
   * non-negative counts and at least one sample, the variance is not negative.
   */
  lemma VarianceNonNegative(h: seq<int>)
    requires forall i :: 0 <= i < |h| ==> h[i] >= 0
    requires Moment(h, 0) > 0
    ensures Calculate(h, Moment(h, 1), Moment(h, 0), Moment(h, 2)).value.variance >= 0.0
  {
    MomentInequality(h);
    VarianceFromMoments(Moment(h, 0), Moment(h, 1), Moment(h, 2));
  }

  /**
   * The scaled deviation sum of a histogram: sum_i h[i] * (a * (i + 1) - b)^2.
   * With a = count and b = sum it is count^2 times the squared deviations of
   * the samples from their mean.
   */
  function ScaledDeviation(h: seq<int>, a: int, b: int): int
  {
    if h == [] then 0
    else ScaledDeviation(h[..|h| - 1], a, b) + h[|h| - 1] * ((a * |h| - b) * (a * |h| - b))
  }

  /** The scaled deviation sum, expanded through the moments. */
  lemma {:induction false} ScaledDeviationMoments(h: seq<int>, a: int, b: int)
    ensures ScaledDeviation(h, a, b) == a * a * Moment(h, 2) - 2 * a * b * Moment(h, 1) + b * b * Moment(h, 0)
  {
    if h != [] {
      var h0, w, y := h[..|h| - 1], h[|h| - 1], |h|;
      ScaledDeviationMoments(h0, a, b);
      assert Pow(y, 1) == y;
      assert Pow(y, 2) == y * y;
      assert Moment(h, 0) == Moment(h0, 0) + w;
      assert Moment(h, 1) == Moment(h0, 1) + y * w;
      assert Moment(h, 2) == Moment(h0, 2) + y * y * w;
      ScaledStep(Moment(h0, 0), Moment(h0, 1), Moment(h0, 2), w, a, b, y);
    }
  }

  /** Adding w samples of value y to the moments adds w * (a * y - b)^2 to the expansion. */
  lemma ScaledStep(n0: int, s0: int, q0: int, w: int, a: int, b: int, y: int)
    ensures a * a * (q0 + y * y * w) - 2 * a * b * (s0 + y * w) + b * b * (n0 + w)
         == (a * a * q0 - 2 * a * b * s0 + b * b * n0) + w * ((a * y - b) * (a * y - b))
  {
    var c := a * y - b;
    assert c * c == a * a * (y * y) - 2 * a * b * y + b * b;
    assert w * (c * c) == w * (a * a * (y * y)) - w * (2 * a * b * y) + w * (b * b);
    assert a * a * (q0 + y * y * w) == a * a * q0 + w * (a * a * (y * y));
    assert 2 * a * b * (s0 + y * w) == 2 * a * b * s0 + w * (2 * a * b * y);
    assert b * b * (n0 + w) == b * b * n0 + w * (b * b);
  }

  /** With a = count and b = sum, the expansion is count * (count * sumOfSquares - sum^2). */
  lemma MomentsAtMean(n: int, s: int, q: int)
    ensures n * n * q - 2 * n * s * s + s * s * n == n * (n * q - s * s)
  {
    assert 2 * n * s * s == 2 * (n * (s * s));
    assert s * s * n == n * (s * s);
  }

  /**
   * The variance calculateStatistics computes from the moments is the
   * population variance of the samples: with n = count and s = sum,
   * sum_i h[i] * (n * (i + 1) - s)^2 / n^3, that is, the mean over the n
   * samples of their squared deviation ((i + 1) - s / n)^2 from the mean.
   */
  lemma VarianceIsMeanSquaredDeviation(h: seq<int>)
    requires Moment(h, 0) > 0
    ensures var n, s := Moment(h, 0), Moment(h, 1);
            Calculate(h, s, n, Moment(h, 2)).value.variance == ScaledDeviation(h, n, s) as real / (n * n * n) as real
  {
    ScaledAtMean(h);
    VarianceScaled(Moment(h, 0), Moment(h, 1), Moment(h, 2), ScaledDeviation(h, Moment(h, 0), Moment(h, 1)));
  }

  /** The integer deviation sum at a = count, b = sum is count * (count * sumOfSquares - sum^2). */
  lemma ScaledAtMean(h: seq<int>)
    ensures var n, s, q := Moment(h, 0), Moment(h, 1), Moment(h, 2);
            ScaledDeviation(h, n, s) == n * (n * q - s * s)
  {
    var n, s, q := Moment(h, 0), Moment(h, 1), Moment(h, 2);
    ScaledDeviationMoments(h, n, s);
    MomentsAtMean(n, s, q);
  }

  /** The real-number step: q/n - (s/n)^2 == dev / n^3 once dev == n * (n*q - s^2). */
  lemma VarianceScaled(n: nat, s: int, q: int, dev: int)
    requires n > 0 && dev == n * (n * q - s * s)
    ensures Variance(n, s, q) == dev as real / (n * n * n) as real
  {
    var nr, sr, qr := n as real, s as real, q as real;
    var m := sr / nr;
    var v := qr / nr - m * m;
    ScaledVariance(nr, sr, qr, m, v);
    assert (n * n * n) as real == nr * nr * nr;
    assert dev as real == nr * (nr * qr - sr * sr);
    DivideBack(v, nr * nr * nr, dev as real);
  }

  /** With m = s / n and v = q / n - m^2: v * n^3 == n * (n * q - s^2). */
  lemma ScaledVariance(n: real, s: real, q: real, m: real, v: real)
    requires n > 0.0 && m == s / n && v == q / n - m * m
    ensures v * (n * n * n) == n * (n * q - s * s)
  {
    assert m * n == s;
    assert q / n * n == q;
    assert v * n == q - m * s;
    assert v * n * n == q * n - s * s;
  }

  lemma DivideBack(v: real, k: real, d: real)
    requires k > 0.0 && v * k == d
    ensures v == d / k
  {
  }

  /** One sample each of 1, 2, 3, 4 and 5: mean 3 and population variance 2. */
  lemma FiveSampleVariance()
    ensures var h := [1, 1, 1, 1, 1];
            && Moment(h, 0) == 5 && Moment(h, 1) == 15 && Moment(h, 2) == 55
            && Calculate(h, 15, 5, 55).value.mean == 3.0
            && Calculate(h, 15, 5, 55).value.variance == 2.0
  {
    var h1, h2, h3, h4, h := [1], [1, 1], [1, 1, 1], [1, 1, 1, 1], [1, 1, 1, 1, 1];
    assert h1[..0] == [] && h2[..1] == h1 && h3[..2] == h2 && h4[..3] == h3 && h[..4] == h4;
    assert Moment(h1, 0) == 1 && Moment(h2, 0) == 2 && Moment(h3, 0) == 3 && Moment(h4, 0) == 4;
    assert Moment(h1, 1) == 1 && Moment(h2, 1) == 3 && Moment(h3, 1) == 6 && Moment(h4, 1) == 10;
    assert Moment(h1, 2) == 1 && Moment(h2, 2) == 5 && Moment(h3, 2) == 14 && Moment(h4, 2) == 30;
  }

  /** The fold over a concatenation is the sum of the folds over the parts. */
  lemma {:induction false} ChiSquaredAppend(a: seq<int>, b: seq<int>, expected: real)
    requires expected != 0.0
    ensures ChiSquared(a + b, expected) == ChiSquared(a, expected) + ChiSquared(b, expected)
  {
    if b == [] {
      assert a + b == a;
    } else {
      var b0 := b[..|b| - 1];
      assert (a + b)[..|a + b| - 1] == a + b0;
      ChiSquaredAppend(a, b0, expected);
    }
  }

  /**
   * Relabelling the bins does not change the statistic: with one expected count
   * for every bin, histograms holding the same counts in any order give the
   * same chi-squared value.
   */
  lemma {:induction false} ChiSquaredPermutation(a: seq<int>, b: seq<int>, expected: real)
    requires expected != 0.0
    requires multiset(a) == multiset(b)
    ensures ChiSquared(a, expected) == ChiSquared(b, expected)
  {
    if a != [] {
      var a0, x := a[..|a| - 1], a[|a| - 1];
      assert a == a0 + [x];
      assert x in multiset(b);
      var j :| 0 <= j < |b| && b[j] == x;
      var b0 := b[..j] + b[j + 1..];
      assert b == b[..j] + [x] + b[j + 1..];
      assert multiset(b) == multiset(b[..j]) + multiset{x} + multiset(b[j + 1..]);
      assert multiset(a) == multiset(a0) + multiset{x};
      assert multiset(b0) == multiset(b[..j]) + multiset(b[j + 1..]);
      assert multiset(a0) == multiset(a) - multiset{x};
      assert multiset(b0) == multiset(b) - multiset{x};
      ChiSquaredPermutation(a0, b0, expected);
      ChiSquaredAppend(b[..j] + [x], b[j + 1..], expected);
      ChiSquaredAppend(b[..j], [x], expected);
      ChiSquaredAppend(b[..j], b[j + 1..], expected);
      assert ChiSquared([x], expected) == ChiTerm(x, expected) by {
        assert [x][..0] == [];
      }
    } else {
      assert b == [];
    }
  }
}
