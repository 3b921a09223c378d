/**
 * The HistogramVisualizer object with its drawing and DOM work removed: the
 * sample accumulator (histogram, sum, count, sum of squares, running means)
 * and the frame scheduler that drives a run.
 */
module Visualizer {
  import opened Aggregates
  import opened Statistics
  import opened Downsampling
  import opened Scheduling

  /** Which branch a click on the run button took. */
  datatype ClickOutcome = Stopped | Rejected | Started

  class HistogramVisualizer {
    // sample accumulator
    var data: array<int>
    var sum: int
    var count: int
    var sumOfSquares: int
    var averages: seq<real>

    // frame scheduler
    var isAnimating: bool
    var startTime: real
    var framesProcessed: int
    var totalFrames: int
    var currentInterval: int

    /** The bin index of every sample since the last reset, in order. */
    ghost var drawn: seq<int>

    /** The accumulator describes exactly the samples in `drawn`. */
    ghost predicate ValidStats()
      reads this, data
    {
      data.Length == Bins && Accumulates(data[..], sum, count, sumOfSquares, averages, drawn)
    }

    /** ValidStats, and every sample of the run has been counted by the scheduler. */
    ghost predicate Counted()
      reads this, data
    {
      ValidStats() && framesProcessed == count
    }

    /** The object invariant: a run in progress has samples left to generate. */
    ghost predicate Valid()
      reads this, data
    {
      Counted() && (isAnimating ==> framesProcessed < totalFrames)
    }

    /** Everything but the running flag, for stating what a call leaves alone. */
    ghost function Snapshot(): (seq<int>, int, int, int, seq<real>, seq<int>, real, int, int, int)
      reads this, data
    {
      (data[..], sum, count, sumOfSquares, averages, drawn, startTime, framesProcessed, totalFrames, currentInterval)
    }

    /**
     * `ds` extends `prefix` with the run's later samples, sample k having been
     * drawn as draw(k).
     */
    static ghost predicate DrawnFrom(ds: seq<int>, prefix: seq<int>, draw: nat -> int)
    {
      && |prefix| <= |ds| && ds[..|prefix|] == prefix
      && forall k :: |prefix| <= k < |ds| ==> ds[k] == draw(k)
    }

    constructor ()
      ensures Valid() && fresh(data)
      ensures drawn == [] && averages == [] && sum == 0 && count == 0 && sumOfSquares == 0
      ensures !isAnimating && framesProcessed == 0 && currentInterval == 0
    {
      data := new int[Bins](_ => 0);
      sum, count, sumOfSquares, averages := 0, 0, 0, [];
      isAnimating, startTime, framesProcessed := false, 0.0, 0;
      totalFrames, currentInterval := 0, 0;
      drawn := [];
      new;
      EmptyAccumulates(data[..]);
    }

    /** resetState: a fresh all-zero histogram and empty aggregates. */
    method ResetState()
      modifies this
      ensures ValidStats() && fresh(data)
      ensures forall i :: 0 <= i < Bins ==> data[i] == 0
      ensures drawn == [] && averages == [] && sum == 0 && count == 0 && sumOfSquares == 0
      ensures isAnimating == old(isAnimating) && startTime == old(startTime)
      ensures framesProcessed == old(framesProcessed) && totalFrames == old(totalFrames)
      ensures currentInterval == old(currentInterval)
    {
      data := new int[Bins](_ => 0);
      sum := 0;
      count := 0;
      averages := [];
      sumOfSquares := 0;
      drawn := [];
      EmptyAccumulates(data[..]);
    }

    /**
     * generateNumber, with the random bin index `value` as a parameter: one more
     * sample of outcome value + 1 in bin `value`, and its running mean appended.
     */
    method GenerateNumber(value: int)
      requires ValidStats()
      requires 0 <= value < Bins
      modifies this, data
      ensures ValidStats() && data == old(data)
      ensures data[value] == old(data[value]) + 1
      ensures forall i :: 0 <= i < Bins && i != value ==> data[i] == old(data[i])
      ensures sum == old(sum) + value + 1
      ensures sumOfSquares == old(sumOfSquares) + (value + 1) * (value + 1)
      ensures count == old(count) + 1
      ensures averages == old(averages) + [sum as real / count as real]
      ensures drawn == old(drawn) + [value]
      ensures isAnimating == old(isAnimating) && startTime == old(startTime)
      ensures framesProcessed == old(framesProcessed) && totalFrames == old(totalFrames)
      ensures currentInterval == old(currentInterval)
    {
      ghost var h := data[..];
      var actualValue := value + 1;
      data[value] := data[value] + 1;
      sum := sum + actualValue;
      sumOfSquares := sumOfSquares + actualValue * actualValue;
      count := count + 1;
      averages := averages + [sum as real / count as real];
      drawn := drawn + [value];
      assert data[..] == h[value := h[value] + 1];
      AccumulateStep(h, old(sum), old(count), old(sumOfSquares), old(averages), old(drawn), value);
    }

    /** stopAnimation: the run is no longer in progress; nothing else changes. */
    method StopAnimation()
      modifies this`isAnimating
      ensures !isAnimating
    {
      isAnimating := false;
    }

    /** One iteration of animationLoop's for loop past the break: a sample, counted. */
    method GenerateFrame(draw: nat -> int)
      requires Counted()
      requires forall k: nat :: 0 <= draw(k) < Bins
      modifies this, data
      ensures Counted() && data == old(data)
      ensures framesProcessed == old(framesProcessed) + 1
      ensures drawn == old(drawn) + [draw(old(framesProcessed))]
      ensures isAnimating == old(isAnimating) && startTime == old(startTime)
      ensures totalFrames == old(totalFrames) && currentInterval == old(currentInterval)
    {
      GenerateNumber(draw(framesProcessed));
      framesProcessed := framesProcessed + 1;
    }

    /**
     * The for loop of animationLoop: up to framesToProcess samples, stopping
     * early once framesProcessed reaches totalFrames.
     */
    method ProcessFrames(framesToProcess: int, draw: nat -> int)
      requires Counted()
      requires forall k: nat :: 0 <= draw(k) < Bins
      modifies this, data
      ensures Counted() && data == old(data)
      ensures framesProcessed == old(framesProcessed) +
                (if old(framesProcessed) >= totalFrames then 0
                 else Max(0, Min(framesToProcess, totalFrames - old(framesProcessed))))
      ensures DrawnFrom(drawn, old(drawn), draw)
      ensures isAnimating == old(isAnimating) && startTime == old(startTime)
      ensures totalFrames == old(totalFrames) && currentInterval == old(currentInterval)
    {
      var i := 0;
      while i < framesToProcess
        invariant 0 <= i <= Max(0, framesToProcess)
        invariant Counted() && data == old(data)
        invariant framesProcessed == old(framesProcessed) + i
        invariant i == 0 || framesProcessed <= totalFrames
        invariant |drawn| == |old(drawn)| + i && DrawnFrom(drawn, old(drawn), draw)
        invariant isAnimating == old(isAnimating) && startTime == old(startTime)
        invariant totalFrames == old(totalFrames) && currentInterval == old(currentInterval)
      {
        if framesProcessed >= totalFrames {
          break;
        }
        GenerateFrame(draw);
        i := i + 1;
      }
    }

    /**
     * animationLoop: one frame of a run at clock reading `now`, with the
     * interval read afresh and `draw(k)` the random bin of the run's k-th sample.
     */
    method AnimationLoop(interval: int, now: real, draw: nat -> int)
      requires Counted()
      requires forall k: nat :: 0 <= draw(k) < Bins
      modifies this, data
      ensures Valid() && data == old(data)
      ensures totalFrames == old(totalFrames) && startTime == old(startTime)
      ensures !old(isAnimating) ==> !isAnimating && Snapshot() == old(Snapshot())
      ensures old(isAnimating) ==>
                var n := BatchSize(interval, now - old(startTime), old(totalFrames), old(framesProcessed));
                && framesProcessed == old(framesProcessed) + n
                && DrawnFrom(drawn, old(drawn), draw)
                && currentInterval == interval
                && isAnimating == (framesProcessed < totalFrames)
    {
      if !isAnimating {
        StopAnimation();
        return;
      }
      currentInterval := interval;
      var elapsed := now - startTime;
      var framesToProcess := FramesToProcess(currentInterval, elapsed, totalFrames, framesProcessed);
      ProcessFrames(framesToProcess, draw);
      if framesProcessed >= totalFrames {
        StopAnimation();
      }
    }

    /**
     * startAnimation: ignored while a run is in progress; otherwise clears the
     * accumulator, starts a run of totalNumbers samples at clock `now` and
     * runs its first frame at clock `loopNow`.
     */
    method StartAnimation(totalNumbers: int, interval: int, now: real, loopNow: real, draw: nat -> int)
      requires Valid()
      requires forall k: nat :: 0 <= draw(k) < Bins
      modifies this, data
      ensures Valid()
      ensures old(isAnimating) ==> isAnimating && data == old(data) && Snapshot() == old(Snapshot())
      ensures !old(isAnimating) ==>
                var n := BatchSize(interval, loopNow - now, totalNumbers, 0);
                && fresh(data)
                && totalFrames == totalNumbers && startTime == now && currentInterval == interval
                && framesProcessed == n && count == n
                && DrawnFrom(drawn, [], draw)
                && isAnimating == (n < totalNumbers)
    {
      if isAnimating {
        return;
      }
      BeginRun(totalNumbers, interval, now);
      AnimationLoop(interval, loopNow, draw);
    }

    /**
     * The part of startAnimation before its first frame: stop, reset the
     * accumulator and record the run's size, interval and start time.
     */
    method BeginRun(totalNumbers: int, interval: int, now: real)
      modifies this
      ensures Counted() && fresh(data) && drawn == []
      ensures isAnimating && framesProcessed == 0
      ensures totalFrames == totalNumbers && startTime == now && currentInterval == interval
    {
      StopAnimation();
      ResetState();
      totalFrames := totalNumbers;
      currentInterval := interval;
      isAnimating := true;
      startTime := now;
      framesProcessed := 0;
    }

    /**
     * handleRunClick: stops a run in progress; otherwise rejects a sample count
     * <= 0 or a negative interval, and starts a run for valid input.
     */
    method HandleRunClick(numRandomNumbers: int, interval: int, now: real, loopNow: real, draw: nat -> int)
      returns (outcome: ClickOutcome)
      requires Valid()
      requires forall k: nat :: 0 <= draw(k) < Bins
      modifies this, data
      ensures Valid()
      ensures outcome == Stopped <==> old(isAnimating)
      ensures outcome == Rejected <==> !old(isAnimating) && (numRandomNumbers <= 0 || interval < 0)
      ensures outcome != Started ==> !isAnimating && data == old(data) && Snapshot() == old(Snapshot())
      ensures outcome == Started ==>
                var n := BatchSize(interval, loopNow - now, numRandomNumbers, 0);
                && fresh(data)
                && totalFrames == numRandomNumbers && startTime == now && currentInterval == interval
                && framesProcessed == n && DrawnFrom(drawn, [], draw)
                && isAnimating == (n < numRandomNumbers)
    {
      if isAnimating {
        StopAnimation();
        outcome := Stopped;
      } else {
        if numRandomNumbers <= 0 || interval < 0 {
          outcome := Rejected;
          return;
        }
        StartAnimation(numRandomNumbers, interval, now, loopNow, draw);
        outcome := Started;
      }
    }

    /**
     * calculateStatistics over the current accumulator: nothing before the
     * first sample; afterwards the mean is the latest running mean, the
     * variance is the mean squared deviation of the samples from it, and
     * neither the variance nor the chi-squared statistic is negative.
     */
    function CalculateStatistics(): (r: Option<Stats>)
      reads this, data
      requires ValidStats()
      ensures r.None? <==> count == 0
      ensures r.Some? ==> r.value.mean == averages[|averages| - 1]
      ensures r.Some? ==> r.value.variance >= 0.0 && r.value.chiSquared >= 0.0
      ensures r.Some? ==> r.value.variance == ScaledDeviation(data[..], count, sum) as real / (count * count * count) as real
    {
      var h := data[..];
      assert forall i :: 0 <= i < |h| ==> h[i] >= 0;
      if count == 0 then None
      else
        VarianceNonNegative(h);
        VarianceIsMeanSquaredDeviation(h);
        assert drawn[..|drawn|] == drawn;
        Calculate(h, sum, count, sumOfSquares)
    }

    /**
     * The points drawLineChart plots: the running means, thinned once there
     * are more than SampleThreshold of them; never more than SampleThreshold
     * points, and the last one is always the current mean.
     */
    function PlotPoints(): (r: seq<real>)
      reads this
      ensures |r| <= |averages| && |r| <= SampleThreshold
      ensures |averages| > 0 ==> |r| > 0 && r[|r| - 1] == averages[|averages| - 1]
    {
      Downsample(averages, MaxDataPoints, SampleThreshold)
    }
  }

  /** A caller's view: with interval 0, the run's first frame generates every sample. */
  method ImmediateRun(draw: nat -> int)
    requires forall k: nat :: 0 <= draw(k) < Bins
  {
    var v := new HistogramVisualizer();
    var outcome := v.HandleRunClick(500, 0, 0.0, 0.0, draw);
    assert outcome == Started;
    assert v.framesProcessed == 500 && v.count == 500 && |v.averages| == 500 && !v.isAnimating;
  }

  /** A caller's view: at 10 ms per sample, a frame 55 ms into the run brings it to 5 samples. */
  method PacedRun(draw: nat -> int)
    requires forall k: nat :: 0 <= draw(k) < Bins
  {
    var v := new HistogramVisualizer();
    var outcome := v.HandleRunClick(1000, 10, 0.0, 0.0, draw);
    assert v.framesProcessed == 0 && v.isAnimating;
    assert (55.0 / 10.0).Floor == 5;
    v.AnimationLoop(10, 55.0, draw);
    assert v.framesProcessed == 5 && v.isAnimating;
  }
}
