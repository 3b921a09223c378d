/**
 * The arithmetic of one animationLoop pass: how many samples a frame should
 * generate, given the time since the run started and the interval between
 * samples.
 */
module Scheduling {

  /** Most samples one frame generates when an interval is set. */
  const BatchCap: int := 100

  function Min(a: int, b: int): int { if a <= b then a else b }
  function Max(a: int, b: int): int { if a <= b then b else a }

  /**
   * How many samples should exist by now: floor(elapsed / interval) for a
   * positive interval, otherwise the whole run.
   */
  function TargetFrames(interval: int, elapsed: real, totalFrames: int): int
  {
    if interval > 0 then (elapsed / interval as real).Floor else totalFrames
  }

  /** The per-frame ceiling: the whole run for interval 0, else BatchCap. */
  function PerFrameCap(interval: int, totalFrames: int): int
  {
    if interval == 0 then totalFrames else BatchCap
  }

  /** The bound of the frame's for loop (framesToProcess). */
  function FramesToProcess(interval: int, elapsed: real, totalFrames: int, framesProcessed: int): int
  {
    Min(TargetFrames(interval, elapsed, totalFrames) - framesProcessed, PerFrameCap(interval, totalFrames))
  }

  /**
   * The number of samples one pass generates: iterations of the loop up to
   * framesToProcess, stopped early once totalFrames is reached. The pass never
   * overshoots the run, never exceeds the cap, never runs ahead of the clock,
   * and it catches up with the clock unless the cap or the end of the run
   * stops it first.
   */
  function BatchSize(interval: int, elapsed: real, totalFrames: int, framesProcessed: nat): (n: nat)
    ensures n == 0 || framesProcessed + n <= totalFrames
    ensures n <= Max(0, FramesToProcess(interval, elapsed, totalFrames, framesProcessed))
    ensures interval != 0 ==> n <= BatchCap
    ensures framesProcessed + n <= Max(framesProcessed, TargetFrames(interval, elapsed, totalFrames))
    ensures n < PerFrameCap(interval, totalFrames) && framesProcessed + n < totalFrames
            ==> framesProcessed + n >= TargetFrames(interval, elapsed, totalFrames)
    ensures interval == 0 && framesProcessed <= totalFrames ==> framesProcessed + n == totalFrames
  {
    if framesProcessed >= totalFrames then 0
    else Max(0, Min(FramesToProcess(interval, elapsed, totalFrames, framesProcessed), totalFrames - framesProcessed))
  }
}
