/**
 * The feedback scheduler of `generate`: which denoising steps lie in the
 * feedback window, the base weight of each step, the positive and negative
 * weight pairs derived from it, whether reference caching runs, and when the
 * progress bar advances.
 */
module FeedbackSchedule {
  import opened Arith

  /** Python's `round` of a real into an int: the nearest integer, ties going to the even one. */
  function RoundHalfEven(x: real): (r: int)
    ensures x - 0.5 <= r as real <= x + 0.5
    ensures (r as real == x - 0.5 || r as real == x + 0.5) ==> r % 2 == 0
  {
    var f := x.Floor;
    var d := x - f as real;
    if d < 0.5 then f
    else if d > 0.5 then f + 1
    else if f % 2 == 0 then f
    else f + 1
  }

  /** The two properties above single out one integer, so they define Python's rounding. */
  lemma RoundHalfEvenUnique(x: real, r: int)
    requires x - 0.5 <= r as real <= x + 0.5
    requires (r as real == x - 0.5 || r as real == x + 0.5) ==> r % 2 == 0
    ensures r == RoundHalfEven(x)
  {
  }

  /** The feedback arguments of `generate`. */
  datatype Feedback = Feedback(
    start: real,
    end: real,
    minWeight: real,
    maxWeight: real,
    negScale: real,
    posBottleneckScale: real,
    negBottleneckScale: real)

  /** The defaults of `generate`'s signature. */
  const DefaultFeedback := Feedback(0.33, 0.66, 0.1, 1.0, 0.5, 1.0, 1.0)

  /** `(ref_start_idx, ref_end_idx)`: the window's ends, as rounded step indices. */
  function WindowBounds(nTimesteps: nat, fb: Feedback): (int, int)
  {
    (RoundHalfEven(nTimesteps as real * fb.start), RoundHalfEven(nTimesteps as real * fb.end))
  }

  /** Step `i` is in the window when it lies between the two ends, both included. */
  predicate InWindow(i: int, bounds: (int, int))
  {
    i >= bounds.0 && i <= bounds.1
  }

  /** The base weight of a step and the two pairs handed to the injection pass. */
  datatype StepWeights = StepWeights(weight: real, pos: (real, real), neg: (real, real))

  function WeightsAt(i: int, bounds: (int, int), fb: Feedback): StepWeights
  {
    var w := if InWindow(i, bounds) then fb.maxWeight else fb.minWeight;
    StepWeights(w, (w, w * fb.posBottleneckScale), (w * fb.negScale, w * fb.negScale * fb.negBottleneckScale))
  }

  /** Reference caching runs only with at least one reference image and a positive weight. */
  predicate CachesReferences(nPos: nat, nNeg: nat, weight: real)
  {
    nPos + nNeg > 0 && weight > 0.0
  }

  /**
   * The window policy: a step between `round(N * feedback_start)` and
   * `round(N * feedback_end)` (the two ends of `WindowBounds`, both included)
   * gets `max_weight`, any other step `min_weight`.
   */
  lemma WindowPolicy(i: int, bounds: (int, int), fb: Feedback)
    ensures bounds.0 <= i && i <= bounds.1 ==> WeightsAt(i, bounds, fb).weight == fb.maxWeight
    ensures !(bounds.0 <= i && i <= bounds.1) ==> WeightsAt(i, bounds, fb).weight == fb.minWeight
  {
  }

  /** The positive pair is `(w, w * pos_bottleneck_scale)`, the negative pair `(w * neg_scale, w * neg_scale * neg_bottleneck_scale)`. */
  lemma PairPolicy(i: int, bounds: (int, int), fb: Feedback)
    ensures var s := WeightsAt(i, bounds, fb);
      && s.pos.0 == s.weight
      && s.pos.1 == s.weight * fb.posBottleneckScale
      && s.neg.0 == s.weight * fb.negScale
      && s.neg.1 == s.weight * fb.negScale * fb.negBottleneckScale
  {
  }

  /**
   * With the default arguments and 20 scheduler timesteps the window is steps 7
   * to 13 (round(6.6) and round(13.2)): exactly those get the maximum weight, and
   * reference caching runs at every step because both weights are positive.
   */
  lemma DefaultWindow(i: int, nPos: nat, nNeg: nat)
    requires 0 <= i < 20
    ensures WindowBounds(20, DefaultFeedback) == (7, 13)
    ensures WeightsAt(i, WindowBounds(20, DefaultFeedback), DefaultFeedback).weight == (if 7 <= i <= 13 then 1.0 else 0.1)
    ensures CachesReferences(nPos, nNeg, WeightsAt(i, WindowBounds(20, DefaultFeedback), DefaultFeedback).weight) <==> nPos + nNeg > 0
  {
    RoundHalfEvenUnique(20.0 * 0.33, 7);
    RoundHalfEvenUnique(20.0 * 0.66, 13);
  }

  /** Ties go to the even neighbour: round(2.5) == 2 and round(3.5) == 4, unlike rounding half up. */
  lemma RoundTies()
    ensures RoundHalfEven(2.5) == 2 && RoundHalfEven(3.5) == 4 && RoundHalfEven(-0.5) == 0
  {
    RoundHalfEvenUnique(2.5, 2);
    RoundHalfEvenUnique(3.5, 4);
    RoundHalfEvenUnique(-0.5, 0);
  }

  /**
   * The progress rule of step `i`: the last step, or a step past the warm-up
   * (`len(timesteps) - denoising_steps * order`) that completes a scheduler update.
   */
  predicate UpdatesProgress(i: nat, nTimesteps: nat, steps: nat, order: nat)
    requires order >= 1
  {
    var warmup := nTimesteps - steps * order;
    i == nTimesteps - 1 || ((i + 1) > warmup && (i + 1) % order == 0)
  }

  /** How many of the first k steps advance the progress bar. */
  function CountUpdates(k: nat, nTimesteps: nat, steps: nat, order: nat): nat
    requires order >= 1
  {
    if k == 0 then 0
    else CountUpdates(k - 1, nTimesteps, steps, order) + (if UpdatesProgress(k - 1, nTimesteps, steps, order) then 1 else 0)
  }

  /**
   * When the scheduler has no warm-up steps (`len(timesteps) == denoising_steps * order`),
   * the first k steps advance the bar k div order times, so the whole loop
   * advances it exactly `denoising_steps` times, the total the bar was created with.
   */
  lemma {:induction false} UpdatesWithoutWarmup(k: nat, nTimesteps: nat, steps: nat, order: nat)
    requires order >= 1 && nTimesteps == steps * order && k <= nTimesteps
    ensures CountUpdates(k, nTimesteps, steps, order) == k / order
    ensures k == nTimesteps ==> CountUpdates(k, nTimesteps, steps, order) == steps
  {
    if k > 0 {
      UpdatesWithoutWarmup(k - 1, nTimesteps, steps, order);
      DivStep(k, order);
      if k - 1 == nTimesteps - 1 {
        DivModUnique(k, order, steps, 0);
      }
    }
    if k == nTimesteps {
      DivModUnique(k, order, steps, 0);
    }
  }
}
