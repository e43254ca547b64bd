/**
 * One denoising step of `generate` and the loop over the steps: the step's
 * weights, the reference capture when it is gated on, the rearrangement into
 * cache lists, the injection pass, and the progress-bar rule.
 *
 * The latents are abstract: `refFeed(i)` is the network's data flow on the
 * noised reference latents of step i, `genFeed(i, z)` the one on the current
 * latents z, and `next(i, z, outs)` the scheduler step taken from the
 * attention outputs of the injection pass (guidance included).
 */
module Generation {
  import opened Wrappers
  import opened Tensors
  import opened FeedbackSchedule
  import opened Interception
  import opened Instrumentation
  import References
  import DepthRamp

  /** The feedback arguments of one `generate` call. */
  datatype Setting = Setting(fb: Feedback, nPos: nat, nNeg: nat, nImages: nat)

  /** The network as a value: its attention modules and its block layout. */
  datatype Net = Net(attn: seq<AttnModule>, blockOf: seq<nat>, nDown: nat, nUp: nat)

  /** What step i of the loop returns, from the network's modules at the start of the step. */
  function StepOutcome(unet: Net, i: nat, bounds: (int, int), s: Setting, refFeed: Feed, genFeed: Feed,
                       attend: Attend, weighted: WeightedAttend): Result<seq<Batch>, Error>
    requires |unet.attn| == |unet.blockOf|
  {
    var sw := WeightsAt(i, bounds, s.fb);
    var hooks := InjectionHooks(unet.blockOf, DepthRamp.BlockWeights(unet.nDown, unet.nUp, sw.pos, sw.neg));
    if CachesReferences(s.nPos, s.nNeg, sw.weight) then
      var c :- References.Arrange(PlainInputs(refFeed, attend, |unet.attn|), s.nPos, s.nNeg, s.nImages);
      InjectionResult(genFeed, attend, weighted, unet.attn, hooks, c.pos, c.neg)
    else
      InjectionResult(genFeed, attend, weighted, unet.attn, hooks, None, None)
  }

  /**
   * A step whose weight is not positive, or a call without reference images,
   * runs the plain network; otherwise, when the captured states split, the
   * cache lists hold one entry per module and a polarity's list is present
   * exactly when it has images.
   */
  lemma StepGate(unet: Net, i: nat, bounds: (int, int), s: Setting, refFeed: Feed, genFeed: Feed,
                 attend: Attend, weighted: WeightedAttend)
    requires |unet.attn| == |unet.blockOf|
    ensures var sw := WeightsAt(i, bounds, s.fb);
      !CachesReferences(s.nPos, s.nNeg, sw.weight) ==>
        StepOutcome(unet, i, bounds, s, refFeed, genFeed, attend, weighted) == Success(PlainTrace(genFeed, attend, |unet.attn|))
    ensures var sw := WeightsAt(i, bounds, s.fb);
      var c := References.Arrange(PlainInputs(refFeed, attend, |unet.attn|), s.nPos, s.nNeg, s.nImages);
      CachesReferences(s.nPos, s.nNeg, sw.weight) && c.Success? ==>
        && (c.value.pos.Some? <==> s.nPos > 0) && (c.value.neg.Some? <==> s.nNeg > 0)
        && (c.value.pos.Some? ==> |c.value.pos.value| == |unet.attn|)
        && (c.value.neg.Some? ==> |c.value.neg.value| == |unet.attn|)
  {
  }

  /** The modules of step i after the injection pass has patched them. */
  function PatchedAt(unet: Net, i: nat, bounds: (int, int), fb: Feedback): seq<AttnModule>
    requires |unet.attn| == |unet.blockOf|
  {
    var sw := WeightsAt(i, bounds, fb);
    PatchAll(unet.attn, InjectionHooks(unet.blockOf, DepthRamp.BlockWeights(unet.nDown, unet.nUp, sw.pos, sw.neg)))
  }

  /**
   * The modules a failed step i can leave behind, there being no try/finally:
   * as they were (the rearrangement raised), still patched (the network
   * raised), or restored up to the first unpatched module (the restore loop
   * raised).
   */
  predicate LeftAfterFailure(unet: Net, i: nat, bounds: (int, int), fb: Feedback, attn: seq<AttnModule>)
    requires |unet.attn| == |unet.blockOf|
  {
    || attn == unet.attn
    || attn == PatchedAt(unet, i, bounds, fb)
    || attn == RestoreAll(PatchedAt(unet, i, bounds, fb)).mods
  }

  /**
   * One iteration of the loop body of `generate`, up to the network's output:
   * the weights of step i, the capture pass and the rearrangement when caching
   * is gated on, then the injection pass with fresh cache lists, on the
   * latents z the step starts from.
   */
  method FeedbackStep(unet: Unet, i: nat, bounds: (int, int), s: Setting, refFeed: nat -> Feed, genFeed: (nat, Batch) -> Feed,
                      attend: Attend, weighted: WeightedAttend, z: Batch) returns (r: Result<seq<Batch>, Error>)
    requires unet.Valid() && IsClean(unet.attn)
    modifies unet
    ensures unet.Valid()
    ensures r == StepOf(Net(old(unet.attn), unet.blockOf, unet.nDown, unet.nUp), bounds, s, refFeed, genFeed, attend, weighted)(i, z)
    ensures r.Success? ==> unet.attn == old(unet.attn)
    ensures r.Failure? ==> LeftAfterFailure(Net(old(unet.attn), unet.blockOf, unet.nDown, unet.nUp), i, bounds, s.fb, unet.attn)
  {
    ghost var net := Net(unet.attn, unet.blockOf, unet.nDown, unet.nUp);
    assert StepOf(net, bounds, s, refFeed, genFeed, attend, weighted)(i, z)
        == StepOutcome(net, i, bounds, s, refFeed(i), genFeed(i, z), attend, weighted);
    var sw := WeightsAt(i, bounds, s.fb);
    var pos: HiddenQueue? := null;
    var neg: HiddenQueue? := null;
    if CachesReferences(s.nPos, s.nNeg, sw.weight) {
      var captured, _ := unet.GetHiddenStates(refFeed(i), attend);
      var c := References.Rearrange(captured, s.nPos, s.nNeg, s.nImages);
      if c.Failure? {
        return Failure(c.error);
      }
      if c.value.pos.Some? {
        pos := new HiddenQueue(c.value.pos.value);
      }
      if c.value.neg.Some? {
        neg := new HiddenQueue(c.value.neg.value);
      }
    }
    r := unet.ForwardWithCache(genFeed(i, z), attend, weighted, pos, neg, sw.pos, sw.neg);
  }

  /** What a step returns from the latents it starts with. */
  type Step = (nat, Batch) -> Result<seq<Batch>, Error>

  /** Step i of a `generate` call as a function of the latents at that step. */
  function StepOf(unet: Net, bounds: (int, int), s: Setting, refFeed: nat -> Feed, genFeed: (nat, Batch) -> Feed,
                  attend: Attend, weighted: WeightedAttend): Step
    requires |unet.attn| == |unet.blockOf|
  {
    (i: nat, z: Batch) => StepOutcome(unet, i, bounds, s, refFeed(i), genFeed(i, z), attend, weighted)
  }

  /** Step k is the first to raise: the steps before it went through and it did not. */
  predicate FailedAt(k: nat, step: Step, next: (nat, Batch, seq<Batch>) -> Batch, z0: Batch)
  {
    Run(k, step, next, z0).Success? && step(k, Run(k, step, next, z0).value).Failure?
  }

  /** The latents after the first k steps, or the first exception. */
  function Run(k: nat, step: Step, next: (nat, Batch, seq<Batch>) -> Batch, z0: Batch): Result<Batch, Error>
  {
    if k == 0 then Success(z0)
    else
      var z :- Run(k - 1, step, next, z0);
      var outs :- step(k - 1, z);
      Success(next(k - 1, z, outs))
  }

  /**
   * The loop of `generate` over `len(timesteps)` steps: each step sees the
   * network exactly as the call found it, the latents evolve as `Run` says,
   * and the progress bar advances `CountUpdates` times.
   */
  method Generate(unet: Unet, nTimesteps: nat, steps: nat, order: nat, s: Setting, refFeed: nat -> Feed,
                  genFeed: (nat, Batch) -> Feed, next: (nat, Batch, seq<Batch>) -> Batch,
                  attend: Attend, weighted: WeightedAttend, z0: Batch) returns (r: Result<Batch, Error>, updates: nat)
    requires unet.Valid() && IsClean(unet.attn) && order >= 1
    modifies unet
    ensures unet.Valid()
    ensures r == Run(nTimesteps, StepOf(Net(old(unet.attn), unet.blockOf, unet.nDown, unet.nUp), WindowBounds(nTimesteps, s.fb), s,
                                         refFeed, genFeed, attend, weighted), next, z0)
    ensures r.Success? ==> unet.attn == old(unet.attn) && updates == CountUpdates(nTimesteps, nTimesteps, steps, order)
    ensures r.Failure? ==>
      exists k :: (0 <= k < nTimesteps &&
        FailedAt(k, StepOf(Net(old(unet.attn), unet.blockOf, unet.nDown, unet.nUp), WindowBounds(nTimesteps, s.fb), s,
                           refFeed, genFeed, attend, weighted), next, z0) &&
        LeftAfterFailure(Net(old(unet.attn), unet.blockOf, unet.nDown, unet.nUp), k, WindowBounds(nTimesteps, s.fb), s.fb, unet.attn))
  {
    var bounds := WindowBounds(nTimesteps, s.fb);
    ghost var step := StepOf(Net(unet.attn, unet.blockOf, unet.nDown, unet.nUp), bounds, s, refFeed, genFeed, attend, weighted);
    var z := z0;
    updates := 0;
    var i := 0;
    while i < nTimesteps
      invariant 0 <= i <= nTimesteps
      invariant unet.Valid() && unet.attn == old(unet.attn)
      invariant Success(z) == Run(i, step, next, z0)
      invariant updates == CountUpdates(i, nTimesteps, steps, order)
    {
      var outs := FeedbackStep(unet, i, bounds, s, refFeed, genFeed, attend, weighted, z);
      if outs.Failure? {
        assert FailedAt(i, step, next, z0);
        RunStops(i + 1, nTimesteps, step, next, z0);
        return Failure(outs.error), updates;
      }
      z := next(i, z, outs.value);
      updates := Advance(i, nTimesteps, steps, order, updates);
      i := i + 1;
    }
    r := Success(z);
  }

  /** `pbar.update()` when step i completes a progress unit. */
  method Advance(i: nat, nTimesteps: nat, steps: nat, order: nat, updates: nat) returns (updates': nat)
    requires order >= 1
    ensures updates' == updates + (if UpdatesProgress(i, nTimesteps, steps, order) then 1 else 0)
  {
    updates' := updates;
    if UpdatesProgress(i, nTimesteps, steps, order) {
      updates' := updates + 1;
    }
  }

  /** An exception in one step ends the loop. */
  lemma {:induction false} RunStops(k: nat, k': nat, step: Step, next: (nat, Batch, seq<Batch>) -> Batch, z0: Batch)
    requires k <= k'
    requires Run(k, step, next, z0).Failure?
    ensures Run(k', step, next, z0) == Run(k, step, next, z0)
    decreases k' - k
  {
    if k' > k {
      RunStops(k, k' - 1, step, next, z0);
    }
  }
}
