/**
 * The denoising network's self-attention modules as state that the two
 * passes patch and restore: the capture pass (`get_unet_hidden_states`)
 * records the input of every module, the injection pass
 * (`unet_forward_with_cached_hidden_states`) intercepts the modules of the
 * zipped blocks. Each pass restores the modules only when the forward call
 * returns normally: there is no try/finally.
 *
 * The network outside the attention modules is the parameter `feed`: the
 * input of attention module m as a function of the outputs of modules 0..m-1.
 * A pass's result is the sequence of the modules' outputs, from which the
 * rest of the network computes its output.
 */
module Instrumentation {
  import opened Wrappers
  import opened Tensors
  import opened Interception
  import DepthRamp

  type Feed = (nat, seq<Batch>) -> Batch

  /** What a module's `forward` attribute currently is. */
  datatype Forward = Original | CaptureHook | InjectHook(posWeight: real, negWeight: real)

  /** The `attn1` of a BasicTransformerBlock: its `forward` and, when present, its `old_forward`. */
  datatype AttnModule = AttnModule(forward: Forward, oldForward: Option<Forward>)

  /** No module is patched: each has its own forward and no `old_forward` attribute. */
  predicate IsClean(mods: seq<AttnModule>)
  {
    forall m :: 0 <= m < |mods| ==> mods[m] == AttnModule(Original, None)
  }

  /** `old_forward = forward; forward = hook` for every module with a hook. */
  function PatchAll(mods: seq<AttnModule>, hooks: seq<Option<Forward>>): (r: seq<AttnModule>)
    requires |hooks| == |mods|
    ensures |r| == |mods|
  {
    seq(|mods|, m requires 0 <= m < |mods| =>
      if hooks[m].Some? then AttnModule(hooks[m].value, Some(mods[m].forward)) else mods[m])
  }

  /** Whether restoring went through, and the modules afterwards. */
  datatype Restored = Restored(ok: bool, mods: seq<AttnModule>)

  /**
   * The restore loop from module m on: `forward = old_forward; del old_forward`,
   * stopping with AttributeError at the first module that has no `old_forward`.
   */
  function RestoreFrom(mods: seq<AttnModule>, m: nat): (r: Restored)
    requires m <= |mods|
    ensures |r.mods| == |mods|
    decreases |mods| - m
  {
    if m == |mods| then Restored(true, mods)
    else if mods[m].oldForward.None? then Restored(false, mods)
    else RestoreFrom(mods[m := AttnModule(mods[m].oldForward.value, None)], m + 1)
  }

  function RestoreAll(mods: seq<AttnModule>): Restored
  {
    RestoreFrom(mods, 0)
  }

  predicate NoneSaved(mods: seq<AttnModule>)
  {
    forall m :: 0 <= m < |mods| ==> mods[m].oldForward.None?
  }

  lemma {:induction false} RestoreFromPatched(orig: seq<AttnModule>, hooks: seq<Option<Forward>>, cur: seq<AttnModule>, m: nat)
    requires |hooks| == |orig| == |cur| && m <= |orig| && NoneSaved(orig)
    requires forall k :: 0 <= k < m ==> cur[k] == orig[k]
    requires forall k :: m <= k < |orig| ==> cur[k] == PatchAll(orig, hooks)[k]
    ensures RestoreFrom(cur, m).ok <==> forall k :: m <= k < |hooks| ==> hooks[k].Some?
    ensures RestoreFrom(cur, m).ok ==> RestoreFrom(cur, m).mods == orig
    decreases |orig| - m
  {
    if m == |orig| {
      assert cur == orig;
    } else if hooks[m].None? {
      assert cur[m] == orig[m];
    } else {
      var next := cur[m := AttnModule(cur[m].oldForward.value, None)];
      RestoreFromPatched(orig, hooks, next, m + 1);
    }
  }

  /**
   * Restoring a set of freshly patched modules gives back exactly the modules
   * before patching (every `forward` as it was, no `old_forward` left) if and
   * only if every module was patched: one unpatched module makes the restore
   * loop raise AttributeError.
   */
  lemma RestoreAfterPatch(mods: seq<AttnModule>, hooks: seq<Option<Forward>>)
    requires |hooks| == |mods| && NoneSaved(mods)
    ensures RestoreAll(PatchAll(mods, hooks)).ok <==> forall k :: 0 <= k < |hooks| ==> hooks[k].Some?
    ensures RestoreAll(PatchAll(mods, hooks)).ok ==> RestoreAll(PatchAll(mods, hooks)).mods == mods
  {
    RestoreFromPatched(mods, hooks, PatchAll(mods, hooks), 0);
  }

  /**
   * The hooks of the injection pass: module m, in block blockOf[m], is patched
   * exactly when that block was zipped, and then with that block's weight pair.
   */
  function InjectionHooks(blockOf: seq<nat>, weights: seq<(real, real)>): (r: seq<Option<Forward>>)
    ensures |r| == |blockOf|
    ensures forall m :: 0 <= m < |blockOf| ==> (r[m].Some? <==> blockOf[m] < |weights|)
    ensures forall m :: 0 <= m < |blockOf| && r[m].Some? ==>
      r[m] == Some(InjectHook(weights[blockOf[m]].0, weights[blockOf[m]].1))
  {
    seq(|blockOf|, m requires 0 <= m < |blockOf| =>
      if blockOf[m] < |weights| then Some(InjectHook(weights[blockOf[m]].0, weights[blockOf[m]].1)) else None)
  }

  /**
   * Every module of the network is patched by the injection pass, so that its
   * restore loop succeeds, exactly when every module's block is among the
   * zipped ones; with no more up blocks than down blocks that always holds.
   */
  lemma InjectionCoverage(blockOf: seq<nat>, nDown: nat, nUp: nat, posPair: (real, real), negPair: (real, real))
    requires forall m :: 0 <= m < |blockOf| ==> blockOf[m] < nDown + 1 + nUp
    ensures var hooks := InjectionHooks(blockOf, DepthRamp.BlockWeights(nDown, nUp, posPair, negPair));
      (forall m :: 0 <= m < |hooks| ==> hooks[m].Some?) <==>
      (forall m :: 0 <= m < |blockOf| ==> blockOf[m] < DepthRamp.Min(nDown + 1 + nUp, 2 * nDown + 1))
    ensures nUp <= nDown ==> forall m :: 0 <= m < |blockOf| ==>
      InjectionHooks(blockOf, DepthRamp.BlockWeights(nDown, nUp, posPair, negPair))[m].Some?
  {
    var weights := DepthRamp.BlockWeights(nDown, nUp, posPair, negPair);
    var hooks := InjectionHooks(blockOf, weights);
    DepthRamp.BlockWeightsCoverage(nDown, nUp, posPair, negPair);
    assert forall m :: 0 <= m < |blockOf| ==> (hooks[m].Some? <==> blockOf[m] < |weights|);
  }

  /** The outputs of the first n modules of an uninstrumented forward pass. */
  function PlainTrace(feed: Feed, attend: Attend, n: nat): (outs: seq<Batch>)
    ensures |outs| == n
  {
    if n == 0 then []
    else
      var prev := PlainTrace(feed, attend, n - 1);
      prev + [attend(n - 1, feed(n - 1, prev))]
  }

  /** The input each of the first n modules receives in an uninstrumented forward pass. */
  function PlainInputs(feed: Feed, attend: Attend, n: nat): (ins: seq<Batch>)
    ensures |ins| == n
  {
    seq(n, m requires 0 <= m < n => feed(m, PlainTrace(feed, attend, m)))
  }

  /** The state of the injection pass's forward call after some modules. */
  datatype Trace = Trace(outs: seq<Batch>, pos: Option<seq<Batch>>, neg: Option<seq<Batch>>, err: Option<Error>)

  /**
   * The forward call of the injection pass over the first n modules: an
   * intercepted module runs its closure against the shared cache lists, any
   * other module its ordinary attention; the first exception stops the call.
   */
  function InjectTrace(feed: Feed, attend: Attend, weighted: WeightedAttend, mods: seq<AttnModule>, n: nat,
                       pos0: Option<seq<Batch>>, neg0: Option<seq<Batch>>): (t: Trace)
    requires n <= |mods|
  {
    if n == 0 then Trace([], pos0, neg0, None)
    else
      var s := InjectTrace(feed, attend, weighted, mods, n - 1, pos0, neg0);
      if s.err.Some? then s
      else
        var i := ModuleCall(n - 1, feed(n - 1, s.outs), mods[n - 1].forward, s.pos, s.neg, attend, weighted);
        if i.out.Failure? then Trace(s.outs, i.pos, i.neg, Some(i.out.error))
        else Trace(s.outs + [i.out.value], i.pos, i.neg, None)
  }

  /** Calling module m's current `forward` on x during the injection pass. */
  function ModuleCall(m: nat, x: Batch, f: Forward, pos: Option<seq<Batch>>, neg: Option<seq<Batch>>,
                      attend: Attend, weighted: WeightedAttend): Interception
  {
    match f
    case InjectHook(pw, nw) => Intercept(m, x, pos, neg, pw, nw, attend, weighted)
    case _ => Interception(Success(attend(m, x)), pos, neg)
  }

  /** One more module call extends a trace that has not stopped by that call's output and queues. */
  lemma TraceNext(feed: Feed, attend: Attend, weighted: WeightedAttend, mods: seq<AttnModule>, n: nat,
                  pos0: Option<seq<Batch>>, neg0: Option<seq<Batch>>,
                  outs: seq<Batch>, o: Result<Batch, Error>, pos: Option<seq<Batch>>, neg: Option<seq<Batch>>)
    requires n < |mods|
    requires var s := InjectTrace(feed, attend, weighted, mods, n, pos0, neg0);
      s.err.None? && s.outs == outs &&
      Interception(o, pos, neg) == ModuleCall(n, feed(n, outs), mods[n].forward, s.pos, s.neg, attend, weighted)
    ensures o.Failure? ==> InjectTrace(feed, attend, weighted, mods, n + 1, pos0, neg0) == Trace(outs, pos, neg, Some(o.error))
    ensures o.Success? ==> InjectTrace(feed, attend, weighted, mods, n + 1, pos0, neg0) == Trace(outs + [o.value], pos, neg, None)
  {
  }

  /** The first exception ends the call: nothing after it runs. */
  lemma {:induction false} TraceStops(feed: Feed, attend: Attend, weighted: WeightedAttend, mods: seq<AttnModule>, n: nat, n': nat,
                                      pos0: Option<seq<Batch>>, neg0: Option<seq<Batch>>)
    requires n <= n' <= |mods|
    requires InjectTrace(feed, attend, weighted, mods, n, pos0, neg0).err.Some?
    ensures InjectTrace(feed, attend, weighted, mods, n', pos0, neg0) == InjectTrace(feed, attend, weighted, mods, n, pos0, neg0)
    decreases n' - n
  {
    if n' > n {
      TraceStops(feed, attend, weighted, mods, n, n' - 1, pos0, neg0);
    }
  }

  /** How many of the first n modules are intercepted. */
  function HookCount(mods: seq<AttnModule>, n: nat): (k: nat)
    requires n <= |mods|
    ensures k <= n
  {
    if n == 0 then 0 else HookCount(mods, n - 1) + (if mods[n - 1].forward.InjectHook? then 1 else 0)
  }

  /**
   * The queue discipline: when the first n modules ran without an exception,
   * each present cache list has lost exactly its first K states, K being the
   * number of intercepted modules among them (so the k-th intercepted module
   * was handed the k-th cached state), and an absent cache stayed absent.
   */
  lemma {:induction false} TraceQueues(feed: Feed, attend: Attend, weighted: WeightedAttend, mods: seq<AttnModule>, n: nat,
                                       pos0: Option<seq<Batch>>, neg0: Option<seq<Batch>>)
    requires n <= |mods|
    requires InjectTrace(feed, attend, weighted, mods, n, pos0, neg0).err.None?
    ensures var t := InjectTrace(feed, attend, weighted, mods, n, pos0, neg0);
      var k := HookCount(mods, n);
      |t.outs| == n && Dropped(pos0, k, t.pos) && Dropped(neg0, k, t.neg)
  {
    if n > 0 {
      TraceStepQueues(feed, attend, weighted, mods, n - 1, pos0, neg0);
      TraceQueues(feed, attend, weighted, mods, n - 1, pos0, neg0);
      var s, t := InjectTrace(feed, attend, weighted, mods, n - 1, pos0, neg0), InjectTrace(feed, attend, weighted, mods, n, pos0, neg0);
      var k := HookCount(mods, n - 1);
      var d := if mods[n - 1].forward.InjectHook? then 1 else 0;
      assert HookCount(mods, n) == k + d;
      QueueStep(pos0, s.pos, t.pos, k, d);
      QueueStep(neg0, s.neg, t.neg, k, d);
    }
  }

  /** The list q is q0 without its first k states, or absent along with q0. */
  predicate Dropped(q0: Option<seq<Batch>>, k: nat, q: Option<seq<Batch>>)
  {
    && (q0.None? ==> q.None?)
    && (q0.Some? ==> |q0.value| >= k && q == Some(q0.value[k..]))
  }

  /** One more module without an exception adds one output and pops one state per present list if it is intercepted. */
  lemma TraceStepQueues(feed: Feed, attend: Attend, weighted: WeightedAttend, mods: seq<AttnModule>, n: nat,
                        pos0: Option<seq<Batch>>, neg0: Option<seq<Batch>>)
    requires n < |mods|
    requires InjectTrace(feed, attend, weighted, mods, n + 1, pos0, neg0).err.None?
    ensures InjectTrace(feed, attend, weighted, mods, n, pos0, neg0).err.None?
    ensures |InjectTrace(feed, attend, weighted, mods, n + 1, pos0, neg0).outs| == |InjectTrace(feed, attend, weighted, mods, n, pos0, neg0).outs| + 1
    ensures Dropped(InjectTrace(feed, attend, weighted, mods, n, pos0, neg0).pos, if mods[n].forward.InjectHook? then 1 else 0,
                    InjectTrace(feed, attend, weighted, mods, n + 1, pos0, neg0).pos)
    ensures Dropped(InjectTrace(feed, attend, weighted, mods, n, pos0, neg0).neg, if mods[n].forward.InjectHook? then 1 else 0,
                    InjectTrace(feed, attend, weighted, mods, n + 1, pos0, neg0).neg)
  {
    var s := InjectTrace(feed, attend, weighted, mods, n, pos0, neg0);
    var f := mods[n].forward;
    var c := ModuleCall(n, feed(n, s.outs), f, s.pos, s.neg, attend, weighted);
    assert InjectTrace(feed, attend, weighted, mods, n + 1, pos0, neg0) == Trace(s.outs + [c.out.value], c.pos, c.neg, None);
    ModuleCallPops(n, feed(n, s.outs), f, s.pos, s.neg, attend, weighted);
  }

  /** Dropping k states and then d more leaves the list without its first k + d states. */
  lemma QueueStep(q0: Option<seq<Batch>>, q: Option<seq<Batch>>, q': Option<seq<Batch>>, k: nat, d: nat)
    requires Dropped(q0, k, q) && Dropped(q, d, q')
    ensures Dropped(q0, k + d, q')
  {
    if q0.Some? {
      DropTwice(q0.value, k, d);
    }
  }

  /** A module call that returns pops one state from each present cache list if it is intercepted, none otherwise. */
  lemma ModuleCallPops(m: nat, x: Batch, f: Forward, pos: Option<seq<Batch>>, neg: Option<seq<Batch>>,
                       attend: Attend, weighted: WeightedAttend)
    requires ModuleCall(m, x, f, pos, neg, attend, weighted).out.Success?
    ensures var c := ModuleCall(m, x, f, pos, neg, attend, weighted);
      var d := if f.InjectHook? then 1 else 0;
      && (pos.None? ==> c.pos.None?)
      && (pos.Some? ==> |pos.value| >= d && c.pos == Some(pos.value[d..]))
      && (neg.None? ==> c.neg.None?)
      && (neg.Some? ==> |neg.value| >= d && c.neg == Some(neg.value[d..]))
  {
    if f.InjectHook? {
      InterceptPops(m, x, pos, neg, f.posWeight, f.negWeight, attend, weighted);
    } else {
      if pos.Some? {
        assert pos.value[0..] == pos.value;
      }
      if neg.Some? {
        assert neg.value[0..] == neg.value;
      }
    }
  }

  lemma DropTwice<T>(q: seq<T>, k: nat, d: nat)
    requires k + d <= |q|
    ensures q[k..][d..] == q[k + d..]
  {
  }

  /**
   * The capture pass records one state per module and the injection pass pops
   * one per intercepted module; when every module is intercepted, a successful
   * call consumes each cache list completely, and a cache list shorter than the
   * number of intercepted modules makes the call raise rather than fall back.
   */
  lemma InjectionDrainsCaches(feed: Feed, attend: Attend, weighted: WeightedAttend, mods: seq<AttnModule>,
                              pos0: Option<seq<Batch>>, neg0: Option<seq<Batch>>)
    requires forall m :: 0 <= m < |mods| ==> mods[m].forward.InjectHook?
    ensures HookCount(mods, |mods|) == |mods|
    ensures var t := InjectTrace(feed, attend, weighted, mods, |mods|, pos0, neg0);
      && (t.err.None? && pos0.Some? && |pos0.value| == |mods| ==> t.pos == Some([]))
      && (t.err.None? && neg0.Some? && |neg0.value| == |mods| ==> t.neg == Some([]))
      && (pos0.Some? && |pos0.value| < |mods| ==> t.err.Some?)
      && (neg0.Some? && |neg0.value| < |mods| ==> t.err.Some?)
  {
    AllHooked(mods, |mods|);
    if InjectTrace(feed, attend, weighted, mods, |mods|, pos0, neg0).err.None? {
      TraceQueues(feed, attend, weighted, mods, |mods|, pos0, neg0);
    }
  }

  lemma {:induction false} AllHooked(mods: seq<AttnModule>, n: nat)
    requires n <= |mods|
    requires forall m :: 0 <= m < |mods| ==> mods[m].forward.InjectHook?
    ensures HookCount(mods, n) == n
  {
    if n > 0 {
      AllHooked(mods, n - 1);
    }
  }

  /** With no module intercepted the injection pass's call is the plain forward pass. */
  lemma {:induction false} TraceWithoutHooks(feed: Feed, attend: Attend, weighted: WeightedAttend, mods: seq<AttnModule>, n: nat,
                                             pos0: Option<seq<Batch>>, neg0: Option<seq<Batch>>)
    requires n <= |mods|
    requires forall m :: 0 <= m < |mods| ==> !mods[m].forward.InjectHook?
    ensures InjectTrace(feed, attend, weighted, mods, n, pos0, neg0) == Trace(PlainTrace(feed, attend, n), pos0, neg0, None)
  {
    if n > 0 {
      TraceWithoutHooks(feed, attend, weighted, mods, n - 1, pos0, neg0);
    }
  }

  /**
   * What the injection pass returns: the plain forward call when both caches
   * are absent; otherwise the patched call's outputs, its first exception, or
   * AttributeError from a restore loop that meets an unpatched module.
   */
  function InjectionResult(feed: Feed, attend: Attend, weighted: WeightedAttend, mods: seq<AttnModule>,
                           hooks: seq<Option<Forward>>, pos0: Option<seq<Batch>>, neg0: Option<seq<Batch>>): Result<seq<Batch>, Error>
    requires |hooks| == |mods|
  {
    if pos0.None? && neg0.None? then Success(PlainTrace(feed, attend, |mods|))
    else
      var patched := PatchAll(mods, hooks);
      var t := InjectTrace(feed, attend, weighted, patched, |patched|, pos0, neg0);
      if t.err.Some? then Failure(t.err.value)
      else if RestoreAll(patched).ok then Success(t.outs)
      else Failure(AttributeError)
  }

  /**
   * With a cache present, an injection call that raised nothing in the network
   * succeeds exactly when every module was patched; a module outside the zipped
   * blocks turns it into AttributeError.
   */
  lemma InjectionRestoreOutcome(feed: Feed, attend: Attend, weighted: WeightedAttend, mods: seq<AttnModule>,
                                hooks: seq<Option<Forward>>, pos0: Option<seq<Batch>>, neg0: Option<seq<Batch>>)
    requires |hooks| == |mods| && NoneSaved(mods) && (pos0.Some? || neg0.Some?)
    requires InjectTrace(feed, attend, weighted, PatchAll(mods, hooks), |mods|, pos0, neg0).err.None?
    ensures InjectionResult(feed, attend, weighted, mods, hooks, pos0, neg0).Success? <==>
      forall m :: 0 <= m < |hooks| ==> hooks[m].Some?
    ensures InjectionResult(feed, attend, weighted, mods, hooks, pos0, neg0).Failure? ==>
      InjectionResult(feed, attend, weighted, mods, hooks, pos0, neg0) == Failure(AttributeError)
  {
    RestoreAfterPatch(mods, hooks);
  }

  /** `module.attn1.forward(x)`: the interception closure, or the module's own attention. */
  method CallModule(m: nat, x: Batch, f: Forward, pos: HiddenQueue?, neg: HiddenQueue?, attend: Attend, weighted: WeightedAttend)
    returns (o: Result<Batch, Error>)
    requires pos == null || neg == null || pos != neg
    modifies pos, neg
    ensures Interception(o, Contents(pos), Contents(neg)) == ModuleCall(m, x, f, old(Contents(pos)), old(Contents(neg)), attend, weighted)
  {
    if f.InjectHook? {
      o := InterceptBlock(m, x, pos, neg, f.posWeight, f.negWeight, attend, weighted);
    } else {
      o := Success(attend(m, x));
    }
  }

  /**
   * The UNet: the `attn1` module of every BasicTransformerBlock, in traversal
   * order, and for each the position of its enclosing block in
   * `down_blocks + [mid_block] + up_blocks`.
   */
  class Unet {
    var attn: seq<AttnModule>
    const blockOf: seq<nat>
    const nDown: nat
    const nUp: nat

    ghost predicate Valid()
      reads this
    {
      && |attn| == |blockOf|
      && forall m :: 0 <= m < |blockOf| ==> blockOf[m] < nDown + 1 + nUp
    }

    constructor (blockOf: seq<nat>, nDown: nat, nUp: nat)
      requires forall m :: 0 <= m < |blockOf| ==> blockOf[m] < nDown + 1 + nUp
      ensures Valid() && IsClean(attn)
      ensures this.blockOf == blockOf && this.nDown == nDown && this.nUp == nUp
    {
      this.blockOf := blockOf;
      this.nDown := nDown;
      this.nUp := nUp;
      attn := seq(|blockOf|, _ => AttnModule(Original, None));
    }

    /** The patching loop: each module with a hook saves its forward and takes the hook. */
    method Patch(hooks: seq<Option<Forward>>)
      requires Valid() && |hooks| == |attn|
      modifies this
      ensures Valid() && attn == PatchAll(old(attn), hooks)
    {
      var m := 0;
      while m < |attn|
        invariant 0 <= m <= |attn| == |old(attn)| == |hooks|
        invariant Valid()
        invariant forall k :: 0 <= k < m ==> attn[k] == PatchAll(old(attn), hooks)[k]
        invariant forall k :: m <= k < |attn| ==> attn[k] == old(attn)[k]
      {
        if hooks[m].Some? {
          attn := attn[m := AttnModule(hooks[m].value, Some(attn[m].forward))];
        }
        m := m + 1;
      }
    }

    /** The restore loop over all modules; false when it raised AttributeError part-way. */
    method Restore() returns (ok: bool)
      requires Valid()
      modifies this
      ensures Valid() && Restored(ok, attn) == RestoreAll(old(attn))
    {
      var m := 0;
      while m < |attn|
        invariant 0 <= m <= |attn|
        invariant Valid()
        invariant RestoreFrom(attn, m) == RestoreAll(old(attn))
      {
        if attn[m].oldForward.None? {
          return false;
        }
        attn := attn[m := AttnModule(attn[m].oldForward.value, None)];
        m := m + 1;
      }
      return true;
    }

    /** `self.unet(...)` with no module patched. */
    method PlainForward(feed: Feed, attend: Attend) returns (out: seq<Batch>)
      requires Valid() && IsClean(attn)
      ensures out == PlainTrace(feed, attend, |attn|)
    {
      out := [];
      var m := 0;
      while m < |attn|
        invariant 0 <= m <= |attn|
        invariant out == PlainTrace(feed, attend, m)
      {
        out := out + [attend(m, feed(m, out))];
        m := m + 1;
      }
    }

    /**
     * `get_unet_hidden_states`: patch every module with the capture hook, run
     * the forward pass, which appends each module's input to the list and
     * answers with the saved forward, then restore every module. The captured
     * states are the module inputs of a plain pass, in traversal order; the
     * pass's outputs are unchanged; the modules end as they started.
     */
    method GetHiddenStates(feed: Feed, attend: Attend) returns (cached: seq<Batch>, out: seq<Batch>)
      requires Valid() && IsClean(attn)
      modifies this
      ensures Valid() && attn == old(attn)
      ensures cached == PlainInputs(feed, attend, |attn|)
      ensures out == PlainTrace(feed, attend, |attn|)
    {
      var hooks := seq(|attn|, _ => Some(CaptureHook));
      Patch(hooks);
      cached, out := [], [];
      var m := 0;
      while m < |attn|
        invariant 0 <= m <= |attn|
        invariant attn == PatchAll(old(attn), hooks)
        invariant out == PlainTrace(feed, attend, m)
        invariant cached == PlainInputs(feed, attend, m)
      {
        var x := feed(m, out);
        if attn[m].forward.CaptureHook? {
          cached := cached + [x];
        }
        out := out + [attend(m, x)];
        m := m + 1;
      }
      var ok := Restore();
      RestoreAfterPatch(old(attn), hooks);
    }

    /**
     * `unet_forward_with_cached_hidden_states`. With both caches absent it is the
     * plain forward call. Otherwise the modules of the zipped blocks get the
     * interception closure with their block's weights, the forward call runs;
     * an exception leaves the modules patched, and on normal return the
     * restore loop walks every module of the network.
     */
    method ForwardWithCache(feed: Feed, attend: Attend, weighted: WeightedAttend, pos: HiddenQueue?, neg: HiddenQueue?,
                            posPair: (real, real), negPair: (real, real)) returns (r: Result<seq<Batch>, Error>)
      requires Valid() && IsClean(attn)
      requires pos == null || neg == null || pos != neg
      modifies this, pos, neg
      ensures Valid()
      ensures pos == null && neg == null ==> r == Success(PlainTrace(feed, attend, |attn|)) && attn == old(attn)
      ensures pos != null || neg != null ==>
        var patched := PatchAll(old(attn), InjectionHooks(blockOf, DepthRamp.BlockWeights(nDown, nUp, posPair, negPair)));
        var t := InjectTrace(feed, attend, weighted, patched, |patched|, old(Contents(pos)), old(Contents(neg)));
        && Contents(pos) == t.pos && Contents(neg) == t.neg
        && (t.err.Some? ==> attn == patched)
        && (t.err.None? ==> attn == RestoreAll(patched).mods)
      ensures r == InjectionResult(feed, attend, weighted, old(attn),
        InjectionHooks(blockOf, DepthRamp.BlockWeights(nDown, nUp, posPair, negPair)), old(Contents(pos)), old(Contents(neg)))
      ensures r.Success? ==> attn == old(attn)
    {
      if pos == null && neg == null {
        var out := PlainForward(feed, attend);
        return Success(out);
      }
      var hooks := InjectionHooks(blockOf, DepthRamp.BlockWeights(nDown, nUp, posPair, negPair));
      Patch(hooks);
      var out :- InjectedForward(feed, attend, weighted, pos, neg);
      var ok := Restore();
      RestoreAfterPatch(old(attn), hooks);
      if !ok {
        return Failure(AttributeError);
      }
      r := Success(out);
    }

    /** The forward call of the injection pass over the patched modules, which it leaves as they are. */
    method InjectedForward(feed: Feed, attend: Attend, weighted: WeightedAttend, pos: HiddenQueue?, neg: HiddenQueue?)
      returns (r: Result<seq<Batch>, Error>)
      requires pos == null || neg == null || pos != neg
      modifies pos, neg
      ensures var t := InjectTrace(feed, attend, weighted, attn, |attn|, old(Contents(pos)), old(Contents(neg)));
        && Contents(pos) == t.pos && Contents(neg) == t.neg
        && (t.err.Some? ==> r == Failure(t.err.value))
        && (t.err.None? ==> r == Success(t.outs))
    {
      var mods := attn;
      ghost var pos0, neg0 := Contents(pos), Contents(neg);
      var out := [];
      var m := 0;
      while m < |mods|
        invariant 0 <= m <= |mods|
        invariant Trace(out, Contents(pos), Contents(neg), None) == InjectTrace(feed, attend, weighted, mods, m, pos0, neg0)
      {
        var o := CallModule(m, feed(m, out), mods[m].forward, pos, neg, attend, weighted);
        ghost var pq, nq := Contents(pos), Contents(neg);
        TraceNext(feed, attend, weighted, mods, m, pos0, neg0, out, o, pq, nq);
        if o.Failure? {
          TraceStops(feed, attend, weighted, mods, m + 1, |mods|, pos0, neg0);
          return Failure(o.error);
        }
        assert Trace(out + [o.value], pq, nq, None) == InjectTrace(feed, attend, weighted, mods, m + 1, pos0, neg0);
        out := out + [o.value];
        m := m + 1;
      }
      r := Success(out);
    }
  }
}
