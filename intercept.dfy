/**
 * The per-block interception installed by the injection pass: the block's
 * batch is split at its midpoint, each half attends either to itself and the
 * next cached reference state (weighted) or, without a cache, to itself
 * alone (plain), and the two outputs are concatenated again.
 */
module Interception {
  import opened Wrappers
  import opened Tensors
  import opened Arith
  import Renormalise

  /** A module's ordinary self-attention (its original `forward`), by module. */
  type Attend = (nat, Batch) -> Batch
  /** `attn_with_weights(module, query, keys, weights)`: the tensor maths kept outside the model. */
  type WeightedAttend = (nat, Batch, Batch, seq<Row>) -> Batch

  /** Attention returns one output per query sample. */
  ghost predicate PreservesBatch(attend: Attend, weighted: WeightedAttend)
  {
    && (forall t, x :: |attend(t, x)| == |x|)
    && (forall t, q, k, w :: |weighted(t, q, k, w)| == |q|)
  }

  /** `n` copies of `s` side by side. */
  function Repeat(s: Row, n: nat): Row
  {
    if n == 0 then [] else s + Repeat(s, n - 1)
  }

  lemma {:induction false} RepeatOnes(len: nat, n: nat)
    ensures |Repeat(Renormalise.Ones(len), n)| == len * n
    ensures forall k :: 0 <= k < len * n ==> Repeat(Renormalise.Ones(len), n)[k] == 1.0
  {
    if n > 0 {
      RepeatOnes(len, n - 1);
      MulSucc(n - 1, len);
      assert len * n == len + len * (n - 1);
    }
  }

  /**
   * One row of the weight matrix: `ones(d_model)` repeated `1 + C // d_model`
   * times, then every position from `d_model` on overwritten with the block's
   * injection weight. `d_model` is the block's own sequence length and C the
   * cached one; integer division by a zero length raises.
   */
  function WeightRow(seqLen: nat, cachedLen: nat, w: real): Result<Row, Error>
  {
    if seqLen == 0 then Failure(ZeroDivisionError)
    else
      var repeated := Repeat(Renormalise.Ones(seqLen), 1 + cachedLen / seqLen);
      RepeatOnes(seqLen, 1 + cachedLen / seqLen);
      MulSucc(cachedLen / seqLen, seqLen);
      Success(repeated[..seqLen] + seq(|repeated| - seqLen, _ => w))
  }

  /** The layout of the weight row: length L * (1 + C div L), L ones, then the injection weight. */
  lemma WeightRowLayout(seqLen: nat, cachedLen: nat, w: real)
    ensures WeightRow(seqLen, cachedLen, w).Success? <==> seqLen > 0
    ensures seqLen > 0 ==> |WeightRow(seqLen, cachedLen, w).value| == seqLen * (1 + cachedLen / seqLen)
    ensures seqLen > 0 ==> forall k :: 0 <= k < |WeightRow(seqLen, cachedLen, w).value| ==>
      WeightRow(seqLen, cachedLen, w).value[k] == if k < seqLen then 1.0 else w
  {
    if seqLen > 0 {
      RepeatOnes(seqLen, 1 + cachedLen / seqLen);
      MulSucc(cachedLen / seqLen, seqLen);
    }
  }

  /**
   * The row covers the concatenated keys (L own plus C cached positions)
   * exactly when C is a multiple of L; in particular when the cache holds
   * n images at the block's own resolution, C == n * L.
   */
  lemma WeightRowFitsKeys(seqLen: nat, cachedLen: nat, w: real)
    requires seqLen > 0
    ensures |WeightRow(seqLen, cachedLen, w).value| == seqLen + cachedLen <==> cachedLen % seqLen == 0
    ensures forall n: nat :: cachedLen == n * seqLen ==> |WeightRow(seqLen, cachedLen, w).value| == seqLen + cachedLen
  {
    WeightRowLayout(seqLen, cachedLen, w);
    var q, r := cachedLen / seqLen, cachedLen % seqLen;
    assert cachedLen == q * seqLen + r;
    MulSucc(q, seqLen);
    assert seqLen * (1 + q) == seqLen + q * seqLen;
    forall n: nat | cachedLen == n * seqLen
      ensures |WeightRow(seqLen, cachedLen, w).value| == seqLen + cachedLen
    {
      DivModUnique(cachedLen, seqLen, n, 0);
    }
  }

  /**
   * The closure's construction of the weight row: a fresh buffer of ones
   * (`weights.clone().repeat(...)`) whose tail is then assigned in place
   * (`pos_weights[:, d_model:] = pos_weight`).
   */
  method BuildWeightRow(seqLen: nat, cachedLen: nat, w: real) returns (r: Result<Row, Error>)
    ensures r == WeightRow(seqLen, cachedLen, w)
  {
    if seqLen == 0 {
      return Failure(ZeroDivisionError);
    }
    WeightRowLayout(seqLen, cachedLen, w);
    var size := seqLen * (1 + cachedLen / seqLen);
    MulSucc(cachedLen / seqLen, seqLen);
    var a := new real[size];
    var k := 0;
    while k < size
      invariant 0 <= k <= size
      invariant forall i :: 0 <= i < k ==> a[i] == 1.0
    {
      a[k] := 1.0;
      k := k + 1;
    }
    k := seqLen;
    while k < size
      invariant seqLen <= k <= size
      invariant forall i :: 0 <= i < seqLen ==> a[i] == 1.0
      invariant forall i :: seqLen <= i < k ==> a[i] == w
    {
      a[k] := w;
      k := k + 1;
    }
    var expected := WeightRow(seqLen, cachedLen, w).value;
    assert |expected| == size;
    assert forall i :: 0 <= i < size ==> a[..][i] == expected[i];
    assert a[..] == expected;
    r := Success(a[..]);
  }

  /**
   * Weighted attention of one half against its own tokens followed by one cached
   * reference state. The weight matrix has one row per sample of the
   * conditioned half (`batch`); it must broadcast against the attention scores
   * of this half and cover every key position, else ShapeMismatch.
   */
  function CachedAttention(tag: nat, half: Batch, cached: Batch, batch: nat, seqLen: nat, w: real, weighted: WeightedAttend): Result<Batch, Error>
  {
    var keys :- CatTokens(half, cached);
    var row :- WeightRow(seqLen, if |cached| > 0 then |cached[0]| else 0, w);
    if !(batch == 1 || batch == |half|) || !(forall i :: 0 <= i < |keys| ==> |keys[i]| == |row|) then Failure(ShapeMismatch)
    else Success(weighted(tag, half, keys, seq(batch, _ => row)))
  }

  /**
   * One half of the batch. Without a cache the half goes through the module's
   * saved forward. With one, the next cached state is popped first (IndexError
   * when the list is exhausted) and the half attends to itself and that state.
   * The second component is the cache list afterwards.
   */
  function AttendHalf(tag: nat, half: Batch, cache: Option<seq<Batch>>, batch: nat, seqLen: nat, w: real,
                      attend: Attend, weighted: WeightedAttend): (Result<Batch, Error>, Option<seq<Batch>>)
  {
    match cache
    case None => (Success(attend(tag, half)), None)
    case Some(items) =>
      if items == [] then (Failure(IndexError), cache)
      else (CachedAttention(tag, half, items[0], batch, seqLen, w, weighted), Some(items[1..]))
  }

  /**
   * A half without a cache gets ordinary attention and leaves the cache absent;
   * a half whose cached attention succeeded popped the front state it attended to.
   */
  lemma AttendHalfCases(tag: nat, half: Batch, cache: Option<seq<Batch>>, batch: nat, seqLen: nat, w: real,
                        attend: Attend, weighted: WeightedAttend)
    ensures var h := AttendHalf(tag, half, cache, batch, seqLen, w, attend, weighted);
      cache.None? ==> h == (Success(attend(tag, half)), None)
    ensures var h := AttendHalf(tag, half, cache, batch, seqLen, w, attend, weighted);
      cache.Some? && h.0.Success? ==>
        && |cache.value| >= 1 && h.1 == Some(cache.value[1..])
        && h.0 == CachedAttention(tag, half, cache.value[0], batch, seqLen, w, weighted)
  {
  }

  /** A half that attended successfully keeps its number of samples. */
  lemma AttendHalfSize(tag: nat, half: Batch, cache: Option<seq<Batch>>, batch: nat, seqLen: nat, w: real,
                       attend: Attend, weighted: WeightedAttend)
    requires PreservesBatch(attend, weighted)
    requires AttendHalf(tag, half, cache, batch, seqLen, w, attend, weighted).0.Success?
    ensures |AttendHalf(tag, half, cache, batch, seqLen, w, attend, weighted).0.value| == |half|
  {
  }

  /** What one intercepted call produces, and the two cache lists after it. */
  datatype Interception = Interception(out: Result<Batch, Error>, pos: Option<seq<Batch>>, neg: Option<seq<Batch>>)

  /**
   * The injected `new_forward` of one module: chunk the batch in two, the
   * conditioned half with the positive cache and weight, the unconditioned
   * half with the negative ones, and concatenate `out_pos ++ out_neg`. The
   * batch size and sequence length of the weights come from the conditioned half.
   */
  function Intercept(tag: nat, x: Batch, pos: Option<seq<Batch>>, neg: Option<seq<Batch>>, posWeight: real, negWeight: real,
                     attend: Attend, weighted: WeightedAttend): Interception
  {
    match Chunk2(x)
    case Failure(e) => Interception(Failure(e), pos, neg)
    case Success(halves) =>
      var cond, uncond := halves.0, halves.1;
      var batch, seqLen := |cond|, SeqLen(cond);
      var (outPos, pos') := AttendHalf(tag, cond, pos, batch, seqLen, posWeight, attend, weighted);
      if outPos.Failure? then Interception(Failure(outPos.error), pos', neg)
      else
        var (outNeg, neg') := AttendHalf(tag, uncond, neg, batch, seqLen, negWeight, attend, weighted);
        if outNeg.Failure? then Interception(Failure(outNeg.error), pos', neg')
        else Interception(Success(outPos.value + outNeg.value), pos', neg')
  }

  /**
   * Each successful interception pops exactly one state from the front of every
   * cache that is present and leaves an absent cache absent.
   */
  lemma InterceptPops(tag: nat, x: Batch, pos: Option<seq<Batch>>, neg: Option<seq<Batch>>, pw: real, nw: real,
                      attend: Attend, weighted: WeightedAttend)
    requires Intercept(tag, x, pos, neg, pw, nw, attend, weighted).out.Success?
    ensures var r := Intercept(tag, x, pos, neg, pw, nw, attend, weighted);
      && (pos.None? ==> r.pos.None?)
      && (pos.Some? ==> |pos.value| >= 1 && r.pos == Some(pos.value[1..]))
      && (neg.None? ==> r.neg.None?)
      && (neg.Some? ==> |neg.value| >= 1 && r.neg == Some(neg.value[1..]))
  {
    var halves := Chunk2(x).value;
    var cond, uncond := halves.0, halves.1;
    var hp := AttendHalf(tag, cond, pos, |cond|, SeqLen(cond), pw, attend, weighted);
    var hn := AttendHalf(tag, uncond, neg, |cond|, SeqLen(cond), nw, attend, weighted);
    assert Intercept(tag, x, pos, neg, pw, nw, attend, weighted) == Interception(Success(hp.0.value + hn.0.value), hp.1, hn.1);
    AttendHalfCases(tag, cond, pos, |cond|, SeqLen(cond), pw, attend, weighted);
    AttendHalfCases(tag, uncond, neg, |cond|, SeqLen(cond), nw, attend, weighted);
  }

  /**
   * The output has the input's batch size and order: its first half is the
   * conditioned half's output, its second half the unconditioned one's. A half
   * without a cache gets exactly the module's ordinary attention; a half with
   * one gets weighted attention against the front cached state, with the
   * weight of its polarity and the batch size and sequence length of the
   * conditioned half.
   */
  lemma InterceptBatch(tag: nat, x: Batch, pos: Option<seq<Batch>>, neg: Option<seq<Batch>>, pw: real, nw: real,
                       attend: Attend, weighted: WeightedAttend)
    requires PreservesBatch(attend, weighted)
    requires Intercept(tag, x, pos, neg, pw, nw, attend, weighted).out.Success?
    ensures var out := Intercept(tag, x, pos, neg, pw, nw, attend, weighted).out.value;
      var c := (|x| + 1) / 2;
      && |x| != 1 && |out| == |x|
      && (pos.None? ==> out[..c] == attend(tag, x[..c]))
      && (neg.None? ==> out[c..] == attend(tag, x[c..]))
    ensures pos.Some? ==> |pos.value| >= 1
    ensures neg.Some? ==> |neg.value| >= 1
    ensures var out := Intercept(tag, x, pos, neg, pw, nw, attend, weighted).out.value;
      var c := (|x| + 1) / 2;
      pos.Some? ==> CachedAttention(tag, x[..c], pos.value[0], c, SeqLen(x[..c]), pw, weighted) == Success(out[..c])
    ensures var out := Intercept(tag, x, pos, neg, pw, nw, attend, weighted).out.value;
      var c := (|x| + 1) / 2;
      neg.Some? ==> CachedAttention(tag, x[c..], neg.value[0], c, SeqLen(x[..c]), nw, weighted) == Success(out[c..])
  {
    var halves := Chunk2(x).value;
    var cond, uncond := halves.0, halves.1;
    assert cond == x[..(|x| + 1) / 2];
    assert uncond == x[(|x| + 1) / 2..];
    var hp := AttendHalf(tag, cond, pos, |cond|, SeqLen(cond), pw, attend, weighted);
    var hn := AttendHalf(tag, uncond, neg, |cond|, SeqLen(cond), nw, attend, weighted);
    assert Intercept(tag, x, pos, neg, pw, nw, attend, weighted) == Interception(Success(hp.0.value + hn.0.value), hp.1, hn.1);
    AttendHalfCases(tag, cond, pos, |cond|, SeqLen(cond), pw, attend, weighted);
    AttendHalfCases(tag, uncond, neg, |cond|, SeqLen(cond), nw, attend, weighted);
    AttendHalfSize(tag, cond, pos, |cond|, SeqLen(cond), pw, attend, weighted);
    AttendHalfSize(tag, uncond, neg, |cond|, SeqLen(cond), nw, attend, weighted);
    assert (hp.0.value + hn.0.value)[..(|x| + 1) / 2] == hp.0.value;
    assert (hp.0.value + hn.0.value)[(|x| + 1) / 2..] == hn.0.value;
  }

  /** Without any cache the interception is ordinary attention applied to each half separately. */
  lemma InterceptWithoutCaches(tag: nat, x: Batch, pw: real, nw: real, attend: Attend, weighted: WeightedAttend)
    requires |x| != 1
    ensures var c := (|x| + 1) / 2;
      Intercept(tag, x, None, None, pw, nw, attend, weighted) == Interception(Success(attend(tag, x[..c]) + attend(tag, x[c..])), None, None)
  {
  }

  /** A Python list shared by every injected closure of one pass. */
  class HiddenQueue {
    var items: seq<Batch>

    constructor (items: seq<Batch>)
      ensures this.items == items
    {
      this.items := items;
    }

    /** `pop(0)`. */
    method PopFront() returns (r: Result<Batch, Error>)
      modifies this
      ensures old(items) == [] ==> r == Failure(IndexError) && items == []
      ensures old(items) != [] ==> r == Success(old(items)[0]) && items == old(items)[1..]
    {
      if items == [] {
        r := Failure(IndexError);
      } else {
        r := Success(items[0]);
        items := items[1..];
      }
    }
  }

  /** The contents of an optional cache list (`None` for Python's `None`). */
  function Contents(q: HiddenQueue?): Option<seq<Batch>>
    reads q
  {
    if q == null then None else Some(q.items)
  }

  /** The weighted branch of one half, building the weight row as the closure does. */
  method CachedBlockAttention(tag: nat, half: Batch, cached: Batch, batch: nat, seqLen: nat, w: real, weighted: WeightedAttend)
    returns (r: Result<Batch, Error>)
    ensures r == CachedAttention(tag, half, cached, batch, seqLen, w, weighted)
  {
    var keys := CatTokens(half, cached);
    if keys.Failure? {
      return Failure(keys.error);
    }
    var row := BuildWeightRow(seqLen, if |cached| > 0 then |cached[0]| else 0, w);
    if row.Failure? {
      return Failure(row.error);
    }
    if !(batch == 1 || batch == |half|) || !(forall i :: 0 <= i < |keys.value| ==> |keys.value[i]| == |row.value|) {
      return Failure(ShapeMismatch);
    }
    r := Success(weighted(tag, half, keys.value, seq(batch, _ => row.value)));
  }

  /** One half against its optional shared cache list, popping from it as the closure does. */
  method AttendHalfWith(tag: nat, half: Batch, cache: HiddenQueue?, batch: nat, seqLen: nat, w: real,
                        attend: Attend, weighted: WeightedAttend) returns (r: Result<Batch, Error>)
    modifies cache
    ensures (r, Contents(cache)) == AttendHalf(tag, half, old(Contents(cache)), batch, seqLen, w, attend, weighted)
  {
    if cache == null {
      r := Success(attend(tag, half));
    } else {
      var popped := cache.PopFront();
      if popped.Failure? {
        r := Failure(popped.error);
      } else {
        r := CachedBlockAttention(tag, half, popped.value, batch, seqLen, w, weighted);
      }
    }
  }

  /** The injected `new_forward` run against the two shared cache lists. */
  method InterceptBlock(tag: nat, x: Batch, pos: HiddenQueue?, neg: HiddenQueue?, posWeight: real, negWeight: real,
                        attend: Attend, weighted: WeightedAttend) returns (out: Result<Batch, Error>)
    requires pos == null || neg == null || pos != neg
    modifies pos, neg
    ensures Interception(out, Contents(pos), Contents(neg))
         == Intercept(tag, x, old(Contents(pos)), old(Contents(neg)), posWeight, negWeight, attend, weighted)
  {
    var halves := Chunk2(x);
    if halves.Failure? {
      return Failure(halves.error);
    }
    var cond, uncond := halves.value.0, halves.value.1;
    var batch, seqLen := |cond|, SeqLen(cond);
    var outPos := AttendHalfWith(tag, cond, pos, batch, seqLen, posWeight, attend, weighted);
    if outPos.Failure? {
      return Failure(outPos.error);
    }
    var outNeg := AttendHalfWith(tag, uncond, neg, batch, seqLen, negWeight, attend, weighted);
    if outNeg.Failure? {
      return Failure(outNeg.error);
    }
    out := Success(outPos.value + outNeg.value);
  }
}
