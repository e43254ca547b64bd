/**
 * Hidden-state tensors as nested sequences, and the few shape operations the
 * generator applies to them: chunking a batch in two, concatenating along the
 * sequence axis, and flattening a batch of images into one sequence.
 *
 * A Batch of shape (batch, sequence_length, feature_dim) is a sequence of
 * Tokens (one per image), each a sequence of feature Rows.
 */
module Tensors {
  import opened Wrappers

  type Row = seq<real>
  type Tokens = seq<Row>
  type Batch = seq<Tokens>

  /** The Python exceptions (and the one silent NaN) the modelled code can produce. */
  datatype Error =
    | ValueError         // unpacking a chunk that gave fewer than two parts; int() of a non-digit
    | IndexError         // pop(0) from an exhausted cache list; list index out of range
    | ZeroDivisionError  // integer division by a zero sequence length
    | ShapeMismatch      // torch.cat, split or broadcasting of incompatible shapes
    | AttributeError     // restoring a module that has no saved old_forward
    | AssertionError     // a failed assert (prompt list length, LoRA rank)
    | NotANumber         // renormalising a row whose weighted mass is zero (0/0)
    | UnboundLocalError  // hidden_size read before it was ever assigned

  /**
   * `hidden_states.chunk(2, dim=0)` unpacked into two names: the first part has
   * ceil(B/2) entries. A batch of one entry gives a single part, so the
   * unpacking raises; an empty batch gives two empty parts.
   */
  function Chunk2(b: Batch): (r: Result<(Batch, Batch), Error>)
    ensures r.Success? <==> |b| != 1
    ensures r.Failure? ==> r.error == ValueError
    ensures r.Success? ==> r.value.0 + r.value.1 == b
    ensures r.Success? ==> |r.value.0| == |b| - |b| / 2 && |r.value.1| == |b| / 2
  {
    if |b| == 1 then Failure(ValueError)
    else
      var c := (|b| + 1) / 2;
      assert b[..c] + b[c..] == b;
      Success((b[..c], b[c..]))
  }

  /** A batch doubled by concatenation splits back into its two copies: the conditioned half first. */
  lemma ChunkOfConcat(a: Batch, b: Batch)
    requires |a| == |b|
    ensures Chunk2(a + b) == Success((a, b))
  {
    var r := Chunk2(a + b);
    assert r.Success?;
    var c := (|a + b| + 1) / 2;
    assert c == |a|;
    assert (a + b)[..c] == a;
    assert (a + b)[c..] == b;
  }

  /** Every feature row in `a` and in `b` has the same width. */
  predicate SameWidth(a: Batch, b: Batch)
  {
    forall i, j, k, l ::
      0 <= i < |a| && 0 <= j < |a[i]| && 0 <= k < |b| && 0 <= l < |b[k]| ==> |a[i][j]| == |b[k][l]|
  }

  /**
   * `torch.cat([own, extra], dim=1)`: sample by sample, the extra tokens are
   * appended after the own ones; the batch sizes and the feature widths must agree.
   */
  function CatTokens(own: Batch, extra: Batch): (r: Result<Batch, Error>)
    ensures r.Success? <==> |own| == |extra| && SameWidth(own, extra)
    ensures r.Success? ==> |r.value| == |own|
    ensures r.Success? ==> forall i :: 0 <= i < |own| ==> r.value[i] == own[i] + extra[i]
  {
    if |own| != |extra| || !SameWidth(own, extra) then Failure(ShapeMismatch)
    else
      Success(seq(|own|, i requires 0 <= i < |own| => own[i] + extra[i]))
  }

  /** `view(1, -1, F)` of a batch: its images' token sequences, one after the other. */
  function Flatten(b: Batch): Tokens
  {
    if b == [] then [] else b[0] + Flatten(b[1..])
  }

  /** Every image in `b` has `len` tokens. */
  predicate UniformLength(b: Batch, len: nat)
  {
    forall i :: 0 <= i < |b| ==> |b[i]| == len
  }

  /** Flattening n images of L tokens each gives n * L tokens. */
  lemma {:induction false} FlattenLength(b: Batch, len: nat)
    requires UniformLength(b, len)
    ensures |Flatten(b)| == |b| * len
  {
    if b != [] {
      assert UniformLength(b[1..], len) by {
        forall i | 0 <= i < |b[1..]| ensures |b[1..][i]| == len { assert b[1..][i] == b[i + 1]; }
      }
      FlattenLength(b[1..], len);
      assert |b| * len == len + (|b| - 1) * len;
    }
  }

  /** Flattening is concatenation-preserving: the images of `a` come first, then those of `b`. */
  lemma {:induction false} FlattenConcat(a: Batch, b: Batch)
    ensures Flatten(a + b) == Flatten(a) + Flatten(b)
  {
    if a != [] {
      assert (a + b)[1..] == a[1..] + b;
      FlattenConcat(a[1..], b);
    } else {
      assert a + b == b;
    }
  }

  /** `expand(n, -1, -1)` of a one-image batch: n references to the same tokens. */
  function Share(t: Tokens, n: nat): (r: Batch)
    ensures |r| == n && forall i :: 0 <= i < n ==> r[i] == t
  {
    seq(n, _ => t)
  }

  /**
   * `shape[1]` of a batch, its tokens per image. An empty batch has no image
   * to read it from; it is taken as 1 there, which changes nothing, since every
   * per-image result of an empty batch is empty.
   */
  function SeqLen(b: Batch): (n: nat)
  {
    if |b| > 0 then |b[0]| else 1
  }

  /** `lst[::-1]`, also `reversed(lst)`: the same elements, last first. */
  function Reverse<T>(s: seq<T>): (r: seq<T>)
    ensures |r| == |s| && forall k :: 0 <= k < |s| ==> r[k] == s[|s| - 1 - k]
  {
    seq(|s|, k requires 0 <= k < |s| => s[|s| - 1 - k])
  }
}
