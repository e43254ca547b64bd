/**
 * The rearrangement of the captured hidden states into the two cache lists
 * of `generate`: every captured batch holds the positive references first and
 * the negative ones after them; each polarity's images are laid end to end
 * along the sequence axis, and that one token sequence is shared by all
 * `n_images` generated images.
 */
module References {
  import opened Wrappers
  import opened Tensors

  /** The cache lists handed to the injection pass; None for a polarity without images. */
  datatype Caches = Caches(pos: Option<seq<Batch>>, neg: Option<seq<Batch>>)

  /** `hs.split([n_pos, n_neg], dim=0)`: torch refuses sizes that do not add up to the batch. */
  function SplitRefs(hs: Batch, nPos: nat, nNeg: nat): (r: Result<(Batch, Batch), Error>)
    ensures r.Success? <==> |hs| == nPos + nNeg
    ensures r.Success? ==> r.value.0 + r.value.1 == hs && |r.value.0| == nPos && |r.value.1| == nNeg
  {
    if |hs| != nPos + nNeg then Failure(ShapeMismatch)
    else
      assert hs[..nPos] + hs[nPos..] == hs;
      Success((hs[..nPos], hs[nPos..]))
  }

  /** Every captured batch holds exactly the n_pos + n_neg references. */
  predicate Splittable(captured: seq<Batch>, nPos: nat, nNeg: nat)
  {
    forall k :: 0 <= k < |captured| ==> |captured[k]| == nPos + nNeg
  }

  /** One polarity of one captured batch, as every generated image sees it. */
  function Shared(part: Batch, nImages: nat): Batch
  {
    Share(Flatten(part), nImages)
  }

  /** The whole rearrangement as a value. */
  function Arrange(captured: seq<Batch>, nPos: nat, nNeg: nat, nImages: nat): (r: Result<Caches, Error>)
    ensures r.Success? <==> Splittable(captured, nPos, nNeg)
  {
    if !Splittable(captured, nPos, nNeg) then Failure(ShapeMismatch)
    else
      Success(Caches(
        if nPos == 0 then None
        else Some(seq(|captured|, k requires 0 <= k < |captured| => Shared(captured[k][..nPos], nImages))),
        if nNeg == 0 then None
        else Some(seq(|captured|, k requires 0 <= k < |captured| && |captured[k]| >= nPos => Shared(captured[k][nPos..], nImages)))))
  }

  /**
   * The loop of `generate` over the captured states: split each one, flatten
   * and share both parts, append them to the two lists; then a polarity
   * without images is replaced by None.
   */
  method Rearrange(captured: seq<Batch>, nPos: nat, nNeg: nat, nImages: nat) returns (r: Result<Caches, Error>)
    ensures r == Arrange(captured, nPos, nNeg, nImages)
  {
    var posList: seq<Batch> := [];
    var negList: seq<Batch> := [];
    var k := 0;
    while k < |captured|
      invariant 0 <= k <= |captured|
      invariant Splittable(captured[..k], nPos, nNeg)
      invariant |posList| == k && |negList| == k
      invariant forall j :: 0 <= j < k ==> posList[j] == Shared(captured[j][..nPos], nImages)
      invariant forall j :: 0 <= j < k ==> |captured[j]| >= nPos && negList[j] == Shared(captured[j][nPos..], nImages)
    {
      var parts := SplitRefs(captured[k], nPos, nNeg);
      if parts.Failure? {
        assert !Splittable(captured, nPos, nNeg) by { assert |captured[k]| != nPos + nNeg; }
        return Failure(parts.error);
      }
      assert parts.value.0 == captured[k][..nPos] && parts.value.1 == captured[k][nPos..];
      posList := posList + [Shared(parts.value.0, nImages)];
      negList := negList + [Shared(parts.value.1, nImages)];
      k := k + 1;
    }
    assert captured[..k] == captured;
    var pos: Option<seq<Batch>> := Some(posList);
    var neg: Option<seq<Batch>> := Some(negList);
    if nPos == 0 {
      pos := None;
    }
    if nNeg == 0 {
      neg := None;
    }
    assert nPos != 0 ==> posList == seq(|captured|, k requires 0 <= k < |captured| => Shared(captured[k][..nPos], nImages));
    assert nNeg != 0 ==> negList == seq(|captured|, k requires 0 <= k < |captured| && |captured[k]| >= nPos => Shared(captured[k][nPos..], nImages));
    r := Success(Caches(pos, neg));
  }

  /**
   * What a cache list holds: one entry per captured state, in capture order;
   * for every generated image the same tokens, the polarity's references laid
   * end to end along the sequence axis; a polarity is None exactly when it has
   * no images; and the positive and negative tokens together are the whole
   * captured batch, flattened.
   */
  lemma ArrangedCaches(captured: seq<Batch>, nPos: nat, nNeg: nat, nImages: nat, k: nat, i: nat)
    requires Splittable(captured, nPos, nNeg) && k < |captured| && i < nImages
    ensures var c := Arrange(captured, nPos, nNeg, nImages).value;
      && (c.pos.None? <==> nPos == 0)
      && (c.neg.None? <==> nNeg == 0)
      && (c.pos.Some? ==> |c.pos.value| == |captured| && c.pos.value[k][i] == Flatten(captured[k][..nPos]))
      && (c.neg.Some? ==> |c.neg.value| == |captured| && c.neg.value[k][i] == Flatten(captured[k][nPos..]))
  {
  }

  lemma PolaritiesCoverBatch(hs: Batch, nPos: nat)
    requires nPos <= |hs|
    ensures Flatten(hs[..nPos]) + Flatten(hs[nPos..]) == Flatten(hs)
  {
    var front, back := hs[..nPos], hs[nPos..];
    assert front + back == hs;
    FlattenConcat(front, back);
  }

  /**
   * When every reference has the block's sequence length L, each shared entry
   * holds n_pos * L (or n_neg * L) tokens: the cached length C that the
   * injection pass's weight vector is built for.
   */
  lemma ArrangedLength(captured: seq<Batch>, nPos: nat, nNeg: nat, nImages: nat, k: nat, i: nat, len: nat)
    requires Splittable(captured, nPos, nNeg) && k < |captured| && i < nImages
    requires UniformLength(captured[k], len)
    ensures var c := Arrange(captured, nPos, nNeg, nImages).value;
      && (c.pos.Some? ==> |c.pos.value[k][i]| == nPos * len)
      && (c.neg.Some? ==> |c.neg.value[k][i]| == nNeg * len)
  {
    var hs := captured[k];
    assert UniformLength(hs[..nPos], len) by {
      forall j | 0 <= j < nPos ensures |hs[..nPos][j]| == len { assert hs[..nPos][j] == hs[j]; }
    }
    assert UniformLength(hs[nPos..], len) by {
      forall j | 0 <= j < nNeg ensures |hs[nPos..][j]| == len { assert hs[nPos..][j] == hs[nPos + j]; }
    }
    FlattenLength(hs[..nPos], len);
    FlattenLength(hs[nPos..], len);
  }
}
