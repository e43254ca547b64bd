/**
 * The reweighting step of `attn_with_weights` on the reference (non-fused)
 * path: the per-key weights are repeat-interleaved over the attention heads
 * (unless their batch size is 1), every attention probability is multiplied by
 * its key's weight, and each row is divided by its new total.
 */
module Renormalise {
  import opened Wrappers
  import opened Tensors
  import opened Arith

  function Sum(s: seq<real>): real
  {
    if s == [] then 0.0 else s[0] + Sum(s[1..])
  }

  /** `attention_probs * weights`, one key at a time. */
  function Weighted(p: Row, w: Row): (r: Row)
    requires |p| == |w|
    ensures |r| == |p|
  {
    seq(|p|, k requires 0 <= k < |p| => p[k] * w[k])
  }

  /** The weighted mass of a row: the total the row is divided by. */
  function Mass(p: Row, w: Row): real
    requires |p| == |w|
  {
    Sum(Weighted(p, w))
  }

  /** One renormalised row; the division by a zero mass, a NaN row in torch, is reported as NotANumber. */
  function RenormRow(p: Row, w: Row): (r: Result<Row, Error>)
    ensures r.Success? <==> |p| == |w| && Mass(p, w) != 0.0
    ensures r.Success? ==> |r.value| == |p|
  {
    if |p| != |w| then Failure(ShapeMismatch)
    else
      var m := Mass(p, w);
      if m == 0.0 then Failure(NotANumber)
      else Success(seq(|p|, k requires 0 <= k < |p| => p[k] * w[k] / m))
  }

  lemma {:induction false} SumDivided(s: seq<real>, c: real)
    requires c != 0.0
    ensures Sum(seq(|s|, k requires 0 <= k < |s| => s[k] / c)) == Sum(s) / c
  {
    var d := seq(|s|, k requires 0 <= k < |s| => s[k] / c);
    if s != [] {
      assert d[1..] == seq(|s[1..]|, k requires 0 <= k < |s[1..]| => s[1..][k] / c);
      SumDivided(s[1..], c);
      assert Sum(d) == s[0] / c + Sum(s[1..]) / c;
    }
  }

  /** A renormalised row is a probability distribution again: it sums to 1. */
  lemma RenormSumsToOne(p: Row, w: Row)
    requires |p| == |w| && Mass(p, w) != 0.0
    ensures Sum(RenormRow(p, w).value) == 1.0
  {
    var wp := Weighted(p, w);
    SumDivided(wp, Mass(p, w));
    assert RenormRow(p, w).value == seq(|wp|, k requires 0 <= k < |wp| => wp[k] / Mass(p, w));
  }

  function Ones(n: nat): (r: Row)
    ensures |r| == n && forall k :: 0 <= k < n ==> r[k] == 1.0
  {
    seq(n, _ => 1.0)
  }

  /** All-ones weights leave a row that already sums to 1 unchanged. */
  lemma RenormOnes(p: Row)
    requires Sum(p) == 1.0
    ensures RenormRow(p, Ones(|p|)) == Success(p)
  {
    var w := Ones(|p|);
    assert forall k :: 0 <= k < |p| ==> Weighted(p, w)[k] == p[k];
    assert Weighted(p, w) == p;
    var r := RenormRow(p, w);
    assert r.Success?;
    assert forall k :: 0 <= k < |p| ==> r.value[k] == p[k] * 1.0 / 1.0 == p[k];
    assert r.value == p;
  }

  /**
   * Softmax rows are strictly positive, so a row's weighted mass is positive as
   * soon as the weights are non-negative and one of them is not zero.
   */
  lemma {:induction false} MassPositive(p: Row, w: Row, i: nat)
    requires |p| == |w| && i < |p|
    requires forall k :: 0 <= k < |p| ==> p[k] > 0.0 && w[k] >= 0.0
    requires w[i] > 0.0
    ensures Mass(p, w) > 0.0
  {
    MassStep(p, w);
    MassNonNegative(p[1..], w[1..]);
    if i > 0 {
      assert p[0] * w[0] >= 0.0 by { MulNonNegative(p[0], w[0]); }
      MassPositive(p[1..], w[1..], i - 1);
    } else {
      assert p[0] * w[0] > 0.0 by { MulPositive(p[0], w[0]); }
    }
  }

  lemma MulPositive(x: real, y: real)
    requires x > 0.0 && y > 0.0
    ensures x * y > 0.0
  {
  }

  lemma MassStep(p: Row, w: Row)
    requires |p| == |w| && p != []
    ensures Mass(p, w) == p[0] * w[0] + Mass(p[1..], w[1..])
  {
    var a, b := Weighted(p, w), Weighted(p[1..], w[1..]);
    assert |a[1..]| == |b|;
    assert forall k :: 0 <= k < |b| ==> a[1..][k] == a[k + 1] == p[k + 1] * w[k + 1] == b[k];
    assert a[1..] == b;
  }

  lemma {:induction false} MassNonNegative(p: Row, w: Row)
    requires |p| == |w|
    requires forall k :: 0 <= k < |p| ==> p[k] > 0.0 && w[k] >= 0.0
    ensures Mass(p, w) >= 0.0
  {
    if p != [] {
      MassStep(p, w);
      MassNonNegative(p[1..], w[1..]);
      MulNonNegative(p[0], w[0]);
    }
  }

  /** `weights.repeat_interleave(heads, dim=0)`: each weight row repeated once per head, in place. */
  function RepeatInterleave(ws: seq<Row>, heads: nat): seq<Row>
  {
    if ws == [] then [] else seq(heads, _ => ws[0]) + RepeatInterleave(ws[1..], heads)
  }

  lemma {:induction false} RepeatInterleaveLength(ws: seq<Row>, heads: nat)
    ensures |RepeatInterleave(ws, heads)| == |ws| * heads
  {
    if ws != [] {
      RepeatInterleaveLength(ws[1..], heads);
      MulSucc(|ws| - 1, heads);
    }
  }

  /** Row j of the interleaved weights is `weights[j div heads]`. */
  lemma {:induction false} RepeatInterleaveAt(ws: seq<Row>, heads: nat, j: nat)
    requires heads > 0 && j < |ws| * heads
    ensures j / heads < |ws| && |RepeatInterleave(ws, heads)| == |ws| * heads
    ensures RepeatInterleave(ws, heads)[j] == ws[j / heads]
  {
    var n := |ws|;
    assert n > 0;
    RepeatInterleaveLength(ws, heads);
    MulSucc(n - 1, heads);
    var rest := RepeatInterleave(ws[1..], heads);
    RepeatInterleaveLength(ws[1..], heads);
    var r := RepeatInterleave(ws, heads);
    assert r == seq(heads, _ => ws[0]) + rest;
    if j < heads {
      DivModUnique(j, heads, 0, j);
      assert r[j] == ws[0];
    } else {
      assert r[j] == rest[j - heads];
      RepeatInterleaveAt(ws[1..], heads, j - heads);
      DivShift(j, heads);
    }
  }

  /** The weight row that multiplies row j of the attention probabilities. */
  function WeightRowFor(ws: seq<Row>, heads: nat, j: nat): Row
    requires |ws| == 1 || j < |ws| * heads
  {
    if |ws| == 1 then ws[0]
    else
      RepeatInterleaveLength(ws, heads);
      RepeatInterleave(ws, heads)[j]
  }

  /** Whether the weights broadcast against probabilities of `rows` rows: batch 1, or one row per head after interleaving. */
  predicate BatchFits(ws: seq<Row>, heads: nat, rows: nat)
  {
    |ws| == 1 || |ws| * heads == rows
  }

  /**
   * The reweighting of lines 104-108 over the whole score tensor
   * `probs[batch * heads][query][key]`: ShapeMismatch when the weights do not
   * broadcast, NotANumber when some row has zero weighted mass.
   */
  function Reweight(probs: seq<seq<Row>>, ws: seq<Row>, heads: nat): (r: Result<seq<seq<Row>>, Error>)
    ensures r.Success? ==> |r.value| == |probs|
    ensures r.Success? ==> BatchFits(ws, heads, |probs|)
    ensures r.Success? ==> forall j :: 0 <= j < |probs| ==> |r.value[j]| == |probs[j]|
    ensures r.Success? ==> forall j, q :: 0 <= j < |probs| && 0 <= q < |probs[j]| ==>
      |r.value[j]| == |probs[j]| && RenormRow(probs[j][q], WeightRowFor(ws, heads, j)) == Success(r.value[j][q])
    ensures r.Success? <==> (BatchFits(ws, heads, |probs|) && forall j, q :: 0 <= j < |probs| && 0 <= q < |probs[j]| ==>
      |probs[j][q]| == |WeightRowFor(ws, heads, j)| && Mass(probs[j][q], WeightRowFor(ws, heads, j)) != 0.0)
    ensures r.Failure? ==> r.error == ShapeMismatch || r.error == NotANumber
    ensures r.Failure? ==> (r.error == NotANumber <==> (BatchFits(ws, heads, |probs|) &&
      forall j, q :: 0 <= j < |probs| && 0 <= q < |probs[j]| ==> |probs[j][q]| == |WeightRowFor(ws, heads, j)|))
  {
    if !BatchFits(ws, heads, |probs|) then Failure(ShapeMismatch)
    else if !(forall j, q :: 0 <= j < |probs| && 0 <= q < |probs[j]| ==> |probs[j][q]| == |WeightRowFor(ws, heads, j)|) then
      Failure(ShapeMismatch)
    else if !(forall j, q :: 0 <= j < |probs| && 0 <= q < |probs[j]| ==> Mass(probs[j][q], WeightRowFor(ws, heads, j)) != 0.0) then
      Failure(NotANumber)
    else
      Success(seq(|probs|, j requires 0 <= j < |probs| =>
        seq(|probs[j]|, q requires 0 <= q < |probs[j]| => RenormRow(probs[j][q], WeightRowFor(ws, heads, j)).value)))
  }

  /**
   * After a successful reweighting every probability row sums to 1, and the row
   * of batch-head j was weighted by `weights[j div heads]` (or by the single
   * weight row when the weights have batch size 1).
   */
  lemma ReweightRows(probs: seq<seq<Row>>, ws: seq<Row>, heads: nat, r: seq<seq<Row>>, j: nat, q: nat)
    requires Reweight(probs, ws, heads) == Success(r)
    requires j < |probs| && q < |probs[j]|
    ensures j < |r| && q < |r[j]|
    ensures Sum(r[j][q]) == 1.0
    ensures |ws| != 1 ==> heads > 0 && 0 <= j / heads < |ws|
    ensures |ws| != 1 ==> RenormRow(probs[j][q], ws[j / heads]) == Success(r[j][q])
    ensures |ws| == 1 ==> RenormRow(probs[j][q], ws[0]) == Success(r[j][q])
  {
    var w := WeightRowFor(ws, heads, j);
    assert RenormRow(probs[j][q], w) == Success(r[j][q]);
    RenormSumsToOne(probs[j][q], w);
    if |ws| != 1 {
      assert heads > 0;
      RepeatInterleaveAt(ws, heads, j);
    }
  }

  /** Weights that are all ones leave probability rows that already sum to 1 as they were. */
  lemma ReweightOnes(probs: seq<seq<Row>>, ws: seq<Row>, heads: nat)
    requires BatchFits(ws, heads, |probs|)
    requires forall i :: 0 <= i < |ws| ==> ws[i] == Ones(|ws[i]|)
    requires forall j, q :: 0 <= j < |probs| && 0 <= q < |probs[j]| ==>
      |probs[j][q]| == |WeightRowFor(ws, heads, j)| && Sum(probs[j][q]) == 1.0
    ensures Reweight(probs, ws, heads) == Success(probs)
  {
    forall j, q | 0 <= j < |probs| && 0 <= q < |probs[j]|
      ensures RenormRow(probs[j][q], WeightRowFor(ws, heads, j)) == Success(probs[j][q])
    {
      var w := WeightRowFor(ws, heads, j);
      if |ws| != 1 {
        assert heads > 0;
        RepeatInterleaveAt(ws, heads, j);
      }
      assert w == Ones(|probs[j][q]|);
      RenormOnes(probs[j][q]);
    }
    var r := Reweight(probs, ws, heads);
    assert r.Success?;
    forall j | 0 <= j < |probs|
      ensures r.value[j] == probs[j]
    {
      assert |r.value[j]| == |probs[j]|;
      forall q | 0 <= q < |probs[j]|
        ensures r.value[j][q] == probs[j][q]
      {
        assert RenormRow(probs[j][q], WeightRowFor(ws, heads, j)) == Success(r.value[j][q]);
      }
    }
    assert r.value == probs;
  }
}
