/**
 * The depth ramp of the injection pass: for a weight pair (own, bottleneck) and
 * `n` down blocks, `linspace(own, bottleneck, n + 1)` without its last element
 * weights the down blocks, the bottleneck value weights the mid block, and the
 * reversed ramp weights the up blocks. The ramp is zipped against
 * `down_blocks + [mid_block] + up_blocks`, so the shortest list decides.
 */
module DepthRamp {
  import opened Arith
  import opened Tensors

  /** `torch.linspace(a, b, steps)` over the reals: `steps` evenly spaced values from a to b. */
  function Linspace(a: real, b: real, steps: nat): (r: seq<real>)
    ensures |r| == steps
  {
    seq(steps, k requires 0 <= k < steps => LinspaceAt(a, b, steps, k))
  }

  /** Element k of `linspace(a, b, steps)`. */
  function LinspaceAt(a: real, b: real, steps: nat, k: nat): real
  {
    if steps == 1 then a else a + (k as real) * (b - a) / ((steps - 1) as real)
  }

  /** The ramp starts at a and, with at least two steps, ends exactly at b. */
  lemma LinspaceEnds(a: real, b: real, steps: nat)
    ensures steps >= 1 ==> Linspace(a, b, steps)[0] == a
    ensures steps >= 2 ==> Linspace(a, b, steps)[steps - 1] == b
  {
    if steps >= 1 {
      assert Linspace(a, b, steps)[0] == LinspaceAt(a, b, steps, 0);
    }
    if steps >= 2 {
      assert Linspace(a, b, steps)[steps - 1] == LinspaceAt(a, b, steps, steps - 1);
      DivCancel(b - a, (steps - 1) as real);
    }
  }

  lemma DivCancel(x: real, n: real)
    requires n != 0.0
    ensures n * x / n == x
  {
  }

  /** `linspace(a, b, n + 1)[:-1]`: the down-block part of the ramp, its final value dropped. */
  function DownRamp(a: real, b: real, n: nat): (r: seq<real>)
    ensures |r| == n
  {
    Linspace(a, b, n + 1)[..n]
  }

  /** `local_weights + [weights[1]] + local_weights[::-1]`: one weight per depth position. */
  function DepthWeights(pair: (real, real), n: nat): seq<real>
  {
    var down := DownRamp(pair.0, pair.1, n);
    down + [pair.1] + Reverse(down)
  }

  /** Down-ramp element k is `a + k * (b - a) / n`, the linspace value at k. */
  lemma DownRampAt(a: real, b: real, n: nat, k: nat)
    requires k < n
    ensures DownRamp(a, b, n)[k] == a + (k as real) * (b - a) / (n as real)
  {
    assert DownRamp(a, b, n)[k] == LinspaceAt(a, b, n + 1, k);
  }

  /** The dropped value is b itself: the down ramp never reaches the bottleneck value unless a == b. */
  lemma DownRampAvoidsBottleneck(a: real, b: real, n: nat, k: nat)
    requires k < n && a != b
    ensures DownRamp(a, b, n)[k] != b
    ensures n >= 1 ==> Linspace(a, b, n + 1)[n] == b
  {
    LinspaceEnds(a, b, n + 1);
    DownRampAt(a, b, n, k);
    ScaledBelow(k as real, n as real, b - a);
  }

  /** For 0 <= k < n and c != 0, k * c / n falls short of c. */
  lemma ScaledBelow(k: real, n: real, c: real)
    requires 0.0 <= k < n && c != 0.0
    ensures k * c / n != c
  {
    var q := k * c / n;
    assert q * n == k * c;
    assert (n - k) * c != 0.0;
    assert n * c - k * c == (n - k) * c;
  }

  lemma DivMonotone(x: real, y: real, d: real)
    requires x <= y && d > 0.0
    ensures x / d <= y / d
  {
    assert y / d - x / d == (y - x) / d;
  }

  /** When a >= b the down ramp descends (and, by the palindrome, the up ramp climbs back). */
  lemma DownRampDescends(a: real, b: real, n: nat, j: nat, k: nat)
    requires a >= b && j < k < n
    ensures DownRamp(a, b, n)[j] >= DownRamp(a, b, n)[k]
  {
    var dj, dk := DownRamp(a, b, n)[j], DownRamp(a, b, n)[k];
    DownRampAt(a, b, n, j);
    DownRampAt(a, b, n, k);
    RampStep(a, b, j as real, k as real, n as real, dj, dk);
  }

  lemma RampStep(a: real, b: real, j: real, k: real, n: real, dj: real, dk: real)
    requires a >= b && j <= k && n > 0.0
    requires dj == a + j * (b - a) / n && dk == a + k * (b - a) / n
    ensures dj >= dk
  {
    MulNonNegative(k - j, a - b);
    assert j * (b - a) - k * (b - a) == (k - j) * (a - b);
    DivMonotone(k * (b - a), j * (b - a), n);
  }

  /**
   * The per-depth weight list has 2n + 1 entries, starts at the own weight
   * (when there is a down block), has the bottleneck weight in the middle, and is
   * a palindrome: the up blocks mirror the down blocks.
   */
  lemma DepthWeightsShape(pair: (real, real), n: nat)
    ensures |DepthWeights(pair, n)| == 2 * n + 1
    ensures DepthWeights(pair, n)[n] == pair.1
    ensures n >= 1 ==> DepthWeights(pair, n)[0] == pair.0
    ensures forall k :: 0 <= k <= 2 * n ==> DepthWeights(pair, n)[k] == DepthWeights(pair, n)[2 * n - k]
  {
    var down := DownRamp(pair.0, pair.1, n);
    var r := DepthWeights(pair, n);
    assert r == down + [pair.1] + Reverse(down);
    LinspaceEnds(pair.0, pair.1, n + 1);
    forall k | 0 <= k <= 2 * n
      ensures r[k] == r[2 * n - k]
    {
      if k < n {
        assert r[k] == down[k];
        assert r[2 * n - k] == Reverse(down)[n - 1 - k];
      } else if k > n {
        assert r[k] == Reverse(down)[k - n - 1];
        assert r[2 * n - k] == down[2 * n - k];
      }
    }
  }

  function Min(x: nat, y: nat): nat { if x <= y then x else y }

  /** `zip(blocks, pos, neg)` for a list of `nBlocks` blocks: the block at position p gets `(pos[p], neg[p])`. */
  function ZipWeights(nBlocks: nat, pos: seq<real>, neg: seq<real>): (r: seq<(real, real)>)
    ensures |r| == Min(nBlocks, Min(|pos|, |neg|))
    ensures forall p :: 0 <= p < |r| ==> r[p] == (pos[p], neg[p])
  {
    seq(Min(nBlocks, Min(|pos|, |neg|)), p requires 0 <= p < Min(nBlocks, Min(|pos|, |neg|)) => (pos[p], neg[p]))
  }

  /** The weights handed to the blocks of a network with `nDown` down and `nUp` up blocks. */
  function BlockWeights(nDown: nat, nUp: nat, posPair: (real, real), negPair: (real, real)): seq<(real, real)>
  {
    ZipWeights(nDown + 1 + nUp, DepthWeights(posPair, nDown), DepthWeights(negPair, nDown))
  }

  /**
   * Zipping truncates: min(nDown + 1 + nUp, 2 nDown + 1) blocks are weighted,
   * which covers every block exactly when there are no more up blocks than down
   * blocks; block p gets pos and neg ramp element p.
   */
  lemma BlockWeightsCoverage(nDown: nat, nUp: nat, posPair: (real, real), negPair: (real, real))
    ensures |BlockWeights(nDown, nUp, posPair, negPair)| == Min(nDown + 1 + nUp, 2 * nDown + 1)
    ensures |BlockWeights(nDown, nUp, posPair, negPair)| == nDown + 1 + nUp <==> nUp <= nDown
    ensures forall p :: 0 <= p < |BlockWeights(nDown, nUp, posPair, negPair)| ==>
      BlockWeights(nDown, nUp, posPair, negPair)[p] == (DepthWeights(posPair, nDown)[p], DepthWeights(negPair, nDown)[p])
  {
    DepthWeightsShape(posPair, nDown);
    DepthWeightsShape(negPair, nDown);
  }
}
