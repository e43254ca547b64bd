/** Arithmetic facts the index and weight computations of the model rely on. */
module Arith {

  lemma MulAtLeast(a: int, d: int)
    requires a >= 1 && d >= 1
    ensures a * d >= d
  {
  }

  /** Euclidean quotient and remainder are determined by k == q * d + r with 0 <= r < d. */
  lemma DivModUnique(k: int, d: int, q: int, r: int)
    requires d > 0 && 0 <= r < d && k == q * d + r
    ensures k / d == q && k % d == r
  {
    var q', r' := k / d, k % d;
    assert k == q' * d + r';
    assert (q - q') * d == r' - r;
    if q > q' {
      MulAtLeast(q - q', d);
    } else if q < q' {
      MulAtLeast(q' - q, d);
    }
  }

  /** (n + 1) * d == d + n * d, the step of an induction over whole blocks of d. */
  lemma MulSucc(n: int, d: int)
    ensures (n + 1) * d == d + n * d
  {
  }

  /** Removing one whole block of d from j lowers j div d by one. */
  lemma DivShift(j: int, d: int)
    requires d > 0 && j >= d
    ensures j / d == (j - d) / d + 1
  {
    var q, r := (j - d) / d, (j - d) % d;
    assert j - d == q * d + r;
    MulSucc(q, d);
    DivModUnique(j, d, q + 1, r);
  }

  /** Going from k - 1 to k raises k div d by one exactly when d divides k. */
  lemma DivStep(k: nat, d: nat)
    requires k >= 1 && d >= 1
    ensures k / d == (k - 1) / d + (if k % d == 0 then 1 else 0)
  {
    var q, r := (k - 1) / d, (k - 1) % d;
    assert k - 1 == q * d + r;
    if r == d - 1 {
      DivModUnique(k, d, q + 1, 0);
    } else {
      DivModUnique(k, d, q, r + 1);
    }
  }

  /** A product of two non-negative reals is non-negative. */
  lemma MulNonNegative(x: real, y: real)
    requires x >= 0.0 && y >= 0.0
    ensures x * y >= 0.0
  {
  }
}
