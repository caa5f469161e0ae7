/** Cosine interpolation, clamping and real powers (src/util/MathUtil.ts). */
module MathUtil {

  /** `Math.PI` as a real. */
  const Pi: real := 3.141592653589793

  /** The facts about `Math.cos` the model relies on. The cosine itself is a
      parameter of every operation that needs it. */
  ghost predicate IsCosine(cos: real -> real) {
    && cos(0.0) == 1.0
    && cos(Pi) == -1.0
    && forall x :: -1.0 <= cos(x) <= 1.0
  }

  function Min(a: real, b: real): real { if a <= b then a else b }

  function Max(a: real, b: real): real { if a <= b then b else a }

  /** True when `v` lies between `a` and `b`, in whichever order they come. */
  predicate Between(a: real, b: real, v: real) {
    Min(a, b) <= v <= Max(a, b)
  }

  /** The cosine weight of `alpha`: 0 at alpha 0, 1 at alpha 1. */
  function CosineWeight(cos: real -> real, alpha: real): (w: real)
    requires IsCosine(cos)
    ensures 0.0 <= w <= 1.0
    ensures alpha == 0.0 ==> w == 0.0
    ensures alpha == 1.0 ==> w == 1.0
  {
    (1.0 - cos(alpha * Pi)) * 0.5
  }

  /** Cosine interpolation from `a` (alpha 0) to `b` (alpha 1). */
  function Interpolate(cos: real -> real, a: real, b: real, alpha: real): (r: real)
    requires IsCosine(cos)
    ensures Between(a, b, r)
    ensures alpha == 0.0 ==> r == a
    ensures alpha == 1.0 ==> r == b
    ensures a == b ==> r == a
  {
    var prc := CosineWeight(cos, alpha);
    ConvexCombination(a, b, prc);
    a * (1.0 - prc) + prc * b
  }

  /** A convex combination of two reals lies between them. */
  lemma ConvexCombination(a: real, b: real, w: real)
    requires 0.0 <= w <= 1.0
    ensures Between(a, b, a * (1.0 - w) + w * b)
  {
    var d := if a <= b then b - a else a - b;
    MulNonNegative(w, d);
    MulNonNegative(1.0 - w, d);
    assert w * d + (1.0 - w) * d == d;
    if a <= b {
      assert a * (1.0 - w) + w * b == a + w * d;
    } else {
      assert a * (1.0 - w) + w * b == a - w * d;
    }
  }

  lemma MulNonNegative(x: real, y: real)
    requires x >= 0.0 && y >= 0.0
    ensures x * y >= 0.0
  {
  }

  /** `Math.min(Math.max(v, lo), hi)`. */
  function Clamp(v: real, lo: real, hi: real): (r: real)
    ensures lo <= hi ==> lo <= r <= hi
    ensures lo <= v <= hi ==> r == v
    ensures r == v || r == lo || r == hi
  {
    Min(Max(v, lo), hi)
  }

  /** Clamping twice is clamping once. */
  lemma ClampIdempotent(v: real, lo: real, hi: real)
    ensures Clamp(Clamp(v, lo, hi), lo, hi) == Clamp(v, lo, hi)
  {
  }

  /** `p` to the power `n`. */
  function Pow(p: real, n: nat): real {
    if n == 0 then 1.0 else Pow(p, n - 1) * p
  }

  /** Powers of a positive real are positive. */
  lemma {:induction false} PowPositive(p: real, n: nat)
    requires p > 0.0
    ensures Pow(p, n) > 0.0
  {
    if n > 0 {
      PowPositive(p, n - 1);
    }
  }

  /** `2^k` as a natural number: the period `1 << k` of octave `k`. */
  function Pow2(k: nat): (r: nat)
    ensures r >= 1
  {
    if k == 0 then 1 else 2 * Pow2(k - 1)
  }

  /** `a * b` on naturals, as `b` added `a` times. Grid positions are stated
      with it, so proofs about them unfold it step by step rather than
      reason about nonlinear products. */
  function Mul(a: nat, b: nat): nat {
    if a == 0 then 0 else Mul(a - 1, b) + b
  }

  /** Repeated addition is multiplication. */
  lemma {:induction false} MulIsProduct(a: nat, b: nat)
    ensures Mul(a, b) == a * b
  {
    if a > 0 {
      MulIsProduct(a - 1, b);
    }
  }

  /** More copies never add up to less. */
  lemma {:induction false} MulMonotone(a: nat, c: nat, b: nat)
    requires a <= c
    ensures Mul(a, b) <= Mul(c, b)
  {
    if a < c {
      MulMonotone(a, c - 1, b);
    }
  }

  /** Offset `r` inside block `a` of `n` blocks of size `b` stays below the
      end of the last block. */
  lemma MulIndexBound(a: nat, n: nat, b: nat, r: nat)
    requires a < n && r < b
    ensures Mul(a, b) + r < Mul(n, b)
  {
    MulMonotone(a + 1, n, b);
  }

  /** Every offset below `n` blocks of size `b` lies in exactly one block:
      block `a` at offset `r`. */
  lemma {:induction false} MulSplit(i: nat, n: nat, b: nat) returns (a: nat, r: nat)
    requires i < Mul(n, b)
    ensures a < n && r < b && Mul(a, b) + r == i
  {
    if i < b {
      a, r := 0, i;
    } else {
      var a', r' := MulSplit(i - b, n - 1, b);
      a, r := a' + 1, r';
    }
  }
}
