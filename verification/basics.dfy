/** Small helpers shared by the camera, real-scale and clock models.

    `Min`, `Max` and `Abs` are JavaScript's `Math.min`, `Math.max` and
    `Math.abs` over exact reals (NaN and infinities do not arise here);
    `Clamp` is the `Math.max(lo, Math.min(hi, x))` idiom script.js uses for
    both the pitch and the zoom distance; `Option` stands for a slot that
    may hold `null`. */
module Basics {

  /** A value that may be absent, in place of a nullable variable. */
  datatype Option<+T> = None | Some(value: T)

  /** `Math.min(a, b)`. */
  function Min(a: real, b: real): (r: real)
    ensures r <= a && r <= b
    ensures r == a || r == b
  {
    if a <= b then a else b
  }

  /** `Math.max(a, b)`. */
  function Max(a: real, b: real): (r: real)
    ensures r >= a && r >= b
    ensures r == a || r == b
  {
    if a >= b then a else b
  }

  /** `Math.abs(x)`. */
  function Abs(x: real): (r: real)
    ensures r >= 0.0
    ensures r == x || r == -x
  {
    if x >= 0.0 then x else -x
  }

  /** `Math.max(lo, Math.min(hi, x))`: the value kept within `[lo, hi]`,
      left alone when already inside, and moved to the nearer end otherwise. */
  function Clamp(lo: real, hi: real, x: real): (r: real)
    ensures lo <= hi ==> lo <= r <= hi
    ensures lo <= x <= hi ==> r == x
    ensures x < lo ==> r == lo
    ensures lo <= hi && hi < x ==> r == hi
  {
    Max(lo, Min(hi, x))
  }

  /** `x` multiplied by itself `n` times. */
  function Pow(x: real, n: nat): real
  {
    if n == 0 then 1.0 else x * Pow(x, n - 1)
  }

  /** A factor in `[0, 1]` makes the powers shrink as the exponent grows. */
  lemma {:induction false} PowAntitone(x: real, m: nat, n: nat)
    requires 0.0 <= x <= 1.0
    requires m <= n
    ensures 0.0 <= Pow(x, n) <= Pow(x, m)
    decreases n - m
  {
    if m < n {
      PowAntitone(x, m + 1, n);
      PowNonNegative(x, m);
      assert Pow(x, m + 1) == x * Pow(x, m);
      assert x * Pow(x, m) <= Pow(x, m);
    } else {
      PowNonNegative(x, n);
    }
  }

  lemma {:induction false} PowNonNegative(x: real, n: nat)
    requires 0.0 <= x
    ensures 0.0 <= Pow(x, n)
  {
    if n > 0 {
      PowNonNegative(x, n - 1);
    }
  }

  /** A factor of at least 1 makes the powers grow with the exponent. */
  lemma {:induction false} PowMonotone(x: real, m: nat, n: nat)
    requires 1.0 <= x
    requires m <= n
    ensures 1.0 <= Pow(x, m) <= Pow(x, n)
    decreases n - m
  {
    if m < n {
      PowMonotone(x, m + 1, n);
      PowAtLeastOne(x, m);
      assert Pow(x, m + 1) == x * Pow(x, m);
    } else {
      PowAtLeastOne(x, n);
    }
  }

  lemma {:induction false} PowAtLeastOne(x: real, n: nat)
    requires 1.0 <= x
    ensures 1.0 <= Pow(x, n)
  {
    if n > 0 {
      PowAtLeastOne(x, n - 1);
    }
  }

  /** Powers add their exponents. */
  lemma {:induction false} PowAdd(x: real, m: nat, n: nat)
    ensures Pow(x, m + n) == Pow(x, m) * Pow(x, n)
  {
    if n > 0 {
      PowAdd(x, m, n - 1);
      calc {
        Pow(x, m + n);
        x * Pow(x, m + n - 1);
        x * (Pow(x, m) * Pow(x, n - 1));
        Pow(x, m) * (x * Pow(x, n - 1));
        Pow(x, m) * Pow(x, n);
      }
    }
  }

  /** Products of non-negative reals are monotone in both factors. */
  lemma MulLe(a: real, b: real, c: real, d: real)
    requires 0.0 <= a <= b
    requires 0.0 <= c <= d
    ensures a * c <= b * d
  {
    assert a * c <= b * c;
    assert b * c <= b * d;
  }

  /** One more shrinking factor `f` applied before `p` commutes with a lower
      clamp at `lo`: clamping in between loses nothing. The products are
      passed in by name so that callers match them syntactically. */
  lemma MaxScaleStep(lo: real, d: real, f: real, p: real, d1: real, fp: real, a: real, b: real)
    requires 0.0 <= lo && 0.0 <= d && 0.0 <= f
    requires 0.0 <= p <= 1.0
    requires d1 == Max(lo, d * f)
    requires fp == f * p
    requires a == d1 * p && b == d * fp
    ensures Max(lo, a) == Max(lo, b)
  {
    assert b == (d * f) * p;
    if d * f < lo {
      MulLe(d * f, lo, p, p);
      MulLe(lo, lo, p, 1.0);
    }
  }

  /** The mirror image of `MaxScaleStep` for a growing factor and an upper clamp. */
  lemma MinScaleStep(hi: real, d: real, f: real, p: real, d1: real, fp: real, a: real, b: real)
    requires 0.0 <= hi && 0.0 <= d && 0.0 <= f
    requires 1.0 <= p
    requires d1 == Min(hi, d * f)
    requires fp == f * p
    requires a == d1 * p && b == d * fp
    ensures Min(hi, a) == Min(hi, b)
  {
    assert b == (d * f) * p;
    if d * f > hi {
      MulLe(hi, d * f, p, p);
      MulLe(hi, hi, 1.0, p);
    }
  }
}
