/**
 * The evenly spaced grid, numpy's `linspace`: the reference every sampling loop
 * of the scripts (`linspace`, the luminosity scans, the crossing-angle grid,
 * the beta-function abscissae) is tied to.
 */
module Grids {
  /** The i-th of n points from lo to hi, both ends included (n >= 2). */
  function UniformAt(lo: real, hi: real, n: nat, i: nat): real
    requires n >= 2
  {
    lo + (hi - lo) * (i as real) / ((n - 1) as real)
  }

  /** All n points from lo to hi. */
  function Uniform(lo: real, hi: real, n: nat): (g: seq<real>)
    requires n >= 2
    ensures |g| == n
    ensures g[0] == lo && g[n - 1] == hi
    ensures forall i :: 0 <= i < n ==> g[i] == UniformAt(lo, hi, n, i)
  {
    UniformEnds(lo, hi, n);
    seq(n, i requires 0 <= i => UniformAt(lo, hi, n, i))
  }

  /** The first point is lo and the last is hi. */
  lemma UniformEnds(lo: real, hi: real, n: nat)
    requires n >= 2
    ensures UniformAt(lo, hi, n, 0) == lo && UniformAt(lo, hi, n, n - 1) == hi
  {
    var k := (n - 1) as real;
    assert UniformAt(lo, hi, n, n - 1) == lo + (hi - lo) * k / k;
    CancelDivide(hi - lo, k);
  }

  /** Multiplying by k and dividing by k cancel. */
  lemma CancelDivide(d: real, k: real)
    requires k > 0.0
    ensures d * k / k == d
  {
  }

  /** Consecutive points are one step `(hi - lo)/(n - 1)` apart. */
  lemma UniformStep(lo: real, hi: real, n: nat, i: nat)
    requires n >= 2 && i + 1 < n
    ensures UniformAt(lo, hi, n, i + 1) - UniformAt(lo, hi, n, i) == (hi - lo) / ((n - 1) as real)
  {
    var k := (n - 1) as real;
    calc {
      UniformAt(lo, hi, n, i + 1) - UniformAt(lo, hi, n, i);
      (hi - lo) * ((i + 1) as real) / k - (hi - lo) * (i as real) / k;
      ((hi - lo) * ((i + 1) as real) - (hi - lo) * (i as real)) / k;
      (hi - lo) / k;
    }
  }

  /** On a grid that rises (lo <= hi) every point lies between the ends. */
  lemma UniformWithin(lo: real, hi: real, n: nat, i: nat)
    requires n >= 2 && i < n && lo <= hi
    ensures lo <= UniformAt(lo, hi, n, i) <= hi
  {
    var k := (n - 1) as real;
    var e := (hi - lo) * (i as real) / k;
    assert UniformAt(lo, hi, n, i) == lo + e;
    FractionWithin(hi - lo, i as real, k, e);
  }

  /** e = d·x/k lies in [0, d] when d >= 0 and 0 <= x <= k. */
  lemma FractionWithin(d: real, x: real, k: real, e: real)
    requires d >= 0.0 && 0.0 <= x <= k && k > 0.0 && e == d * x / k
    ensures 0.0 <= e <= d
  {
    FractionOfUnit(x, k);
    ScaledFraction(d, x, k);
    ScaleWithinUnit(d, x / k);
  }

  /** A fraction x/k with 0 <= x <= k lies in [0, 1]. */
  lemma FractionOfUnit(x: real, k: real)
    requires 0.0 <= x <= k && k > 0.0
    ensures 0.0 <= x / k <= 1.0
  {
  }

  /** Scaling the numerator of a fraction scales the fraction. */
  lemma ScaledFraction(d: real, x: real, k: real)
    requires k > 0.0
    ensures d * x / k == d * (x / k)
  {
  }

  /** A non-negative length scaled by a factor in [0, 1] stays within [0, length]. */
  lemma ScaleWithinUnit(d: real, t: real)
    requires d >= 0.0 && 0.0 <= t <= 1.0
    ensures 0.0 <= d * t <= d
  {
    assert d * (1.0 - t) >= 0.0;
  }
}
