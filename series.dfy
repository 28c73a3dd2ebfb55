/**
 * Sums over sequences of reals, accumulated left to right as
 * `Array.prototype.reduce` and the scripts' accumulation loops do.
 */
module Series {
  /** The sum of the first k elements. */
  function SumTo(s: seq<real>, k: nat): real
    requires k <= |s|
  {
    if k == 0 then 0.0 else SumTo(s, k - 1) + s[k - 1]
  }

  /** `s.reduce((a, b) => a + b, 0)`. */
  function Sum(s: seq<real>): real
  {
    SumTo(s, |s|)
  }

  /** The sum of `x[i] * y[i]` over the first k indices. */
  function SumProductsTo(x: seq<real>, y: seq<real>, k: nat): real
    requires |x| == |y| && k <= |x|
  {
    if k == 0 then 0.0 else SumProductsTo(x, y, k - 1) + x[k - 1] * y[k - 1]
  }

  /** `X.reduce((sum, xi, i) => sum + xi * y[i], 0)`. */
  function SumProducts(x: seq<real>, y: seq<real>): real
    requires |x| == |y|
  {
    SumProductsTo(x, y, |x|)
  }

  /** The sum of `x[i] * x[i]` over the first k indices. */
  function SumSquaresTo(x: seq<real>, k: nat): real
    requires k <= |x|
  {
    if k == 0 then 0.0 else SumSquaresTo(x, k - 1) + x[k - 1] * x[k - 1]
  }

  /** `X.reduce((sum, xi) => sum + xi * xi, 0)`. */
  function SumSquares(x: seq<real>): real
  {
    SumSquaresTo(x, |x|)
  }

  /** The sum of a constant sequence is the constant times the length. */
  lemma SumConstant(s: seq<real>, c: real)
    requires forall i :: 0 <= i < |s| ==> s[i] == c
    ensures Sum(s) == c * |s| as real
  {
    SumConstantTo(s, c, |s|);
  }

  lemma {:induction false} SumConstantTo(s: seq<real>, c: real, k: nat)
    requires k <= |s|
    requires forall i :: 0 <= i < |s| ==> s[i] == c
    ensures SumTo(s, k) == c * k as real
  {
    if k > 0 {
      SumConstantTo(s, c, k - 1);
      assert s[k - 1] == c;
    }
  }

  /** `p` is the combination `m * q + c * r`. */
  ghost predicate Combination(p: real, q: real, r: real, m: real, c: real)
  {
    p == m * q + c * r
  }

  /** Summing an affine image `y[i] == m*x[i] + c` of a sequence. */
  lemma SumAffine(x: seq<real>, y: seq<real>, m: real, c: real)
    requires |x| == |y|
    requires forall i :: 0 <= i < |x| ==> y[i] == m * x[i] + c
    ensures Sum(y) == m * Sum(x) + c * |x| as real
  {
    SumAffineTo(x, y, m, c, |x|);
  }

  lemma {:induction false} SumAffineTo(x: seq<real>, y: seq<real>, m: real, c: real, k: nat)
    requires |x| == |y| && k <= |x|
    requires forall i :: 0 <= i < |x| ==> y[i] == m * x[i] + c
    ensures Combination(SumTo(y, k), SumTo(x, k), k as real, m, c)
  {
    if k > 0 {
      SumAffineTo(x, y, m, c, k - 1);
      SumAffineNext(x, y, m, c, k - 1);
    }
  }

  lemma SumAffineNext(x: seq<real>, y: seq<real>, m: real, c: real, k: nat)
    requires |x| == |y| && k < |x|
    requires y[k] == m * x[k] + c
    requires Combination(SumTo(y, k), SumTo(x, k), k as real, m, c)
    ensures Combination(SumTo(y, k + 1), SumTo(x, k + 1), (k + 1) as real, m, c)
  {
  }

  /** Summing `x[i] * y[i]` where `y[i] == m*x[i] + c`. */
  lemma SumProductsAffine(x: seq<real>, y: seq<real>, m: real, c: real)
    requires |x| == |y|
    requires forall i :: 0 <= i < |x| ==> y[i] == m * x[i] + c
    ensures SumProducts(x, y) == m * SumSquares(x) + c * Sum(x)
  {
    SumProductsAffineTo(x, y, m, c, |x|);
  }

  lemma {:induction false} SumProductsAffineTo(x: seq<real>, y: seq<real>, m: real, c: real, k: nat)
    requires |x| == |y| && k <= |x|
    requires forall i :: 0 <= i < |x| ==> y[i] == m * x[i] + c
    ensures Combination(SumProductsTo(x, y, k), SumSquaresTo(x, k), SumTo(x, k), m, c)
  {
    if k > 0 {
      SumProductsAffineTo(x, y, m, c, k - 1);
      SumProductsAffineNext(x, y, m, c, k - 1);
    }
  }

  lemma SumProductsAffineNext(x: seq<real>, y: seq<real>, m: real, c: real, k: nat)
    requires |x| == |y| && k < |x|
    requires y[k] == m * x[k] + c
    requires Combination(SumProductsTo(x, y, k), SumSquaresTo(x, k), SumTo(x, k), m, c)
    ensures Combination(SumProductsTo(x, y, k + 1), SumSquaresTo(x, k + 1), SumTo(x, k + 1), m, c)
  {
    AffineStep(SumProductsTo(x, y, k), SumSquaresTo(x, k), SumTo(x, k), x[k], y[k], m, c,
               SumProductsTo(x, y, k + 1), SumSquaresTo(x, k + 1), SumTo(x, k + 1));
  }

  /** One step of `SumProductsAffine`, on the partial sums alone. */
  lemma AffineStep(p: real, s2: real, s: real, a: real, b: real, m: real, c: real,
                   p': real, s2': real, s': real)
    requires Combination(p, s2, s, m, c) && b == m * a + c
    requires p' == p + a * b && s2' == s2 + a * a && s' == s + a
    ensures Combination(p', s2', s', m, c)
  {
  }

  // ---------------------------------------------------------------------------
  // Sums of squares
  // ---------------------------------------------------------------------------

  /** `p` is the sum of squares of `x + b` given those of x: `s2 + 2·b·s + b²·n`. */
  ghost predicate Shifted(p: real, s2: real, s: real, n: real, b: real)
  {
    p == s2 + 2.0 * b * s + b * b * n
  }

  /** The sum of squares of a shifted sequence, `d[i] == x[i] + b`. */
  lemma SumSquaresShifted(x: seq<real>, d: seq<real>, b: real)
    requires |x| == |d|
    requires forall i :: 0 <= i < |x| ==> d[i] == x[i] + b
    ensures SumSquares(d) == SumSquares(x) + 2.0 * b * Sum(x) + b * b * |x| as real
  {
    SumSquaresShiftedTo(x, d, b, |x|);
  }

  lemma {:induction false} SumSquaresShiftedTo(x: seq<real>, d: seq<real>, b: real, k: nat)
    requires |x| == |d| && k <= |x|
    requires forall i :: 0 <= i < |x| ==> d[i] == x[i] + b
    ensures Shifted(SumSquaresTo(d, k), SumSquaresTo(x, k), SumTo(x, k), k as real, b)
  {
    if k > 0 {
      SumSquaresShiftedTo(x, d, b, k - 1);
      SumSquaresShiftedNext(x, d, b, k - 1);
    }
  }

  lemma SumSquaresShiftedNext(x: seq<real>, d: seq<real>, b: real, k: nat)
    requires |x| == |d| && k < |x|
    requires d[k] == x[k] + b
    requires Shifted(SumSquaresTo(d, k), SumSquaresTo(x, k), SumTo(x, k), k as real, b)
    ensures Shifted(SumSquaresTo(d, k + 1), SumSquaresTo(x, k + 1), SumTo(x, k + 1), (k + 1) as real, b)
  {
    ShiftedStep(SumSquaresTo(d, k), SumSquaresTo(x, k), SumTo(x, k), k as real, b, x[k], d[k],
                SumSquaresTo(d, k + 1), SumSquaresTo(x, k + 1), SumTo(x, k + 1));
  }

  /** One step of `SumSquaresShifted`, on the partial sums alone. */
  lemma ShiftedStep(p: real, s2: real, s: real, n: real, b: real, a: real, e: real,
                    p': real, s2': real, s': real)
    requires Shifted(p, s2, s, n, b) && e == a + b
    requires p' == p + e * e && s2' == s2 + a * a && s' == s + a
    ensures Shifted(p', s2', s', n + 1.0, b)
  {
  }

  /** A sum of squares is at least each of its terms, and so never negative. */
  lemma {:induction false} SumSquaresAtLeast(x: seq<real>, k: nat, i: nat)
    requires i < k <= |x|
    ensures SumSquaresTo(x, k) >= x[i] * x[i]
  {
    SumSquaresNonNegative(x, k - 1);
    if i < k - 1 {
      SumSquaresAtLeast(x, k - 1, i);
    }
  }

  lemma {:induction false} SumSquaresNonNegative(x: seq<real>, k: nat)
    requires k <= |x|
    ensures SumSquaresTo(x, k) >= 0.0
  {
    if k > 0 {
      SumSquaresNonNegative(x, k - 1);
    }
  }

  /** A sum of squares vanishes exactly when every term does. */
  lemma SumSquaresZero(x: seq<real>)
    ensures SumSquares(x) == 0.0 <==> forall i :: 0 <= i < |x| ==> x[i] == 0.0
  {
    if SumSquares(x) == 0.0 {
      forall i | 0 <= i < |x|
        ensures x[i] == 0.0
      {
        SumSquaresAtLeast(x, |x|, i);
        if x[i] != 0.0 {
          SquarePositive(x[i], x[i] * x[i]);
        }
      }
    } else if forall i :: 0 <= i < |x| ==> x[i] == 0.0 {
      SumSquaresOfZeros(x, |x|);
    }
  }

  /** A non-zero number has a positive square. */
  lemma SquarePositive(a: real, s: real)
    requires a != 0.0 && s == a * a
    ensures s > 0.0
  {
    if a > 0.0 {
      PositiveProduct(a, a, s);
    } else {
      PositiveProduct(-a, -a, s);
    }
  }

  lemma NonNegativeProduct(a: real, b: real, s: real)
    requires a >= 0.0 && b >= 0.0 && s == a * b
    ensures s >= 0.0
  {
  }

  lemma SquareNonNegative(a: real)
    ensures a * a >= 0.0
  {
    if a < 0.0 {
      NonNegativeProduct(-a, -a, a * a);
    } else {
      NonNegativeProduct(a, a, a * a);
    }
  }

  lemma PositiveProduct(a: real, b: real, s: real)
    requires a > 0.0 && b > 0.0 && s == a * b
    ensures s > 0.0
  {
  }

  lemma {:induction false} SumSquaresOfZeros(x: seq<real>, k: nat)
    requires k <= |x|
    requires forall i :: 0 <= i < |x| ==> x[i] == 0.0
    ensures SumSquaresTo(x, k) == 0.0
  {
    if k > 0 {
      SumSquaresOfZeros(x, k - 1);
    }
  }
}
