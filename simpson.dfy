/**
 * Composite Simpson integration, `integrateSimpson(func, a, b, n)`, as both
 * luminosity pages define it: an odd n is first raised to the next even number,
 * then with h = (b - a)/n the samples f(a + i·h) are weighted 1, 4, 2, 4, ..., 2, 4, 1
 * and the weighted sum is multiplied by h/3.
 */
module Simpson {
  /** The number of intervals actually used: `if (n % 2 !== 0) n += 1`. */
  function EvenSteps(n: int): (m: int)
    ensures m % 2 == 0
    ensures n <= m <= n + 1
    ensures m == n <==> n % 2 == 0
  {
    if n % 2 != 0 then n + 1 else n
  }

  /** The weight of an interior sample: `i % 2 === 0 ? 2 : 4`. */
  function InteriorWeight(i: int): real
  {
    if i % 2 == 0 then 2.0 else 4.0
  }

  /** Grid point i, `a + i*h`. */
  function Point(a: real, h: real, i: int): real
  {
    a + i as real * h
  }

  /** Interior sample i with its weight, `f(a + i*h) * w(i)`. */
  function Sample(f: real -> real, a: real, h: real, i: int): real
  {
    f(Point(a, h, i)) * InteriorWeight(i)
  }

  /** The weighted interior samples for 1 <= i < k, in loop order. */
  function InteriorSum(f: real -> real, a: real, h: real, k: nat): real
  {
    if k <= 1 then 0.0 else InteriorSum(f, a, h, k - 1) + Sample(f, a, h, k - 1)
  }

  /** One pass of the loop of `integrateSimpson` adds sample k to the running sum. */
  lemma InteriorNext(f: real -> real, a: real, h: real, k: nat, x: real, w: real, sum0: real, sum: real)
    requires k >= 1 && x == a + k as real * h && w == (if k % 2 == 0 then 2.0 else 4.0)
    requires sum == sum0 + InteriorSum(f, a, h, k)
    ensures sum + f(x) * w == sum0 + InteriorSum(f, a, h, k + 1)
  {
    assert Sample(f, a, h, k) == f(x) * w;
  }

  /**
   * The value `integrateSimpson(f, a, b, n)` returns.  The source divides by the
   * rounded n, so n = 0 (and any negative n) has no meaning here.
   */
  function Rule(f: real -> real, a: real, b: real, n: int): real
    requires n >= 1
  {
    var m := EvenSteps(n);
    var h := (b - a) / m as real;
    (h / 3.0) * (f(a) + f(b) + InteriorSum(f, a, h, m))
  }

  /** `integrateSimpson(f, a, b, n)`. */
  method IntegrateSimpson(f: real -> real, a: real, b: real, n: int) returns (r: real)
    requires n >= 1
    ensures r == Rule(f, a, b, n)
  {
    var m := n;
    if m % 2 != 0 {
      m := m + 1;
    }
    var h := (b - a) / m as real;
    var sum := f(a) + f(b);
    sum := AddInteriorSamples(f, a, h, m, sum);
    r := (h / 3.0) * sum;
  }

  /** The loop of `integrateSimpson`: add the weighted interior samples 1 <= i < m to `sum`. */
  method AddInteriorSamples(f: real -> real, a: real, h: real, m: int, sum0: real) returns (sum: real)
    requires m >= 1
    ensures sum == sum0 + InteriorSum(f, a, h, m)
  {
    sum := sum0;
    for i := 1 to m
      invariant sum == sum0 + InteriorSum(f, a, h, i)
    {
      var x := a + i as real * h;
      InteriorNext(f, a, h, i, x, if i % 2 == 0 then 2.0 else 4.0, sum0, sum);
      sum := sum + f(x) * (if i % 2 == 0 then 2.0 else 4.0);
    }
  }

  // ---------------------------------------------------------------------------
  // The textbook form: every sample of the closed grid with its Simpson weight
  // ---------------------------------------------------------------------------

  /** The Simpson weight of sample i of m intervals: 1 at both ends, else 4 (odd) or 2 (even). */
  function Weight(i: int, m: int): real
  {
    if i == 0 || i == m then 1.0 else InteriorWeight(i)
  }

  /** The weighted samples `w(i)·f(a + i·h)` for 0 <= i < k. */
  function WeightedSum(f: real -> real, a: real, h: real, m: int, k: nat): real
  {
    if k == 0 then 0.0
    else WeightedSum(f, a, h, m, k - 1) + Weight(k - 1, m) * f(Point(a, h, k - 1))
  }

  lemma {:induction false} WeightedSumPrefix(f: real -> real, a: real, h: real, m: int, k: nat)
    requires 1 <= k <= m
    ensures WeightedSum(f, a, h, m, k) == f(a) + InteriorSum(f, a, h, k)
  {
    if k > 1 {
      WeightedSumPrefix(f, a, h, m, k - 1);
      assert Weight(k - 1, m) * f(Point(a, h, k - 1)) == Sample(f, a, h, k - 1);
    } else {
      assert Point(a, h, 0) == a;
    }
  }

  /**
   * The loop computes the textbook rule: h/3 times the sum over all m + 1 grid
   * points a, a + h, ..., a + m·h = b of weight times sample.
   */
  lemma RuleIsWeightedSum(f: real -> real, a: real, b: real, n: int)
    requires n >= 1
    ensures var m := EvenSteps(n);
      var h := (b - a) / m as real;
      a + m as real * h == b && Rule(f, a, b, n) == (h / 3.0) * WeightedSum(f, a, h, m, m + 1)
  {
    var m := EvenSteps(n);
    var h := (b - a) / m as real;
    assert Point(a, h, m) == b;
    WeightedSumPrefix(f, a, h, m, m);
    assert WeightedSum(f, a, h, m, m + 1) == WeightedSum(f, a, h, m, m) + f(b);
  }

  // ---------------------------------------------------------------------------
  // Constant integrands
  // ---------------------------------------------------------------------------

  /** The interior weights for 1 <= i < k. */
  function WeightTotal(k: nat): real
  {
    if k <= 1 then 0.0 else WeightTotal(k - 1) + InteriorWeight(k - 1)
  }

  /** For even m the interior weights add up to 3m - 2, so all weights add up to 3m. */
  lemma {:induction false} WeightTotalEven(k: nat)
    requires k >= 2 && k % 2 == 0
    ensures WeightTotal(k) == 3.0 * k as real - 2.0
  {
    if k > 2 {
      WeightTotalEven(k - 2);
      assert WeightTotal(k) == WeightTotal(k - 2) + InteriorWeight(k - 2) + InteriorWeight(k - 1);
    }
  }

  lemma {:induction false} InteriorConstant(f: real -> real, c: real, a: real, h: real, k: nat)
    requires forall x :: f(x) == c
    ensures InteriorSum(f, a, h, k) == c * WeightTotal(k)
  {
    if k > 1 {
      InteriorConstant(f, c, a, h, k - 1);
      assert Sample(f, a, h, k - 1) == c * InteriorWeight(k - 1);
    }
  }

  /** Simpson's rule integrates a constant exactly: c·(b - a). */
  lemma RuleConstant(f: real -> real, c: real, a: real, b: real, n: int)
    requires n >= 1
    requires forall x :: f(x) == c
    ensures Rule(f, a, b, n) == c * (b - a)
  {
    var m := EvenSteps(n);
    var h := (b - a) / m as real;
    InteriorConstant(f, c, a, h, m);
    WeightTotalEven(m);
    assert f(a) + f(b) + InteriorSum(f, a, h, m) == 3.0 * m as real * c;
    assert h * m as real == b - a;
  }
}
