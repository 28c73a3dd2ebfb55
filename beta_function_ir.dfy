/**
 * The interaction-region beta function page
 * (assets/js/2_linear_optics_measurements/beta_function_IR.js): the drift
 * beta function `beta(s) = beta*·(1 + (s - s*)²/beta*²)` sampled between two
 * BPMs at s1 = -8.3 m and s2 = 8.3 m, and the first-order propagation of the
 * BPM beta errors to errors on the waist beta* and its position s*.
 */
module BetaFunctionIr {
  import opened Wrappers
  import opened RealMath
  import opened Series
  import opened Grids

  /** The BPM positions and their distance. */
  const S1: real := -8.3
  const S2: real := 8.3
  const Ds: real := S2 - S1

  /** `updatePlot` samples the beta function at 100 points. */
  const Samples: nat := 100

  // ---------------------------------------------------------------------------
  // beta_function
  // ---------------------------------------------------------------------------

  /** `s[i] = s1 + i*ds/(N - 1)`. */
  function SAt(n: nat, i: nat): real
    requires n != 1
  {
    S1 + i as real * Ds / (n - 1) as real
  }

  /** `bs*(1 + ((s - ss) ** 2) / (bs ** 2))`. */
  function BetaAt(bs: real, ss: real, s: real): real
    requires bs != 0.0
  {
    bs * (1.0 + ((s - ss) * (s - ss)) / (bs * bs))
  }

  /** The abscissae of `beta_function(bs, ss, N)`. */
  function Abscissae(n: nat): (s: seq<real>)
    requires n != 1
    ensures |s| == n
  {
    seq(n, i requires 0 <= i < n => SAt(n, i))
  }

  /** The beta function at each abscissa. */
  function Profile(bs: real, ss: real, s: seq<real>): (beta: seq<real>)
    requires bs != 0.0
    ensures |beta| == |s|
  {
    seq(|s|, i requires 0 <= i < |s| => BetaAt(bs, ss, s[i]))
  }

  /** `beta_function(bs, ss, N)`: both arrays filled by one indexed loop. */
  method BetaFunction(bs: real, ss: real, n: nat) returns (s: array<real>, beta: array<real>)
    requires bs != 0.0 && n != 1
    ensures fresh(s) && fresh(beta)
    ensures s[..] == Abscissae(n)
    ensures beta[..] == Profile(bs, ss, Abscissae(n))
  {
    beta := new real[n];
    s := new real[n];
    for i := 0 to n
      invariant forall k :: 0 <= k < i ==> s[k] == SAt(n, k)
      invariant forall k :: 0 <= k < i ==> beta[k] == BetaAt(bs, ss, SAt(n, k))
    {
      s[i] := SAt(n, i);
      beta[i] := BetaAt(bs, ss, s[i]);
    }
  }

  /** The abscissae run evenly from s1 to s2: the grid of Grids. */
  lemma AbscissaeUniform(n: nat)
    requires n >= 2
    ensures Abscissae(n) == Uniform(S1, S2, n)
    ensures Abscissae(n)[0] == S1 && Abscissae(n)[n - 1] == S2
  {
    forall i | 0 <= i < n
      ensures Abscissae(n)[i] == Uniform(S1, S2, n)[i]
    {
      assert i as real * Ds == (S2 - S1) * i as real;
    }
  }

  /** The profile is the hyperbola `beta* + (s - s*)²/beta*`. */
  lemma BetaHyperbola(bs: real, ss: real, s: real)
    requires bs != 0.0
    ensures BetaAt(bs, ss, s) == bs + ((s - ss) * (s - ss)) / bs
  {
    var d2 := (s - ss) * (s - ss);
    assert bs * (d2 / (bs * bs)) == d2 / bs;
  }

  /** For beta* > 0 the minimum beta* is reached exactly at s = s*. */
  lemma BetaMinimum(bs: real, ss: real, s: real)
    requires bs > 0.0
    ensures BetaAt(bs, ss, s) >= bs
    ensures BetaAt(bs, ss, s) == bs <==> s == ss
  {
    BetaHyperbola(bs, ss, s);
    var d2 := (s - ss) * (s - ss);
    assert d2 >= 0.0;
    if s != ss {
      SquarePositive(s - ss, d2);
      assert d2 / bs > 0.0;
    }
  }

  /** The profile is symmetric about the waist. */
  lemma BetaSymmetric(bs: real, ss: real, d: real)
    requires bs != 0.0
    ensures BetaAt(bs, ss, ss + d) == BetaAt(bs, ss, ss - d)
  {
    assert (ss + d - ss) * (ss + d - ss) == d * d;
    assert (ss - d - ss) * (ss - d - ss) == d * d;
  }

  // ---------------------------------------------------------------------------
  // star_errors
  // ---------------------------------------------------------------------------

  /** `D = db*db + 4*ds*ds`, which never vanishes since ds = 16.6. */
  function StarDenominator(b1: real, b2: real): (d: real)
    ensures d >= 4.0 * Ds * Ds > 0.0
  {
    var db := b1 - b2;
    assert db * db >= 0.0;
    db * db + 4.0 * Ds * Ds
  }

  /** `b1*b2 - ds*ds`, under the square root of Q. */
  function Radicand(b1: real, b2: real): real
  {
    b1 * b2 - Ds * Ds
  }

  /** The four partial derivatives `dbstardb1`, `dbstardb2`, `dsstardb1`, `dsstardb2` for a Q != 0. */
  function Sensitivities(b1: real, b2: real, q: real): (real, real, real, real)
    requires q != 0.0
  {
    var db := b1 - b2;
    var n := Ds * Ds * (b1 + b2 - 2.0 * q);
    var d := StarDenominator(b1, b2);
    var bstar := n / d;
    var dNdb1 := Ds * Ds * (1.0 - b2 / q);
    var dNdb2 := Ds * Ds * (1.0 - b1 / q);
    var dbstardb1 := (dNdb1 * d - 2.0 * n * db) / (d * d);
    var dbstardb2 := (dNdb2 * d + 2.0 * n * db) / (d * d);
    var dsstardb1 := -1.0 / (2.0 * Ds) * (bstar + db * dbstardb1);
    var dsstardb2 := 1.0 / (2.0 * Ds) * (bstar - db * dbstardb2);
    (dbstardb1, dbstardb2, dsstardb1, dsstardb2)
  }

  /** `(d1*sb1)**2 + (d2*sb2)**2 + 2*d1*d2*rho*sb1*sb2`. */
  function ErrorVariance(d1: real, d2: real, sb1: real, sb2: real, rho: real): real
  {
    (d1 * sb1) * (d1 * sb1) + (d2 * sb2) * (d2 * sb2) + 2.0 * d1 * d2 * rho * sb1 * sb2
  }

  /** One error of `star_errors`: its square root, or None where the source takes the root of a negative. */
  function RootOf(m: MathLib, v: real): (r: Option<real>)
    requires SqrtLaw(m)
    ensures r.Some? <==> v >= 0.0
    ensures r.Some? ==> r.value >= 0.0 && r.value * r.value == v
  {
    if v >= 0.0 then Some(m.sqrt(v)) else None
  }

  /**
   * `star_errors(b1, b2, sb1, sb2, rho)`: the errors on beta* and s*.  A
   * negative radicand makes Q NaN and a zero one divides by Q = 0; both
   * leave every output non-finite, which is None here.
   */
  function StarErrors(m: MathLib, b1: real, b2: real, sb1: real, sb2: real, rho: real): (r: (Option<real>, Option<real>))
    requires SqrtLaw(m)
    ensures Radicand(b1, b2) <= 0.0 ==> r == (None, None)
  {
    if Radicand(b1, b2) <= 0.0 then (None, None)
    else
      var q := m.sqrt(Radicand(b1, b2));
      SqrtPositive(m, Radicand(b1, b2));
      var (dbstardb1, dbstardb2, dsstardb1, dsstardb2) := Sensitivities(b1, b2, q);
      (RootOf(m, ErrorVariance(dbstardb1, dbstardb2, sb1, sb2, rho)),
       RootOf(m, ErrorVariance(dsstardb1, dsstardb2, sb1, sb2, rho)))
  }

  /** With exact BPM readings both propagated errors are zero. */
  lemma ExactReadingsNoError(m: MathLib, b1: real, b2: real, rho: real)
    requires SqrtLaw(m) && Radicand(b1, b2) > 0.0
    ensures StarErrors(m, b1, b2, 0.0, 0.0, rho) == (Some(0.0), Some(0.0))
  {
    SqrtUnique(m, 0.0, 0.0);
    var q := m.sqrt(Radicand(b1, b2));
    SqrtPositive(m, Radicand(b1, b2));
    var (a, b, c, d) := Sensitivities(b1, b2, q);
    assert ErrorVariance(a, b, 0.0, 0.0, rho) == 0.0;
    assert ErrorVariance(c, d, 0.0, 0.0, rho) == 0.0;
  }

  /** Uncorrelated BPM errors leave no covariance term: the variances add. */
  lemma UncorrelatedVariancesAdd(d1: real, d2: real, sb1: real, sb2: real)
    ensures ErrorVariance(d1, d2, sb1, sb2, 0.0) == (d1 * sb1) * (d1 * sb1) + (d2 * sb2) * (d2 * sb2)
  {
    assert 2.0 * d1 * d2 * 0.0 * sb1 * sb2 == 0.0;
  }

  /** For a correlation in [-1, 1] the variance is never negative, so a positive radicand gives finite errors. */
  lemma VarianceNonNegative(d1: real, d2: real, sb1: real, sb2: real, rho: real)
    requires -1.0 <= rho <= 1.0
    ensures ErrorVariance(d1, d2, sb1, sb2, rho) >= 0.0
  {
    var a, b := d1 * sb1, d2 * sb2;
    assert 2.0 * d1 * d2 * rho * sb1 * sb2 == 2.0 * rho * a * b;
    QuadraticFormNonNegative(a, b, rho);
  }

  /** `a² + b² + 2ρab == (a + ρb)² + (1 - ρ²)b² >= 0` for |ρ| <= 1. */
  lemma QuadraticFormNonNegative(a: real, b: real, rho: real)
    requires -1.0 <= rho <= 1.0
    ensures a * a + b * b + 2.0 * rho * a * b >= 0.0
  {
    var e := a + rho * b;
    var f := (1.0 - rho) * (1.0 + rho);
    assert e * e >= 0.0;
    assert b * b >= 0.0;
    NonNegativeProduct(1.0 - rho, 1.0 + rho, f);
    NonNegativeProduct(f, b * b, f * (b * b));
    assert a * a + b * b + 2.0 * rho * a * b == e * e + f * (b * b);
  }

  lemma FiniteErrors(m: MathLib, b1: real, b2: real, sb1: real, sb2: real, rho: real)
    requires SqrtLaw(m) && Radicand(b1, b2) > 0.0 && -1.0 <= rho <= 1.0
    ensures StarErrors(m, b1, b2, sb1, sb2, rho).0.Some? && StarErrors(m, b1, b2, sb1, sb2, rho).1.Some?
  {
    var q := m.sqrt(Radicand(b1, b2));
    SqrtPositive(m, Radicand(b1, b2));
    var (a, b, c, d) := Sensitivities(b1, b2, q);
    VarianceNonNegative(a, b, sb1, sb2, rho);
    VarianceNonNegative(c, d, sb1, sb2, rho);
  }

  /**
   * At the two BPMs of a drift with beta* > 0 the radicand is the square
   * `(beta* + (s1 - s*)(s2 - s*)/beta*)²`, so Q is real; it is zero when
   * `beta*² == -(s1 - s*)(s2 - s*)`.
   */
  lemma RadicandIsSquare(bs: real, ss: real)
    requires bs > 0.0
    ensures var k := bs + (S1 - ss) * (S2 - ss) / bs;
      Radicand(BetaAt(bs, ss, S1), BetaAt(bs, ss, S2)) == k * k
  {
    var u, v := S1 - ss, S2 - ss;
    BetaHyperbola(bs, ss, S1);
    BetaHyperbola(bs, ss, S2);
    RadicandAlgebra(bs, u, v, 1.0 / bs);
  }

  lemma RadicandAlgebra(bs: real, u: real, v: real, w: real)
    requires bs > 0.0 && w * bs == 1.0 && v - u == Ds
    ensures (bs + (u * u) / bs) * (bs + (v * v) / bs) - Ds * Ds == (bs + u * v / bs) * (bs + u * v / bs)
  {
    assert (u * u) / bs == u * u * w && (v * v) / bs == v * v * w && u * v / bs == u * v * w;
    assert Ds * Ds == u * u + v * v - 2.0 * u * v;
    assert (bs + u * u * w) * (bs + v * v * w) == bs * bs + u * u * (w * bs) + v * v * (w * bs) + (u * v * w) * (u * v * w);
    assert (bs + u * v * w) * (bs + u * v * w) == bs * bs + 2.0 * u * v * (w * bs) + (u * v * w) * (u * v * w);
  }

  /** So propagated errors always exist for the page's BPMs, except where Q vanishes. */
  lemma RadicandNonNegative(bs: real, ss: real)
    requires bs > 0.0
    ensures Radicand(BetaAt(bs, ss, S1), BetaAt(bs, ss, S2)) >= 0.0
  {
    RadicandIsSquare(bs, ss);
    var k := bs + (S1 - ss) * (S2 - ss) / bs;
    var r := Radicand(BetaAt(bs, ss, S1), BetaAt(bs, ss, S2));
    assert r == k * k;
  }

  /** A waist in the middle with beta* = 8.3 m puts Q = 0: no error bars. */
  lemma VanishingQ(m: MathLib, sb1: real, sb2: real, rho: real)
    requires SqrtLaw(m)
    ensures Radicand(BetaAt(8.3, 0.0, S1), BetaAt(8.3, 0.0, S2)) == 0.0
    ensures StarErrors(m, BetaAt(8.3, 0.0, S1), BetaAt(8.3, 0.0, S2), sb1, sb2, rho) == (None, None)
  {
    assert BetaAt(8.3, 0.0, S1) == 16.6;
    assert BetaAt(8.3, 0.0, S2) == 16.6;
  }

  // ---------------------------------------------------------------------------
  // The page
  // ---------------------------------------------------------------------------

  datatype Sliders = Sliders(bs: real, ss: real, sb1: real, sb2: real, rho: real)

  /** `DEFAULTS`. */
  const DefaultSliders: Sliders := Sliders(0.9, 0.0, 0.0, 0.0, 0.0)

  /** The curve, the two BPM markers with their error bars, and the waist with its errors. */
  datatype Plot = Plot(
    s: seq<real>, beta: seq<real>,
    bpm1: (real, real, real), bpm2: (real, real, real),
    star: (real, real), starErrors: (Option<real>, Option<real>))

  /** What `updatePlot` draws. */
  function PagePlot(m: MathLib, sl: Sliders): (p: Plot)
    requires SqrtLaw(m) && sl.bs != 0.0
    ensures |p.s| == |p.beta| == Samples
    ensures p.bpm1 == (S1, BetaAt(sl.bs, sl.ss, S1), sl.sb1)
    ensures p.bpm2 == (S2, BetaAt(sl.bs, sl.ss, S2), sl.sb2)
  {
    var s := Abscissae(Samples);
    var beta := Profile(sl.bs, sl.ss, s);
    AbscissaeUniform(Samples);
    Plot(s, beta, (s[0], beta[0], sl.sb1), (s[Samples - 1], beta[Samples - 1], sl.sb2), (sl.ss, sl.bs),
      StarErrors(m, beta[0], beta[Samples - 1], sl.sb1, sl.sb2, sl.rho))
  }

  /** With the defaults the page draws the waist without error bars of any size. */
  lemma DefaultsHaveNoStarError(m: MathLib)
    requires SqrtLaw(m)
    ensures PagePlot(m, DefaultSliders).starErrors == (Some(0.0), Some(0.0))
  {
    var sl := DefaultSliders;
    var b1, b2 := BetaAt(sl.bs, sl.ss, S1), BetaAt(sl.bs, sl.ss, S2);
    RadicandIsSquare(sl.bs, sl.ss);
    var k := sl.bs + (S1 - sl.ss) * (S2 - sl.ss) / sl.bs;
    assert k < 0.0;
    SquarePositive(k, k * k);
    ExactReadingsNoError(m, b1, b2, sl.rho);
  }

  class BetaPage {
    const math: MathLib
    var sliders: Sliders

    constructor (m: MathLib, sl: Sliders)
      ensures math == m && sliders == sl
    {
      math := m;
      sliders := sl;
    }

    /** `updatePlot`. */
    method UpdatePlot() returns (p: Plot)
      requires SqrtLaw(math) && sliders.bs != 0.0
      ensures p == PagePlot(math, sliders)
    {
      var s, beta := BetaFunction(sliders.bs, sliders.ss, Samples);
      AbscissaeUniform(Samples);
      var errors := StarErrors(math, beta[0], beta[beta.Length - 1], sliders.sb1, sliders.sb2, sliders.rho);
      p := Plot(s[..], beta[..], (s[0], beta[0], sliders.sb1), (s[s.Length - 1], beta[beta.Length - 1], sliders.sb2),
        (sliders.ss, sliders.bs), errors);
    }

    /** An `input` event on a slider. */
    method SliderChange(sl: Sliders) returns (p: Plot)
      requires SqrtLaw(math) && sl.bs != 0.0
      modifies this`sliders
      ensures sliders == sl && p == PagePlot(math, sl)
    {
      sliders := sl;
      p := UpdatePlot();
    }

    /** The Reset button: every slider to `DEFAULTS`, then `updatePlot`. */
    method ResetButton() returns (p: Plot)
      requires SqrtLaw(math)
      modifies this`sliders
      ensures sliders == DefaultSliders && p == PagePlot(math, DefaultSliders)
    {
      sliders := DefaultSliders;
      p := UpdatePlot();
    }
  }
}
