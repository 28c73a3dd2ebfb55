/**
 * The least-squares page (assets/js/2_linear_optics_measurements/least_squares.js):
 * N abscissae evenly spaced over [0, 10] are blurred by Gaussian noise of width
 * xn, the ordinates m·x by noise of width yn, and an ordinary least-squares line
 * is fitted to the blurred points.  The Gaussian draws are supplied by the
 * caller; the total least-squares fit is not part of this model.
 */
module LeastSquares {
  import opened Wrappers
  import opened Series
  import opened Grids
  import opened SliderInput

  // ---------------------------------------------------------------------------
  // JavaScript numbers, as far as `linspace` and `mean` produce them
  // ---------------------------------------------------------------------------

  datatype Number = Finite(value: real) | NaN | Infinity(positive: bool)

  /** `a / b` in IEEE arithmetic for finite operands, a zero divisor read as +0. */
  function Divide(a: real, b: real): (r: Number)
    ensures r.Finite? <==> b != 0.0
    ensures r.Finite? ==> r.value * b == a
    ensures r == NaN <==> a == 0.0 && b == 0.0
    ensures r.Infinity? ==> (r.positive <==> a > 0.0)
  {
    if b != 0.0 then Finite(a / b)
    else if a == 0.0 then NaN
    else Infinity(a > 0.0)
  }

  /** `a + x` for a finite a: NaN and the infinities absorb the finite addend. */
  function AddTo(a: real, x: Number): (r: Number)
    ensures r.Finite? <==> x.Finite?
    ensures r.Finite? ==> r.value - a == x.value
    ensures !r.Finite? ==> r == x
  {
    if x.Finite? then Finite(a + x.value) else x
  }

  // ---------------------------------------------------------------------------
  // linspace
  // ---------------------------------------------------------------------------

  /** `linspace(start, end, N)` as written: point i is `start + (end - start)*i/(N - 1)`. */
  function LinspaceAsWritten(start: real, end: real, n: nat): (r: seq<Number>)
    ensures |r| == n
  {
    seq(n, i requires 0 <= i < n => PointAsWritten(start, end, n, i))
  }

  function PointAsWritten(start: real, end: real, n: nat, i: nat): Number
  {
    AddTo(start, Divide((end - start) * i as real, (n - 1) as real))
  }

  /** With N = 1, which the page's clamp admits, the only point is 0/0 = NaN. */
  lemma LinspaceSinglePointIsNaN(start: real, end: real)
    ensures LinspaceAsWritten(start, end, 1) == [NaN]
  {
    var r := LinspaceAsWritten(start, end, 1);
    assert r[0] == PointAsWritten(start, end, 1, 0) == AddTo(start, Divide(0.0, 0.0));
  }

  /** From two points on, the loop as written computes the grid exactly. */
  lemma LinspaceAsWrittenAgrees(start: real, end: real, n: nat)
    requires n >= 2
    ensures var w, g := LinspaceAsWritten(start, end, n), LinspaceGrid(start, end, n);
      forall i :: 0 <= i < n ==> w[i] == Finite(g[i])
  {
    var w, g := LinspaceAsWritten(start, end, n), LinspaceGrid(start, end, n);
    forall i | 0 <= i < n
      ensures w[i] == Finite(g[i])
    {
      assert w[i] == PointAsWritten(start, end, n, i);
      PointAsWrittenFinite(start, end, n, i);
      assert g[i] == UniformAt(start, end, n, i);
    }
  }

  lemma PointAsWrittenFinite(start: real, end: real, n: nat, i: nat)
    requires n >= 2
    ensures PointAsWritten(start, end, n, i) == Finite(UniformAt(start, end, n, i))
  {
    var q := (end - start) * i as real;
    assert Divide(q, (n - 1) as real) == Finite(q / (n - 1) as real);
  }

  /** The grid `linspace` is meant to return: N points from start to end, a single point being start. */
  function LinspaceGrid(start: real, end: real, n: nat): (g: seq<real>)
    ensures |g| == n
    ensures n >= 1 ==> g[0] == start
    ensures n >= 2 ==> g[n - 1] == end
    ensures n >= 2 ==> forall i :: 0 <= i < n ==> g[i] == UniformAt(start, end, n, i)
  {
    if n >= 2 then Uniform(start, end, n)
    else if n == 1 then [start]
    else []
  }

  /** Consecutive grid points are `(end - start)/(N - 1)` apart. */
  lemma LinspaceStep(start: real, end: real, n: nat, i: nat)
    requires n >= 2 && i + 1 < n
    ensures LinspaceGrid(start, end, n)[i + 1] - LinspaceGrid(start, end, n)[i] == (end - start) / (n - 1) as real
  {
    UniformStep(start, end, n, i);
  }

  /** `linspace`, pushing one point per pass, with the single-point case returning `[start]`. */
  method Linspace(start: real, end: real, n: nat) returns (arr: seq<real>)
    ensures arr == LinspaceGrid(start, end, n)
  {
    arr := [];
    for i := 0 to n
      invariant |arr| == i
      invariant forall k :: 0 <= k < i ==> arr[k] == LinspaceGrid(start, end, n)[k]
    {
      var v;
      if n == 1 {
        v := start;
      } else {
        v := start + (end - start) * i as real / (n - 1) as real;
        assert v == UniformAt(start, end, n, i);
      }
      arr := arr + [v];
    }
  }

  // ---------------------------------------------------------------------------
  // mean and subtract
  // ---------------------------------------------------------------------------

  /** `mean(arr)`: the sum over the length, NaN for an empty array. */
  function Mean(s: seq<real>): (r: Number)
    ensures r.Finite? <==> |s| > 0
    ensures |s| == 0 ==> r == NaN
    ensures r.Finite? ==> r.value * |s| as real == Sum(s)
  {
    Divide(Sum(s), |s| as real)
  }

  /** The mean of a constant array is that constant. */
  lemma MeanConstant(s: seq<real>, c: real)
    requires |s| > 0
    requires forall i :: 0 <= i < |s| ==> s[i] == c
    ensures Mean(s) == Finite(c)
  {
    SumConstant(s, c);
  }

  /** `subtract(arr, val)`. */
  function Subtract(s: seq<real>, v: real): (r: seq<real>)
    ensures |r| == |s|
  {
    seq(|s|, i requires 0 <= i < |s| => s[i] - v)
  }

  /** Subtracting v from every element lowers the sum by v per element. */
  lemma SubtractSum(s: seq<real>, v: real)
    ensures Sum(Subtract(s, v)) == Sum(s) - v * |s| as real
  {
    SumAffine(s, Subtract(s, v), 1.0, -v);
  }

  /** An array centred on its mean sums to zero, and so has mean zero. */
  lemma CenteredMeanZero(s: seq<real>)
    requires |s| > 0
    ensures Sum(Subtract(s, Mean(s).value)) == 0.0
    ensures Mean(Subtract(s, Mean(s).value)) == Finite(0.0)
  {
    SubtractSum(s, Mean(s).value);
  }

  // ---------------------------------------------------------------------------
  // Ordinary least squares
  // ---------------------------------------------------------------------------

  /** The denominator `N·ΣX² - (ΣX)²` of the slope. */
  function Denominator(x: seq<real>): real
  {
    Spread(|x| as real, Sum(x), SumSquares(x))
  }

  /** `N·ΣX² - (ΣX)²` from the sums. */
  function Spread(n: real, sx: real, sx2: real): real
  {
    n * sx2 - sx * sx
  }

  /**
   * The normal equations of the least-squares line on the sums:
   * `slope·(N·Σx² - (Σx)²) == N·Σxy - Σx·Σy` and `intercept·N + slope·Σx == Σy`.
   */
  predicate NormalEquations(n: real, sx: real, sy: real, sxy: real, sx2: real, slope: real, intercept: real)
  {
    slope * Spread(n, sx, sx2) == n * sxy - sx * sy && intercept * n + slope * sx == sy
  }

  predicate AllEqual(x: seq<real>)
  {
    forall i, j :: 0 <= i < |x| && 0 <= j < |x| ==> x[i] == x[j]
  }

  /**
   * `ordinary_least_squares(X, y)`: the slope and intercept of the fitted line,
   * or None where the source divides by a zero denominator and returns
   * non-finite numbers.  A finite fit solves the normal equations.
   */
  function OrdinaryLeastSquares(x: seq<real>, y: seq<real>): (fit: Option<(real, real)>)
    requires |x| == |y|
    ensures fit.Some? <==> Denominator(x) != 0.0
    ensures fit.Some? ==> |x| > 0
    ensures fit.Some? ==> NormalEquations(|x| as real, Sum(x), Sum(y), SumProducts(x, y), SumSquares(x),
                                          fit.value.0, fit.value.1)
  {
    EmptyDenominator(x);
    LineFit(|x| as real, Sum(x), Sum(y), SumProducts(x, y), SumSquares(x))
  }

  /**
   * The closed form of `ordinary_least_squares` on the four sums: `slope =
   * (N·Σxy - Σx·Σy) / (N·Σx² - (Σx)²)` and `intercept = (Σy - slope·Σx) / N`.
   */
  function LineFit(n: real, sx: real, sy: real, sxy: real, sx2: real): (fit: Option<(real, real)>)
    requires n == 0.0 ==> sx == 0.0
    ensures fit.Some? <==> Spread(n, sx, sx2) != 0.0
    ensures fit.Some? ==> n != 0.0
    ensures fit.Some? ==> NormalEquations(n, sx, sy, sxy, sx2, fit.value.0, fit.value.1)
  {
    var den := Spread(n, sx, sx2);
    if den == 0.0 then None
    else
      var slope := (n * sxy - sx * sy) / den;
      Some((slope, (sy - slope * sx) / n))
  }

  /** No points, no sums. */
  lemma EmptyDenominator(x: seq<real>)
    ensures |x| == 0 ==> Sum(x) == 0.0 && Denominator(x) == 0.0
  {
  }

  /** The fitted line passes through the centroid: `intercept + slope·mean(X) == mean(y)`. */
  lemma FitThroughCentroid(x: seq<real>, y: seq<real>)
    requires |x| == |y|
    requires OrdinaryLeastSquares(x, y).Some?
    ensures var (slope, intercept) := OrdinaryLeastSquares(x, y).value;
      intercept + slope * Mean(x).value == Mean(y).value
  {
    var n, sx, sy, sxy, sx2 := |x| as real, Sum(x), Sum(y), SumProducts(x, y), SumSquares(x);
    assert OrdinaryLeastSquares(x, y) == LineFit(n, sx, sy, sxy, sx2);
    assert Mean(x).value == sx / n && Mean(y).value == sy / n;
    LineFitCentroid(n, sx, sy, sxy, sx2);
  }

  lemma LineFitCentroid(n: real, sx: real, sy: real, sxy: real, sx2: real)
    requires n == 0.0 ==> sx == 0.0
    requires LineFit(n, sx, sy, sxy, sx2).Some?
    ensures var (slope, intercept) := LineFit(n, sx, sy, sxy, sx2).value;
      intercept + slope * (sx / n) == sy / n
  {
    var (slope, intercept) := LineFit(n, sx, sy, sxy, sx2).value;
    assert intercept * n + slope * sx == sy;
    assert (intercept + slope * (sx / n)) * n == intercept * n + slope * sx;
  }

  /** Points exactly on `y = m·x + c` give back m and c, whenever the abscissae are not all equal. */
  lemma FitRecoversLine(x: seq<real>, y: seq<real>, m: real, c: real)
    requires |x| == |y|
    requires forall i :: 0 <= i < |x| ==> y[i] == m * x[i] + c
    requires !AllEqual(x)
    ensures OrdinaryLeastSquares(x, y) == Some((m, c))
  {
    DenominatorZeroIff(x);
    LineSums(x, y, m, c);
    var fit := OrdinaryLeastSquares(x, y);
    NormalEquationsUnique(|x| as real, Sum(x), Sum(y), SumProducts(x, y), SumSquares(x), m, c,
                          fit.value.0, fit.value.1);
  }

  /** The sums of points on `y = m·x + c`. */
  lemma LineSums(x: seq<real>, y: seq<real>, m: real, c: real)
    requires |x| == |y|
    requires forall i :: 0 <= i < |x| ==> y[i] == m * x[i] + c
    ensures Combination(Sum(y), Sum(x), |x| as real, m, c)
    ensures Combination(SumProducts(x, y), SumSquares(x), Sum(x), m, c)
  {
    SumAffine(x, y, m, c);
    SumProductsAffine(x, y, m, c);
  }

  /** The normal equations have one solution while the spread is not zero. */
  lemma NormalEquationsUnique(n: real, sx: real, sy: real, sxy: real, sx2: real, m: real, c: real,
                              slope: real, intercept: real)
    requires n > 0.0 && Spread(n, sx, sx2) != 0.0
    requires Combination(sy, sx, n, m, c) && Combination(sxy, sx2, sx, m, c)
    requires NormalEquations(n, sx, sy, sxy, sx2, slope, intercept)
    ensures slope == m && intercept == c
  {
    var den := Spread(n, sx, sx2);
    assert n * sxy == m * (n * sx2) + c * (n * sx);
    assert sx * sy == m * (sx * sx) + c * (n * sx);
    assert slope * den == m * den;
    assert slope == m by {
      assert (slope - m) * den == 0.0;
    }
    assert intercept * n == c * n;
  }

  /** The denominator is N times the sum of squared deviations from the mean. */
  lemma DenominatorIsSpread(x: seq<real>)
    requires |x| > 0
    ensures Denominator(x) == |x| as real * SumSquares(Subtract(x, Mean(x).value))
  {
    var n, mu := |x| as real, Mean(x).value;
    var d := Subtract(x, mu);
    SumSquaresShifted(x, d, -mu);
    SpreadAlgebra(n, SumSquares(x), Sum(x), mu, SumSquares(d));
  }

  lemma SpreadAlgebra(n: real, s2: real, s: real, mu: real, q: real)
    requires mu * n == s
    requires Shifted(q, s2, s, n, -mu)
    ensures n * q == n * s2 - s * s
  {
    assert q == s2 - 2.0 * mu * s + mu * mu * n;
    assert n * q == n * s2 - 2.0 * (mu * n) * s + (mu * n) * (mu * n);
  }

  /** OLS has a finite answer exactly when the abscissae are not all equal (N = 0 and N = 1 included). */
  lemma DenominatorZeroIff(x: seq<real>)
    ensures Denominator(x) == 0.0 <==> AllEqual(x)
  {
    if Denominator(x) == 0.0 {
      ZeroDenominatorAllEqual(x);
    }
    if AllEqual(x) {
      AllEqualZeroDenominator(x);
    }
  }

  lemma ZeroDenominatorAllEqual(x: seq<real>)
    requires Denominator(x) == 0.0
    ensures AllEqual(x)
  {
    if |x| > 0 {
      var n, mu := |x| as real, Mean(x).value;
      var d := Subtract(x, mu);
      DenominatorIsSpread(x);
      ProductZero(n, SumSquares(d), Denominator(x));
      SumSquaresZero(d);
      forall i, j | 0 <= i < |x| && 0 <= j < |x|
        ensures x[i] == x[j]
      {
        assert d[i] == 0.0 && d[j] == 0.0;
      }
    }
  }

  lemma AllEqualZeroDenominator(x: seq<real>)
    requires AllEqual(x)
    ensures Denominator(x) == 0.0
  {
    if |x| > 0 {
      var n, mu := |x| as real, Mean(x).value;
      var d := Subtract(x, mu);
      MeanConstant(x, x[0]);
      forall i | 0 <= i < |d|
        ensures d[i] == 0.0
      {
        assert x[i] == x[0];
      }
      SumSquaresZero(d);
      DenominatorIsSpread(x);
    }
  }

  lemma ProductZero(n: real, q: real, p: real)
    requires n > 0.0 && p == n * q && p == 0.0
    ensures q == 0.0
  {
    assert q == (n * q) / n;
  }

  // ---------------------------------------------------------------------------
  // The page
  // ---------------------------------------------------------------------------

  /** `DEFAULTS`. */
  const DefaultXn: real := 0.5
  const DefaultYn: real := 0.5
  const DefaultSlope: real := 2.0
  const DefaultN: int := 200

  /** `randomGaussian(mean, std)` with its standard normal draw z. */
  function Gaussian(mean: real, std: real, z: real): real
  {
    mean + std * z
  }

  /** One noise realization of width std: `Array.from({ length: N }, () => randomGaussian(0, std))`. */
  function NoiseOf(std: real, z: seq<real>): (r: seq<real>)
    ensures |r| == |z|
    ensures std == 0.0 ==> forall i :: 0 <= i < |r| ==> r[i] == 0.0
  {
    seq(|z|, i requires 0 <= i < |z| => Gaussian(0.0, std, z[i]))
  }

  /** The inputs: noise widths, true slope and the optional N input. */
  datatype Sliders = Sliders(xn: real, yn: real, slope: real, n: CountInput)

  /** The point count `updatePlot` and the Resample button use. */
  function Points(sl: Sliders): (n: nat)
    ensures n >= 1
    ensures sl.n.Absent? ==> n == DefaultN
  {
    Count(sl.n, DefaultN)
  }

  /** `xs.map((xi, i) => xi + noise[i])`. */
  function Blur(xs: seq<real>, noise: seq<real>): (r: seq<real>)
    requires |noise| >= |xs|
    ensures |r| == |xs|
  {
    seq(|xs|, i requires 0 <= i < |xs| => xs[i] + noise[i])
  }

  /** `X_true.map(xi => m * xi)`. */
  function Line(m: real, c: real, xs: seq<real>): (r: seq<real>)
    ensures |r| == |xs|
  {
    seq(|xs|, i requires 0 <= i < |xs| => m * xs[i] + c)
  }

  datatype Plot = Plot(
    xTrue: seq<real>, xObs: seq<real>, yTrue: seq<real>, yObs: seq<real>,
    fit: Option<(real, real)>, yPred: Option<seq<real>>)

  /** What `updatePlot` draws, given the two noise realizations it uses. */
  function PagePlot(sl: Sliders, noiseX: seq<real>, noiseY: seq<real>): (p: Plot)
    requires |noiseX| == Points(sl) && |noiseY| == Points(sl)
    ensures |p.xTrue| == |p.xObs| == |p.yTrue| == |p.yObs| == Points(sl)
    ensures p.fit == OrdinaryLeastSquares(p.xObs, p.yObs)
    ensures p.yPred.Some? <==> p.fit.Some?
  {
    var n := Points(sl);
    var xTrue := LinspaceGrid(0.0, 10.0, n);
    var xObs := Blur(xTrue, noiseX);
    var yTrue := Line(sl.slope, 0.0, xTrue);
    var yObs := Blur(yTrue, noiseY);
    var fit := OrdinaryLeastSquares(xObs, yObs);
    Plot(xTrue, xObs, yTrue, yObs, fit,
      match fit
      case None => None
      case Some((s, c)) => Some(Line(s, c, xTrue)))
  }

  /** The part of `updatePlot` after the noise is drawn. */
  method ComputePlot(sl: Sliders, noiseX: seq<real>, noiseY: seq<real>) returns (p: Plot)
    requires |noiseX| == Points(sl) && |noiseY| == Points(sl)
    ensures p == PagePlot(sl, noiseX, noiseY)
  {
    var n := Points(sl);
    var xTrue := Linspace(0.0, 10.0, n);
    var xObs := Blur(xTrue, noiseX);
    var yTrue := Line(sl.slope, 0.0, xTrue);
    var yObs := Blur(yTrue, noiseY);
    var fit := OrdinaryLeastSquares(xObs, yObs);
    var yPred := match fit
      case None => None
      case Some((s, c)) => Some(Line(s, c, xTrue));
    p := Plot(xTrue, xObs, yTrue, yObs, fit, yPred);
  }

  /** With both noise widths at zero the fit is the true line: slope m, intercept 0. */
  lemma NoiselessFitIsExact(sl: Sliders, zx: seq<real>, zy: seq<real>)
    requires sl.xn == 0.0 && sl.yn == 0.0
    requires |zx| == Points(sl) && |zy| == Points(sl) && Points(sl) >= 2
    ensures var p := PagePlot(sl, NoiseOf(sl.xn, zx), NoiseOf(sl.yn, zy));
      p.fit == Some((sl.slope, 0.0)) && p.yPred == Some(p.yTrue)
  {
    var n := Points(sl);
    var p := PagePlot(sl, NoiseOf(sl.xn, zx), NoiseOf(sl.yn, zy));
    assert p.xObs == p.xTrue;
    assert p.yObs == p.yTrue;
    assert p.xTrue[0] != p.xTrue[n - 1];
    FitRecoversLine(p.xTrue, p.yTrue, sl.slope, 0.0);
  }

  /** A single point leaves the denominator at zero: no finite line. */
  lemma SinglePointHasNoFit(sl: Sliders, zx: seq<real>, zy: seq<real>)
    requires |zx| == Points(sl) && |zy| == Points(sl) && Points(sl) == 1
    ensures PagePlot(sl, zx, zy).fit == None
  {
    var p := PagePlot(sl, zx, zy);
    DenominatorZeroIff(p.xObs);
  }

  function DefaultSliders(input: CountInput): (sl: Sliders)
    ensures Points(sl) == DefaultN
  {
    Sliders(DefaultXn, DefaultYn, DefaultSlope, ResetCount(input, DefaultN))
  }

  class LeastSquaresPage {
    var sliders: Sliders
    /** `CURRENT_X_NOISE`, `CURRENT_Y_NOISE`. */
    var noiseX: Option<seq<real>>
    var noiseY: Option<seq<real>>

    /** The page's globals before the first draw: no noise realization yet. */
    constructor (sl: Sliders)
      ensures sliders == sl && noiseX == None && noiseY == None
    {
      sliders := sl;
      noiseX, noiseY := None, None;
    }

    /** `resampleNoise(N, xn, yn)`: N x-draws, then N y-draws. */
    method ResampleNoise(n: nat, xn: real, yn: real, draws: seq<real>)
      requires |draws| >= 2 * n
      modifies this`noiseX, this`noiseY
      ensures noiseX == Some(NoiseOf(xn, draws[..n]))
      ensures noiseY == Some(NoiseOf(yn, draws[n..2 * n]))
    {
      noiseX := Some(NoiseOf(xn, draws[..n]));
      noiseY := Some(NoiseOf(yn, draws[n..2 * n]));
    }

    /**
     * `updatePlot`: both branches of the check on the stored realization
     * resample, so every redraw uses fresh noise of the current widths.
     */
    method UpdatePlot(draws: seq<real>) returns (p: Plot)
      requires |draws| >= 2 * Points(sliders)
      modifies this`noiseX, this`noiseY
      ensures noiseX == Some(NoiseOf(sliders.xn, draws[..Points(sliders)]))
      ensures noiseY == Some(NoiseOf(sliders.yn, draws[Points(sliders)..2 * Points(sliders)]))
      ensures p == PagePlot(sliders, noiseX.value, noiseY.value)
    {
      var n := Points(sliders);
      if noiseX.None? || |noiseX.value| != n {
        ResampleNoise(n, sliders.xn, sliders.yn, draws);
      } else {
        ResampleNoise(n, sliders.xn, sliders.yn, draws);
      }
      p := ComputePlot(sliders, noiseX.value, noiseY.value);
    }

    /** An `input` event on a slider: the new values, then `updatePlot`. */
    method SliderChange(sl: Sliders, draws: seq<real>) returns (p: Plot)
      requires |draws| >= 2 * Points(sl)
      modifies this
      ensures sliders == sl
      ensures noiseX == Some(NoiseOf(sl.xn, draws[..Points(sl)]))
      ensures noiseY == Some(NoiseOf(sl.yn, draws[Points(sl)..2 * Points(sl)]))
      ensures p == PagePlot(sl, noiseX.value, noiseY.value)
    {
      sliders := sl;
      p := UpdatePlot(draws);
    }

    /**
     * The Resample button: `resampleNoise` with the current sliders, then
     * `updatePlot`, which draws again; the plot shows the second realization.
     */
    method ResampleButton(draws: seq<real>) returns (p: Plot)
      requires |draws| >= 4 * Points(sliders)
      modifies this`noiseX, this`noiseY
      ensures var n := Points(sliders);
        noiseX == Some(NoiseOf(sliders.xn, draws[2 * n..3 * n]))
        && noiseY == Some(NoiseOf(sliders.yn, draws[3 * n..4 * n]))
      ensures p == PagePlot(sliders, noiseX.value, noiseY.value)
    {
      var n := Points(sliders);
      ResampleNoise(n, sliders.xn, sliders.yn, draws[..2 * n]);
      p := UpdatePlot(draws[2 * n..]);
      assert draws[2 * n..][..n] == draws[2 * n..3 * n];
      assert draws[2 * n..][n..2 * n] == draws[3 * n..4 * n];
    }

    /** The Reset button: defaults, the stored noise cleared, then `updatePlot`. */
    method ResetButton(draws: seq<real>) returns (p: Plot)
      requires |draws| >= 2 * DefaultN
      modifies this
      ensures sliders == DefaultSliders(old(sliders.n))
      ensures noiseX == Some(NoiseOf(DefaultXn, draws[..DefaultN]))
      ensures noiseY == Some(NoiseOf(DefaultYn, draws[DefaultN..2 * DefaultN]))
      ensures p == PagePlot(sliders, noiseX.value, noiseY.value)
    {
      sliders := DefaultSliders(sliders.n);
      noiseX, noiseY := None, None;
      p := UpdatePlot(draws);
    }
  }
}
