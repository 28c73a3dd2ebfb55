/**
 * The Twiss ellipse page: N points drawn uniformly from the unit disk, scaled by
 * sqrt(eps) and mapped to physical phase space with the Twiss parameters alpha and
 * beta, plus an optional momentum offset p0.  The page computes gamma from alpha
 * and beta for display and plots the points.
 *
 * Each particle consumes two `Math.random()` values, the angle draw first and the
 * radius draw second; here they arrive as one `Draw` per particle.
 */
module Twiss {
  import opened Wrappers
  import opened RealMath
  import opened Series
  import opened SliderInput

  /** `DEFAULTS`. */
  const DefaultAlpha: real := 0.0
  const DefaultBeta: real := 0.5
  const DefaultEps: real := 0.005
  const DefaultN: int := 2500

  /** The two uniform draws of one particle, in the order they are taken. */
  datatype Draw = Draw(angle: real, radius: real)

  /** A draw `Math.random()` can return: in [0, 1). */
  predicate UnitDraw(d: Draw)
  {
    0.0 <= d.angle < 1.0 && 0.0 <= d.radius < 1.0
  }

  // ---------------------------------------------------------------------------
  // gamma
  // ---------------------------------------------------------------------------

  /**
   * `gam = (1 + alf*alf) / bet`; None stands for the Infinity a zero beta gives.
   * The result is the unique gamma with gamma·beta − alpha² = 1.
   */
  function Gamma(alpha: real, beta: real): (g: Option<real>)
    ensures g.Some? <==> beta != 0.0
    ensures g.Some? ==> g.value * beta - alpha * alpha == 1.0
    ensures g.Some? && beta > 0.0 ==> g.value > 0.0
  {
    if beta == 0.0 then None
    else
      var num := 1.0 + alpha * alpha;
      SquareNonNegative(alpha);
      Some(num / beta)
  }

  /** The gamma the Reset button shows: (1 + 0²) / 0.5 = 2. */
  lemma DefaultGamma()
    ensures Gamma(DefaultAlpha, DefaultBeta) == Some(2.0)
  {
  }

  // ---------------------------------------------------------------------------
  // generate_ellipse_from_twiss
  // ---------------------------------------------------------------------------

  /** (u, up) = sqrt(eps)·r·(cos theta, sin theta) with theta = 2π·draw and r = sqrt(draw). */
  function Normalized(m: MathLib, eps: real, d: Draw): (real, real)
  {
    var theta := d.angle * 2.0 * m.pi;
    var r := m.sqrt(d.radius);
    (m.sqrt(eps) * r * m.cos(theta), m.sqrt(eps) * r * m.sin(theta))
  }

  /** q = sqrt(beta)·u and p = (−alpha/sqrt(beta))·u + (1/sqrt(beta))·up + p0. */
  function Physical(m: MathLib, alpha: real, beta: real, p0: real, u: real, up: real): (real, real)
    requires m.sqrt(beta) != 0.0
  {
    (m.sqrt(beta) * u, (-alpha / m.sqrt(beta)) * u + (1.0 / m.sqrt(beta)) * up + p0)
  }

  /** The point particle d becomes. */
  function Point(m: MathLib, alpha: real, beta: real, eps: real, p0: real, d: Draw): (real, real)
    requires m.sqrt(beta) != 0.0
  {
    var n := Normalized(m, eps, d);
    Physical(m, alpha, beta, p0, n.0, n.1)
  }

  /** The q and p arrays of a whole ensemble. */
  function Positions(m: MathLib, alpha: real, beta: real, eps: real, p0: real, draws: seq<Draw>): (q: seq<real>)
    requires m.sqrt(beta) != 0.0
    ensures |q| == |draws|
  {
    seq(|draws|, i requires 0 <= i < |draws| => Point(m, alpha, beta, eps, p0, draws[i]).0)
  }

  function Momenta(m: MathLib, alpha: real, beta: real, eps: real, p0: real, draws: seq<Draw>): (p: seq<real>)
    requires m.sqrt(beta) != 0.0
    ensures |p| == |draws|
  {
    seq(|draws|, i requires 0 <= i < |draws| => Point(m, alpha, beta, eps, p0, draws[i]).1)
  }

  /**
   * `generate_ellipse_from_twiss(alpha, beta, eps, N, p0)`: two arrays of length N
   * filled index by index, particle i from draws[i].  The source divides by
   * `Math.sqrt(beta)`, so the model asks that it be nonzero.
   */
  method GenerateEllipse(m: MathLib, alpha: real, beta: real, eps: real, n: nat, p0: real, draws: seq<Draw>)
    returns (q: array<real>, p: array<real>)
    requires |draws| == n && m.sqrt(beta) != 0.0
    ensures fresh(q) && fresh(p)
    ensures q.Length == n && p.Length == n
    ensures q[..] == Positions(m, alpha, beta, eps, p0, draws)
    ensures p[..] == Momenta(m, alpha, beta, eps, p0, draws)
  {
    q := new real[n];
    p := new real[n];
    ghost var qs, ps := Positions(m, alpha, beta, eps, p0, draws), Momenta(m, alpha, beta, eps, p0, draws);
    for i := 0 to n
      modifies q, p
      invariant forall k :: 0 <= k < i ==> q[k] == qs[k]
      invariant forall k :: 0 <= k < i ==> p[k] == ps[k]
    {
      // theta, r, u and up of particle i, then its physical coordinates
      var pt := Point(m, alpha, beta, eps, p0, draws[i]);
      assert pt == (qs[i], ps[i]);
      q[i] := pt.0;
      p[i] := pt.1;
    }
  }

  // ---------------------------------------------------------------------------
  // The Courant–Snyder invariant
  // ---------------------------------------------------------------------------

  /** gamma·q² + 2·alpha·q·p + beta·p². */
  function CourantSnyder(alpha: real, beta: real, gamma: real, q: real, p: real): real
  {
    gamma * q * q + 2.0 * alpha * q * p + beta * p * p
  }

  /**
   * The physical map takes the circle u² + up² = c to the ellipse of action c:
   * with beta = s² and gamma = (1 + alpha²)/beta, the invariant of
   * (s·u, (−alpha/s)·u + (1/s)·up) is u² + up².
   */
  lemma InvariantOfMap(alpha: real, s: real, u: real, up: real)
    requires s != 0.0
    ensures CourantSnyder(alpha, s * s, (1.0 + alpha * alpha) / (s * s), s * u, (-alpha / s) * u + (1.0 / s) * up)
         == u * u + up * up
  {
    var w := 1.0 / s;
    assert s * w == 1.0;
    assert -alpha / s == -alpha * w;
    assert (1.0 + alpha * alpha) / (s * s) == (1.0 + alpha * alpha) * (w * w);
    var v := up - alpha * u;
    var q, p := s * u, (-alpha * w) * u + w * up;
    assert p == w * v;
    var g := (1.0 + alpha * alpha) * (w * w);
    assert g * q * q == (1.0 + alpha * alpha) * (s * w) * (s * w) * u * u;
    assert 2.0 * alpha * q * p == 2.0 * alpha * (s * w) * u * v;
    assert (s * s) * p * p == (s * w) * (s * w) * v * v;
    assert v * v == up * up - 2.0 * alpha * u * up + alpha * alpha * u * u;
  }

  /** e·r·(c, sn) with e² = eps, r² = radius and c² + sn² = 1 has squared length eps·radius. */
  lemma CircleAlgebra(eps: real, radius: real, e: real, r: real, c: real, sn: real)
    requires e * e == eps && r * r == radius && c * c + sn * sn == 1.0
    ensures (e * r * c) * (e * r * c) + (e * r * sn) * (e * r * sn) == eps * radius
  {
    assert (e * r * c) * (e * r * c) + (e * r * sn) * (e * r * sn) == (e * e) * (r * r) * (c * c + sn * sn);
  }

  /** sqrt(eps)·r·(cos t, sin t) lies on the circle of radius² eps·r². */
  lemma NormalizedOnCircle(m: MathLib, eps: real, d: Draw)
    requires SqrtLaw(m) && TrigLaw(m) && eps >= 0.0 && d.radius >= 0.0
    ensures var n := Normalized(m, eps, d);
      n.0 * n.0 + n.1 * n.1 == eps * d.radius
  {
    var theta := d.angle * 2.0 * m.pi;
    CircleAlgebra(eps, d.radius, m.sqrt(eps), m.sqrt(d.radius), m.cos(theta), m.sin(theta));
  }

  /**
   * With p0 = 0 every sampled point satisfies gamma·q² + 2·alpha·q·p + beta·p² =
   * eps·r², where r = sqrt(radius draw), so the point lies on or inside the
   * ellipse of emittance eps.
   */
  lemma PointOnEllipse(m: MathLib, alpha: real, beta: real, eps: real, d: Draw)
    requires SqrtLaw(m) && TrigLaw(m) && beta > 0.0 && eps >= 0.0 && UnitDraw(d)
    ensures
      var pt := Point(m, alpha, beta, eps, 0.0, d);
      && CourantSnyder(alpha, beta, Gamma(alpha, beta).value, pt.0, pt.1) == eps * d.radius
      && CourantSnyder(alpha, beta, Gamma(alpha, beta).value, pt.0, pt.1) <= eps
  {
    SqrtPositive(m, beta);
    var s := m.sqrt(beta);
    assert s * s == beta;
    var n := Normalized(m, eps, d);
    InvariantOfMap(alpha, s, n.0, n.1);
    NormalizedOnCircle(m, eps, d);
    NonNegativeProduct(eps, 1.0 - d.radius, eps * (1.0 - d.radius));
  }

  /** The invariant bound for the whole ensemble the page plots. */
  lemma EnsembleWithinEmittance(m: MathLib, alpha: real, beta: real, eps: real, draws: seq<Draw>)
    requires SqrtLaw(m) && TrigLaw(m) && beta > 0.0 && eps >= 0.0
    requires forall i :: 0 <= i < |draws| ==> UnitDraw(draws[i])
    ensures
      var q, p := Positions(m, alpha, beta, eps, 0.0, draws), Momenta(m, alpha, beta, eps, 0.0, draws);
      forall i :: 0 <= i < |draws| ==>
        CourantSnyder(alpha, beta, Gamma(alpha, beta).value, q[i], p[i]) == eps * draws[i].radius <= eps
  {
    SqrtPositive(m, beta);
    var q, p := Positions(m, alpha, beta, eps, 0.0, draws), Momenta(m, alpha, beta, eps, 0.0, draws);
    forall i | 0 <= i < |draws|
      ensures CourantSnyder(alpha, beta, Gamma(alpha, beta).value, q[i], p[i]) == eps * draws[i].radius <= eps
    {
      PointOnEllipse(m, alpha, beta, eps, draws[i]);
    }
  }

  /** q does not depend on alpha or p0, and p0 moves p by exactly p0. */
  lemma OffsetShiftsMomentumOnly(m: MathLib, alpha: real, alpha': real, beta: real, eps: real, p0: real, d: Draw)
    requires m.sqrt(beta) != 0.0
    ensures Point(m, alpha, beta, eps, p0, d).0 == Point(m, alpha', beta, eps, 0.0, d).0
    ensures Point(m, alpha, beta, eps, p0, d).1 == Point(m, alpha, beta, eps, 0.0, d).1 + p0
  {
  }

  /** With eps = 0 every point collapses onto the origin shifted by p0. */
  lemma ZeroEmittanceIsAPoint(m: MathLib, alpha: real, beta: real, p0: real, d: Draw)
    requires SqrtLaw(m) && m.sqrt(beta) != 0.0
    ensures Point(m, alpha, beta, 0.0, p0, d) == (0.0, p0)
  {
    SqrtUnique(m, 0.0, 0.0);
  }

  // ---------------------------------------------------------------------------
  // The page
  // ---------------------------------------------------------------------------

  /** The alpha, beta and eps sliders as `parseFloat` reads them, and the N input. */
  datatype Sliders = Sliders(alf: real, bet: real, eps: real, n: CountInput)

  /** `DEFAULTS`, with the N input reset only when the page has one. */
  function DefaultSliders(input: CountInput): (sl: Sliders)
    ensures sl.alf == DefaultAlpha && sl.bet == DefaultBeta && sl.eps == DefaultEps
    ensures Particles(sl) == DefaultN
  {
    Sliders(DefaultAlpha, DefaultBeta, DefaultEps, ResetCount(input, DefaultN))
  }

  /** The clamped particle count. */
  function Particles(sl: Sliders): (n: nat)
    ensures n >= 1
    ensures sl.n.Parsed? && sl.n.value >= 1 ==> n == sl.n.value
    ensures !sl.n.Parsed? || sl.n.value == 0 ==> n == DefaultN
  {
    Count(sl.n, DefaultN)
  }

  /** What `updatePlot` shows: the gamma span and the scatter trace. */
  datatype Plot = Plot(gamma: Option<real>, q: seq<real>, p: seq<real>)

  function PagePlot(m: MathLib, sl: Sliders, draws: seq<Draw>): (pl: Plot)
    requires |draws| == Particles(sl) && m.sqrt(sl.bet) != 0.0
    ensures |pl.q| == |pl.p| == Particles(sl)
  {
    Plot(Gamma(sl.alf, sl.bet), Positions(m, sl.alf, sl.bet, sl.eps, 0.0, draws), Momenta(m, sl.alf, sl.bet, sl.eps, 0.0, draws))
  }

  /** After Reset the page plots 2500 points inside the ellipse of gamma 2 and emittance 0.005. */
  lemma DefaultPlot(m: MathLib, input: CountInput, draws: seq<Draw>)
    requires SqrtLaw(m) && TrigLaw(m)
    requires |draws| == DefaultN && forall i :: 0 <= i < |draws| ==> UnitDraw(draws[i])
    ensures
      var pl := PagePlot(m, DefaultSliders(input), draws);
      && pl.gamma == Some(2.0) && |pl.q| == DefaultN
      && forall i :: 0 <= i < DefaultN ==> CourantSnyder(DefaultAlpha, DefaultBeta, 2.0, pl.q[i], pl.p[i]) <= DefaultEps
  {
    SqrtPositive(m, DefaultBeta);
    EnsembleWithinEmittance(m, DefaultAlpha, DefaultBeta, DefaultEps, draws);
  }

  class TwissPage {
    const math: MathLib
    var sliders: Sliders

    constructor (m: MathLib, sl: Sliders)
      ensures math == m && sliders == sl
    {
      math := m;
      sliders := sl;
    }

    /** `updatePlot`: read the sliders, clamp N, compute gamma, draw N points with p0 = 0. */
    method UpdatePlot(draws: seq<Draw>) returns (pl: Plot)
      requires |draws| == Particles(sliders) && math.sqrt(sliders.bet) != 0.0
      ensures pl == PagePlot(math, sliders, draws)
    {
      var n := Particles(sliders);
      var gam := Gamma(sliders.alf, sliders.bet);
      var q, p := GenerateEllipse(math, sliders.alf, sliders.bet, sliders.eps, n, 0.0, draws);
      pl := Plot(gam, q[..], p[..]);
    }

    /** An `input` event on a slider. */
    method SliderChange(sl: Sliders, draws: seq<Draw>) returns (pl: Plot)
      requires |draws| == Particles(sl) && math.sqrt(sl.bet) != 0.0
      modifies this`sliders
      ensures sliders == sl && pl == PagePlot(math, sl, draws)
    {
      sliders := sl;
      pl := UpdatePlot(draws);
    }

    /** The Reset button: the sliders to `DEFAULTS`, then `updatePlot`. */
    method ResetButton(draws: seq<Draw>) returns (pl: Plot)
      requires SqrtLaw(math) && |draws| == DefaultN
      modifies this`sliders
      ensures sliders == DefaultSliders(old(sliders.n)) && pl == PagePlot(math, sliders, draws)
    {
      sliders := DefaultSliders(sliders.n);
      SqrtPositive(math, DefaultBeta);
      pl := UpdatePlot(draws);
    }
  }
}
