/**
 * The luminosity integral both luminosity pages share: `LuminosityIntegral(f,
 * N1, N2, ssx, ssy, bsx, bsy, ex, ey, sz, phi, a, b)` integrates
 * `integrand(s, f, N1, ..., phi)` over s in [a, b] with Simpson's rule and 400
 * intervals.  The integrand (an hourglass-corrected Gaussian overlap built from
 * exp, sin, cos and sqrt) is not modelled: it is a parameter, applied to the
 * beam parameters and then to s.
 */
module Luminosity {
  import opened Simpson

  /** The arguments of `integrand` after s, in the source's order. */
  datatype Beam = Beam(
    f: real, n1: real, n2: real,
    ssx: real, ssy: real,
    bsx: real, bsy: real,
    ex: real, ey: real,
    sz: real, phi: real)

  /** The Simpson interval count of `LuminosityIntegral`. */
  const IntegralSteps: int := 400

  // The machine and unit constants both pages use.
  const Freq: real := 78000.0
  const BunchCharge1: real := 200000000000.0
  const BunchCharge2: real := 200000000000.0
  const EmittanceX: real := 0.0000001
  const EmittanceY: real := 0.0000001
  /** `neg_inf` / `pos_inf`: the integration window, ±10 standing in for ±infinity. */
  const NegInf: real := -10.0
  const PosInf: real := 10.0
  /** `1 / 100**2`. */
  const Conversion: real := 1.0 / 10000.0
  /** Each scan has N + 1 points. */
  const ScanIntervals: nat := 100

  /** The beam a page builds from its sliders and the given crossing angle. */
  function PageBeam(ssx: real, ssy: real, bsx: real, bsy: real, sig: real, phi: real): Beam
  {
    Beam(Freq, BunchCharge1, BunchCharge2, ssx, ssy, bsx, bsy, EmittanceX, EmittanceY, sig, phi)
  }

  /** `LuminosityIntegral(...)`: Simpson over [a, b] with 400 intervals. */
  method LuminosityIntegral(integrand: Beam -> real -> real, beam: Beam, a: real, b: real) returns (l: real)
    ensures l == Rule(integrand(beam), a, b, IntegralSteps)
  {
    l := IntegrateSimpson(integrand(beam), a, b, IntegralSteps);
  }

  /** An integrand that is constant in s integrates to that constant times the window. */
  lemma IntegralOfConstant(integrand: Beam -> real -> real, beam: Beam, c: real, a: real, b: real)
    requires forall s :: integrand(beam)(s) == c
    ensures Rule(integrand(beam), a, b, IntegralSteps) == c * (b - a)
  {
    RuleConstant(integrand(beam), c, a, b, IntegralSteps);
  }

  /** Over the pages' window [-10, 10] that is 20 times the constant. */
  lemma WindowOfConstant(integrand: Beam -> real -> real, beam: Beam, c: real)
    requires forall s :: integrand(beam)(s) == c
    ensures Rule(integrand(beam), NegInf, PosInf, IntegralSteps) == 20.0 * c
  {
    IntegralOfConstant(integrand, beam, c, NegInf, PosInf);
  }
}
