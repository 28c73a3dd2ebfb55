/**
 * The crossing-angle page (assets/js/luminosity/luminosity.js): for the current
 * beta* and s* sliders and bunch length it evaluates the luminosity at N + 1
 * crossing angles from 0 to pi/100 and plots them.
 */
module CrossingAngle {
  import opened RealMath
  import opened Grids
  import opened Simpson
  import opened Luminosity

  /** `Phi[i] = (i * (Math.PI / 100)) / N` for 0 <= i <= N. */
  function Phi(m: MathLib): (phi: seq<real>)
    ensures |phi| == ScanIntervals + 1
  {
    seq(ScanIntervals + 1, i requires 0 <= i <= ScanIntervals =>
      (i as real * (m.pi / 100.0)) / ScanIntervals as real)
  }

  /** Phi is numpy's `linspace(0, pi/100, N + 1)`. */
  lemma PhiIsUniform(m: MathLib)
    ensures Phi(m) == Uniform(0.0, m.pi / 100.0, ScanIntervals + 1)
  {
    var hi := m.pi / 100.0;
    forall i | 0 <= i <= ScanIntervals
      ensures Phi(m)[i] == UniformAt(0.0, hi, ScanIntervals + 1, i)
    {
      assert (i as real * hi) / ScanIntervals as real == 0.0 + (hi - 0.0) * (i as real) / ((ScanIntervals + 1 - 1) as real);
    }
  }

  /** The angles run from 0 to pi/100 in steps of pi/(100·N). */
  lemma PhiShape(m: MathLib, i: nat)
    requires i < ScanIntervals
    ensures Phi(m)[0] == 0.0 && Phi(m)[ScanIntervals] == m.pi / 100.0
    ensures Phi(m)[i + 1] - Phi(m)[i] == m.pi / 100.0 / ScanIntervals as real
  {
    PhiIsUniform(m);
    UniformStep(0.0, m.pi / 100.0, ScanIntervals + 1, i);
  }

  /** The luminosity the page plots at crossing angle phi. */
  function LuminosityAt(integrand: Beam -> real -> real, ssx: real, ssy: real, bsx: real, bsy: real,
                        sig: real, phi: real): real
  {
    Rule(integrand(PageBeam(ssx, ssy, bsx, bsy, sig, phi)), NegInf, PosInf, IntegralSteps) * Conversion
  }

  /**
   * `updatePlot`: the Phi grid and `Luminosities`, filled by index, one entry per
   * angle: the integral at that angle times 1/100².
   */
  method UpdatePlot(m: MathLib, integrand: Beam -> real -> real,
                    bsx: real, bsy: real, ssx: real, ssy: real, sig: real)
    returns (phi: seq<real>, lum: array<real>)
    ensures phi == Phi(m)
    ensures lum.Length == |phi|
    ensures forall i :: 0 <= i < lum.Length ==>
      lum[i] == LuminosityAt(integrand, ssx, ssy, bsx, bsy, sig, phi[i])
  {
    phi := Phi(m);
    lum := new real[ScanIntervals + 1];
    for i := 0 to ScanIntervals + 1
      invariant forall k :: 0 <= k < i ==> lum[k] == LuminosityAt(integrand, ssx, ssy, bsx, bsy, sig, phi[k])
    {
      var l := LuminosityIntegral(integrand, PageBeam(ssx, ssy, bsx, bsy, sig, phi[i]), NegInf, PosInf);
      lum[i] := l * Conversion;
    }
  }
}
