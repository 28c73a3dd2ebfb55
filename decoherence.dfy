/**
 * The decoherence simulator: an ensemble of particles in normalized phase space,
 * each rotated every turn by its own tune, with the centroid recorded turn by turn
 * and a play / pause / step / reset controller around it.
 *
 * Per particle, z = u + i·up is kept as (zr[i], zi[i]) and the one-turn rotation
 * exp(i·2π·Q_i) as (pr[i], pi[i]).  The physical coordinates (qArr, pArr) are
 * recomputed from z after every change, and four histories grow by one entry each
 * time.  Float32 storage is modelled as `real`.
 */
module Decoherence {
  import opened RealMath
  import opened Series

  const ParticleCount: nat := 5000
  const Alpha: real := 0.0
  const Beta: real := 1.0
  const Eps: real := 0.005
  const NTurns: int := 200
  /** `Math.sqrt(beta)` and its reciprocal, which the simulator computes once (see `SqrtBetaValues`). */
  const SqrtBeta: real := 1.0
  const InvSqrtBeta: real := 1.0
  /** The animation takes a step when at least this many milliseconds have passed. */
  const StepIntervalMs: real := 60.0

  /** With beta = 1 the host's square root and its reciprocal are the two constants above. */
  lemma SqrtBetaValues(m: MathLib)
    requires SqrtLaw(m)
    ensures m.sqrt(Beta) == SqrtBeta && 1.0 / m.sqrt(Beta) == InvSqrtBeta
  {
    SqrtOne(m);
  }

  // ---------------------------------------------------------------------------
  // Twiss coordinate maps.  They take alpha, sqrt(beta) and its reciprocal, the
  // two constants the simulator computes once; `Reciprocal` is what ties them.
  // ---------------------------------------------------------------------------

  ghost predicate Reciprocal(sqrtBeta: real, invSqrtBeta: real)
  {
    sqrtBeta * invSqrtBeta == 1.0
  }

  /** Physical (q, p) to normalized (u, up). */
  function PhysToNorm(alpha: real, sqrtBeta: real, invSqrtBeta: real, q: real, p: real): (real, real)
  {
    (q * invSqrtBeta, alpha * q * invSqrtBeta + p * sqrtBeta)
  }

  /** Normalized (u, up) to physical (q, p). */
  function NormToPhys(alpha: real, sqrtBeta: real, invSqrtBeta: real, u: real, up: real): (real, real)
  {
    (sqrtBeta * u, (-alpha * invSqrtBeta) * u + invSqrtBeta * up)
  }

  lemma NormToPhysAfterPhysToNorm(alpha: real, sqrtBeta: real, invSqrtBeta: real, q: real, p: real)
    requires Reciprocal(sqrtBeta, invSqrtBeta)
    ensures var n := PhysToNorm(alpha, sqrtBeta, invSqrtBeta, q, p);
            NormToPhys(alpha, sqrtBeta, invSqrtBeta, n.0, n.1) == (q, p)
  {
    var n := PhysToNorm(alpha, sqrtBeta, invSqrtBeta, q, p);
    var one := sqrtBeta * invSqrtBeta;
    assert sqrtBeta * n.0 == q * one;
    assert (-alpha * invSqrtBeta) * n.0 + invSqrtBeta * n.1 == p * one;
    var r := NormToPhys(alpha, sqrtBeta, invSqrtBeta, n.0, n.1);
    assert r.0 == q && r.1 == p;
  }

  lemma PhysToNormAfterNormToPhys(alpha: real, sqrtBeta: real, invSqrtBeta: real, u: real, up: real)
    requires Reciprocal(sqrtBeta, invSqrtBeta)
    ensures var c := NormToPhys(alpha, sqrtBeta, invSqrtBeta, u, up);
            PhysToNorm(alpha, sqrtBeta, invSqrtBeta, c.0, c.1) == (u, up)
  {
    var c := NormToPhys(alpha, sqrtBeta, invSqrtBeta, u, up);
    var one := sqrtBeta * invSqrtBeta;
    assert c.0 * invSqrtBeta == u * one;
    assert alpha * c.0 * invSqrtBeta + c.1 * sqrtBeta == up * one;
    var r := PhysToNorm(alpha, sqrtBeta, invSqrtBeta, c.0, c.1);
    assert r.0 == u && r.1 == up;
  }

  /**
   * The persistent state of one particle as initState builds it: the drawn
   * (u, up) taken to physical coordinates, given the kick in p, and normalized
   * again.  The source divides by `Math.sqrt(beta)` here; the model multiplies by
   * its reciprocal, the same real number.
   */
  function InitialCoordinates(alpha: real, sqrtBeta: real, invSqrtBeta: real, u: real, up: real, kick: real): (real, real)
  {
    var q := sqrtBeta * u;
    var p := (-alpha * invSqrtBeta) * u + invSqrtBeta * up + kick;
    PhysToNorm(alpha, sqrtBeta, invSqrtBeta, q, p)
  }

  /** The kick leaves u alone and shifts up by exactly kick·sqrt(beta). */
  lemma KickShiftsMomentum(alpha: real, sqrtBeta: real, invSqrtBeta: real, u: real, up: real, kick: real)
    requires Reciprocal(sqrtBeta, invSqrtBeta)
    ensures InitialCoordinates(alpha, sqrtBeta, invSqrtBeta, u, up, kick).0 == u
    ensures InitialCoordinates(alpha, sqrtBeta, invSqrtBeta, u, up, kick).1 == up + kick * sqrtBeta
  {
    var q := sqrtBeta * u;
    var p := (-alpha * invSqrtBeta) * u + invSqrtBeta * up + kick;
    var r := PhysToNorm(alpha, sqrtBeta, invSqrtBeta, q, p);
    assert InitialCoordinates(alpha, sqrtBeta, invSqrtBeta, u, up, kick) == r;
    var one := sqrtBeta * invSqrtBeta;
    assert r.0 == u by {
      assert q * invSqrtBeta == u * one;
    }
    assert r.1 == up + kick * sqrtBeta by {
      assert alpha * q * invSqrtBeta == alpha * u * one;
      assert p * sqrtBeta == -alpha * u * one + up * one + kick * sqrtBeta;
    }
  }

  // ---------------------------------------------------------------------------
  // One turn of one particle
  // ---------------------------------------------------------------------------

  /** (a + ib)(c + id). */
  function CMul(a: real, b: real, c: real, d: real): (real, real)
  {
    (a * c - b * d, a * d + b * c)
  }

  /** |a + ib|². */
  function Modulus2(a: real, b: real): real
  {
    a * a + b * b
  }

  /** The modulus of a product is the product of the moduli. */
  lemma CMulModulus(a: real, b: real, c: real, d: real)
    ensures var z := CMul(a, b, c, d); Modulus2(z.0, z.1) == Modulus2(a, b) * Modulus2(c, d)
  {
  }

  /** A rotation by a unit complex number keeps |z|. */
  lemma UnitRotationKeepsModulus(a: real, b: real, c: real, d: real)
    requires Modulus2(c, d) == 1.0
    ensures var z := CMul(a, b, c, d); Modulus2(z.0, z.1) == Modulus2(a, b)
  {
    CMulModulus(a, b, c, d);
  }

  /** The phase advance per turn of a particle whose tune is q0 + sigmaQ·d. */
  function Angle(m: MathLib, q0: real, sigmaQ: real, d: real): real
  {
    2.0 * m.pi * (q0 + sigmaQ * d)
  }

  /** Every (cos ω, sin ω) lies on the unit circle. */
  lemma UnitCircle(m: MathLib, omega: real)
    requires TrigLaw(m)
    ensures Modulus2(m.cos(omega), m.sin(omega)) == 1.0
  {
  }

  /** `Math.min(turn + 1, nTurns - 1)`. */
  function NextTurn(turn: int): (t: int)
    requires 0 <= turn <= NTurns - 1
    ensures 0 <= t <= NTurns - 1
    ensures turn < NTurns - 1 ==> t == turn + 1
    ensures turn == NTurns - 1 ==> t == turn
  {
    if turn + 1 < NTurns - 1 then turn + 1 else NTurns - 1
  }

  /** `[0, 1, ..., n - 1]`: the turn history of a run that has reached turn n - 1. */
  ghost predicate CountsUp(hist: seq<int>)
  {
    forall k :: 0 <= k < |hist| ==> hist[k] == k
  }

  // ---------------------------------------------------------------------------
  // Whole-ensemble views: one entry per particle
  // ---------------------------------------------------------------------------

  /** The physical q of every particle, from its normalized (u, up). */
  function PhysQ(us: seq<real>, ups: seq<real>): (qs: seq<real>)
    requires |us| == |ups|
    ensures |qs| == |us|
  {
    seq(|us|, i requires 0 <= i < |us| => NormToPhys(Alpha, SqrtBeta, InvSqrtBeta, us[i], ups[i]).0)
  }

  /** The physical p of every particle, from its normalized (u, up). */
  function PhysP(us: seq<real>, ups: seq<real>): (ps: seq<real>)
    requires |us| == |ups|
    ensures |ps| == |us|
  {
    seq(|us|, i requires 0 <= i < |us| => NormToPhys(Alpha, SqrtBeta, InvSqrtBeta, us[i], ups[i]).1)
  }

  /** A centroid coordinate: the sum over the ensemble divided by N. */
  function Mean(xs: seq<real>): real
  {
    Sum(xs) / ParticleCount as real
  }

  /** The real parts of z[i]·(c[i] + i·s[i]). */
  function RotatedRe(zrs: seq<real>, zis: seq<real>, cs: seq<real>, ss: seq<real>): (r: seq<real>)
    requires |zis| == |zrs| && |cs| == |zrs| && |ss| == |zrs|
    ensures |r| == |zrs|
  {
    seq(|zrs|, i requires 0 <= i < |zrs| => CMul(zrs[i], zis[i], cs[i], ss[i]).0)
  }

  /** The imaginary parts of z[i]·(c[i] + i·s[i]). */
  function RotatedIm(zrs: seq<real>, zis: seq<real>, cs: seq<real>, ss: seq<real>): (r: seq<real>)
    requires |zis| == |zrs| && |cs| == |zrs| && |ss| == |zrs|
    ensures |r| == |zrs|
  {
    seq(|zrs|, i requires 0 <= i < |zrs| => CMul(zrs[i], zis[i], cs[i], ss[i]).1)
  }

  /**
   * The ensemble initState draws from `draws`, the successive `randn()` results:
   * particle i takes u = sqrt(eps)·draws[3i] and up = sqrt(eps)·draws[3i+1], the
   * kick then adds kick·sqrt(beta) to up (`KickShiftsMomentum`), and draws[3i+2]
   * sets its tune Q0 + sigmaQ·draws[3i+2].
   */
  function DrawnU(m: MathLib, draws: seq<real>): (r: seq<real>)
    requires |draws| == 3 * ParticleCount
    ensures |r| == ParticleCount
  {
    seq(ParticleCount, i requires 0 <= i < ParticleCount => m.sqrt(Eps) * draws[3 * i])
  }

  function DrawnUp(m: MathLib, kick: real, draws: seq<real>): (r: seq<real>)
    requires |draws| == 3 * ParticleCount
    ensures |r| == ParticleCount
  {
    seq(ParticleCount, i requires 0 <= i < ParticleCount => m.sqrt(Eps) * draws[3 * i + 1] + kick * SqrtBeta)
  }

  function DrawnCos(m: MathLib, q0: real, sigmaQ: real, draws: seq<real>): (r: seq<real>)
    requires |draws| == 3 * ParticleCount
    ensures |r| == ParticleCount
  {
    seq(ParticleCount, i requires 0 <= i < ParticleCount => m.cos(Angle(m, q0, sigmaQ, draws[3 * i + 2])))
  }

  function DrawnSin(m: MathLib, q0: real, sigmaQ: real, draws: seq<real>): (r: seq<real>)
    requires |draws| == 3 * ParticleCount
    ensures |r| == ParticleCount
  {
    seq(ParticleCount, i requires 0 <= i < ParticleCount => m.sin(Angle(m, q0, sigmaQ, draws[3 * i + 2])))
  }

  // ---------------------------------------------------------------------------
  // The simulator
  // ---------------------------------------------------------------------------

  class Simulator {
    /** The host's Math object. */
    const math: MathLib

    const zr: array<real>
    const zi: array<real>
    const pr: array<real>
    const pi: array<real>
    const qArr: array<real>
    const pArr: array<real>

    var meanQHist: seq<real>
    var meanPHist: seq<real>
    var turnHist: seq<int>
    var qMeanHist: seq<real>

    var turn: int
    var playing: bool
    /** `rafId`: true while it holds a requestAnimationFrame id, false when it is null. */
    var rafIdSet: bool
    var lastTime: real

    /** The Q0, sigmaQ and kick sliders. */
    var q0: real
    var sigmaQ: real
    var kick: real

    /** The six particle arrays: N entries each, no two the same array. */
    ghost predicate Shaped()
    {
      && zr.Length == ParticleCount && zi.Length == ParticleCount
      && pr.Length == ParticleCount && pi.Length == ParticleCount
      && qArr.Length == ParticleCount && pArr.Length == ParticleCount
      && zr != zi && zr != pr && zr != pi && zr != qArr && zr != pArr
      && zi != pr && zi != pi && zi != qArr && zi != pArr
      && pr != pi && pr != qArr && pr != pArr
      && pi != qArr && pi != pArr
      && qArr != pArr
    }

    /** Every per-particle rotation operator has modulus one. */
    ghost predicate UnitRotations()
      requires Shaped()
      reads pr, pi
    {
      forall i :: 0 <= i < ParticleCount ==> Modulus2(pr[i], pi[i]) == 1.0
    }

    ghost predicate Valid()
      reads this`turn, this`meanQHist, this`meanPHist, this`turnHist, this`qMeanHist, pr, pi
    {
      && Shaped()
      && TrigLaw(math)
      && 0 <= turn <= NTurns - 1
      && |meanPHist| == |meanQHist| && |turnHist| == |meanQHist|
      && qMeanHist == meanQHist
      && UnitRotations()
    }

    /** One history entry per turn reached since the last initialisation, oldest first. */
    ghost predicate Synced()
      reads this`turn, this`turnHist
    {
      |turnHist| == turn + 1 && CountsUp(turnHist)
    }

    /**
     * The physical arrays are the image of the normalized ones, and each history
     * has grown by one entry over the given ones: the two means and the turn.
     */
    ghost predicate Stored(mq: seq<real>, mp: seq<real>, th: seq<int>, qm: seq<real>)
      requires Shaped()
      reads this`turn, this`meanQHist, this`meanPHist, this`turnHist, this`qMeanHist, zr, zi, qArr, pArr
    {
      && qArr[..] == PhysQ(zr[..], zi[..])
      && pArr[..] == PhysP(zr[..], zi[..])
      && meanQHist == mq + [Mean(qArr[..])]
      && meanPHist == mp + [Mean(pArr[..])]
      && turnHist == th + [turn]
      && qMeanHist == qm + [Mean(qArr[..])]
    }

    /** The ensemble and the tunes are the ones initState draws from `draws` with the current sliders. */
    ghost predicate Drawn(draws: seq<real>)
      requires Shaped() && |draws| == 3 * ParticleCount
      reads this`q0, this`sigmaQ, this`kick, zr, zi, pr, pi
    {
      && zr[..] == DrawnU(math, draws)
      && zi[..] == DrawnUp(math, kick, draws)
      && pr[..] == DrawnCos(math, q0, sigmaQ, draws)
      && pi[..] == DrawnSin(math, q0, sigmaQ, draws)
    }

    /**
     * The page's top-level state before boot: the six zero-filled particle arrays,
     * empty histories, turn 0, not playing, the sliders at the given values.  The
     * boot itself is the `initState()` call that follows (`InitState`).
     */
    constructor (m: MathLib, q0: real, sigmaQ: real, kick: real)
      ensures Shaped()
      ensures math == m && this.q0 == q0 && this.sigmaQ == sigmaQ && this.kick == kick
      ensures meanQHist == [] && meanPHist == [] && turnHist == [] && qMeanHist == []
      ensures turn == 0 && !playing && !rafIdSet && lastTime == 0.0
      ensures fresh(zr) && fresh(zi) && fresh(pr) && fresh(pi) && fresh(qArr) && fresh(pArr)
    {
      math := m;
      zr := new real[ParticleCount];
      zi := new real[ParticleCount];
      pr := new real[ParticleCount];
      pi := new real[ParticleCount];
      qArr := new real[ParticleCount];
      pArr := new real[ParticleCount];
      meanQHist, meanPHist, turnHist, qMeanHist := [], [], [], [];
      turn := 0;
      playing := false;
      rafIdSet := false;
      lastTime := 0.0;
      this.q0, this.sigmaQ, this.kick := q0, sigmaQ, kick;
    }

    /**
     * `computePhysAndCentroidAndStore`: recompute (q, p) for every particle and
     * append the centroid and the current turn to the histories.
     */
    method ComputePhysAndCentroidAndStore()
      requires Valid()
      modifies qArr, pArr, this`meanQHist, this`meanPHist, this`turnHist, this`qMeanHist
      ensures Valid()
      ensures Stored(old(meanQHist), old(meanPHist), old(turnHist), old(qMeanHist))
    {
      ghost var qs, ps := PhysQ(zr[..], zi[..]), PhysP(zr[..], zi[..]);
      var sumQ := 0.0;
      var sumP := 0.0;
      var i := 0;
      while i < ParticleCount
        modifies qArr, pArr
        invariant 0 <= i <= ParticleCount
        invariant forall k :: 0 <= k < i ==> qArr[k] == qs[k] && pArr[k] == ps[k]
        invariant sumQ == SumTo(qs, i) && sumP == SumTo(ps, i)
      {
        var c := NormToPhys(Alpha, SqrtBeta, InvSqrtBeta, zr[i], zi[i]);
        qArr[i] := c.0;
        pArr[i] := c.1;
        sumQ := sumQ + c.0;
        sumP := sumP + c.1;
        i := i + 1;
      }
      assert qArr[..] == qs && pArr[..] == ps;
      var qMean := sumQ / ParticleCount as real;
      var pMean := sumP / ParticleCount as real;
      meanQHist := meanQHist + [qMean];
      meanPHist := meanPHist + [pMean];
      turnHist := turnHist + [turn];
      qMeanHist := qMeanHist + [qMean];
    }

    /** One pass of the drawing loop of `initState`: particle i takes its three draws. */
    method DrawParticle(i: int, draws: seq<real>)
      requires Shaped() && 0 <= i < ParticleCount
      requires |draws| == 3 * ParticleCount
      modifies zr, zi, pr, pi
      ensures zr[i] == DrawnU(math, draws)[i] && zi[i] == DrawnUp(math, kick, draws)[i]
      ensures pr[i] == DrawnCos(math, q0, sigmaQ, draws)[i] && pi[i] == DrawnSin(math, q0, sigmaQ, draws)[i]
      ensures forall k :: 0 <= k < ParticleCount && k != i ==>
        zr[k] == old(zr[k]) && zi[k] == old(zi[k]) && pr[k] == old(pr[k]) && pi[k] == old(pi[k])
    {
      var sqrtEps := math.sqrt(Eps);
      var u := sqrtEps * draws[3 * i];
      var up := sqrtEps * draws[3 * i + 1];
      var z0 := InitialCoordinates(Alpha, SqrtBeta, InvSqrtBeta, u, up, kick);
      KickShiftsMomentum(Alpha, SqrtBeta, InvSqrtBeta, u, up, kick);
      var omega := Angle(math, q0, sigmaQ, draws[3 * i + 2]);
      zr[i] := z0.0;
      zi[i] := z0.1;
      pr[i] := math.cos(omega);
      pi[i] := math.sin(omega);
    }

    /** The drawing loop of `initState`. */
    method DrawParticles(draws: seq<real>)
      requires Shaped() && TrigLaw(math)
      requires |draws| == 3 * ParticleCount
      modifies zr, zi, pr, pi
      ensures Drawn(draws) && UnitRotations()
    {
      ghost var us, ups := DrawnU(math, draws), DrawnUp(math, kick, draws);
      ghost var cs, ss := DrawnCos(math, q0, sigmaQ, draws), DrawnSin(math, q0, sigmaQ, draws);
      for i := 0 to ParticleCount
        invariant forall k :: 0 <= k < i ==> zr[k] == us[k] && zi[k] == ups[k]
        invariant forall k :: 0 <= k < i ==> pr[k] == cs[k] && pi[k] == ss[k]
      {
        DrawParticle(i, draws);
      }
      assert zr[..] == us && zi[..] == ups && pr[..] == cs && pi[..] == ss;
      forall i | 0 <= i < ParticleCount
        ensures Modulus2(pr[i], pi[i]) == 1.0
      {
        UnitCircle(math, Angle(math, q0, sigmaQ, draws[3 * i + 2]));
      }
    }

    /**
     * `initState`: draw the ensemble and the tunes, clear the histories, set the
     * turn to 0 and record the initial frame.
     */
    method InitState(draws: seq<real>)
      requires Shaped() && TrigLaw(math)
      requires |draws| == 3 * ParticleCount
      modifies zr, zi, pr, pi, qArr, pArr
      modifies this`meanQHist, this`meanPHist, this`turnHist, this`qMeanHist, this`turn
      ensures Valid() && Synced()
      ensures Drawn(draws)
      ensures turn == 0 && turnHist == [0]
      ensures Stored([], [], [], [])
    {
      DrawParticles(draws);
      meanQHist, meanPHist, turnHist, qMeanHist := [], [], [], [];
      turn := 0;
      ComputePhysAndCentroidAndStore();
    }

    /** The rotation loop of `stepOnce`: z[i] := z[i]·(pr[i] + i·pi[i]), which keeps |z[i]|. */
    method Rotate()
      requires Shaped() && UnitRotations()
      modifies zr, zi
      ensures zr[..] == RotatedRe(old(zr[..]), old(zi[..]), pr[..], pi[..])
      ensures zi[..] == RotatedIm(old(zr[..]), old(zi[..]), pr[..], pi[..])
      ensures forall i :: 0 <= i < ParticleCount ==>
        Modulus2(zr[i], zi[i]) == old(Modulus2(zr[i], zi[i]))
    {
      ghost var re, im := RotatedRe(zr[..], zi[..], pr[..], pi[..]), RotatedIm(zr[..], zi[..], pr[..], pi[..]);
      for i := 0 to ParticleCount
        invariant forall k :: 0 <= k < i ==> zr[k] == re[k] && zi[k] == im[k]
        invariant forall k :: i <= k < ParticleCount ==> zr[k] == old(zr[k]) && zi[k] == old(zi[k])
      {
        var a, b := zr[i], zi[i];
        var c, d := pr[i], pi[i];
        zr[i] := a * c - b * d;
        zi[i] := a * d + b * c;
      }
      assert zr[..] == re && zi[..] == im;
      forall i | 0 <= i < ParticleCount
        ensures Modulus2(zr[i], zi[i]) == old(Modulus2(zr[i], zi[i]))
      {
        UnitRotationKeepsModulus(old(zr[i]), old(zi[i]), pr[i], pi[i]);
      }
    }

    /**
     * `stepOnce`: rotate every particle by its own operator, advance the turn
     * (clamped at nTurns - 1) and record the new frame.
     */
    method StepOnce()
      requires Valid()
      modifies zr, zi, qArr, pArr
      modifies this`meanQHist, this`meanPHist, this`turnHist, this`qMeanHist, this`turn
      ensures Valid()
      ensures zr[..] == RotatedRe(old(zr[..]), old(zi[..]), pr[..], pi[..])
      ensures zi[..] == RotatedIm(old(zr[..]), old(zi[..]), pr[..], pi[..])
      ensures forall i :: 0 <= i < ParticleCount ==>
        Modulus2(zr[i], zi[i]) == old(Modulus2(zr[i], zi[i]))
      ensures turn == NextTurn(old(turn))
      ensures Stored(old(meanQHist), old(meanPHist), old(turnHist), old(qMeanHist))
      ensures old(Synced()) && old(turn) < NTurns - 1 ==> Synced()
    {
      Rotate();
      turn := if turn + 1 < NTurns - 1 then turn + 1 else NTurns - 1;
      ComputePhysAndCentroidAndStore();
    }

    /** `stopAnimation`: not playing, no pending frame, timer cleared. */
    method StopAnimation()
      modifies this`playing, this`rafIdSet, this`lastTime
      ensures !playing && !rafIdSet && lastTime == 0.0
    {
      playing := false;
      rafIdSet := false;
      lastTime := 0.0;
    }

    /** The Play/Pause button. */
    method PlayPause()
      modifies this`playing, this`rafIdSet, this`lastTime
      ensures old(playing) ==> !playing && !rafIdSet && lastTime == 0.0
      ensures !old(playing) ==> playing && rafIdSet && lastTime == old(lastTime)
    {
      if playing {
        StopAnimation();
      } else {
        playing := true;
        rafIdSet := true;
      }
    }

    /** The Step button: stop, then advance one turn unless the run is at its last turn. */
    method StepBtn()
      requires Valid() && Synced()
      modifies zr, zi, qArr, pArr
      modifies this`meanQHist, this`meanPHist, this`turnHist, this`qMeanHist, this`turn
      modifies this`playing, this`rafIdSet, this`lastTime
      ensures Valid() && Synced()
      ensures !playing && !rafIdSet && lastTime == 0.0
      ensures old(turn) < NTurns - 1 ==>
        && turn == old(turn) + 1
        && zr[..] == RotatedRe(old(zr[..]), old(zi[..]), pr[..], pi[..])
        && zi[..] == RotatedIm(old(zr[..]), old(zi[..]), pr[..], pi[..])
        && Stored(old(meanQHist), old(meanPHist), old(turnHist), old(qMeanHist))
      ensures old(turn) == NTurns - 1 ==>
        && turn == old(turn) && turnHist == old(turnHist)
        && meanQHist == old(meanQHist) && meanPHist == old(meanPHist)
        && unchanged(zr, zi, qArr, pArr)
    {
      StopAnimation();
      if turn < NTurns - 1 {
        StepOnce();
      }
    }

    /** The Reset button: stop, then initialise a fresh run with the current sliders. */
    method Reset(draws: seq<real>)
      requires Valid()
      requires |draws| == 3 * ParticleCount
      modifies zr, zi, pr, pi, qArr, pArr
      modifies this`meanQHist, this`meanPHist, this`turnHist, this`qMeanHist, this`turn
      modifies this`playing, this`rafIdSet, this`lastTime
      ensures Valid() && Synced()
      ensures !playing && !rafIdSet && lastTime == 0.0
      ensures turn == 0 && turnHist == [0]
      ensures Drawn(draws) && Stored([], [], [], [])
    {
      StopAnimation();
      InitState(draws);
    }

    /**
     * A `change` event on the Q0, sigmaQ or kick slider: the sliders now read
     * the given values; stop, then initialise a fresh run with them.
     */
    method ParamChange(newQ0: real, newSigmaQ: real, newKick: real, draws: seq<real>)
      requires Valid()
      requires |draws| == 3 * ParticleCount
      modifies zr, zi, pr, pi, qArr, pArr
      modifies this`meanQHist, this`meanPHist, this`turnHist, this`qMeanHist, this`turn
      modifies this`playing, this`rafIdSet, this`lastTime
      modifies this`q0, this`sigmaQ, this`kick
      ensures Valid() && Synced()
      ensures q0 == newQ0 && sigmaQ == newSigmaQ && kick == newKick
      ensures !playing && !rafIdSet && lastTime == 0.0
      ensures turn == 0 && turnHist == [0]
      ensures Drawn(draws) && Stored([], [], [], [])
    {
      q0, sigmaQ, kick := newQ0, newSigmaQ, newKick;
      Reset(draws);
    }

    /**
     * `animate(t)`, one animation frame at time t.  While playing, the first frame
     * only starts the clock; later frames step once when at least
     * StepIntervalMs have passed, or stop the animation at the last turn.
     */
    method Tick(t: real)
      requires Valid() && Synced()
      modifies zr, zi, qArr, pArr
      modifies this`meanQHist, this`meanPHist, this`turnHist, this`qMeanHist, this`turn
      modifies this`playing, this`rafIdSet, this`lastTime
      ensures Valid() && Synced()
      ensures var due := old(playing) && old(lastTime) != 0.0 && t - old(lastTime) >= StepIntervalMs;
        && (due && old(turn) < NTurns - 1 ==>
              && turn == old(turn) + 1 && playing && rafIdSet && lastTime == t
              && zr[..] == RotatedRe(old(zr[..]), old(zi[..]), pr[..], pi[..])
              && zi[..] == RotatedIm(old(zr[..]), old(zi[..]), pr[..], pi[..])
              && Stored(old(meanQHist), old(meanPHist), old(turnHist), old(qMeanHist)))
        && (due && old(turn) == NTurns - 1 ==>
              && turn == old(turn) && !playing && rafIdSet == old(rafIdSet) && lastTime == t
              && turnHist == old(turnHist) && meanQHist == old(meanQHist)
              && meanPHist == old(meanPHist) && qMeanHist == old(qMeanHist)
              && unchanged(zr, zi, qArr, pArr))
        && (!due ==>
              && turn == old(turn) && playing == old(playing)
              && turnHist == old(turnHist) && meanQHist == old(meanQHist)
              && meanPHist == old(meanPHist) && qMeanHist == old(qMeanHist)
              && unchanged(zr, zi, qArr, pArr)
              && rafIdSet == (old(playing) || old(rafIdSet))
              && lastTime == (if old(playing) && old(lastTime) == 0.0 then t else old(lastTime)))
    {
      if !playing {
        return;
      }
      if lastTime == 0.0 {
        lastTime := t;
      }
      var dt := t - lastTime;
      if dt >= StepIntervalMs {
        lastTime := t;
        if turn < NTurns - 1 {
          StepOnce();
        } else {
          playing := false;
          return;
        }
      }
      rafIdSet := true;
    }
  }

  /** Stepping a particle k times keeps its modulus (the state after each step is the next rotation). */
  lemma {:induction false} RepeatedRotationKeepsModulus(zs: seq<(real, real)>, c: real, d: real)
    requires Modulus2(c, d) == 1.0
    requires forall k :: 0 <= k < |zs| - 1 ==> zs[k + 1] == CMul(zs[k].0, zs[k].1, c, d)
    ensures forall k :: 0 <= k < |zs| ==> Modulus2(zs[k].0, zs[k].1) == Modulus2(zs[0].0, zs[0].1)
  {
    if |zs| > 1 {
      var init := zs[..|zs| - 1];
      RepeatedRotationKeepsModulus(init, c, d);
      var n := |zs| - 1;
      UnitRotationKeepsModulus(zs[n - 1].0, zs[n - 1].1, c, d);
      forall k | 0 <= k < |zs|
        ensures Modulus2(zs[k].0, zs[k].1) == Modulus2(zs[0].0, zs[0].1)
      {
        if k < n {
          assert zs[k] == init[k];
        }
      }
    }
  }
}
