/**
 * The BPM error page (assets/js/2_linear_optics_measurements/BPM_error.js).  A
 * beam-position monitor reads the true turn-by-turn signal (x, y) through a
 * tilt theta, a coupling C and gains g_x, g_y, normalised by 1/sqrt(1 - C²), and
 * adds Gaussian noise scaled by s_x, s_y:
 *
 *   (x_err, y_err) = scale · R(theta) · C_mat · G · (x, y) + (s_x·z_x, s_y·z_y).
 *
 * The error parameters sit in a six-entry array `[theta, C, g_x, g_y, s_x, s_y]`;
 * the page's "true" array is `[0, 0, 1, 1, 0, 0]`, for which the monitor reads the
 * signal unchanged.  Drawn noise samples are parameters.
 */
module BpmError {
  import opened Wrappers
  import opened RealMath

  // ---------------------------------------------------------------------------
  // 2×2 matrices
  // ---------------------------------------------------------------------------

  /** A 2×2 matrix `[[a00, a01], [a10, a11]]`. */
  datatype Mat2 = Mat2(a00: real, a01: real, a10: real, a11: real)

  const Identity: Mat2 := Mat2(1.0, 0.0, 0.0, 1.0)

  /** `matMult(A, B)`. */
  function MatMult(a: Mat2, b: Mat2): Mat2
  {
    Mat2(
      a.a00 * b.a00 + a.a01 * b.a10,
      a.a00 * b.a01 + a.a01 * b.a11,
      a.a10 * b.a00 + a.a11 * b.a10,
      a.a10 * b.a01 + a.a11 * b.a11)
  }

  /** The matrix applied to the column (x, y). */
  function Apply(a: Mat2, x: real, y: real): (real, real)
  {
    (a.a00 * x + a.a01 * y, a.a10 * x + a.a11 * y)
  }

  function Det(a: Mat2): real
  {
    a.a00 * a.a11 - a.a01 * a.a10
  }

  /** The identity is a unit for `matMult` on both sides. */
  lemma MatMultIdentity(a: Mat2)
    ensures MatMult(Identity, a) == a
    ensures MatMult(a, Identity) == a
  {
  }

  /** The determinant of a product is the product of the determinants. */
  lemma DetMult(a: Mat2, b: Mat2)
    ensures Det(MatMult(a, b)) == Det(a) * Det(b)
  {
    var p := MatMult(a, b);
    calc {
      Det(p);
      (a.a00 * b.a00 + a.a01 * b.a10) * (a.a10 * b.a01 + a.a11 * b.a11)
        - (a.a00 * b.a01 + a.a01 * b.a11) * (a.a10 * b.a00 + a.a11 * b.a10);
      a.a00 * a.a11 * (b.a00 * b.a11 - b.a01 * b.a10) - a.a01 * a.a10 * (b.a00 * b.a11 - b.a01 * b.a10);
      Det(a) * Det(b);
    }
  }

  // ---------------------------------------------------------------------------
  // The error model
  // ---------------------------------------------------------------------------

  /** The six error parameters, read from `BPM_Errors[0..5]`. */
  datatype Errors = Errors(theta: real, coupling: real, gainX: real, gainY: real, noiseX: real, noiseY: real)

  function Decode(v: seq<real>): Errors
    requires |v| >= 6
  {
    Errors(v[0], v[1], v[2], v[3], v[4], v[5])
  }

  /** `C_mat`. */
  function CouplingMatrix(c: real): Mat2
  {
    Mat2(1.0, c, c, 1.0)
  }

  /** `G_mat`. */
  function GainMatrix(gx: real, gy: real): Mat2
  {
    Mat2(gx, 0.0, 0.0, gy)
  }

  /** `R_mat`. */
  function RotationMatrix(m: MathLib, theta: real): Mat2
  {
    Mat2(m.cos(theta), m.sin(theta), -m.sin(theta), m.cos(theta))
  }

  /** `M = matMult(R_mat, matMult(C_mat, G_mat))`. */
  function ErrorMatrix(m: MathLib, e: Errors): Mat2
  {
    MatMult(RotationMatrix(m, e.theta), MatMult(CouplingMatrix(e.coupling), GainMatrix(e.gainX, e.gainY)))
  }

  /** A coupling strictly between -1 and 1 leaves a positive radicand `1 - C*C`. */
  lemma CouplingRadicand(c: real)
    requires -1.0 < c < 1.0
    ensures 1.0 - c * c > 0.0
  {
    assert 1.0 - c * c == (1.0 - c) * (1.0 + c);
  }

  /**
   * `scale = 1 / Math.sqrt(1 - C*C)`.  For |C| >= 1 the source computes NaN or
   * Infinity, which has no real counterpart.
   */
  function Scale(m: MathLib, c: real): (s: real)
    requires SqrtLaw(m) && -1.0 < c < 1.0
    ensures s > 0.0
  {
    CouplingRadicand(c);
    SqrtPositive(m, 1.0 - c * c);
    1.0 / m.sqrt(1.0 - c * c)
  }

  /** `X_error[0][i]`: the horizontal reading `scale * (M[0][0]*x + M[0][1]*y)` before noise. */
  function MixX(a: Mat2, s: real, x: real, y: real): real
  {
    s * (a.a00 * x + a.a01 * y)
  }

  /** `X_error[1][i]`: the vertical reading `scale * (M[1][0]*x + M[1][1]*y)` before noise. */
  function MixY(a: Mat2, s: real, x: real, y: real): real
  {
    s * (a.a10 * x + a.a11 * y)
  }

  /** A noisy sample `X_error[k][i] + s * z`. */
  function Noisy(base: real, s: real, z: real): real
  {
    base + s * z
  }

  /** `x_error`: the noisy horizontal readings of the first |xs| turns. */
  function ReadingsX(a: Mat2, s: real, noise: real, xs: seq<real>, ys: seq<real>, zx: seq<real>): (r: seq<real>)
    requires |ys| >= |xs| && |zx| >= |xs|
    ensures |r| == |xs|
  {
    seq(|xs|, i requires 0 <= i < |xs| => Noisy(MixX(a, s, xs[i], ys[i]), noise, zx[i]))
  }

  /** `y_error`: the noisy vertical readings of the first |xs| turns. */
  function ReadingsY(a: Mat2, s: real, noise: real, xs: seq<real>, ys: seq<real>, zy: seq<real>): (r: seq<real>)
    requires |ys| >= |xs| && |zy| >= |xs|
    ensures |r| == |xs|
  {
    seq(|xs|, i requires 0 <= i < |xs| => Noisy(MixY(a, s, xs[i], ys[i]), noise, zy[i]))
  }

  /**
   * The noise `Add_BPM_errors` adds at each turn: the stored realisation when
   * there is one (`currentXNoise ? currentXNoise[i] : randn()`), otherwise the
   * fresh draws.
   */
  function NoiseUsed(stored: Option<seq<real>>, draws: seq<real>, n: nat): (z: seq<real>)
    requires stored.Some? ==> |stored.value| >= n
    requires stored.None? ==> |draws| >= n
    ensures |z| == n
    ensures stored.Some? ==> z == stored.value[..n]
    ensures stored.None? ==> z == draws[..n]
  {
    match stored
    case Some(s) => s[..n]
    case None => draws[..n]
  }

  /**
   * `Add_BPM_errors(X, BPM_Errors, currentXNoise, currentYNoise)`: both output
   * arrays have `X[0].length` entries, filled turn by turn.  `drawsX`/`drawsY`
   * are the values `randn()` returns when no stored noise is given.
   */
  method AddBpmErrors(m: MathLib, xs: seq<real>, ys: seq<real>, v: seq<real>,
                      storedX: Option<seq<real>>, storedY: Option<seq<real>>,
                      drawsX: seq<real>, drawsY: seq<real>)
    returns (xErr: array<real>, yErr: array<real>)
    requires SqrtLaw(m) && |v| >= 6 && -1.0 < v[1] < 1.0
    requires |ys| >= |xs|
    requires storedX.Some? ==> |storedX.value| >= |xs|
    requires storedY.Some? ==> |storedY.value| >= |xs|
    requires storedX.None? ==> |drawsX| >= |xs|
    requires storedY.None? ==> |drawsY| >= |xs|
    ensures fresh(xErr) && fresh(yErr) && xErr != yErr
    ensures xErr[..] == ReadingsX(ErrorMatrix(m, Decode(v)), Scale(m, v[1]), v[4], xs, ys, NoiseUsed(storedX, drawsX, |xs|))
    ensures yErr[..] == ReadingsY(ErrorMatrix(m, Decode(v)), Scale(m, v[1]), v[5], xs, ys, NoiseUsed(storedY, drawsY, |xs|))
  {
    var mat := ErrorMatrix(m, Decode(v));
    var scale := Scale(m, v[1]);
    var x0, x1 := Transform(mat, scale, xs, ys);
    xErr, yErr := AddNoise(x0, x1, v[4], v[5], storedX, storedY, drawsX, drawsY);
    ghost var zx := NoiseUsed(storedX, drawsX, |xs|);
    ghost var zy := NoiseUsed(storedY, drawsY, |xs|);
    assert xErr[..] == ReadingsX(mat, scale, v[4], xs, ys, zx) by {
      forall k | 0 <= k < |xs|
        ensures xErr[k] == ReadingsX(mat, scale, v[4], xs, ys, zx)[k]
      {
      }
    }
    assert yErr[..] == ReadingsY(mat, scale, v[5], xs, ys, zy) by {
      forall k | 0 <= k < |xs|
        ensures yErr[k] == ReadingsY(mat, scale, v[5], xs, ys, zy)[k]
      {
      }
    }
  }

  /** The first loop of `Add_BPM_errors`: `X_error = scale · M · X`, turn by turn. */
  method Transform(mat: Mat2, scale: real, xs: seq<real>, ys: seq<real>) returns (x0: array<real>, x1: array<real>)
    requires |ys| >= |xs|
    ensures fresh(x0) && fresh(x1) && x0 != x1
    ensures x0.Length == |xs| && x1.Length == |xs|
    ensures forall k :: 0 <= k < |xs| ==> x0[k] == MixX(mat, scale, xs[k], ys[k])
    ensures forall k :: 0 <= k < |xs| ==> x1[k] == MixY(mat, scale, xs[k], ys[k])
  {
    var nTurns := |xs|;
    x0 := new real[nTurns];
    x1 := new real[nTurns];
    for i := 0 to nTurns
      invariant forall k :: 0 <= k < i ==> x0[k] == MixX(mat, scale, xs[k], ys[k])
      invariant forall k :: 0 <= k < i ==> x1[k] == MixY(mat, scale, xs[k], ys[k])
    {
      x0[i] := scale * (mat.a00 * xs[i] + mat.a01 * ys[i]);
      x1[i] := scale * (mat.a10 * xs[i] + mat.a11 * ys[i]);
    }
  }

  /** The second loop of `Add_BPM_errors`: add `s · z` to each reading, z stored or freshly drawn. */
  method AddNoise(x0: array<real>, x1: array<real>, sX: real, sY: real,
                  storedX: Option<seq<real>>, storedY: Option<seq<real>>,
                  drawsX: seq<real>, drawsY: seq<real>)
    returns (xErr: array<real>, yErr: array<real>)
    requires x1.Length >= x0.Length
    requires storedX.Some? ==> |storedX.value| >= x0.Length
    requires storedY.Some? ==> |storedY.value| >= x0.Length
    requires storedX.None? ==> |drawsX| >= x0.Length
    requires storedY.None? ==> |drawsY| >= x0.Length
    ensures fresh(xErr) && fresh(yErr) && xErr != yErr
    ensures xErr.Length == x0.Length && yErr.Length == x0.Length
    ensures forall k :: 0 <= k < x0.Length ==> xErr[k] == Noisy(x0[k], sX, NoiseUsed(storedX, drawsX, x0.Length)[k])
    ensures forall k :: 0 <= k < x0.Length ==> yErr[k] == Noisy(x1[k], sY, NoiseUsed(storedY, drawsY, x0.Length)[k])
  {
    var nTurns := x0.Length;
    ghost var zx := NoiseUsed(storedX, drawsX, nTurns);
    ghost var zy := NoiseUsed(storedY, drawsY, nTurns);
    xErr := new real[nTurns];
    yErr := new real[nTurns];
    for i := 0 to nTurns
      invariant forall k :: 0 <= k < i ==> xErr[k] == Noisy(x0[k], sX, zx[k])
      invariant forall k :: 0 <= k < i ==> yErr[k] == Noisy(x1[k], sY, zy[k])
    {
      var zX := if storedX.Some? then storedX.value[i] else drawsX[i];
      var zY := if storedY.Some? then storedY.value[i] else drawsY[i];
      xErr[i] := x0[i] + sX * zX;
      yErr[i] := x1[i] + sY * zY;
    }
  }

  /** `True_BPM_vals`: no tilt, no coupling, unit gains, no noise. */
  const TrueBpmVals: seq<real> := [0.0, 0.0, 1.0, 1.0, 0.0, 0.0]

  /** `True_BPM_vals.map((v, i) => v + delta_BPM_Errors[i])`. */
  function Perturbed(truth: seq<real>, delta: seq<real>): (r: seq<real>)
    requires |delta| >= |truth|
    ensures |r| == |truth|
  {
    seq(|truth|, i requires 0 <= i < |truth| => truth[i] + delta[i])
  }

  /** The slider deltas `[tilt, coup, gx, gy, sx, sy]` give theta = tilt, C = coup, gains 1 + gx, 1 + gy, noise sx, sy. */
  lemma PerturbedErrors(tilt: real, coup: real, gx: real, gy: real, sx: real, sy: real)
    ensures Decode(Perturbed(TrueBpmVals, [tilt, coup, gx, gy, sx, sy]))
         == Errors(tilt, coup, 1.0 + gx, 1.0 + gy, sx, sy)
  {
  }

  /** Without tilt and coupling the monitor matrix is the gain matrix. */
  lemma UncoupledErrorMatrix(m: MathLib, e: Errors)
    requires m.cos(0.0) == 1.0 && m.sin(0.0) == 0.0
    requires e.theta == 0.0 && e.coupling == 0.0
    ensures ErrorMatrix(m, e) == GainMatrix(e.gainX, e.gainY)
  {
    assert RotationMatrix(m, 0.0) == Identity;
    assert CouplingMatrix(0.0) == Identity;
    MatMultIdentity(GainMatrix(e.gainX, e.gainY));
  }

  /** With the true parameters the monitor matrix is the identity and the scale is one. */
  lemma TrueErrorsAreIdentity(m: MathLib)
    requires SqrtLaw(m) && m.cos(0.0) == 1.0 && m.sin(0.0) == 0.0
    ensures ErrorMatrix(m, Decode(TrueBpmVals)) == Identity
    ensures Scale(m, 0.0) == 1.0
  {
    UncoupledErrorMatrix(m, Decode(TrueBpmVals));
    SqrtOne(m);
  }

  /** The identity read at scale one with zero noise scale returns the signal, whatever the noise. */
  lemma IdentityReadingsReproduceSignal(xs: seq<real>, ys: seq<real>, zx: seq<real>, zy: seq<real>)
    requires |ys| >= |xs| && |zx| >= |xs| && |zy| >= |xs|
    ensures ReadingsX(Identity, 1.0, 0.0, xs, ys, zx) == xs
    ensures ReadingsY(Identity, 1.0, 0.0, xs, ys, zy) == ys[..|xs|]
  {
    forall i | 0 <= i < |xs|
      ensures ReadingsX(Identity, 1.0, 0.0, xs, ys, zx)[i] == xs[i]
      ensures ReadingsY(Identity, 1.0, 0.0, xs, ys, zy)[i] == ys[i]
    {
    }
  }

  /** With a zero noise scale the realisation has no effect: the readings are the mixed signal. */
  lemma ZeroNoiseScaleIgnoresNoise(a: Mat2, s: real, xs: seq<real>, ys: seq<real>, z1: seq<real>, z2: seq<real>)
    requires |ys| >= |xs| && |z1| >= |xs| && |z2| >= |xs|
    ensures ReadingsX(a, s, 0.0, xs, ys, z1) == ReadingsX(a, s, 0.0, xs, ys, z2)
    ensures ReadingsY(a, s, 0.0, xs, ys, z1) == ReadingsY(a, s, 0.0, xs, ys, z2)
    ensures forall i :: 0 <= i < |xs| ==> ReadingsX(a, s, 0.0, xs, ys, z1)[i] == MixX(a, s, xs[i], ys[i])
    ensures forall i :: 0 <= i < |xs| ==> ReadingsY(a, s, 0.0, xs, ys, z1)[i] == MixY(a, s, xs[i], ys[i])
  {
  }

  /** The arithmetic of `ScaledDeterminant`, on plain numbers. */
  lemma ScaledDeterminantCore(cs: real, sn: real, c: real, q: real, gx: real, gy: real)
    requires cs * cs + sn * sn == 1.0
    requires q > 0.0 && q * q == 1.0 - c * c
    ensures var d := Det(Mat2(cs, sn, -sn, cs)) * (Det(CouplingMatrix(c)) * Det(GainMatrix(gx, gy)));
      (1.0 / q) * (1.0 / q) * d == gx * gy
  {
    assert Det(Mat2(cs, sn, -sn, cs)) == 1.0;
    assert Det(CouplingMatrix(c)) == q * q;
    assert (1.0 / q) * (1.0 / q) * (q * q) == 1.0;
  }

  /**
   * The normalisation undoes the coupling's area change: the scaled monitor
   * matrix has determinant g_x·g_y, as the tilt preserves area.
   */
  lemma ScaledDeterminant(m: MathLib, e: Errors)
    requires SqrtLaw(m) && TrigLaw(m)
    requires -1.0 < e.coupling < 1.0
    ensures var s := Scale(m, e.coupling);
      s * s * Det(ErrorMatrix(m, e)) == e.gainX * e.gainY
  {
    var c := e.coupling;
    var cg := MatMult(CouplingMatrix(c), GainMatrix(e.gainX, e.gainY));
    DetMult(RotationMatrix(m, e.theta), cg);
    DetMult(CouplingMatrix(c), GainMatrix(e.gainX, e.gainY));
    CouplingRadicand(c);
    SqrtPositive(m, 1.0 - c * c);
    var q := m.sqrt(1.0 - c * c);
    assert q * q == 1.0 - c * c;
    var cs, sn := m.cos(e.theta), m.sin(e.theta);
    assert cs * cs + sn * sn == 1.0;
    ScaledDeterminantCore(cs, sn, c, q, e.gainX, e.gainY);
  }

  /** `x_diff` / `y_diff`: the true signal minus the monitor's reading. */
  function Difference(signal: seq<real>, reading: seq<real>): (d: seq<real>)
    requires |reading| >= |signal|
    ensures |d| == |signal|
  {
    seq(|signal|, i requires 0 <= i < |signal| => signal[i] - reading[i])
  }

  /** The difference is zero exactly where the reading equals the signal. */
  lemma DifferenceZero(signal: seq<real>, reading: seq<real>)
    requires |reading| >= |signal|
    ensures (forall i :: 0 <= i < |signal| ==> Difference(signal, reading)[i] == 0.0)
        <==> signal == reading[..|signal|]
  {
    if forall i :: 0 <= i < |signal| ==> Difference(signal, reading)[i] == 0.0 {
      forall i | 0 <= i < |signal|
        ensures signal[i] == reading[..|signal|][i]
      {
        assert Difference(signal, reading)[i] == 0.0;
      }
    }
  }

  // ---------------------------------------------------------------------------
  // The generated signal
  // ---------------------------------------------------------------------------

  /** The exponent `-b·n²` of the envelope. */
  function Envelope(b: real, t: real): real
  {
    -b * t * t
  }

  /** The phase `2π·c·n + d` of the oscillation. */
  function Phase(m: MathLib, c: real, d: real, t: real): real
  {
    2.0 * m.pi * c * t + d
  }

  /** `a · exp(-b·n²) · sin(2π·c·n + d)`. */
  function ExpSinAt(m: MathLib, t: real, a: real, b: real, c: real, d: real): real
  {
    a * m.exp(Envelope(b, t)) * m.sin(Phase(m, c, d, t))
  }

  function ExpSin(m: MathLib, ns: seq<real>, a: real, b: real, c: real, d: real): (r: seq<real>)
    ensures |r| == |ns|
  {
    seq(|ns|, i requires 0 <= i < |ns| => ExpSinAt(m, ns[i], a, b, c, d))
  }

  /** `exponential_sinusoid_func(n, a, b, c, d)`: one value per entry of n. */
  method ExponentialSinusoid(m: MathLib, ns: seq<real>, a: real, b: real, c: real, d: real)
    returns (result: array<real>)
    ensures fresh(result)
    ensures result.Length == |ns| && result[..] == ExpSin(m, ns, a, b, c, d)
  {
    result := new real[|ns|];
    for i := 0 to |ns|
      invariant forall k :: 0 <= k < i ==> result[k] == ExpSinAt(m, ns[k], a, b, c, d)
    {
      var t := ns[i];
      result[i] := a * m.exp(Envelope(b, t)) * m.sin(Phase(m, c, d, t));
    }
  }

  /** A zero amplitude gives a silent signal. */
  lemma ZeroAmplitudeIsSilent(m: MathLib, ns: seq<real>, b: real, c: real, d: real)
    ensures forall i :: 0 <= i < |ns| ==> ExpSin(m, ns, 0.0, b, c, d)[i] == 0.0
  {
  }

  // ---------------------------------------------------------------------------
  // The page
  // ---------------------------------------------------------------------------

  const NTurns: nat := 200
  /** `b` and `nu` of `updatePlot`. */
  const Damping: real := 0.000123287680
  const BaseTune: real := 0.31
  /** The phases `d` of the x and y signals. */
  const PhaseX: real := 0.00638
  const PhaseY: real := -0.0027

  /** `n_arr = [0, 1, ..., n - 1]`. */
  function Turns(n: nat): (t: seq<real>)
    ensures |t| == n && forall i :: 0 <= i < n ==> t[i] == i as real
  {
    seq(n, i requires 0 <= i < n => i as real)
  }

  /** The plotted data of one `updatePlot`. */
  datatype Plot = Plot(
    bpmX: seq<real>, bpmY: seq<real>,
    errX: seq<real>, errY: seq<real>,
    diffX: seq<real>, diffY: seq<real>)

  /** The ten slider values. */
  datatype Sliders = Sliders(
    ampX: real, ampY: real, dnuX: real, dnuY: real,
    tilt: real, coup: real, gx: real, gy: real, sx: real, sy: real)

  /** `DEFAULTS`. */
  const DefaultSliders: Sliders := Sliders(-0.3, -0.3, 0.0, 0.0, 0.0, 0.0, 0.0, 0.0, 0.0, 0.0)

  /** `delta_BPM_Errors`: tilt, coupling, gain deltas and noise scales. */
  function Deltas(sl: Sliders): seq<real>
  {
    [sl.tilt, sl.coup, sl.gx, sl.gy, sl.sx, sl.sy]
  }

  /** `BPM_x`: the true horizontal signal of the first N_TURNS turns. */
  function SignalX(m: MathLib, sl: Sliders): (r: seq<real>)
    ensures |r| == NTurns
  {
    ExpSin(m, Turns(NTurns), sl.ampX, Damping, sl.dnuX + BaseTune, PhaseX)
  }

  /** `BPM_y`: the true vertical signal. */
  function SignalY(m: MathLib, sl: Sliders): (r: seq<real>)
    ensures |r| == NTurns
  {
    ExpSin(m, Turns(NTurns), sl.ampY, Damping, sl.dnuY + BaseTune, PhaseY)
  }

  /** `BPM_Errors = True_BPM_vals.map((v, i) => v + delta_BPM_Errors[i])`, decoded. */
  function SliderErrors(sl: Sliders): Errors
  {
    Decode(Perturbed(TrueBpmVals, Deltas(sl)))
  }

  /** What `updatePlot` draws for the given sliders and noise realisation. */
  function PagePlot(m: MathLib, sl: Sliders, zx: seq<real>, zy: seq<real>): Plot
    requires SqrtLaw(m) && -1.0 < sl.coup < 1.0
    requires |zx| >= NTurns && |zy| >= NTurns
  {
    var sigX, sigY := SignalX(m, sl), SignalY(m, sl);
    var e := SliderErrors(sl);
    var mat, scale := ErrorMatrix(m, e), Scale(m, e.coupling);
    var errX := ReadingsX(mat, scale, e.noiseX, sigX, sigY, zx);
    var errY := ReadingsY(mat, scale, e.noiseY, sigX, sigY, zy);
    Plot(sigX, sigY, errX, errY, Difference(sigX, errX), Difference(sigY, errY))
  }

  /**
   * With no tilt, coupling, gain delta or noise the readings are the signals
   * and both differences vanish, whatever the noise realisation.
   */
  lemma NoErrorNoDifference(m: MathLib, sl: Sliders, zx: seq<real>, zy: seq<real>)
    requires SqrtLaw(m) && m.cos(0.0) == 1.0 && m.sin(0.0) == 0.0
    requires sl.tilt == 0.0 && sl.coup == 0.0 && sl.gx == 0.0 && sl.gy == 0.0
    requires sl.sx == 0.0 && sl.sy == 0.0
    requires |zx| >= NTurns && |zy| >= NTurns
    ensures var sigX, sigY := SignalX(m, sl), SignalY(m, sl);
      PagePlot(m, sl, zx, zy) == Plot(sigX, sigY, sigX, sigY, Zeros(NTurns), Zeros(NTurns))
  {
    NoErrorReadings(m, sl, zx, zy);
    DifferenceSelf(SignalX(m, sl));
    DifferenceSelf(SignalY(m, sl));
  }

  /** The step of `NoErrorNoDifference` before the differences are evaluated. */
  lemma NoErrorReadings(m: MathLib, sl: Sliders, zx: seq<real>, zy: seq<real>)
    requires SqrtLaw(m) && m.cos(0.0) == 1.0 && m.sin(0.0) == 0.0
    requires sl.tilt == 0.0 && sl.coup == 0.0 && sl.gx == 0.0 && sl.gy == 0.0
    requires sl.sx == 0.0 && sl.sy == 0.0
    requires |zx| >= NTurns && |zy| >= NTurns
    ensures var sigX, sigY := SignalX(m, sl), SignalY(m, sl);
      PagePlot(m, sl, zx, zy) == Plot(sigX, sigY, sigX, sigY, Difference(sigX, sigX), Difference(sigY, sigY))
  {
    NoErrorMonitor(m, sl);
    var sigX, sigY := SignalX(m, sl), SignalY(m, sl);
    IdentityReadingsReproduceSignal(sigX, sigY, zx, zy);
    assert sigY[..|sigX|] == sigY;
  }

  /** With no tilt, coupling, gain delta or noise the monitor is the identity at scale one without noise. */
  lemma NoErrorMonitor(m: MathLib, sl: Sliders)
    requires SqrtLaw(m) && m.cos(0.0) == 1.0 && m.sin(0.0) == 0.0
    requires sl.tilt == 0.0 && sl.coup == 0.0 && sl.gx == 0.0 && sl.gy == 0.0
    requires sl.sx == 0.0 && sl.sy == 0.0
    ensures var e := SliderErrors(sl);
      && e.coupling == 0.0 && ErrorMatrix(m, e) == Identity && Scale(m, e.coupling) == 1.0
      && e.noiseX == 0.0 && e.noiseY == 0.0
  {
    var zero := Errors(0.0, 0.0, 1.0, 1.0, 0.0, 0.0);
    assert Deltas(sl) == [0.0, 0.0, 0.0, 0.0, 0.0, 0.0];
    PerturbedErrors(0.0, 0.0, 0.0, 0.0, 0.0, 0.0);
    assert SliderErrors(sl) == zero;
    assert Decode(TrueBpmVals) == zero;
    TrueErrorsAreIdentity(m);
  }

  /** A signal minus itself is zero throughout. */
  lemma DifferenceSelf(s: seq<real>)
    ensures Difference(s, s) == Zeros(|s|)
  {
  }

  /** n zeros. */
  function Zeros(n: nat): (z: seq<real>)
    ensures |z| == n && forall i :: 0 <= i < n ==> z[i] == 0.0
  {
    seq(n, i => 0.0)
  }

  class BpmErrorPage {
    const math: MathLib

    /** The slider inputs. */
    var sliders: Sliders

    /** `CURRENT_X_NOISE` / `CURRENT_Y_NOISE`: the persistent noise realisation, or null. */
    var noiseX: Option<seq<real>>
    var noiseY: Option<seq<real>>

    /** The two realisations are stored and cleared together, N_TURNS samples each. */
    ghost predicate Valid()
      reads this`noiseX, this`noiseY
    {
      || (noiseX.None? && noiseY.None?)
      || (noiseX.Some? && noiseY.Some? && |noiseX.value| == NTurns && |noiseY.value| == NTurns)
    }

    /** The sliders at the given values and no noise realisation yet. */
    constructor (m: MathLib, sl: Sliders)
      ensures Valid()
      ensures math == m && sliders == sl && noiseX == None && noiseY == None
    {
      math := m;
      sliders := sl;
      noiseX, noiseY := None, None;
    }

    /** `resampleNoise(nTurns)`: x draws first, then y. */
    method ResampleNoise(draws: seq<real>)
      requires |draws| >= 2 * NTurns
      modifies this`noiseX, this`noiseY
      ensures Valid()
      ensures noiseX == Some(draws[..NTurns]) && noiseY == Some(draws[NTurns..2 * NTurns])
    {
      noiseX := Some(draws[..NTurns]);
      noiseY := Some(draws[NTurns..2 * NTurns]);
    }

    /**
     * `updatePlot`: draw a noise realisation when none of the right length is
     * stored, then plot the signals, their readings and the differences.
     */
    method UpdatePlot(draws: seq<real>) returns (p: Plot)
      requires Valid() && SqrtLaw(math) && -1.0 < sliders.coup < 1.0
      requires noiseX.None? ==> |draws| >= 2 * NTurns
      modifies this`noiseX, this`noiseY
      ensures Valid() && noiseX.Some?
      ensures old(noiseX).Some? ==> noiseX == old(noiseX) && noiseY == old(noiseY)
      ensures old(noiseX).None? ==> noiseX == Some(draws[..NTurns]) && noiseY == Some(draws[NTurns..2 * NTurns])
      ensures p == PagePlot(math, sliders, noiseX.value, noiseY.value)
    {
      if noiseX.None? || |noiseX.value| != NTurns {
        ResampleNoise(draws);
      }
      p := ComputePlot(math, sliders, noiseX.value, noiseY.value);
    }

    /** A slider moved: adopt its value and redraw, keeping any stored realisation. */
    method SliderChange(sl: Sliders, draws: seq<real>) returns (p: Plot)
      requires Valid() && SqrtLaw(math) && -1.0 < sl.coup < 1.0
      requires noiseX.None? ==> |draws| >= 2 * NTurns
      modifies this`sliders, this`noiseX, this`noiseY
      ensures sliders == sl && Valid() && noiseX.Some?
      ensures old(noiseX).Some? ==> noiseX == old(noiseX) && noiseY == old(noiseY)
      ensures old(noiseX).None? ==> noiseX == Some(draws[..NTurns]) && noiseY == Some(draws[NTurns..2 * NTurns])
      ensures p == PagePlot(math, sliders, noiseX.value, noiseY.value)
    {
      sliders := sl;
      p := UpdatePlot(draws);
    }

    /** The Resample button: a new realisation, then a redraw with it. */
    method ResampleButton(draws: seq<real>) returns (p: Plot)
      requires SqrtLaw(math) && -1.0 < sliders.coup < 1.0
      requires |draws| >= 2 * NTurns
      modifies this`noiseX, this`noiseY
      ensures Valid()
      ensures noiseX == Some(draws[..NTurns]) && noiseY == Some(draws[NTurns..2 * NTurns])
      ensures p == PagePlot(math, sliders, noiseX.value, noiseY.value)
    {
      ResampleNoise(draws);
      p := UpdatePlot([]);
    }

    /**
     * The Reset button: every slider to its default, the stored noise cleared,
     * then a redraw, which draws a new realisation.
     */
    method ResetButton(draws: seq<real>) returns (p: Plot)
      requires SqrtLaw(math)
      requires |draws| >= 2 * NTurns
      modifies this`sliders, this`noiseX, this`noiseY
      ensures sliders == DefaultSliders && Valid()
      ensures noiseX == Some(draws[..NTurns]) && noiseY == Some(draws[NTurns..2 * NTurns])
      ensures p == PagePlot(math, sliders, noiseX.value, noiseY.value)
    {
      sliders := DefaultSliders;
      noiseX, noiseY := None, None;
      p := UpdatePlot(draws);
    }
  }

  /** The body of `updatePlot` once a realisation is stored: signals, readings, differences. */
  method ComputePlot(m: MathLib, sl: Sliders, zx: seq<real>, zy: seq<real>) returns (p: Plot)
    requires SqrtLaw(m) && -1.0 < sl.coup < 1.0
    requires |zx| >= NTurns && |zy| >= NTurns
    ensures p == PagePlot(m, sl, zx, zy)
  {
    var n := Turns(NTurns);
    var sigX := ExponentialSinusoid(m, n, sl.ampX, Damping, sl.dnuX + BaseTune, PhaseX);
    var sigY := ExponentialSinusoid(m, n, sl.ampY, Damping, sl.dnuY + BaseTune, PhaseY);
    var v := Perturbed(TrueBpmVals, Deltas(sl));
    var errX, errY := AddBpmErrors(m, sigX[..], sigY[..], v, Some(zx), Some(zy), [], []);
    p := Plot(sigX[..], sigY[..], errX[..], errY[..], Difference(sigX[..], errX[..]), Difference(sigY[..], errY[..]));
  }

  /** The page at its defaults shows no error: after the Reset button the plot has no differences. */
  lemma DefaultsShowNoError(m: MathLib, zx: seq<real>, zy: seq<real>)
    requires SqrtLaw(m) && TrigLaw(m)
    requires |zx| >= NTurns && |zy| >= NTurns
    ensures var p := PagePlot(m, DefaultSliders, zx, zy);
      p.errX == p.bpmX && p.errY == p.bpmY && p.diffX == Zeros(NTurns) && p.diffY == Zeros(NTurns)
  {
    NoErrorNoDifference(m, DefaultSliders, zx, zy);
  }
}
