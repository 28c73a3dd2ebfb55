/**
 * The luminosity explorer page (assets/js/1_luminosity/luminosity.js): six
 * sliders (beta*_x, beta*_y, s*_x, s*_y, bunch length sigma_s, crossing angle phi),
 * a radio group choosing which of them to scan, and a saved curve drawn in grey.
 * Each scan evaluates the luminosity at N + 1 evenly spaced values of the chosen
 * parameter while the other five stay at their slider values.
 */
module LuminosityExplorer {
  import opened Wrappers
  import opened Grids
  import opened Simpson
  import opened Luminosity

  /** The scanned parameter, `activeParam`; the empty string stands for a falsy value. */
  type Param = string

  /** `activeParam === "phi" || !activeParam`. */
  predicate ScansPhi(param: Param)
  {
    param == "phi" || param == ""
  }

  /** The range the plotted scan covers, or None for a name none of the branches knows. */
  function LiveRange(param: Param): Option<(real, real)>
  {
    if ScansPhi(param) then Some((0.0, 0.005))
    else if param == "bsx" || param == "bsy" then Some((0.10, 5.00))
    else if param == "ssx" || param == "ssy" then Some((-1.0, 1.0))
    else if param == "sig" then Some((0.05, 1.0))
    else None
  }

  /** The range `saveState` scans: the plotted one, except that sigma_s runs over [0.1, 0.5]. */
  function SavedRange(param: Param): (r: Option<(real, real)>)
    ensures param != "sig" ==> r == LiveRange(param)
    ensures param == "sig" ==> r == Some((0.1, 0.5)) && LiveRange(param) == Some((0.05, 1.0))
    ensures r.None? <==> LiveRange(param).None?
  {
    if ScansPhi(param) then Some((0.0, 0.005))
    else if param == "bsx" || param == "bsy" then Some((0.10, 5.00))
    else if param == "ssx" || param == "ssy" then Some((-1.0, 1.0))
    else if param == "sig" then Some((0.1, 0.5))
    else None
  }

  /** The beam with the scanned parameter set to v. */
  function WithParam(beam: Beam, param: Param, v: real): Beam
  {
    if ScansPhi(param) then beam.(phi := v)
    else if param == "bsx" then beam.(bsx := v)
    else if param == "bsy" then beam.(bsy := v)
    else if param == "ssx" then beam.(ssx := v)
    else if param == "ssy" then beam.(ssy := v)
    else if param == "sig" then beam.(sz := v)
    else beam
  }

  /** Scanning one parameter changes only that parameter of the beam. */
  lemma WithParamChangesOne(beam: Beam, param: Param, v: real)
    requires LiveRange(param).Some?
    ensures var b := WithParam(beam, param, v);
      && b.f == beam.f && b.n1 == beam.n1 && b.n2 == beam.n2 && b.ex == beam.ex && b.ey == beam.ey
      && (b.phi == if ScansPhi(param) then v else beam.phi)
      && (b.bsx == if param == "bsx" then v else beam.bsx)
      && (b.bsy == if param == "bsy" then v else beam.bsy)
      && (b.ssx == if param == "ssx" then v else beam.ssx)
      && (b.ssy == if param == "ssy" then v else beam.ssy)
      && (b.sz == if param == "sig" then v else beam.sz)
  {
  }

  /** The luminosities of a scan of `param` over [lo, hi]. */
  function ScanValues(integrand: Beam -> real -> real, base: Beam, param: Param, lo: real, hi: real): (y: seq<real>)
    ensures |y| == ScanIntervals + 1
  {
    seq(ScanIntervals + 1, i requires 0 <= i <= ScanIntervals =>
      Rule(integrand(WithParam(base, param, UniformAt(lo, hi, ScanIntervals + 1, i))),
           NegInf, PosInf, IntegralSteps) * Conversion)
  }

  /**
   * One branch of the scan: `x` holds the N + 1 values `min + (max - min)·i/N`
   * and `y` the luminosity at each, both grown by `push`.
   */
  method Scan(integrand: Beam -> real -> real, base: Beam, param: Param, lo: real, hi: real)
    returns (x: seq<real>, y: seq<real>)
    ensures x == Uniform(lo, hi, ScanIntervals + 1)
    ensures y == ScanValues(integrand, base, param, lo, hi)
  {
    x, y := [], [];
    for i := 0 to ScanIntervals + 1
      invariant |x| == i && |y| == i
      invariant forall k :: 0 <= k < i ==> x[k] == UniformAt(lo, hi, ScanIntervals + 1, k)
      invariant forall k :: 0 <= k < i ==> y[k] == ScanValues(integrand, base, param, lo, hi)[k]
    {
      var v := lo + (hi - lo) * i as real / ScanIntervals as real;
      assert v == UniformAt(lo, hi, ScanIntervals + 1, i);
      var l := LuminosityIntegral(integrand, WithParam(base, param, v), NegInf, PosInf);
      x := x + [v];
      y := y + [l * Conversion];
    }
  }

  /** The grid of a scan: none for a parameter no branch knows. */
  function ScanGrid(range: Option<(real, real)>): seq<real>
  {
    match range
    case None => []
    case Some((lo, hi)) => Uniform(lo, hi, ScanIntervals + 1)
  }

  function ScanCurve(integrand: Beam -> real -> real, base: Beam, param: Param, range: Option<(real, real)>): seq<real>
  {
    match range
    case None => []
    case Some((lo, hi)) => ScanValues(integrand, base, param, lo, hi)
  }

  /** The if-chain over `activeParam`: the scan of the matching branch, or empty arrays. */
  method ComputeData(integrand: Beam -> real -> real, base: Beam, param: Param, range: Option<(real, real)>)
    returns (x: seq<real>, y: seq<real>)
    ensures x == ScanGrid(range) && y == ScanCurve(integrand, base, param, range)
  {
    match range
    case None =>
      x, y := [], [];
    case Some((lo, hi)) =>
      x, y := Scan(integrand, base, param, lo, hi);
  }

  /** A known parameter gives N + 1 points from min to max; an unknown one gives none. */
  lemma ScanGridShape(range: Option<(real, real)>)
    ensures range.None? ==> ScanGrid(range) == []
    ensures range.Some? ==>
      var g := ScanGrid(range);
      |g| == ScanIntervals + 1 && g[0] == range.value.0 && g[ScanIntervals] == range.value.1
  {
  }

  /** `savedState`: the slider values, the scanned parameter and the curve at the time of the save. */
  datatype Saved = Saved(
    bsx: real, bsy: real, ssx: real, ssy: real, sig: real, phi: real,
    x: seq<real>, y: seq<real>, activeParam: Param)

  /** One redraw: the scanned curve, the slider marker and the saved curve in grey. */
  datatype Frame = Frame(x: seq<real>, y: seq<real>, marker: Option<real>, grey: Option<(seq<real>, seq<real>)>)

  /** `DEFAULTS`. */
  const DefaultBsx: real := 0.70
  const DefaultBsy: real := 0.70
  const DefaultSsx: real := 0.0
  const DefaultSsy: real := 0.0
  const DefaultSig: real := 0.20
  const DefaultPhi: real := 0.002
  const DefaultParam: Param := "phi"

  class Explorer {
    /** The page's `integrand`. */
    const integrand: Beam -> real -> real

    /** The values of the six slider inputs. */
    var bsx: real
    var bsy: real
    var ssx: real
    var ssy: real
    var sig: real
    var phi: real

    var activeParam: Param
    var savedState: Option<Saved>

    /** The beam at the current slider values. */
    function Current(): Beam
      reads this`bsx, this`bsy, this`ssx, this`ssy, this`sig, this`phi
    {
      PageBeam(ssx, ssy, bsx, bsy, sig, phi)
    }

    /** `initLuminosityPlot` with the sliders at their initial values: phi scanned, nothing saved. */
    constructor (integrand: Beam -> real -> real, bsx: real, bsy: real, ssx: real, ssy: real, sig: real, phi: real)
      ensures this.integrand == integrand
      ensures this.bsx == bsx && this.bsy == bsy && this.ssx == ssx && this.ssy == ssy
      ensures this.sig == sig && this.phi == phi
      ensures activeParam == "phi" && savedState == None
    {
      this.integrand := integrand;
      this.bsx, this.bsy, this.ssx, this.ssy, this.sig, this.phi := bsx, bsy, ssx, ssy, sig, phi;
      activeParam := "phi";
      savedState := None;
    }

    /**
     * What `updatePlot` draws from the current state: the blue curve over the
     * plotted range, the red marker at the scanned parameter's slider value when
     * the name is known, and the grey saved curve exactly when there is one.
     */
    predicate Shows(f: Frame)
      reads this`bsx, this`bsy, this`ssx, this`ssy, this`sig, this`phi
      reads this`activeParam, this`savedState
    {
      && f.x == ScanGrid(LiveRange(activeParam))
      && f.y == ScanCurve(integrand, Current(), activeParam, LiveRange(activeParam))
      && (f.marker.Some? <==> LiveRange(activeParam).Some?)
      && (f.marker.Some? ==> f.marker.value == MarkerValue())
      && (f.grey.Some? <==> savedState.Some?)
      && (f.grey.Some? ==> f.grey.value == (savedState.value.x, savedState.value.y))
    }

    /** An `input` event on any of the six sliders: the new values, then `updatePlot`. */
    method SliderChange(bsx: real, bsy: real, ssx: real, ssy: real, sig: real, phi: real) returns (f: Frame)
      modifies this`bsx, this`bsy, this`ssx, this`ssy, this`sig, this`phi
      ensures this.bsx == bsx && this.bsy == bsy && this.ssx == ssx && this.ssy == ssy
      ensures this.sig == sig && this.phi == phi
      ensures Shows(f)
    {
      this.bsx, this.bsy, this.ssx, this.ssy, this.sig, this.phi := bsx, bsy, ssx, ssy, sig, phi;
      f := UpdatePlot();
    }

    /**
     * A `change` event on a scan-parameter radio button. Only a checked radio
     * scans its parameter, clears the saved curve and redraws.
     */
    method RadioChange(checked: bool, value: Param) returns (f: Option<Frame>)
      modifies this`activeParam, this`savedState
      ensures checked ==> activeParam == value && savedState == None
      ensures checked ==> f.Some? && Shows(f.value)
      ensures !checked ==> activeParam == old(activeParam) && savedState == old(savedState) && f == None
    {
      f := None;
      if checked {
        activeParam := value;
        savedState := None;
        var shown := UpdatePlot();
        f := Some(shown);
      }
    }

    /** The Reset button: every slider to its default, phi scanned, nothing saved, then `updatePlot`. */
    method ResetButton() returns (f: Frame)
      modifies this`bsx, this`bsy, this`ssx, this`ssy, this`sig, this`phi
      modifies this`activeParam, this`savedState
      ensures bsx == DefaultBsx && bsy == DefaultBsy && ssx == DefaultSsx && ssy == DefaultSsy
      ensures sig == DefaultSig && phi == DefaultPhi
      ensures activeParam == DefaultParam && savedState == None
      ensures Shows(f) && f.grey == None
    {
      bsx := DefaultBsx;
      bsy := DefaultBsy;
      ssx := DefaultSsx;
      ssy := DefaultSsy;
      sig := DefaultSig;
      phi := DefaultPhi;
      activeParam := DefaultParam;
      savedState := None;
      f := UpdatePlot();
    }

    /**
     * `saveState`: scan over the saved ranges, keep the result with the current
     * sliders, then `updatePlot`, which now draws the saved curve in grey.
     */
    method SaveState() returns (f: Frame)
      modifies this`savedState
      ensures savedState == Some(Saved(
        bsx, bsy, ssx, ssy, sig, phi,
        ScanGrid(SavedRange(activeParam)),
        ScanCurve(integrand, Current(), activeParam, SavedRange(activeParam)),
        if activeParam == "" then "phi" else activeParam))
      ensures Shows(f)
      ensures f.grey == Some((ScanGrid(SavedRange(activeParam)),
                              ScanCurve(integrand, Current(), activeParam, SavedRange(activeParam))))
    {
      var x, y := ComputeData(integrand, Current(), activeParam, SavedRange(activeParam));
      savedState := Some(Saved(bsx, bsy, ssx, ssy, sig, phi, x, y,
        if activeParam == "" then "phi" else activeParam));
      f := UpdatePlot();
    }

    /** `updatePlot`: the frame for the current state. */
    method UpdatePlot() returns (f: Frame)
      ensures Shows(f)
    {
      var x, y := ComputeData(integrand, Current(), activeParam, LiveRange(activeParam));
      var marker := if LiveRange(activeParam).Some? then Some(MarkerValue()) else None;
      var grey := match savedState
        case None => None
        case Some(s) => Some((s.x, s.y));
      f := Frame(x, y, marker, grey);
    }

    /** `xvert`: the slider value of the scanned parameter. */
    function MarkerValue(): real
      reads this`bsx, this`bsy, this`ssx, this`ssy, this`sig, this`phi, this`activeParam
    {
      if ScansPhi(activeParam) then phi
      else if activeParam == "bsx" then bsx
      else if activeParam == "bsy" then bsy
      else if activeParam == "ssx" then ssx
      else if activeParam == "ssy" then ssy
      else sig
    }
  }

  /** Every scanned value lies in [min, max] of its range. */
  lemma ScanCoversValue(range: Option<(real, real)>, i: nat)
    requires range.Some? && range.value.0 <= range.value.1 && i <= ScanIntervals
    ensures range.value.0 <= ScanGrid(range)[i] <= range.value.1
  {
    UniformWithin(range.value.0, range.value.1, ScanIntervals + 1, i);
  }
}
