# Accelerator-physics teaching pages, modelled in Dafny

The site's interactive pages are small browser scripts. Each reads a few sliders,
computes a beam-physics quantity and plots it. This project models the computational
core of eight of them and proves what they compute:

- **Decoherence simulator** (`decoherence.js`). An ensemble of 5000 particles is kept in
  normalized phase space as z = u + i·up. Every turn each particle is rotated by its own
  tune. The centroid is recorded turn by turn, under a play / pause / step / reset
  controller. Modules `Decoherence`, `RealMath`, `Series`.
- **Simpson integrator and luminosity scans** (both `luminosity.js` pages). Composite
  Simpson integration of an abstract integrand. A crossing-angle scan of N + 1 points. A
  parameter explorer that scans one of six parameters and keeps a saved curve. Modules
  `Simpson`, `Luminosity`, `CrossingAngle`, `LuminosityExplorer`, `Grids`.
- **BPM error model** (`BPM_error.js`). A beam position monitor's tilt, coupling and gains
  as the matrix R·(C·G) scaled by 1/sqrt(1 − C²), plus additive Gaussian noise. The page
  compares true and measured signals. Module `BpmError`.
- **Least squares** (`least_squares.js`). `linspace`, `mean`, `subtract` and the closed-form
  ordinary least-squares fit, on a noisy straight line with a kept noise realization.
  Modules `LeastSquares`, `SliderInput`.
- **IR beta function** (`beta_function_IR.js`). The hyperbolic beta function around the
  interaction point, and the reconstruction of beta* and s* from the two BPM readings,
  with linear error propagation. Module `BetaFunctionIr`.
- **Twiss ellipse sampler** (`twiss.js`). Points drawn uniformly in the unit disk and mapped
  to phase space with the Twiss parameters. Module `Twiss`.
- **McMillan sextupole map** (`sextupole_mcmillan.js`). The invariant K_SX on an 80 × 80
  grid, its range and the contour spacing. Module `SextupoleMcMillan`.

Conventions used throughout:

- **Numbers.** JavaScript numbers are modelled as Dafny `real`; `Float32Array` storage is
  modelled as `real` too.
- **Transcendentals.** `Math.sqrt`, `sin`, `cos`, `exp` and `Math.PI` are fields of a
  `RealMath.MathLib` value passed in. The ghost predicates `SqrtLaw` and `TrigLaw` state the
  only facts used: the principal square root, cos² + sin² = 1, cos 0 = 1 and sin 0 = 0.
- **Randomness.** Every random draw (`Math.random`, `randn`, `randomGaussian`) is a
  caller-supplied sequence, consumed in the order the script calls the generator.
- **Event handlers.** A handler that ends by calling `updatePlot()` is a method that calls
  the corresponding `UpdatePlot`. A page whose state persists between events is a class.
- **NaN and Infinity.** Where the scripts divide by zero, the model either returns `None`
  or a small number type (`LeastSquares.Number`), or excludes that input with a `requires`
  listed under "Left out".

Where the comments in the scripts and their code disagree, the model follows the code:

- **Least squares: noise.** The comment in `updatePlot` says the noise realization is kept
  until Resample or Reset. Both branches draw new noise on every update
  (least_squares.js:191-199), and the model does the same. After Resample, the plot
  therefore shows the second of the two draws (`LeastSquaresPage.ResampleButton`).
- **Decoherence: Play.** Play sets `playing` without looking at the turn. At the last turn
  the next tick then stops at once (decoherence.js:470-477, 440-446).
- **BPM: noise check.** `updatePlot` regenerates noise only when the X noise is missing or
  the wrong length. The Y noise is not checked (BPM_error.js:243-245).
- **Luminosity explorer: saved range.** The saved curve for sigma_s covers [0.1, 0.5]. The
  live one covers [0.05, 1.0] (1_luminosity/luminosity.js:123-124 and its counterpart in
  `updatePlot`).

## Model

| member | source | states |
|---|---|---|
| Decoherence.SqrtBetaValues | assets/js/2_linear_optics_measurements/decoherence.js:14-18 | with beta = 1 the host's sqrt(beta) and its reciprocal are both 1 |
| Decoherence.PhysToNorm | assets/js/2_linear_optics_measurements/decoherence.js:68-72 | computes physToNorm: u = q·invSqrtBeta, up = alpha·q·invSqrtBeta + p·sqrtBeta; its partner NormToPhys is its inverse (the two round-trip rows below) |
| Decoherence.NormToPhys | assets/js/2_linear_optics_measurements/decoherence.js:77-81 | computes normToPhys: q = sqrtBeta·u, p = (−alpha·invSqrtBeta)·u + invSqrtBeta·up |
| Decoherence.NormToPhysAfterPhysToNorm | assets/js/2_linear_optics_measurements/decoherence.js:64-81 | normToPhys(physToNorm(q, p)) == (q, p) for any alpha whenever sqrtBeta·invSqrtBeta = 1 |
| Decoherence.PhysToNormAfterNormToPhys | assets/js/2_linear_optics_measurements/decoherence.js:64-81 | physToNorm(normToPhys(u, up)) == (u, up) under the same condition: the two maps are mutually inverse |
| Decoherence.KickShiftsMomentum | assets/js/2_linear_optics_measurements/decoherence.js:205-217 | the initial state keeps the drawn u and shifts up by exactly kick·sqrt(beta) |
| Decoherence.CMulModulus | assets/js/2_linear_optics_measurements/decoherence.js:240-248 | the complex product's squared modulus is the product of the two squared moduli |
| Decoherence.UnitRotationKeepsModulus | assets/js/2_linear_optics_measurements/decoherence.js:242-248 | multiplying by a unit-modulus rotation leaves zr² + zi² unchanged |
| Decoherence.UnitCircle | assets/js/2_linear_optics_measurements/decoherence.js:219-223 | (cos omega, sin omega) has modulus 1, so every rotation operator is unitary |
| Decoherence.NextTurn | assets/js/2_linear_optics_measurements/decoherence.js:249 | min(turn + 1, nTurns − 1) stays in [0, nTurns − 1], grows by one below the cap and stays put at it |
| Decoherence.PhysQ | assets/js/2_linear_optics_measurements/decoherence.js:258-261 | one physical q per particle |
| Decoherence.PhysP | assets/js/2_linear_optics_measurements/decoherence.js:258-261 | one physical p per particle |
| Decoherence.RotatedRe | assets/js/2_linear_optics_measurements/decoherence.js:243-248 | one rotated real part per particle |
| Decoherence.RotatedIm | assets/js/2_linear_optics_measurements/decoherence.js:243-248 | one rotated imaginary part per particle |
| Decoherence.DrawnU | assets/js/2_linear_optics_measurements/decoherence.js:205-216 | the initial u of each of the 5000 particles, from three normal draws each |
| Decoherence.DrawnUp | assets/js/2_linear_optics_measurements/decoherence.js:205-217 | the initial up of each particle, including the kick |
| Decoherence.DrawnCos | assets/js/2_linear_optics_measurements/decoherence.js:219-222 | cos(2π·Q_i) for each particle, Q_i = Q0 + sigmaQ·draw |
| Decoherence.DrawnSin | assets/js/2_linear_optics_measurements/decoherence.js:219-223 | sin(2π·Q_i) for each particle |
| Decoherence.Simulator.constructor | assets/js/2_linear_optics_measurements/decoherence.js:171-188 | six fresh arrays of 5000, empty histories, turn 0, not playing, no pending frame, lastTime 0 |
| Decoherence.Simulator.ComputePhysAndCentroidAndStore | assets/js/2_linear_optics_measurements/decoherence.js:254-274 | qArr/pArr are normToPhys of z; each history grows by exactly one entry: the means Σq/N and Σp/N, the turn, and qMean again |
| Decoherence.Simulator.DrawParticle | assets/js/2_linear_optics_measurements/decoherence.js:205-223 | particle i gets its drawn state and rotation; every other particle is untouched |
| Decoherence.Simulator.DrawParticles | assets/js/2_linear_optics_measurements/decoherence.js:205-224 | every particle holds its drawn state, and every rotation has unit modulus |
| Decoherence.Simulator.InitState | assets/js/2_linear_optics_measurements/decoherence.js:193-236 | drawn state, turn 0, every history of length 1 with turnHist == [0], histories in step with the turn |
| Decoherence.Simulator.Rotate | assets/js/2_linear_optics_measurements/decoherence.js:242-248 | z becomes z·p for every particle, and every particle's modulus is preserved |
| Decoherence.Simulator.StepOnce | assets/js/2_linear_optics_measurements/decoherence.js:242-252 | rotation with preserved moduli, turn := NextTurn(turn), one entry appended to each history; below the cap, history length stays turn + 1 |
| Decoherence.Simulator.StopAnimation | assets/js/2_linear_optics_measurements/decoherence.js:462-468 | afterwards not playing, no pending frame, lastTime 0 |
| Decoherence.Simulator.PlayPause | assets/js/2_linear_optics_measurements/decoherence.js:470-478 | playing toggles: stopping clears the frame and lastTime; starting requests a frame |
| Decoherence.Simulator.StepBtn | assets/js/2_linear_optics_measurements/decoherence.js:480-483 | stops the animation; advances one turn exactly when turn < nTurns − 1, otherwise changes nothing else |
| Decoherence.Simulator.Reset | assets/js/2_linear_optics_measurements/decoherence.js:485-488 | stops, then re-initializes: new drawn state, turn 0, histories of length 1 |
| Decoherence.Simulator.ParamChange | assets/js/2_linear_optics_measurements/decoherence.js:490-499 | adopts the new Q0, sigmaQ and kick, stops and re-initializes |
| Decoherence.Simulator.Tick | assets/js/2_linear_optics_measurements/decoherence.js:432-451 | steps at most once, only when playing and t − lastTime ≥ 60; at the last turn stops playing without stepping; otherwise only lastTime and the frame flag can change |
| Decoherence.RepeatedRotationKeepsModulus | assets/js/2_linear_optics_measurements/decoherence.js:242-248 | over any number of turns a particle keeps its initial modulus |
| Simpson.EvenSteps | assets/js/luminosity/luminosity.js:22 | the interval count is even, equals n for even n and is n + 1 for odd n |
| Simpson.Rule | assets/js/luminosity/luminosity.js:21-33 | the value integrateSimpson returns: (h/3)·(f(a) + f(b) + the weighted interior samples), h = (b − a)/EvenSteps(n); its properties are RuleIsWeightedSum and RuleConstant |
| Simpson.IntegrateSimpson | assets/js/luminosity/luminosity.js:21-33 | the loop's result equals the composite Simpson rule `Rule` with weights 1, 4, 2, …, 4, 1 |
| Simpson.AddInteriorSamples | assets/js/luminosity/luminosity.js:27-30 | the loop adds exactly the weighted interior samples 1 ≤ i < n |
| Simpson.WeightedSumPrefix | assets/js/luminosity/luminosity.js:25-30 | the weighted sum up to k is f(a) plus the interior samples below k |
| Simpson.RuleIsWeightedSum | assets/js/luminosity/luminosity.js:21-33 | a + n·h == b, and the rule is (h/3)·Σ w_i·f(a + i·h) over all n + 1 points |
| Simpson.WeightTotalEven | assets/js/luminosity/luminosity.js:25-30 | the weights of all n + 1 points total 3n (interior weights 3n − 2) |
| Simpson.InteriorConstant | assets/js/luminosity/luminosity.js:27-30 | for a constant integrand the interior sum is the constant times the interior weight |
| Simpson.RuleConstant | assets/js/luminosity/luminosity.js:21-33 | Simpson's rule integrates a constant exactly: c·(b − a) |
| Luminosity.LuminosityIntegral | assets/js/luminosity/luminosity.js:35-40 | Simpson's rule with 400 intervals over the integrand at the given beam |
| Luminosity.IntegralOfConstant | assets/js/luminosity/luminosity.js:35-40 | an s-independent integrand c gives c·(b − a) |
| Luminosity.WindowOfConstant | assets/js/luminosity/luminosity.js:88-89 | over the page's window [−10, 10] that is 20·c |
| Grids.Uniform | assets/js/luminosity/luminosity.js:91-94 | n evenly spaced points, the first lo and the last hi |
| Grids.UniformStep | assets/js/mcmillan/sextupole_mcmillan.js:14-16 | consecutive points differ by exactly (hi − lo)/(n − 1) |
| Grids.UniformWithin | assets/js/1_luminosity/luminosity.js:268-269 | on a rising grid every point lies in [lo, hi] |
| CrossingAngle.Phi | assets/js/luminosity/luminosity.js:91-94 | N + 1 = 101 angles |
| CrossingAngle.PhiIsUniform | assets/js/luminosity/luminosity.js:91-94 | Phi is exactly linspace(0, π/100, N + 1) |
| CrossingAngle.PhiShape | assets/js/luminosity/luminosity.js:91-94 | Phi runs from 0 to π/100 in equal steps π/(100·N) |
| CrossingAngle.LuminosityAt | assets/js/luminosity/luminosity.js:102-110 | one entry of Luminosities: LuminosityIntegral of the integrand at the sliders and that phi, times conversion |
| CrossingAngle.UpdatePlot | assets/js/luminosity/luminosity.js:59-111 | one luminosity per angle: the 400-interval integral at that angle times 1/100² |
| LuminosityExplorer.LiveRange | assets/js/1_luminosity/luminosity.js:263-374 | the [min, max] each branch of updatePlot scans: phi [0, 0.005], bsx/bsy [0.1, 5], ssx/ssy [−1, 1], sig [0.05, 1], and none for an unknown name |
| LuminosityExplorer.SavedRange | assets/js/1_luminosity/luminosity.js:82-133 | the saved scan uses the live range except for sigma_s ([0.1, 0.5] instead of [0.05, 1.0]); it is defined exactly when the live one is |
| LuminosityExplorer.WithParam | assets/js/1_luminosity/luminosity.js:263-374 | the beam each branch passes to LuminosityIntegral: the scanned argument replaced by the grid value; its property is WithParamChangesOne |
| LuminosityExplorer.WithParamChangesOne | assets/js/1_luminosity/luminosity.js:263-374 | scanning one parameter changes that parameter of the beam and no other |
| LuminosityExplorer.ScanValues | assets/js/1_luminosity/luminosity.js:268-282 | N + 1 luminosities |
| LuminosityExplorer.Scan | assets/js/1_luminosity/luminosity.js:268-282 | x is linspace(min, max, N + 1) and y the luminosity at each x, both built by push |
| LuminosityExplorer.ComputeData | assets/js/1_luminosity/luminosity.js:82-133 | the matching branch's scan, or empty arrays for an unknown parameter |
| LuminosityExplorer.ScanGridShape | assets/js/1_luminosity/luminosity.js:263-374 | a known parameter gives N + 1 points from min to max; an unknown one gives none |
| LuminosityExplorer.Explorer.constructor | assets/js/1_luminosity/luminosity.js:61-63 | phi is scanned and nothing is saved |
| LuminosityExplorer.Explorer.RadioChange | assets/js/1_luminosity/luminosity.js:193-199 | a checked radio selects its parameter, clears the saved state and returns a redraw that Shows the new state; an unchecked one changes nothing and draws nothing |
| LuminosityExplorer.Explorer.ResetButton | assets/js/1_luminosity/luminosity.js:205-228 | every slider to its default, phi scanned, nothing saved, and a redraw that Shows that state, with no grey curve |
| LuminosityExplorer.Explorer.SaveState | assets/js/1_luminosity/luminosity.js:69-138 | the saved state holds the sliders, the scan over the saved range and the parameter, with "" saved as "phi"; the redraw Shows it and draws that saved scan in grey |
| LuminosityExplorer.Explorer.UpdatePlot | assets/js/1_luminosity/luminosity.js:245-424 | returns a frame that Shows the current state |
| LuminosityExplorer.Explorer.MarkerValue | assets/js/1_luminosity/luminosity.js:263-374 | xvert: the slider value of the scanned parameter, phi for "phi" or a falsy name |
| LuminosityExplorer.Explorer.Shows | assets/js/1_luminosity/luminosity.js:245-424 | a frame is what updatePlot draws from the current state: the live scan, the marker iff the name is known, the grey curve iff a state is saved |
| LuminosityExplorer.Explorer.SliderChange | assets/js/1_luminosity/luminosity.js:174-178 | the six new slider values, and a redraw that Shows the new state |
| LuminosityExplorer.ScanCoversValue | assets/js/1_luminosity/luminosity.js:263-374 | every scanned value lies within the branch's [min, max] |
| BpmError.MatMult | assets/js/2_linear_optics_measurements/BPM_error.js:46-57 | computes matMult, the 2×2 product; its properties are MatMultIdentity and DetMult |
| BpmError.ErrorMatrix | assets/js/2_linear_optics_measurements/BPM_error.js:59 | computes M = R·(C·G) from the decoded errors; its properties are UncoupledErrorMatrix, TrueErrorsAreIdentity and ScaledDeterminant |
| BpmError.MatMultIdentity | assets/js/2_linear_optics_measurements/BPM_error.js:46-57 | the identity is a two-sided unit of matMult |
| BpmError.DetMult | assets/js/2_linear_optics_measurements/BPM_error.js:46-59 | det(A·B) = det A · det B |
| BpmError.CouplingRadicand | assets/js/2_linear_optics_measurements/BPM_error.js:60 | for −1 < C < 1 the radicand 1 − C² is positive |
| BpmError.Scale | assets/js/2_linear_optics_measurements/BPM_error.js:60 | 1/sqrt(1 − C²) is positive |
| BpmError.MixX | assets/js/2_linear_optics_measurements/BPM_error.js:66 | computes X_error[0][i] = scale·(M00·x + M01·y) |
| BpmError.MixY | assets/js/2_linear_optics_measurements/BPM_error.js:67 | computes X_error[1][i] = scale·(M10·x + M11·y) |
| BpmError.ReadingsX | assets/js/2_linear_optics_measurements/BPM_error.js:63-79 | one x reading per turn |
| BpmError.ReadingsY | assets/js/2_linear_optics_measurements/BPM_error.js:63-79 | one y reading per turn |
| BpmError.NoiseUsed | assets/js/2_linear_optics_measurements/BPM_error.js:75-76 | the kept realization when there is one, otherwise fresh draws, one per turn |
| BpmError.AddBpmErrors | assets/js/2_linear_optics_measurements/BPM_error.js:19-82 | the readings are scale·(M·X) plus s·z per turn, with M = R·(C·G) from the six error values |
| BpmError.Transform | assets/js/2_linear_optics_measurements/BPM_error.js:63-68 | both rows of scale·M·X, turn by turn |
| BpmError.AddNoise | assets/js/2_linear_optics_measurements/BPM_error.js:71-79 | each reading plus its noise scaled by s_x or s_y |
| BpmError.Perturbed | assets/js/2_linear_optics_measurements/BPM_error.js:269 | the element-wise sum of the true values and the slider deltas |
| BpmError.PerturbedErrors | assets/js/2_linear_optics_measurements/BPM_error.js:258-269 | the errors are (tilt, coup, 1 + gx, 1 + gy, sx, sy) |
| BpmError.UncoupledErrorMatrix | assets/js/2_linear_optics_measurements/BPM_error.js:30-59 | without tilt and coupling, M is the gain matrix |
| BpmError.TrueErrorsAreIdentity | assets/js/2_linear_optics_measurements/BPM_error.js:258 | the true error values [0, 0, 1, 1, 0, 0] give M = I and scale 1 |
| BpmError.IdentityReadingsReproduceSignal | assets/js/2_linear_optics_measurements/BPM_error.js:63-79 | with M = I, scale 1 and zero noise the readings are the signal itself |
| BpmError.ZeroNoiseScaleIgnoresNoise | assets/js/2_linear_optics_measurements/BPM_error.js:74-79 | with s = 0 the readings do not depend on the noise realization |
| BpmError.ScaledDeterminantCore | assets/js/2_linear_optics_measurements/BPM_error.js:30-60 | the scaled determinant of R·C·G is gx·gy (real-number algebra) |
| BpmError.ScaledDeterminant | assets/js/2_linear_optics_measurements/BPM_error.js:59-60 | scale²·det M = g_x·g_y: the coupling's area change is exactly undone by the scale |
| BpmError.Difference | assets/js/2_linear_optics_measurements/BPM_error.js:277-278 | one difference per turn |
| BpmError.DifferenceZero | assets/js/2_linear_optics_measurements/BPM_error.js:277-278 | all differences vanish exactly when the reading equals the signal |
| BpmError.ExpSinAt | assets/js/2_linear_optics_measurements/BPM_error.js:13-14 | computes one sample a·exp(−b·n²)·sin(2π·c·n + d) |
| BpmError.ExpSin | assets/js/2_linear_optics_measurements/BPM_error.js:9-17 | one sample per turn number |
| BpmError.ExponentialSinusoid | assets/js/2_linear_optics_measurements/BPM_error.js:9-17 | the loop fills a·exp(−b·n²)·sin(2π·c·n + d) for every n |
| BpmError.ZeroAmplitudeIsSilent | assets/js/2_linear_optics_measurements/BPM_error.js:9-17 | zero amplitude gives a zero signal |
| BpmError.Turns | assets/js/2_linear_optics_measurements/BPM_error.js:240 | [0, 1, …, n − 1] |
| BpmError.SignalX | assets/js/2_linear_optics_measurements/BPM_error.js:229-250 | 200 samples of the x signal |
| BpmError.SignalY | assets/js/2_linear_optics_measurements/BPM_error.js:229-251 | 200 samples of the y signal |
| BpmError.PagePlot | assets/js/2_linear_optics_measurements/BPM_error.js:229-278 | what updatePlot draws for the sliders and a noise realization: both signals, both readings through Add_BPM_errors, and both differences; NoErrorNoDifference and DefaultsShowNoError state its values |
| BpmError.NoErrorNoDifference | assets/js/2_linear_optics_measurements/BPM_error.js:258-278 | with every error slider at 0 the readings equal the signals and both difference curves are 0 |
| BpmError.NoErrorReadings | assets/js/2_linear_optics_measurements/BPM_error.js:258-278 | with every error slider at 0 the plot's readings are the signals and the differences are signal − signal |
| BpmError.NoErrorMonitor | assets/js/2_linear_optics_measurements/BPM_error.js:258-269 | zero sliders decode to zero coupling, M = I, scale 1 and zero noise |
| BpmError.DifferenceSelf | assets/js/2_linear_optics_measurements/BPM_error.js:277-278 | signal − signal is all zeros |
| BpmError.Zeros | assets/js/2_linear_optics_measurements/BPM_error.js:277-278 | n zeros |
| BpmError.BpmErrorPage.constructor | assets/js/2_linear_optics_measurements/BPM_error.js:100-101 | no noise realization is kept at start |
| BpmError.BpmErrorPage.ResampleNoise | assets/js/2_linear_optics_measurements/BPM_error.js:103-106 | new X and Y realizations of 200 draws each, X first |
| BpmError.BpmErrorPage.UpdatePlot | assets/js/2_linear_optics_measurements/BPM_error.js:213-278 | draws noise only when none is kept, otherwise reuses it; the plot is PagePlot of the sliders and the kept noise |
| BpmError.BpmErrorPage.SliderChange | assets/js/2_linear_optics_measurements/BPM_error.js:143-148 | the new sliders, then the plot, reusing a stored realization |
| BpmError.BpmErrorPage.ResampleButton | assets/js/2_linear_optics_measurements/BPM_error.js:168-173 | a new realization, then the plot with it |
| BpmError.BpmErrorPage.ResetButton | assets/js/2_linear_optics_measurements/BPM_error.js:174-206 | sliders to DEFAULTS, noise dropped and redrawn by the update, then the plot |
| BpmError.ComputePlot | assets/js/2_linear_optics_measurements/BPM_error.js:237-278 | the signals, readings and differences of PagePlot |
| BpmError.DefaultsShowNoError | assets/js/2_linear_optics_measurements/BPM_error.js:258-278 | at the default sliders the readings equal the signals and the differences are 0 |
| LeastSquares.Divide | assets/js/2_linear_optics_measurements/least_squares.js:12-19 | JavaScript division: finite exactly when b ≠ 0 with r·b = a, NaN exactly for 0/0, otherwise an infinity of a's sign |
| LeastSquares.AddTo | assets/js/2_linear_optics_measurements/least_squares.js:12 | adding a finite start keeps finiteness, and NaN or infinity propagates |
| LeastSquares.LinspaceAsWritten | assets/js/2_linear_optics_measurements/least_squares.js:9-15 | linspace as written, one JavaScript number per index |
| LeastSquares.LinspaceSinglePointIsNaN | assets/js/2_linear_optics_measurements/least_squares.js:9-15 | linspace(start, end, 1) is [NaN] |
| LeastSquares.LinspaceAsWrittenAgrees | assets/js/2_linear_optics_measurements/least_squares.js:9-15 | for N ≥ 2 the code as written gives the corrected grid, all finite |
| LeastSquares.PointAsWrittenFinite | assets/js/2_linear_optics_measurements/least_squares.js:12 | for N ≥ 2 each point is finite and uniform |
| LeastSquares.LinspaceGrid | assets/js/2_linear_optics_measurements/least_squares.js:9-15 | N points, the first start and the last end, uniform for N ≥ 2; one point is [start] |
| LeastSquares.LinspaceStep | assets/js/2_linear_optics_measurements/least_squares.js:12 | consecutive points are (end − start)/(N − 1) apart |
| LeastSquares.Linspace | assets/js/2_linear_optics_measurements/least_squares.js:9-15 | the push loop builds exactly LinspaceGrid |
| LeastSquares.Mean | assets/js/2_linear_optics_measurements/least_squares.js:18-20 | finite exactly for a non-empty array, with mean·n = Σ; NaN for an empty one |
| LeastSquares.MeanConstant | assets/js/2_linear_optics_measurements/least_squares.js:18-20 | the mean of a constant array is that constant |
| LeastSquares.Subtract | assets/js/2_linear_optics_measurements/least_squares.js:23-25 | one entry per input entry |
| LeastSquares.SubtractSum | assets/js/2_linear_optics_measurements/least_squares.js:23-25 | Σ(x − v) = Σx − n·v |
| LeastSquares.CenteredMeanZero | assets/js/2_linear_optics_measurements/least_squares.js:18-25 | subtracting the mean leaves sum and mean 0 |
| LeastSquares.OrdinaryLeastSquares | assets/js/2_linear_optics_measurements/least_squares.js:27-38 | a fit exists exactly when the denominator n·Σx² − (Σx)² is non-zero, and then slope and intercept solve the normal equations |
| LeastSquares.LineFit | assets/js/2_linear_optics_measurements/least_squares.js:29-37 | the closed form from the five sums solves the normal equations exactly when the spread is non-zero |
| LeastSquares.EmptyDenominator | assets/js/2_linear_optics_measurements/least_squares.js:28-33 | an empty array has Σx = 0 and a zero denominator |
| LeastSquares.FitThroughCentroid | assets/js/2_linear_optics_measurements/least_squares.js:27-38 | the fitted line passes through (mean x, mean y) |
| LeastSquares.LineFitCentroid | assets/js/2_linear_optics_measurements/least_squares.js:34-35 | intercept + slope·(Σx/n) = Σy/n |
| LeastSquares.FitRecoversLine | assets/js/2_linear_optics_measurements/least_squares.js:27-38 | points exactly on y = m·x + c with non-constant x are fitted with (m, c) |
| LeastSquares.LineSums | assets/js/2_linear_optics_measurements/least_squares.js:29-33 | for points on a line, Σy and Σxy are the matching combinations of n, Σx and Σx² |
| LeastSquares.NormalEquationsUnique | assets/js/2_linear_optics_measurements/least_squares.js:34-35 | with a non-zero spread, the normal equations have only one solution |
| LeastSquares.DenominatorIsSpread | assets/js/2_linear_optics_measurements/least_squares.js:34 | the denominator is n·Σ(x − mean)² |
| LeastSquares.DenominatorZeroIff | assets/js/2_linear_optics_measurements/least_squares.js:34 | the denominator vanishes exactly when all x are equal |
| LeastSquares.ZeroDenominatorAllEqual | assets/js/2_linear_optics_measurements/least_squares.js:34 | a zero denominator forces all x equal |
| LeastSquares.AllEqualZeroDenominator | assets/js/2_linear_optics_measurements/least_squares.js:34 | all x equal give a zero denominator |
| LeastSquares.NoiseOf | assets/js/2_linear_optics_measurements/least_squares.js:74-77 | one noise value per draw, all zero for a zero std |
| LeastSquares.Gaussian | assets/js/2_linear_optics_measurements/least_squares.js:2-7 | randomGaussian(mean, std) as mean + std·z for a standard normal draw z |
| LeastSquares.Points | assets/js/2_linear_optics_measurements/least_squares.js:184-188 | the clamped N is at least 1, and DEFAULTS.N without an N input |
| LeastSquares.Blur | assets/js/2_linear_optics_measurements/least_squares.js:206-209 | one observed value per true value |
| LeastSquares.Line | assets/js/2_linear_optics_measurements/least_squares.js:208-213 | one value of m·x + c per x |
| LeastSquares.PagePlot | assets/js/2_linear_optics_measurements/least_squares.js:175-215 | four series of N points, the fit of the observed data, and a prediction exactly when there is a fit |
| LeastSquares.ComputePlot | assets/js/2_linear_optics_measurements/least_squares.js:205-213 | the statements of updatePlot compute PagePlot |
| LeastSquares.NoiselessFitIsExact | assets/js/2_linear_optics_measurements/least_squares.js:205-213 | with both noise levels at 0 and N ≥ 2 the fit is (slope, 0) and the prediction is the true line |
| LeastSquares.SinglePointHasNoFit | assets/js/2_linear_optics_measurements/least_squares.js:184-188 | with N = 1 the fit is undefined |
| LeastSquares.DefaultSliders | assets/js/2_linear_optics_measurements/least_squares.js:147-168 | after Reset the page plots DEFAULTS.N points |
| LeastSquares.LeastSquaresPage.constructor | assets/js/2_linear_optics_measurements/least_squares.js:71-72 | no noise realization is kept at start |
| LeastSquares.LeastSquaresPage.ResampleNoise | assets/js/2_linear_optics_measurements/least_squares.js:74-77 | X noise from the first N draws scaled by xn, then Y noise from the next N scaled by yn |
| LeastSquares.LeastSquaresPage.UpdatePlot | assets/js/2_linear_optics_measurements/least_squares.js:175-215 | always draws a new realization of N points, then plots it |
| LeastSquares.LeastSquaresPage.SliderChange | assets/js/2_linear_optics_measurements/least_squares.js:102-112 | new sliders, new noise, new plot |
| LeastSquares.LeastSquaresPage.ResampleButton | assets/js/2_linear_optics_measurements/least_squares.js:135-146 | two realizations are drawn; the plot shows the second |
| LeastSquares.LeastSquaresPage.ResetButton | assets/js/2_linear_optics_measurements/least_squares.js:147-168 | sliders to DEFAULTS, noise dropped and redrawn, plot |
| BetaFunctionIr.Abscissae | assets/js/2_linear_optics_measurements/beta_function_IR.js:11 | n positions |
| BetaFunctionIr.Profile | assets/js/2_linear_optics_measurements/beta_function_IR.js:12 | one beta per position |
| BetaFunctionIr.SAt | assets/js/2_linear_optics_measurements/beta_function_IR.js:11 | computes s[i] = s1 + i·ds/(N − 1) |
| BetaFunctionIr.BetaAt | assets/js/2_linear_optics_measurements/beta_function_IR.js:12 | computes beta = bs·(1 + (s − ss)²/bs²); its properties are BetaHyperbola, BetaMinimum and BetaSymmetric |
| BetaFunctionIr.BetaFunction | assets/js/2_linear_optics_measurements/beta_function_IR.js:6-16 | the loop fills s with the positions and beta with beta*·(1 + (s − s*)²/beta*²) |
| BetaFunctionIr.AbscissaeUniform | assets/js/2_linear_optics_measurements/beta_function_IR.js:2-11 | the positions are linspace(s1, s2, n), from −8.3 to 8.3 |
| BetaFunctionIr.BetaHyperbola | assets/js/2_linear_optics_measurements/beta_function_IR.js:12 | beta(s) = beta* + (s − s*)²/beta* |
| BetaFunctionIr.BetaMinimum | assets/js/2_linear_optics_measurements/beta_function_IR.js:12 | for beta* > 0 the beta function is at least beta*, with equality exactly at s = s* |
| BetaFunctionIr.BetaSymmetric | assets/js/2_linear_optics_measurements/beta_function_IR.js:12 | beta is symmetric about s* |
| BetaFunctionIr.StarDenominator | assets/js/2_linear_optics_measurements/beta_function_IR.js:24 | D ≥ 4·ds² > 0, so the reconstruction never divides by zero |
| BetaFunctionIr.Sensitivities | assets/js/2_linear_optics_measurements/beta_function_IR.js:23-31 | computes N, D, bstar and the four partial derivatives dbstardb1, dbstardb2, dsstardb1, dsstardb2 for a Q ≠ 0 |
| BetaFunctionIr.ErrorVariance | assets/js/2_linear_optics_measurements/beta_function_IR.js:33-37 | computes the radicand (d1·sb1)² + (d2·sb2)² + 2·d1·d2·rho·sb1·sb2 of sbstar and ssstar; its properties are UncorrelatedVariancesAdd and VarianceNonNegative |
| BetaFunctionIr.RootOf | assets/js/2_linear_optics_measurements/beta_function_IR.js:36-37 | a square root exists exactly for a non-negative variance, and it is the principal root |
| BetaFunctionIr.StarErrors | assets/js/2_linear_optics_measurements/beta_function_IR.js:18-40 | with Q² = beta1·beta2 − ds² ≤ 0 both errors are non-finite (NaN or Infinity in the script), None here |
| BetaFunctionIr.ExactReadingsNoError | assets/js/2_linear_optics_measurements/beta_function_IR.js:26-37 | zero BPM errors give zero errors on beta* and s* |
| BetaFunctionIr.UncorrelatedVariancesAdd | assets/js/2_linear_optics_measurements/beta_function_IR.js:33-34 | with rho = 0 the variance is the sum of the two squared contributions |
| BetaFunctionIr.VarianceNonNegative | assets/js/2_linear_optics_measurements/beta_function_IR.js:33-34 | for −1 ≤ rho ≤ 1 the propagated variance is non-negative |
| BetaFunctionIr.QuadraticFormNonNegative | assets/js/2_linear_optics_measurements/beta_function_IR.js:33-34 | a² + b² + 2·rho·a·b ≥ 0 for −1 ≤ rho ≤ 1 |
| BetaFunctionIr.FiniteErrors | assets/js/2_linear_optics_measurements/beta_function_IR.js:22-37 | with Q² > 0 and a valid correlation both errors are defined |
| BetaFunctionIr.RadicandIsSquare | assets/js/2_linear_optics_measurements/beta_function_IR.js:12-22 | at the true beta function, beta1·beta2 − ds² is the square of beta* + (s1 − s*)(s2 − s*)/beta* |
| BetaFunctionIr.RadicandNonNegative | assets/js/2_linear_optics_measurements/beta_function_IR.js:12-22 | so Q² ≥ 0 for any beta* > 0 and s* |
| BetaFunctionIr.VanishingQ | assets/js/2_linear_optics_measurements/beta_function_IR.js:18-40 | beta* = 8.3, s* = 0 gives Q = 0, and both errors are undefined |
| BetaFunctionIr.PagePlot | assets/js/2_linear_optics_measurements/beta_function_IR.js:123-221 | 100 samples; the BPM markers are at (s1, beta(s1)) and (s2, beta(s2)) with their errors |
| BetaFunctionIr.DefaultsHaveNoStarError | assets/js/2_linear_optics_measurements/beta_function_IR.js:139-140 | at the default sliders both errors are 0 |
| BetaFunctionIr.BetaPage.constructor | assets/js/2_linear_optics_measurements/beta_function_IR.js:43-49 | the page starts from the given sliders |
| BetaFunctionIr.BetaPage.UpdatePlot | assets/js/2_linear_optics_measurements/beta_function_IR.js:123-221 | the statements of updatePlot compute PagePlot |
| BetaFunctionIr.BetaPage.SliderChange | assets/js/2_linear_optics_measurements/beta_function_IR.js:77-82 | new sliders, then their plot |
| BetaFunctionIr.BetaPage.ResetButton | assets/js/2_linear_optics_measurements/beta_function_IR.js:95-116 | sliders to DEFAULTS, then their plot |
| Twiss.Gamma | assets/js/2_linear_optics_measurements/twiss.js:126 | gamma is defined exactly for beta ≠ 0, satisfies gamma·beta − alpha² = 1, and is positive for beta > 0 |
| Twiss.DefaultGamma | assets/js/2_linear_optics_measurements/twiss.js:84-103 | Reset shows gamma = 2 |
| Twiss.Normalized | assets/js/2_linear_optics_measurements/twiss.js:7-11 | computes (u, up) = sqrt(eps)·sqrt(r)·(cos θ, sin θ) with θ = 2π·(angle draw); its property is NormalizedOnCircle |
| Twiss.Physical | assets/js/2_linear_optics_measurements/twiss.js:13-14 | computes q = sqrt(beta)·u and p = (−alpha/sqrt(beta))·u + up/sqrt(beta) + p0; its property is InvariantOfMap |
| Twiss.Point | assets/js/2_linear_optics_measurements/twiss.js:7-14 | the point one draw becomes: Physical of Normalized; its properties are PointOnEllipse and OffsetShiftsMomentumOnly |
| Twiss.Positions | assets/js/2_linear_optics_measurements/twiss.js:2-13 | one q per particle |
| Twiss.Momenta | assets/js/2_linear_optics_measurements/twiss.js:3-14 | one p per particle |
| Twiss.GenerateEllipse | assets/js/2_linear_optics_measurements/twiss.js:1-19 | two new arrays of length N, particle i computed from draw i |
| Twiss.InvariantOfMap | assets/js/2_linear_optics_measurements/twiss.js:13-14 | the Twiss map takes u² + up² to gamma·q² + 2·alpha·q·p + beta·p² |
| Twiss.NormalizedOnCircle | assets/js/2_linear_optics_measurements/twiss.js:7-11 | u² + up² = eps·(radius draw) |
| Twiss.PointOnEllipse | assets/js/2_linear_optics_measurements/twiss.js:7-14 | with p0 = 0 each point has gamma·q² + 2·alpha·q·p + beta·p² = eps·r² ≤ eps |
| Twiss.EnsembleWithinEmittance | assets/js/2_linear_optics_measurements/twiss.js:1-19 | every plotted point lies on or inside the ellipse of emittance eps |
| Twiss.OffsetShiftsMomentumOnly | assets/js/2_linear_optics_measurements/twiss.js:13-14 | q depends neither on alpha nor on p0, and p0 shifts p by exactly p0 |
| Twiss.ZeroEmittanceIsAPoint | assets/js/2_linear_optics_measurements/twiss.js:10-14 | with eps = 0 every point is (0, p0) |
| Twiss.Particles | assets/js/2_linear_optics_measurements/twiss.js:119-123 | the count is at least 1: a positive input as given, DEFAULTS.N without an input or for 0 |
| Twiss.PagePlot | assets/js/2_linear_optics_measurements/twiss.js:110-131 | q and p each have the clamped N entries |
| Twiss.DefaultSliders | assets/js/2_linear_optics_measurements/twiss.js:84-90 | the DEFAULTS alpha 0, beta 0.5 and eps 0.005; the N input is reset only when the page has one, and the count is 2500 either way |
| Twiss.DefaultPlot | assets/js/2_linear_optics_measurements/twiss.js:84-103 | after Reset, whether or not the page has an N input: 2500 points, gamma 2, all inside the ellipse gamma = 2, alpha = 0, beta = 0.5, eps = 0.005 |
| Twiss.TwissPage.constructor | assets/js/2_linear_optics_measurements/twiss.js:106-107 | the page starts from the given sliders |
| Twiss.TwissPage.UpdatePlot | assets/js/2_linear_optics_measurements/twiss.js:110-157 | the statements of updatePlot compute PagePlot with p0 = 0 |
| Twiss.TwissPage.SliderChange | assets/js/2_linear_optics_measurements/twiss.js:52-62 | new sliders, then their plot |
| Twiss.TwissPage.ResetButton | assets/js/2_linear_optics_measurements/twiss.js:84-103 | sliders to DefaultSliders of the current N input, then their plot |
| SliderInput.Count | assets/js/2_linear_optics_measurements/twiss.js:119-123 | max(1, parseInt(v) \|\| default): at least 1, a positive value as parsed, the default for a missing, unparsable or zero input, 1 for a negative one |
| SliderInput.ResetCount | assets/js/2_linear_optics_measurements/twiss.js:89 | Reset leaves a missing N input missing and otherwise writes the default, which the clamp then reads back as the default |
| SextupoleMcMillan.K0 | assets/js/mcmillan/sextupole_mcmillan.js:3-5 | computes the linear invariant p² − a·p·q + q²; its properties are Symmetric, VanishAtOrigin and K0NonNegative |
| SextupoleMcMillan.KSX | assets/js/mcmillan/sextupole_mcmillan.js:7-9 | computes the sextupole invariant K0 + p²·q + p·q²; its properties are CubicTerm and AntiDiagonal |
| SextupoleMcMillan.Symmetric | assets/js/mcmillan/sextupole_mcmillan.js:3-9 | K0 and K_SX are symmetric under p ↔ q |
| SextupoleMcMillan.VanishAtOrigin | assets/js/mcmillan/sextupole_mcmillan.js:3-9 | K0(0, 0, a) = K_SX(0, 0, a) = 0 |
| SextupoleMcMillan.CubicTerm | assets/js/mcmillan/sextupole_mcmillan.js:7-9 | K_SX = K0 + p·q·(p + q) |
| SextupoleMcMillan.AntiDiagonal | assets/js/mcmillan/sextupole_mcmillan.js:3-9 | on q = −p the cubic term cancels: K_SX = K0 = (2 + a)·p² |
| SextupoleMcMillan.K0NonNegative | assets/js/mcmillan/sextupole_mcmillan.js:3-5 | for −2 ≤ a ≤ 2, K0 ≥ 0 |
| SextupoleMcMillan.Linspace | assets/js/mcmillan/sextupole_mcmillan.js:12-19 | n values min + step·i, equal to linspace(min, max, n) for n ≥ 2, so the first is min and the last max |
| SextupoleMcMillan.ComputeGrid | assets/js/mcmillan/sextupole_mcmillan.js:22-38 | P and Q are the two linspaces and Z is n × n with Z[i][j] = K_SX(P[i], Q[j], a) |
| SextupoleMcMillan.ZRange | assets/js/mcmillan/sextupole_mcmillan.js:66-75 | for a non-empty table zmin ≤ Z[i][j] ≤ zmax for every cell, both attained; the infinities survive only for an empty table |
| SextupoleMcMillan.MapParameter | assets/js/mcmillan/sextupole_mcmillan.js:57 | a is defined exactly for gamma ≠ 0, with a·gamma = −2·eps |
| SextupoleMcMillan.ContourSize | assets/js/mcmillan/sextupole_mcmillan.js:76 | size·ncontours = zmax − zmin, defined exactly for ncontours ≠ 0, non-negative for a positive count |
| SextupoleMcMillan.UpdatePlot | assets/js/mcmillan/sextupole_mcmillan.js:53-91 | an 80 × 80 grid over [−1.5, 1.5]², symmetric in i ↔ j, with its exact range and the contour size |

## Left out

- Drawing and the DOM are not modelled: canvas drawing, Plotly calls, layouts, labels, `toFixed` formatting and slider wiring. Reading the sliders is modelled by `parseFloat` values passed in.
- `requestAnimationFrame` and `cancelAnimationFrame` are left out. `rafId` is a flag saying whether a frame is pending. `Tick(t)` stands for one `animate(t)` callback.
- Random number generation (`randn`, `randomGaussian`, `Math.random`, Box–Muller) is left out. Draws are caller-supplied sequences, so the model does not capture distributional facts: Gaussianity, uniformity on the disk.
- The internals of `Math.sqrt/sin/cos/exp/log` and the value of `Math.PI` are left out. Only the laws in `RealMath` are assumed of them, and only where a lemma requires them.
- IEEE-754 and `Float32Array` rounding are left out. All identities are exact over the reals.
- The luminosity `integrand` (an hourglass-corrected Gaussian overlap) is a parameter. The model proves nothing about its values.
- `total_least_squares` (least_squares.js:40-61) is left out. It calls `numeric.svd`, a library outside these scripts.
- Whether the reconstructed beta* and s* recover the slider values is left out. The script never relies on it: the plot marks the slider values. The formulas are still modelled (`Sensitivities`, `StarErrors`).
- Simpson.IntegrateSimpson requires n ≥ 1. For n ≤ 0 the script divides by zero or integrates with a non-positive count; both pages pass 400.
- BetaFunctionIr.BetaFunction requires beta* ≠ 0 and N ≠ 1. With beta* = 0 or N = 1 the script divides by zero; the page passes 100 samples, and its slider starts above 0.
- BetaFunctionIr.PagePlot inherits beta* ≠ 0 from BetaFunction.
- BetaFunctionIr.BetaPage.UpdatePlot inherits beta* ≠ 0 for the current slider.
- BetaFunctionIr.BetaPage.SliderChange inherits beta* ≠ 0 for the new slider.
- BetaFunctionIr.Sensitivities requires Q ≠ 0. StarErrors returns (None, None) before it is needed.
- BpmError.AddBpmErrors requires −1 < C < 1. For |C| ≥ 1 the scale is 1/sqrt of a non-positive number: Infinity or NaN.
- BpmError.PagePlot has the same requirement.
- BpmError.ComputePlot inherits −1 < C < 1 from PagePlot.
- BpmError.BpmErrorPage.UpdatePlot inherits −1 < C < 1 for the coupling slider.
- BpmError.BpmErrorPage.SliderChange inherits −1 < C < 1 for the new coupling slider.
- BpmError.BpmErrorPage.ResampleButton inherits −1 < C < 1 from UpdatePlot.
- Twiss.GenerateEllipse requires sqrt(beta) ≠ 0. With beta = 0 the script divides by zero.
- Twiss.GenerateEllipse does not model a negative beta. The script's `Math.sqrt(beta)` is then NaN and so is every point; the model's sqrt is unconstrained on negatives, so it returns that sqrt's values. The same holds for Twiss.Point, Twiss.Positions and Twiss.Momenta.
- Twiss.Physical does not model a negative beta either, for the same reason.
- Twiss.PagePlot inherits sqrt(beta) ≠ 0 from GenerateEllipse.
- Twiss.TwissPage.UpdatePlot inherits sqrt(beta) ≠ 0 for the current slider.
- Twiss.TwissPage.SliderChange inherits sqrt(beta) ≠ 0 for the new slider.
- Twiss.Normalized does not model a negative eps. `Math.sqrt` of a negative number is NaN, and the model's sqrt is unconstrained there.
- SextupoleMcMillan.Linspace requires n ≠ 1. With n = 1 the step is a division by zero and the single point is NaN; the page only calls it with 80.
- SextupoleMcMillan.UpdatePlot requires gamma ≠ 0. With gamma = 0, a is infinite or NaN and so is every cell.
- LeastSquares.Linspace is the corrected linspace: one point gives [start]. The code as written is `LinspaceAsWritten`, which gives [NaN]; see Findings.
- LeastSquares.PagePlot uses the corrected linspace, so with N = 1 its true line is plotted at x = [0.0] where the script's x_true is [NaN] (least_squares.js:12, 205).
- LeastSquares.ComputePlot does the same at N = 1: x_true is [0.0], not the script's [NaN].
- LeastSquares.LeastSquaresPage.UpdatePlot does the same at N = 1: x_true is [0.0], not the script's [NaN].
- Decoherence.Simulator array contents are stated per particle against sequence functions. The arrays are `const` fields, as the script never reassigns them.
- The BPM page's Y-noise length is not checked, as in the script. The model keeps both realizations at 200 entries.

## Findings

| source | as written | input that shows it | evidently intended | confidence | as-written member | corrected member |
|---|---|---|---|---|---|---|
| assets/js/2_linear_optics_measurements/least_squares.js:9-15 | `linspace(start, end, N)` computes `start + (end - start) * i / (N - 1)`, so for N = 1 it evaluates 0/0 | N input 1: `updatePlot` clamps N to at least 1 (least_squares.js:184-188) and allows it, and the single x value is NaN | a one-point grid [start], as numpy's linspace gives | not executed | LeastSquares.LinspaceSinglePointIsNaN | LeastSquares.LinspaceGrid |
