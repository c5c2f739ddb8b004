# xanespy fitting and edge tables, in Dafny

This project models the deterministic part of xanespy's spectral fitting
(`xanespy/fitting.py`) and of its X-ray absorption edge tables
(`xanespy/edges.py`), and proves what that code promises.

- **Bounds policy** (`Bounds`): a box of lower and upper limits, each finite or
  infinite; `is_out_of_bounds` and `distance_to_bounds`. The Euclidean norm
  needs a square root, which is a parameter `sqrt` of the model, constrained
  by `Numeric.IsSqrt` (non-negative, squares back to its argument).
- **Residual objective** (`Objective`): `error`, the elementwise absolute
  difference between observation and prediction, plus a uniform penalty of ten
  times the distance to the box when the guess leaves it. The curve being
  fitted is a parameter `func`.
- **Single-spectrum fitter** (`Fitter`): `_fit_sources`, the shell around the
  least-squares solver. The solver is a parameter `solve` returning parameters
  and a status code; the NaN short-circuit, the default bounds, the two
  warnings (returned as a list) and the RMS residual are modelled exactly.
  NaN is an explicit value (`Numeric.Num`).
- **Batch layer** (`Batch`): `fit_spectra` (wrap, broadcast, ordered map,
  unwrap), `guess_p0` (ordered map of `guess_params`) and `prepare_p0` (an
  array filled with the initial guess). The worker pool is an order-preserving
  sequential map.
- **Curves** (`Curves`): `Line`, `LinearCombination`, `Gaussian`, `L3Curve`,
  `KCurve`: evaluation (exp, arctan and pi are parameters), `guess_params` for
  lines and K-edges, the `param_names` builders and `find_whiteline`.
- **Edges** (`Edges`): `all_energies` (linspace per region, concatenate, sort
  without repetitions), `energies_in_range`, `_post_edge_xs`, and the shipped
  edges as constants.

Where the code and its documentation differ, the model follows the code:
`Line` does not define `param_names` and inherits the base class's empty
tuple, so a line has two parameters but no parameter names
(`Curves.ParamNamesMatchArity` states it); and the region sample count is the
float `int(stop - start) / step + 1`, which the numpy of the code's era
truncated to an integer (current numpy rejects a float count).

## Model

| member | source | states |
|---|---|---|
| `Bounds.IsOutOfBounds` | xanespy/fitting.py:100-111 | without bounds never out of bounds; with bounds, out of bounds exactly when some component is strictly below its lower or strictly above its upper limit |
| `Bounds.Violation` | xanespy/fitting.py:116-119 | the per-component distance `max(lower - p, 0) + max(p - upper, 0)` is non-negative and positive exactly when the component violates a limit |
| `Bounds.SquaredDistanceZeroIff` | xanespy/fitting.py:114-121 | the sum of squared component distances is zero exactly when the guess is within the box |
| `Bounds.SquaredDistanceSingle` | xanespy/fitting.py:114-121 | when only component k violates the box, the squared distance is that component's squared violation |
| `Bounds.DistanceToBounds` | xanespy/fitting.py:114-121 | the distance is non-negative, its square is the sum of squared component distances, and it is zero exactly when the guess is in bounds |
| `Bounds.DistanceSingleViolation` | xanespy/fitting.py:114-121 | a single violation of size v gives distance v |
| `Bounds.TestCases` | tests/test_fitting.py:232-270 | the documented cases: `[1,3]` is inside `([0,0],[2,4])` at distance 0, `[-1,0]` is outside at distance 1, `[1,5]` is outside, and `[3,5]` is at a distance whose square is 2; the model also gives `[1,5]`, which the tests only classify, distance 1 |
| `Objective.Penalty` | xanespy/fitting.py:166-167 | the penalty is non-negative and positive exactly when the guess is out of bounds |
| `Objective.Error` | xanespy/fitting.py:162-168 | one entry per observation; entry i is `abs(obs[i] - pred[i])` plus the same penalty for every entry; no penalty inside the box, a strictly larger entry outside it; all entries non-negative |
| `Objective.NonnegativePenaltyExample` | tests/test_fitting.py:309-310 | the guess `(-1, 2)` against non-negative bounds is penalised by exactly 10 |
| `Fitter.EffectiveBounds` | xanespy/fitting.py:180-191 | the bounds used always have one limit per parameter |
| `Fitter.DefaultBoundsOutOfBounds` | xanespy/fitting.py:180-194 | synthesised bounds reject a guess exactly when `nonnegative` is set and some parameter is negative |
| `Fitter.DefaultBounds` | xanespy/fitting.py:180-191 | the synthesised box has one limit per parameter, every upper limit infinite, every lower limit exactly 0 when `nonnegative` is set and minus infinity otherwise; `Fitter.DefaultBoundsOutOfBounds` states which guesses it rejects |
| `Fitter.Rms` | xanespy/fitting.py:203-204 | NaN exactly for an empty spectrum; otherwise non-negative, its square times the length is the sum of squared residuals, and it is zero exactly for a perfect prediction |
| `Fitter.FitOne` | xanespy/fitting.py:171-205 | the parameters have the length of the guess; a spectrum with NaN gives all-NaN parameters, a NaN residual and no warnings; otherwise no parameter is NaN and the residual is the RMS of the spectrum minus the curve at the solver's parameters |
| `Fitter.FitSources` | xanespy/fitting.py:171-205 | the imperative fitter, NaN fill loop and appended warnings, returns exactly `FitOne` |
| `Fitter.NaNSpectrumSkipsSolver` | xanespy/fitting.py:174-178 | with a NaN in the spectrum the result does not depend on the solver at all |
| `Fitter.FitOneWarnings` | xanespy/fitting.py:192-201 | the solver's parameters are returned unchanged; there is one warning per cause and no other: a guess-out-of-bounds warning (first, carrying the guess and the effective bounds) exactly when the guess is out of the effective bounds, and a precision warning (last) exactly when the status is 4 |
| `Fitter.ResidualZeroIffExact` | xanespy/fitting.py:203-205 | the residual of a non-empty, NaN-free spectrum is real, non-negative and zero exactly when the fitted curve reproduces the spectrum |
| `Fitter.ObjectiveDefined` | xanespy/fitting.py:196 | every guess the solver may try satisfies what `error` needs |
| `Batch.FitPairs` | xanespy/fitting.py:276-282 | the pairs are fitted in order, result k being the fit of spectrum k from guess k, and there are as many results as the shorter of the two inputs |
| `Batch.FitSpectraAsWritten` | xanespy/fitting.py:214-290 | `fit_spectra` as written: with a shared guess it fails exactly when `min(#spectra, #energies)` is 0, and it unwraps exactly for a 1-D spectrum; `Batch.AsWrittenTruncates` states which spectra it fits |
| `Batch.FitSpectra` | xanespy/fitting.py:214-290 | `fit_spectra` corrected to broadcast a shared guess over the spectra: with a shared guess it fails exactly when there is no spectrum, and it unwraps exactly for a 1-D spectrum; `Batch.SharedGuessCoversEverySpectrum` states what it fits |
| `Batch.FitSpectraAligned` | xanespy/fitting.py:261-290 | with one guess per spectrum, result k is the fit of spectrum k from guess k, in order; only an empty stack fails; code and correction agree |
| `Batch.FitSpectraSingle` | xanespy/fitting.py:261-266 | a single spectrum is fitted as a batch of one and its result unwrapped; as written this holds for a spectrum of at least one energy, and an empty spectrum fails with nothing to unpack (the guess is broadcast to zero rows); the correction returns the solver's result even for an empty spectrum, where the real solver would raise (see `Fitter.FitOne` under Left out) |
| `Batch.SingleMatchesBatchOfOne` | xanespy/fitting.py:284-289 | a 1-D spectrum and the same spectrum as a 2-D batch of one give the same numbers, unwrapped in the first case; in the correction for every spectrum, as written for every spectrum of at least one energy |
| `Batch.AsWrittenTruncates` | xanespy/fitting.py:267-282 | as written, a shared guess gives `min(#spectra, #energies)` parameter rows and as many residuals, fails when that is 0, and both are those of the spectra it keeps, in order |
| `Batch.SharedGuessCoversEverySpectrum` | xanespy/fitting.py:267-282 | corrected, a shared guess gives one result per spectrum, each the fit of that spectrum from the shared guess |
| `Batch.AsWrittenAgreesWhenEnoughEnergies` | xanespy/fitting.py:267-276 | the code as written equals the correction whenever there are at least as many energies as spectra |
| `Batch.TruncationExample` | xanespy/fitting.py:268-276 | three spectra of two energies with a shared guess: two results as written, three corrected |
| `Batch.GuessP0Meaning` | xanespy/fitting.py:42-77 | the guesses are those of the spectra one by one in order; the map fails exactly when some spectrum cannot be guessed, with the first such error |
| `Batch.GuessP0` | xanespy/fitting.py:42-77 | a successful map has one guess per spectrum; `Batch.GuessP0Meaning` states which guess and which error |
| `Batch.GuessP0LineExample` | tests/test_fitting.py:172-177 | guessing a line from the exact spectrum `x + 1` gives `[[1, 1]]` |
| `Batch.PrepareP0` | xanespy/fitting.py:80-97 | an array of shape (timesteps, parameters, frame pixels) in which every entry of parameter k is `p0[k]` |
| `Curves.LineGuessInterpolates` | xanespy/fitting.py:311-316 | the guessed line passes through the first and the last measured points |
| `Curves.LineGuess` | xanespy/fitting.py:311-316 | guessing a line succeeds exactly when there are intensities, with two parameters, and fails on no intensities; `Curves.LineGuessInterpolates` and `Curves.LineRoundTrip` state which line |
| `Curves.LineRoundTrip` | xanespy/fitting.py:311-319 | guessing from exact data `m*x + b` returns `(m, b)` |
| `Curves.LinearCombinationCall` | xanespy/fitting.py:349-358 | the accumulation loop computes each point as the weighted sum of the sources plus the last parameter as offset |
| `Curves.LinearCombinationValues` | xanespy/fitting.py:349-358 | the prediction has one value per source energy; `Curves.OneSourceIsLine` and `Curves.LinearCombinationIsLinear` state its meaning |
| `Curves.AddWeighted` | xanespy/fitting.py:354-355 | adding a weighted source in place adds `weight * source[j]` at every energy j and changes nothing else |
| `Curves.OneSourceIsLine` | xanespy/fitting.py:349-358 | a combination of one source is the line over that source |
| `Curves.LinearCombinationIsLinear` | xanespy/fitting.py:349-358 | the prediction is linear in the parameters |
| `Curves.TwoSourceExample` | tests/test_fitting.py:71-79 | weights 0.5, 0.25 and offset 2 predict `0.5*s0 + 0.25*s1 + 2` |
| `Curves.GaussianNearerIsHigher` | xanespy/fitting.py:385-388 | a positive Gaussian is strictly higher at points strictly nearer its centre and equal at equally distant points |
| `Curves.SumPeaks` | xanespy/fitting.py:418-423 | the peak loop leaves at each energy the sum of the Gaussian peaks |
| `Curves.AddGaussian` | xanespy/fitting.py:423 | adding a peak in place adds that Gaussian at every energy and changes nothing else |
| `Curves.L3CurveCall` | xanespy/fitting.py:413-428 | each point is the sum of the peaks, the arctan step and the offset |
| `Curves.L3OnePeakFlatStep` | xanespy/fitting.py:413-428 | one peak with a step of height 0 is that Gaussian lifted by the offset |
| `Curves.KCurveAtEdge` | xanespy/fitting.py:525-540 | at the edge energy the sigmoid is one half, so the curve is the offset plus scale times one half plus the whiteline peak |
| `Curves.Evaluate` | xanespy/fitting.py:310-540 | a linear combination can be called with any non-empty parameter tuple (surplus weights are ignored by `zip`, an empty tuple fails at `params[-1]`); every other curve succeeds exactly with its number of parameters and otherwise reports the expected and given counts; a successful call predicts one value per grid energy |
| `Curves.ShiftedGaussianPeak` | xanespy/fitting.py:210 | the first maximum of a positive Gaussian plus a constant lies at the first grid energy nearest its centre |
| `Curves.GaussianWhiteline` | xanespy/fitting.py:208-211 | the whiteline of a positive Gaussian is the first grid energy nearest its centre |
| `Curves.FindWhiteline` | xanespy/fitting.py:208-211 | the whiteline is found exactly when the curve has an energy grid, is called with its number of parameters and the grid is non-empty, and it is the grid energy at the first maximum of the predicted curve |
| `Curves.L3FlatStepWhiteline` | tests/test_fitting.py:92-104 | the whiteline of a one-peak L3 curve with a flat step is the first grid energy nearest the peak centre |
| `Curves.KCurveGuessMeaning` | xanespy/fitting.py:503-523 | fails with both lengths on a shape mismatch, and otherwise only on no data or no edge position; else eight values in `param_names` order: the jump, the minimum intensity, E_0, 0.5, 0, `5*(max - jump - min)`, the first energy of highest intensity minus E_0, and 2 |
| `Curves.KCurveGuess` | xanespy/fitting.py:479-523 | the K-edge guess succeeds exactly when intensities and energies are equally long and non-empty and the edge has an E_0, with one value per K-curve parameter name |
| `Curves.KCurveGuessShapeExample` | tests/test_fitting.py:152-158 | sixty intensities against sixty-one energies report `(60, 61)` |
| `Curves.GuessParams` | xanespy/fitting.py:301-302 | Gaussian, L3 and linear-combination curves inherit the base `guess_params` and fail as not implemented; a line guess (lines 311-316) succeeds exactly when there are intensities and a K-edge guess (lines 479-523) exactly when intensities and energies are equally long and non-empty and E_0 is known; a successful guess has one value per curve parameter |
| `Curves.DecimalInjective` | xanespy/fitting.py:362 | distinct indices are written as distinct decimal strings |
| `Curves.LinearCombinationParamNames` | xanespy/fitting.py:360-365 | the builder loop produces the weight names in order and then `offset` |
| `Curves.WeightNamesMeaning` | xanespy/fitting.py:360-365 | one name per parameter, `weight_k` for source k and `offset` last, all distinct |
| `Curves.WeightNamesExample` | tests/test_fitting.py:80-82 | two sources are named `weight_0`, `weight_1`, `offset` |
| `Curves.L3CurveParamNames` | xanespy/fitting.py:430-444 | the builder loop produces three names per peak and then the four step and offset names |
| `Curves.L3NamesMeaning` | xanespy/fitting.py:430-444 | one name per parameter, height, center and sigma of peak k at 3k, 3k+1, 3k+2, then the step names and `offset`, all distinct |
| `Curves.L3NamesOnePeak` | tests/test_fitting.py:92-99 | one peak is named `height_0, center_0, sigma_0, sig_height, sig_center, sig_sigma, offset` |
| `Curves.ParamNamesMatchArity` | xanespy/fitting.py:296-477 | every curve except the line has exactly one name per parameter, and all names are distinct |
| `Curves.ParamNames` | xanespy/fitting.py:296-477 | a line has no parameter names; every other curve has one name per parameter |
| `Edges.Trunc` | xanespy/edges.py:73 | Python's `int()` truncates toward zero |
| `Edges.LinspaceEnds` | xanespy/edges.py:74 | a linspace starts at `start` and, with two or more samples, ends at `stop` |
| `Edges.AllEnergies` | xanespy/edges.py:67-76 | the appending loop yields exactly the specified energies, failing at the first bad region |
| `Edges.SortedUnique` | xanespy/edges.py:76 | the result is strictly increasing and has exactly the values of its input |
| `Edges.ChunksMeaning` | xanespy/edges.py:68-75 | the concatenation succeeds exactly when each region does, and then holds exactly the samples of the regions |
| `Edges.EnergiesMeaning` | xanespy/edges.py:58-76 | an edge without regions fails; otherwise the energies are strictly increasing and are exactly the samples of its regions |
| `Edges.Energies` | xanespy/edges.py:67-76 | an edge without regions fails, and successful energies are strictly increasing; `Edges.EnergiesMeaning` states which values they are |
| `Edges.EnergiesHoldRegionEnds` | xanespy/edges.py:68-76 | when every region has at least two samples the energies contain the start and stop of every region |
| `Edges.WholeRegionSpacing` | xanespy/edges.py:73-74 | a region spanning a whole number of steps gets exactly that many steps plus one samples, `step` apart |
| `Edges.ShippedEdgesHoldRegionEnds` | xanespy/edges.py:139-213 | every region of every shipped edge has at least two samples, so their energies contain every region's start and stop |
| `Edges.Within` | xanespy/edges.py:82-83 | keeps exactly the values of the input that lie within the inclusive range, and keeps an increasing input increasing, which on the strictly increasing energies fixes the result |
| `Edges.EnergiesInRangeMeaning` | xanespy/edges.py:78-84 | without a range the map range is used (an error if there is none); otherwise the result is the increasing list of the edge's energies e with `lo <= e <= hi` |
| `Edges.EnergiesInRange` | xanespy/edges.py:78-84 | without a range and without a map range it fails; a result is strictly increasing and, for a given range, within it |
| `Edges.PostEdgeXs` | xanespy/edges.py:86-103 | the appending loop and reshaping give one row of powers per abscissa, one row for a scalar, and a single empty row for order 0 |
| `Edges.PostEdgeRowsMeaning` | xanespy/edges.py:86-103 | each feature row has `post_edge_order` columns, starts at x and multiplies by x from one column to the next |
| `Edges.PostEdgeRows` | xanespy/edges.py:86-103 | one row per abscissa (a single row for a scalar or for order 0), each with `post_edge_order` columns |
| `Edges.DefaultOrderRows` | xanespy/edges.py:64 | the default order is 2, giving the row `[x, x^2]` |

## Left out

- `xanespy/plots.py`, `annotate_spectrum` and the `mask` methods of the edges: plotting and calls into `xanes_math`, which is not part of this model.
- `Fitter.FitOne`: the model's solver is total; scipy's `leastsq` first checks that the guess has no more parameters than the spectrum has values and raises otherwise (the call at xanespy/fitting.py:196), and that check is not modelled, so on an empty or too short spectrum the model returns the solver's parameters with a NaN or real residual where the program raises.
- The least-squares solver is a parameter; its convergence, and the tests that fits recover true parameters, depend on it and are not modelled.
- The process pool, `mp_map`, `tqdm` progress bars, `quiet`, `ncore`, `chunksize` and the unused `iter_indices`: the model maps sequentially and in order; warnings issued inside pool workers do not reach the caller of `fit_spectra` and are not part of its result.
- Floating point: reals replace IEEE doubles, so rounding, overflow, infinities produced by arithmetic and the float-level test tolerances are not modelled; `sqrt`, `exp`, `arctan` and `pi` are parameters, not the real functions.
- `k_edge_jump` is an input to the K-edge guess (the function `jump` of the intensities in `Batch.GuessP0`); an edge enters the curves only through its E_0.
- `Curve.NamedTuple` and the `named_tuple` flag: parameters are plain sequences in `param_names` order.
- Bounds given as scalars or of another length than the guess (numpy broadcasting) are not modelled: bounds have one limit per parameter.
- `Objective.Error`: requires a prediction as long as the observations; numpy would broadcast a length-one prediction.
- `Curves.LineGuess`: requires `x[0] != x[-1]`; numpy would divide by zero and return inf or NaN.
- `Curves.Evaluate`: requires non-zero Gaussian widths (`NonzeroWidths`); numpy would produce inf or NaN there. The same holds for `Curves.L3CurveCall`, `Curves.SumPeaks` and `Curves.GaussianWhiteline`.
- `Curves.LinearCombinationValues`: requires at least one source, all of one length; when no weight is paired with a source the source returns the scalar offset, which the model broadcasts to the grid length.
- NaN in intensities given to `guess_params` and `guess_p0` is not modelled: intensities there are reals.
- `Batch.PrepareP0`: the frame dimensions are flattened into one pixel axis; the `moveaxis` layout is otherwise the same.
- `Edges.PostEdgeXs`: only scalars and 1-D arrays of abscissae; higher-dimensional inputs are not modelled.
- `nonnegative` given as a tuple of flags: the code only tests the whole argument for truth (xanespy/fitting.py:180), so any non-empty tuple, even `(False, False)`, synthesises a lower limit 0 for every parameter; the model's `nonnegative` is that truth value, and the per-parameter control the docstrings describe does not exist in the code.
- `L3Curve`'s default `num_peaks=2`: the model's `L3Curve` always carries its number of peaks explicitly.
- Edge attributes not used by the modelled operations (`name`, `shell`, `pre_edge_fit`, the `_peak` values) are not modelled.

## Findings

| source | as written | input that shows it | evidently intended | confidence | as-written member | corrected member |
|---|---|---|---|---|---|---|
| xanespy/fitting.py:268-270 | a 1-D `p0` is broadcast to `observations.shape[1]` rows, the number of energies, and the `zip` at line 276 then stops at `min(#spectra, #energies)` | three spectra of two energies each with one shared guess: only two spectra are fitted and two results come back | one copy of the guess per spectrum, `observations.shape[0]` rows, so every spectrum is fitted | high, not executed | `Batch.AsWrittenTruncates` | `Batch.SharedGuessCoversEverySpectrum` |
