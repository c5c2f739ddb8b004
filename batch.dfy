/**
 * The batch layer of the fitting module: `fit_spectra`, which wraps a
 * single spectrum as a batch, broadcasts a shared initial guess, fits the
 * (spectrum, guess) pairs in order and unwraps the result again, and
 * `prepare_p0`, which lays an initial guess out over a frameset. The worker
 * pool is an order-preserving map and is modelled as a sequential one.
 */
module Batch {
  import opened Wrappers
  import opened Numeric
  import opened Bounds
  import opened Fitter
  import opened Curves

  /** `observations`: one spectrum, or a stack of spectra of `energies`
      values each (the second dimension of the 2-D array). */
  datatype Observations =
    | Spectrum(spectrum: seq<Num>)
    | Stack(spectra: seq<seq<Num>>, energies: nat)

  /** `p0`: one parameter vector, or one per spectrum. */
  datatype InitialGuess = Shared(p: seq<real>) | PerSpectrum(rows: seq<seq<real>>)

  /** `(params, residuals)`, unwrapped when the observations were one spectrum. */
  datatype BatchFit =
    | Unwrapped(params: seq<Num>, residual: Num)
    | Batched(paramRows: seq<seq<Num>>, residuals: seq<Num>)

  /** `params, residuals = zip(*params)` fails when no pair was fitted. */
  datatype BatchError = EmptyBatch

  /** The arguments bound by `functools.partial(_fit_sources, ...)`, plus the
      solver and the square root. */
  datatype Fitting = Fitting(func: seq<real> -> seq<real>, nonnegative: bool, bounds: Option<Box>,
                             solve: Problem -> SolverOutput, sqrt: real -> real)

  predicate WellShaped(obs: Observations) {
    obs.Stack? ==> forall k :: 0 <= k < |obs.spectra| ==> |obs.spectra[k]| == obs.energies
  }

  /** `observations.shape[1]` after a single spectrum is reshaped to `(1, n)`. */
  function Energies(obs: Observations): nat {
    if obs.Spectrum? then |obs.spectrum| else obs.energies
  }

  /** The observations as a 2-D stack. */
  function Spectra(obs: Observations): (rows: seq<seq<Num>>)
    requires WellShaped(obs)
    ensures forall k :: 0 <= k < |rows| ==> |rows[k]| == Energies(obs)
  {
    if obs.Spectrum? then [obs.spectrum] else obs.spectra
  }

  /** Every row of the initial guess fits the bounds, when bounds are given. */
  predicate GuessFitsBounds(p0: InitialGuess, bounds: Option<Box>) {
    bounds.Some? ==>
      if p0.Shared? then Conforms(p0.p, bounds.value)
      else forall k :: 0 <= k < |p0.rows| ==> Conforms(p0.rows[k], bounds.value)
  }

  ghost predicate Admissible(obs: Observations, p0: InitialGuess, cfg: Fitting) {
    && WellShaped(obs)
    && GuessFitsBounds(p0, cfg.bounds)
    && PredictsLength(cfg.func, Energies(obs))
    && KeepsDimension(cfg.solve)
    && IsSqrt(cfg.sqrt)
  }

  /** `_fit_sources` with the bound arguments of `cfg`. */
  function Fit(cfg: Fitting, spectrum: seq<Num>, p0: seq<real>): FitResult
    requires cfg.bounds.Some? ==> Conforms(p0, cfg.bounds.value)
    requires PredictsLength(cfg.func, |spectrum|) && KeepsDimension(cfg.solve) && IsSqrt(cfg.sqrt)
  {
    FitOne(spectrum, p0, cfg.func, cfg.nonnegative, cfg.bounds, cfg.solve, cfg.sqrt)
  }

  /** The guess rows as `fit_spectra` builds them: a 1-D `p0` is broadcast to
      `(observations.shape[1], len(p0))`, one row per ENERGY. */
  function GuessRowsAsWritten(obs: Observations, p0: InitialGuess): seq<seq<real>> {
    if p0.Shared? then seq(Energies(obs), _ => p0.p) else p0.rows
  }

  /** The guess rows as intended: one copy of a 1-D `p0` per SPECTRUM. */
  function GuessRows(obs: Observations, p0: InitialGuess): seq<seq<real>>
    requires WellShaped(obs)
  {
    if p0.Shared? then seq(|Spectra(obs)|, _ => p0.p) else p0.rows
  }

  function Min(a: nat, b: nat): nat {
    if a < b then a else b
  }

  /** `pool.map(fitter, zip(observations, p0))`: the pairs are fitted in
      order and `zip` stops at the shorter of its two arguments. */
  function FitPairs(cfg: Fitting, spectra: seq<seq<Num>>, guesses: seq<seq<real>>, n: nat): (rs: seq<FitResult>)
    requires forall k :: 0 <= k < |spectra| ==> |spectra[k]| == n
    requires cfg.bounds.Some? ==> forall k :: 0 <= k < |guesses| ==> Conforms(guesses[k], cfg.bounds.value)
    requires PredictsLength(cfg.func, n) && KeepsDimension(cfg.solve) && IsSqrt(cfg.sqrt)
    ensures |rs| == Min(|spectra|, |guesses|)
    ensures forall k :: 0 <= k < |rs| ==> rs[k] == Fit(cfg, spectra[k], guesses[k])
  {
    seq(Min(|spectra|, |guesses|),
        k requires 0 <= k < Min(|spectra|, |guesses|) => Fit(cfg, spectra[k], guesses[k]))
  }

  /** Splits the results into parameters and residuals, and unwraps them
      again for a single spectrum. */
  function Collect(obs: Observations, rs: seq<FitResult>): Result<BatchFit, BatchError> {
    if |rs| == 0 then Failure(EmptyBatch)
    else if obs.Spectrum? then Success(Unwrapped(rs[0].params, rs[0].residual))
    else Success(Batched(seq(|rs|, k requires 0 <= k < |rs| => rs[k].params),
                         seq(|rs|, k requires 0 <= k < |rs| => rs[k].residual)))
  }

  /** `fit_spectra` as written, broadcasting a shared guess over the energies. */
  function FitSpectraAsWritten(obs: Observations, p0: InitialGuess, cfg: Fitting): (r: Result<BatchFit, BatchError>)
    requires Admissible(obs, p0, cfg)
    ensures p0.Shared? ==> (r.Failure? <==> Min(|Spectra(obs)|, Energies(obs)) == 0)
    ensures r.Success? ==> (r.value.Unwrapped? <==> obs.Spectrum?)
  {
    Collect(obs, FitPairs(cfg, Spectra(obs), GuessRowsAsWritten(obs, p0), Energies(obs)))
  }

  /** `fit_spectra` with a shared guess broadcast over the spectra. */
  function FitSpectra(obs: Observations, p0: InitialGuess, cfg: Fitting): (r: Result<BatchFit, BatchError>)
    requires Admissible(obs, p0, cfg)
    ensures p0.Shared? ==> (r.Failure? <==> |Spectra(obs)| == 0)
    ensures r.Success? ==> (r.value.Unwrapped? <==> obs.Spectrum?)
  {
    Collect(obs, FitPairs(cfg, Spectra(obs), GuessRows(obs, p0), Energies(obs)))
  }

  /** A stack fitted against one guess per spectrum gives, in input order,
      the fit of spectrum k from guess k; only an empty stack fails. */
  lemma FitSpectraAligned(obs: Observations, p0: InitialGuess, cfg: Fitting)
    requires Admissible(obs, p0, cfg)
    requires obs.Stack? && p0.PerSpectrum? && |p0.rows| == |obs.spectra|
    ensures |obs.spectra| == 0 <==> FitSpectra(obs, p0, cfg).Failure?
    ensures FitSpectra(obs, p0, cfg) == FitSpectraAsWritten(obs, p0, cfg)
    ensures FitSpectra(obs, p0, cfg).Success? ==>
              var r := FitSpectra(obs, p0, cfg).value;
              && r.Batched?
              && |r.paramRows| == |obs.spectra| && |r.residuals| == |obs.spectra|
              && forall k :: 0 <= k < |obs.spectra| ==>
                   r.paramRows[k] == Fit(cfg, obs.spectra[k], p0.rows[k]).params
                   && r.residuals[k] == Fit(cfg, obs.spectra[k], p0.rows[k]).residual
  {
  }

  /** A single spectrum is fitted as a batch of one and the result is
      unwrapped: it is the fit of the spectrum from the (first) guess. As
      written this needs at least one energy, since the shared guess is
      broadcast to as many rows as there are energies; an empty spectrum
      leaves nothing for `zip(*params)` to unpack. */
  lemma FitSpectraSingle(s: seq<Num>, p: seq<real>, cfg: Fitting)
    requires Admissible(Spectrum(s), Shared(p), cfg)
    ensures FitSpectra(Spectrum(s), Shared(p), cfg)
            == Success(Unwrapped(Fit(cfg, s, p).params, Fit(cfg, s, p).residual))
    ensures |s| > 0 ==> FitSpectraAsWritten(Spectrum(s), Shared(p), cfg)
                        == Success(Unwrapped(Fit(cfg, s, p).params, Fit(cfg, s, p).residual))
    ensures |s| == 0 ==> FitSpectraAsWritten(Spectrum(s), Shared(p), cfg) == Failure(EmptyBatch)
  {
  }

  /** A 1-D spectrum and the same spectrum as a 2-D batch of one give the
      same numbers, unwrapped in the first case and batch-shaped in the second;
      as written, for a spectrum of at least one energy. */
  lemma SingleMatchesBatchOfOne(s: seq<Num>, p: seq<real>, cfg: Fitting)
    requires Admissible(Spectrum(s), Shared(p), cfg)
    ensures Admissible(Stack([s], |s|), PerSpectrum([p]), cfg)
    ensures var one := FitSpectra(Spectrum(s), Shared(p), cfg);
            var batch := FitSpectra(Stack([s], |s|), PerSpectrum([p]), cfg);
            && one.Success? && batch.Success?
            && batch.value == Batched([one.value.params], [one.value.residual])
    ensures |s| > 0 ==>
              var one := FitSpectraAsWritten(Spectrum(s), Shared(p), cfg);
              var batch := FitSpectraAsWritten(Stack([s], |s|), PerSpectrum([p]), cfg);
              && one.Success? && batch.Success?
              && batch.value == Batched([one.value.params], [one.value.residual])
  {
  }

  /** As written, a shared guess yields min(#spectra, #energies) results:
      spectra beyond the number of energies are silently dropped, and a
      spectrum with no energies at all makes the call fail. */
  lemma AsWrittenTruncates(obs: Observations, p: seq<real>, cfg: Fitting)
    requires Admissible(obs, Shared(p), cfg)
    ensures var n := Min(|Spectra(obs)|, Energies(obs));
            && (n == 0 <==> FitSpectraAsWritten(obs, Shared(p), cfg).Failure?)
            && (n > 0 && obs.Stack? ==>
                  var r := FitSpectraAsWritten(obs, Shared(p), cfg).value;
                  && |r.paramRows| == n && |r.residuals| == n
                  && forall k :: 0 <= k < n ==>
                       && r.paramRows[k] == Fit(cfg, obs.spectra[k], p).params
                       && r.residuals[k] == Fit(cfg, obs.spectra[k], p).residual)
  {
  }

  /** Corrected, a shared guess yields one result per spectrum. */
  lemma SharedGuessCoversEverySpectrum(obs: Observations, p: seq<real>, cfg: Fitting)
    requires Admissible(obs, Shared(p), cfg)
    requires obs.Stack? && |obs.spectra| > 0
    ensures var r := FitSpectra(obs, Shared(p), cfg);
            && r.Success? && r.value.Batched?
            && |r.value.paramRows| == |obs.spectra|
            && forall k :: 0 <= k < |obs.spectra| ==>
                 r.value.paramRows[k] == Fit(cfg, obs.spectra[k], p).params
                 && r.value.residuals[k] == Fit(cfg, obs.spectra[k], p).residual
  {
  }

  /** The code as written and the corrected one agree whenever there are at
      least as many energies as spectra. */
  lemma AsWrittenAgreesWhenEnoughEnergies(obs: Observations, p0: InitialGuess, cfg: Fitting)
    requires Admissible(obs, p0, cfg)
    requires |Spectra(obs)| <= Energies(obs)
    ensures FitSpectraAsWritten(obs, p0, cfg) == FitSpectra(obs, p0, cfg)
  {
    var spectra := Spectra(obs);
    var asWritten := FitPairs(cfg, spectra, GuessRowsAsWritten(obs, p0), Energies(obs));
    var corrected := FitPairs(cfg, spectra, GuessRows(obs, p0), Energies(obs));
    assert asWritten == corrected;
  }

  /** Three spectra of two energies each against a shared guess: as written
      only two of them are fitted; corrected, all three are. */
  lemma TruncationExample(a: seq<Num>, b: seq<Num>, c: seq<Num>, p: seq<real>, cfg: Fitting)
    requires |a| == 2 && |b| == 2 && |c| == 2
    requires Admissible(Stack([a, b, c], 2), Shared(p), cfg)
    ensures |FitSpectraAsWritten(Stack([a, b, c], 2), Shared(p), cfg).value.paramRows| == 2
    ensures |FitSpectra(Stack([a, b, c], 2), Shared(p), cfg).value.paramRows| == 3
  {
  }

  // ---------------------------------------------------------------- initial guesses

  /** `guess_p0`: `guess_params` of each spectrum, in order; the first
      spectrum that cannot be guessed ends the map with its error. The edge
      is represented by its E_0 and `k_edge_jump` by the function `jump`. */
  function GuessP0(curve: Curve, spectra: seq<seq<real>>, e0: Option<real>, jump: seq<real> -> real): (r: Result<seq<seq<real>>, CurveError>)
    requires curve.Line? ==> Guessable(curve.x)
    ensures r.Success? ==> |r.value| == |spectra|
  {
    if |spectra| == 0 then Success([])
    else
      var first :- GuessParams(curve, spectra[0], e0, jump(spectra[0]));
      var rest :- GuessP0(curve, spectra[1..], e0, jump);
      Success([first] + rest)
  }

  /** The guesses are those of the spectra one by one, in order; the map
      fails exactly when some spectrum fails, with the error of the first. */
  lemma {:induction false} GuessP0Meaning(curve: Curve, spectra: seq<seq<real>>, e0: Option<real>, jump: seq<real> -> real)
    requires curve.Line? ==> Guessable(curve.x)
    ensures var r := GuessP0(curve, spectra, e0, jump);
            && (r.Success? <==> forall i :: 0 <= i < |spectra| ==> GuessParams(curve, spectra[i], e0, jump(spectra[i])).Success?)
            && (r.Success? ==>
                  |r.value| == |spectra|
                  && forall i :: 0 <= i < |spectra| ==> Success(r.value[i]) == GuessParams(curve, spectra[i], e0, jump(spectra[i])))
            && (r.Failure? ==>
                  exists k :: 0 <= k < |spectra|
                    && (forall i :: 0 <= i < k ==> GuessParams(curve, spectra[i], e0, jump(spectra[i])).Success?)
                    && GuessParams(curve, spectra[k], e0, jump(spectra[k])) == Failure(r.error))
  {
    if |spectra| > 0 {
      var rest := spectra[1..];
      GuessP0Meaning(curve, rest, e0, jump);
      assert forall i :: 1 <= i < |spectra| ==> spectra[i] == rest[i - 1];
      var first := GuessParams(curve, spectra[0], e0, jump(spectra[0]));
      var r := GuessP0(curve, spectra, e0, jump);
      if first.Success? {
        var restGuess := GuessP0(curve, rest, e0, jump);
        if restGuess.Failure? {
          var k :| 0 <= k < |rest|
                   && (forall i :: 0 <= i < k ==> GuessParams(curve, rest[i], e0, jump(rest[i])).Success?)
                   && GuessParams(curve, rest[k], e0, jump(rest[k])) == Failure(restGuess.error);
          assert GuessParams(curve, spectra[k + 1], e0, jump(spectra[k + 1])) == Failure(r.error);
        }
      } else {
        assert GuessParams(curve, spectra[0], e0, jump(spectra[0])) == Failure(r.error);
      }
    }
  }

  /** A single exact line `x + 1` is guessed as `[[1, 1]]`. */
  lemma GuessP0LineExample(x: seq<real>, e0: Option<real>, jump: seq<real> -> real)
    requires Guessable(x)
    ensures GuessP0(Line(x), [LineValues(x, 1.0, 1.0)], e0, jump) == Success([[1.0, 1.0]])
  {
    var spectra := [LineValues(x, 1.0, 1.0)];
    LineRoundTrip(x, 1.0, 1.0);
    assert GuessParams(Line(x), spectra[0], e0, jump(spectra[0])) == Success([1.0, 1.0]);
    assert spectra[1..] == [];
    assert GuessP0(Line(x), spectra[1..], e0, jump) == Success([]);
    assert [[1.0, 1.0]] + [] == [[1.0, 1.0]];
  }

  /** The number of pixels in a frame of the given shape. */
  function Pixels(frameShape: seq<nat>): nat {
    if |frameShape| == 0 then 1 else Pixels(frameShape[..|frameShape| - 1]) * frameShape[|frameShape| - 1]
  }

  /** `prepare_p0`: an array of shape (timesteps, parameters, frame pixels)
      whose every frame of parameter k holds `p0[k]`; the frame dimensions
      are flattened to one. */
  method PrepareP0(p0: seq<real>, frameShape: seq<nat>, numTimesteps: nat) returns (out: array3<real>)
    ensures fresh(out)
    ensures out.Length0 == numTimesteps && out.Length1 == |p0| && out.Length2 == Pixels(frameShape)
    ensures forall t, k, f :: 0 <= t < numTimesteps && 0 <= k < |p0| && 0 <= f < out.Length2 ==> out[t, k, f] == p0[k]
  {
    out := new real[numTimesteps, |p0|, Pixels(frameShape)];
    forall t, k, f | 0 <= t < out.Length0 && 0 <= k < out.Length1 && 0 <= f < out.Length2 {
      out[t, k, f] := p0[k];
    }
  }
}
