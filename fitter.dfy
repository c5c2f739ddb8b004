/**
 * The single-spectrum fitter `_fit_sources((spectrum, p0), func,
 * nonnegative, bounds)`: a control-flow shell around scipy's `leastsq`.
 * The solver is a parameter `solve` that maps the problem it is given to
 * the fitted parameters and leastsq's status code; the curve is a parameter
 * `func` from parameters to a prediction; warnings become an output list.
 */
module Fitter {
  import opened Wrappers
  import opened Numeric
  import opened Bounds
  import opened Objective

  /** The RuntimeWarnings `_fit_sources` issues; neither aborts the fit. */
  datatype Warning =
    | GuessOutOfBounds(guess: seq<real>, bounds: Box)  // "Guess {} is outside of bounds {}"
    | PrecisionErrors                                  // "Precision errors encountered during fitting. Check dtypes."

  /** What `leastsq(func=error, x0=p0, args=(spectrum, func, bounds))` receives
      besides the curve itself. */
  datatype Problem = Problem(x0: seq<real>, obs: seq<Num>, bounds: Box)

  /** The parts of leastsq's full output that the fitter reads: `p_fit` and `status`. */
  datatype SolverOutput = SolverOutput(params: seq<real>, status: int)

  /** `(p_fit, res_)` together with the warnings issued on the way. */
  datatype FitResult = FitResult(params: seq<Num>, residual: Num, warnings: seq<Warning>)

  /** The leastsq status the fitter reports as a precision problem. */
  const PrecisionStatus := 4

  /** The solver returns one parameter per starting parameter. */
  ghost predicate KeepsDimension(solve: Problem -> SolverOutput) {
    forall pr {:trigger solve(pr)} :: |solve(pr).params| == |pr.x0|
  }

  /** The curve predicts one value per energy, whatever its parameters. */
  ghost predicate PredictsLength(func: seq<real> -> seq<real>, n: nat) {
    forall q {:trigger func(q)} :: |func(q)| == n
  }

  /** The bounds synthesised when none are given: `([0]*n, [inf]*n)` when
      `nonnegative`, `([-inf]*n, [inf]*n)` otherwise. */
  function DefaultBounds(n: nat, nonnegative: bool): (b: Box)
    ensures |b.lower| == n && |b.upper| == n
    ensures forall i :: 0 <= i < n ==> b.upper[i].Infinite? && (b.lower[i].Infinite? <==> !nonnegative)
    ensures nonnegative ==> forall i :: 0 <= i < n ==> b.lower[i] == Finite(0.0)
  {
    Box(seq(n, _ => if nonnegative then Finite(0.0) else Infinite), seq(n, _ => Infinite))
  }

  function EffectiveBounds(p0: seq<real>, nonnegative: bool, bounds: Option<Box>): (b: Box)
    requires bounds.Some? ==> Conforms(p0, bounds.value)
    ensures Conforms(p0, b)
  {
    if bounds.Some? then bounds.value else DefaultBounds(|p0|, nonnegative)
  }

  /** Synthesised bounds reject a guess exactly when `nonnegative` is set
      and some parameter is negative. */
  lemma DefaultBoundsOutOfBounds(p: seq<real>, nonnegative: bool)
    ensures IsOutOfBounds(p, Some(DefaultBounds(|p|, nonnegative)))
            <==> nonnegative && exists i :: 0 <= i < |p| && p[i] < 0.0
  {
    var b := DefaultBounds(|p|, nonnegative);
    if nonnegative && exists i :: 0 <= i < |p| && p[i] < 0.0 {
      var i :| 0 <= i < |p| && p[i] < 0.0;
      assert Violates(p, b, i);
    }
  }

  /** `spectrum - prediction` */
  function Residuals(obs: seq<real>, pred: seq<real>): (r: seq<real>)
    requires |obs| == |pred|
    ensures |r| == |obs|
    ensures forall i :: 0 <= i < |obs| ==> r[i] == obs[i] - pred[i]
  {
    seq(|obs|, i requires 0 <= i < |obs| => obs[i] - pred[i])
  }

  /** `np.sqrt(np.mean(np.power(spectrum - prediction, 2)))`: NaN for an
      empty spectrum (the mean of nothing), otherwise the non-negative root of
      the mean squared residual, which is zero exactly for a perfect fit. */
  function Rms(obs: seq<real>, pred: seq<real>, sqrt: real -> real): (r: Num)
    requires |obs| == |pred| && IsSqrt(sqrt)
    ensures r.NaN? <==> |obs| == 0
    ensures r.Real? ==> 0.0 <= r.r && Sq(r.r) * (|obs| as real) == SumSquares(Residuals(obs, pred))
    ensures r.Real? ==> (r.r == 0.0 <==> obs == pred)
  {
    if |obs| == 0 then NaN
    else
      var n := |obs| as real;
      var meanSquare := SumSquares(Residuals(obs, pred)) / n;
      SqrtZeroIff(sqrt, meanSquare);
      SumSquaresZeroIff(Residuals(obs, pred));
      assert (forall i :: 0 <= i < |obs| ==> Residuals(obs, pred)[i] == 0.0) <==> obs == pred by {
        if forall i :: 0 <= i < |obs| ==> Residuals(obs, pred)[i] == 0.0 {
          assert forall i :: 0 <= i < |obs| ==> obs[i] == pred[i];
        }
      }
      Real(sqrt(meanSquare))
  }

  /** `_fit_sources`: a spectrum with a NaN yields all-NaN parameters and a
      NaN residual without fitting; otherwise the bounds are defaulted if
      absent, the solver's parameters are returned as they are, with their
      RMS residual, and warnings are collected for an out-of-bounds guess and
      for solver status 4. */
  function FitOne(spectrum: seq<Num>, p0: seq<real>, func: seq<real> -> seq<real>,
                  nonnegative: bool, bounds: Option<Box>,
                  solve: Problem -> SolverOutput, sqrt: real -> real): (r: FitResult)
    requires bounds.Some? ==> Conforms(p0, bounds.value)
    requires PredictsLength(func, |spectrum|) && KeepsDimension(solve) && IsSqrt(sqrt)
    ensures |r.params| == |p0|
    ensures HasNaN(spectrum) ==>
              (forall i :: 0 <= i < |p0| ==> r.params[i].NaN?) && r.residual.NaN? && r.warnings == []
    ensures !HasNaN(spectrum) ==> !HasNaN(r.params)
    ensures !HasNaN(spectrum) ==>
              var out := solve(Problem(p0, spectrum, EffectiveBounds(p0, nonnegative, bounds)));
              r.residual == Rms(Values(spectrum), func(out.params), sqrt)
  {
    if HasNaN(spectrum) then
      FitResult(seq(|p0|, _ => NaN), NaN, [])
    else
      var box := EffectiveBounds(p0, nonnegative, bounds);
      var out := solve(Problem(p0, spectrum, box));
      var boundsWarning := if IsOutOfBounds(p0, Some(box)) then [GuessOutOfBounds(p0, box)] else [];
      var precisionWarning := if out.status == PrecisionStatus then [PrecisionErrors] else [];
      FitResult(Lift(out.params), Rms(Values(spectrum), func(out.params), sqrt),
                boundsWarning + precisionWarning)
  }

  /** The imperative `_fit_sources`: fills the NaN result in place and
      appends the warnings as it goes. */
  method FitSources(spectrum: seq<Num>, p0: seq<real>, func: seq<real> -> seq<real>,
                    nonnegative: bool, bounds: Option<Box>,
                    solve: Problem -> SolverOutput, sqrt: real -> real)
    returns (params: seq<Num>, residual: Num, warnings: seq<Warning>)
    requires bounds.Some? ==> Conforms(p0, bounds.value)
    requires PredictsLength(func, |spectrum|) && KeepsDimension(solve) && IsSqrt(sqrt)
    ensures FitResult(params, residual, warnings)
            == FitOne(spectrum, p0, func, nonnegative, bounds, solve, sqrt)
  {
    if HasNaN(spectrum) {
      var pFit := new Num[|p0|];
      var i := 0;
      while i < |p0|
        invariant 0 <= i <= |p0|
        invariant forall j :: 0 <= j < i ==> pFit[j] == NaN
      {
        pFit[i] := NaN;
        i := i + 1;
      }
      return pFit[..], NaN, [];
    }
    var box := if bounds.Some? then bounds.value else DefaultBounds(|p0|, nonnegative);
    warnings := [];
    if IsOutOfBounds(p0, Some(box)) {
      warnings := warnings + [GuessOutOfBounds(p0, box)];
    }
    var out := solve(Problem(p0, spectrum, box));
    if out.status == PrecisionStatus {
      warnings := warnings + [PrecisionErrors];
    }
    params := Lift(out.params);
    residual := Rms(Values(spectrum), func(out.params), sqrt);
  }

  /** A spectrum with a NaN is never handed to the solver: the result is the
      same whatever the solver would have returned. */
  lemma NaNSpectrumSkipsSolver(spectrum: seq<Num>, p0: seq<real>, func: seq<real> -> seq<real>,
                               nonnegative: bool, bounds: Option<Box>,
                               solve: Problem -> SolverOutput, other: Problem -> SolverOutput,
                               sqrt: real -> real)
    requires bounds.Some? ==> Conforms(p0, bounds.value)
    requires PredictsLength(func, |spectrum|) && KeepsDimension(solve) && KeepsDimension(other)
    requires IsSqrt(sqrt)
    requires HasNaN(spectrum)
    ensures FitOne(spectrum, p0, func, nonnegative, bounds, solve, sqrt)
            == FitOne(spectrum, p0, func, nonnegative, bounds, other, sqrt)
  {
  }

  /** On a NaN-free spectrum the warnings never change the outcome: the
      parameters are the solver's, there is a bounds warning exactly when the
      (possibly synthesised) bounds reject p0 and a precision warning exactly
      when the solver reports status 4, in that order. */
  lemma FitOneWarnings(spectrum: seq<Num>, p0: seq<real>, func: seq<real> -> seq<real>,
                       nonnegative: bool, bounds: Option<Box>,
                       solve: Problem -> SolverOutput, sqrt: real -> real)
    requires bounds.Some? ==> Conforms(p0, bounds.value)
    requires PredictsLength(func, |spectrum|) && KeepsDimension(solve) && IsSqrt(sqrt)
    requires !HasNaN(spectrum)
    ensures var box := EffectiveBounds(p0, nonnegative, bounds);
            var out := solve(Problem(p0, spectrum, box));
            var r := FitOne(spectrum, p0, func, nonnegative, bounds, solve, sqrt);
            && (forall i :: 0 <= i < |p0| ==> r.params[i] == Real(out.params[i]))
            && (exists w :: w in r.warnings && w.GuessOutOfBounds?) == IsOutOfBounds(p0, Some(box))
            && (PrecisionErrors in r.warnings) == (out.status == PrecisionStatus)
            && |r.warnings| == (if IsOutOfBounds(p0, Some(box)) then 1 else 0)
                                + (if out.status == PrecisionStatus then 1 else 0)
            && (IsOutOfBounds(p0, Some(box)) ==> r.warnings[0] == GuessOutOfBounds(p0, box))
            && (out.status == PrecisionStatus ==> r.warnings[|r.warnings| - 1] == PrecisionErrors)
  {
    var box := EffectiveBounds(p0, nonnegative, bounds);
    var out := solve(Problem(p0, spectrum, box));
    var r := FitOne(spectrum, p0, func, nonnegative, bounds, solve, sqrt);
    var boundsWarning := if IsOutOfBounds(p0, Some(box)) then [GuessOutOfBounds(p0, box)] else [];
    var precisionWarning := if out.status == PrecisionStatus then [PrecisionErrors] else [];
    assert r.warnings == boundsWarning + precisionWarning;
    if IsOutOfBounds(p0, Some(box)) {
      assert r.warnings[0] == GuessOutOfBounds(p0, box);
    }
  }

  /** On a non-empty NaN-free spectrum the residual is a non-negative real,
      zero exactly when the fitted curve reproduces the spectrum. */
  lemma ResidualZeroIffExact(spectrum: seq<Num>, p0: seq<real>, func: seq<real> -> seq<real>,
                             nonnegative: bool, bounds: Option<Box>,
                             solve: Problem -> SolverOutput, sqrt: real -> real)
    requires bounds.Some? ==> Conforms(p0, bounds.value)
    requires PredictsLength(func, |spectrum|) && KeepsDimension(solve) && IsSqrt(sqrt)
    requires !HasNaN(spectrum) && |spectrum| > 0
    ensures var out := solve(Problem(p0, spectrum, EffectiveBounds(p0, nonnegative, bounds)));
            var r := FitOne(spectrum, p0, func, nonnegative, bounds, solve, sqrt);
            && r.residual.Real? && 0.0 <= r.residual.r
            && (r.residual.r == 0.0 <==> Lift(func(out.params)) == spectrum)
  {
    var out := solve(Problem(p0, spectrum, EffectiveBounds(p0, nonnegative, bounds)));
    var pred := func(out.params);
    assert Lift(pred) == spectrum <==> pred == Values(spectrum) by {
      if Lift(pred) == spectrum {
        assert forall i :: 0 <= i < |pred| ==> pred[i] == Values(spectrum)[i];
      }
    }
  }

  /** The objective is well defined throughout the search: for the problem
      the fitter poses, every guess of the right length meets every
      precondition of `Error`, so its NaN assertion cannot fire. */
  lemma ObjectiveDefined(spectrum: seq<Num>, p0: seq<real>, func: seq<real> -> seq<real>,
                         nonnegative: bool, bounds: Option<Box>, sqrt: real -> real,
                         guess: seq<real>)
    requires bounds.Some? ==> Conforms(p0, bounds.value)
    requires PredictsLength(func, |spectrum|) && IsSqrt(sqrt)
    requires !HasNaN(spectrum) && |guess| == |p0|
    ensures var pr := Problem(p0, spectrum, EffectiveBounds(p0, nonnegative, bounds));
            && |func(guess)| == |pr.obs|
            && !HasNaN(pr.obs)
            && Conforms(guess, pr.bounds)
  {
  }
}
