/**
 * The fit curves: a curve holds its energy grid `x` (or, for a linear
 * combination, its source spectra); calling it with parameters predicts a
 * spectrum, `guess_params` proposes initial parameters from a measured
 * spectrum, and `param_names` names the parameters. Transcendental
 * functions (exp, arctan, pi) are parameters of the model.
 */
module Curves {
  import opened Wrappers
  import opened Numeric

  datatype Curve =
    | Line(x: seq<real>)
    | LinearCombination(sources: seq<seq<real>>)
    | Gaussian(x: seq<real>)
    | L3Curve(x: seq<real>, numPeaks: nat)
    | KCurve(x: seq<real>)

  datatype CurveError =
    | NotImplemented                                 // the base `guess_params`
    | ShapeMismatch(intensities: nat, energies: nat) // KCurve intensities vs x
    | EmptyIntensities                               // min/max/argmax/indexing of nothing
    | MissingEdgePosition                            // the edge has no E_0
    | ArityMismatch(expected: nat, given: nat)       // wrong number of parameters
    | NoOffset                                       // linear combination called with no parameters
    | NoEnergyGrid                                   // a linear combination has no `x`

  /** `exp`, `arctan` and `pi`, with the few facts the proofs use. */
  datatype Analytic = Analytic(exp: real -> real, atan: real -> real, pi: real)

  ghost predicate IsAnalytic(t: Analytic) {
    && 0.0 < t.pi
    && t.atan(0.0) == 0.0
    && (forall a {:trigger t.exp(a)} :: 0.0 < t.exp(a))
    && (forall a, b {:trigger t.exp(a), t.exp(b)} :: a < b ==> t.exp(a) < t.exp(b))
  }

  /** The sources of a linear combination are spectra of one common length. */
  predicate ValidSources(sources: seq<seq<real>>) {
    |sources| >= 1 && forall k :: 0 <= k < |sources| ==> |sources[k]| == |sources[0]|
  }

  predicate Valid(curve: Curve) {
    curve.LinearCombination? ==> ValidSources(curve.sources)
  }

  /** How many parameters calling the curve takes. */
  function Arity(curve: Curve): nat {
    match curve
    case Line(_) => 2
    case LinearCombination(sources) => |sources| + 1
    case Gaussian(_) => 3
    case L3Curve(_, numPeaks) => 3 * numPeaks + 4
    case KCurve(_) => 8
  }

  // ---------------------------------------------------------------- extrema

  /** `np.min`. */
  function Minimum(s: seq<real>): (m: real)
    requires |s| > 0
    ensures forall j :: 0 <= j < |s| ==> m <= s[j]
    ensures exists j :: 0 <= j < |s| && m == s[j]
  {
    if |s| == 1 then s[0]
    else
      var m := Minimum(s[..|s| - 1]);
      assert forall j :: 0 <= j < |s| - 1 ==> s[..|s| - 1][j] == s[j];
      if s[|s| - 1] < m then s[|s| - 1] else m
  }

  /** `np.argmax`: the first index of a largest element. */
  function FirstArgMax(s: seq<real>): (k: nat)
    requires |s| > 0
    ensures k < |s|
    ensures forall j :: 0 <= j < |s| ==> s[j] <= s[k]
    ensures forall j :: 0 <= j < k ==> s[j] < s[k]
  {
    if |s| == 1 then 0
    else
      var k := FirstArgMax(s[..|s| - 1]);
      assert forall j :: 0 <= j < |s| - 1 ==> s[..|s| - 1][j] == s[j];
      if s[|s| - 1] > s[k] then |s| - 1 else k
  }

  // ---------------------------------------------------------------- Line

  function LineValues(x: seq<real>, m: real, b: real): (y: seq<real>)
    ensures |y| == |x|
  {
    seq(|x|, i requires 0 <= i < |x| => m * x[i] + b)
  }

  /** The grid a line can be guessed on: its end points differ. */
  predicate Guessable(x: seq<real>) {
    |x| >= 2 && x[0] != x[|x| - 1]
  }

  /** `Line.guess_params`: the line through the first and the last point. */
  function LineGuess(x: seq<real>, intensities: seq<real>): (r: Result<seq<real>, CurveError>)
    requires Guessable(x)
    ensures r.Success? <==> |intensities| > 0
    ensures r.Failure? ==> r.error == EmptyIntensities
    ensures r.Success? ==> |r.value| == 2
  {
    if |intensities| == 0 then Failure(EmptyIntensities)
    else
      var m := (intensities[|intensities| - 1] - intensities[0]) / (x[|x| - 1] - x[0]);
      Success([m, intensities[0] - m * x[0]])
  }

  /** The guessed line passes through the first and the last measured point. */
  lemma LineGuessInterpolates(x: seq<real>, intensities: seq<real>)
    requires Guessable(x) && |intensities| > 0
    ensures LineGuess(x, intensities).Success?
    ensures var p := LineGuess(x, intensities).value;
            && |p| == 2
            && p[0] * x[0] + p[1] == intensities[0]
            && p[0] * x[|x| - 1] + p[1] == intensities[|intensities| - 1]
  {
    var d := x[|x| - 1] - x[0];
    var m := (intensities[|intensities| - 1] - intensities[0]) / d;
    assert m * d == intensities[|intensities| - 1] - intensities[0];
    assert m * x[|x| - 1] == m * x[0] + m * d;
  }

  /** Guessing a line from exact data `m*x + b` gives back `(m, b)`. */
  lemma LineRoundTrip(x: seq<real>, m: real, b: real)
    requires Guessable(x)
    ensures LineGuess(x, LineValues(x, m, b)) == Success([m, b])
  {
    var y := LineValues(x, m, b);
    var d := x[|x| - 1] - x[0];
    assert y[|y| - 1] - y[0] == m * d;
    DivideProduct(m, d);
    var slope := (y[|y| - 1] - y[0]) / d;
    assert slope == m;
    assert y[0] - slope * x[0] == b;
    assert |y| > 0;
    assert LineGuess(x, y).Success?;
    assert LineGuess(x, y).value[0] == slope;
    assert LineGuess(x, y).value[1] == y[0] - slope * x[0];
  }

  // ---------------------------------------------------------------- LinearCombination

  /** The first `count` sources at energy `i`, weighted by `weights`. */
  function WeightedSum(sources: seq<seq<real>>, weights: seq<real>, count: nat, i: nat): real
    requires ValidSources(sources) && i < |sources[0]|
    requires count <= |sources| && count <= |weights|
  {
    if count == 0 then 0.0
    else WeightedSum(sources, weights, count - 1, i) + weights[count - 1] * sources[count - 1][i]
  }

  /** `zip(params[:-1], sources)` pairs as many weights as both have. */
  function WeightCount(sources: seq<seq<real>>, params: seq<real>): nat
    requires |params| >= 1
  {
    if |params| - 1 < |sources| then |params| - 1 else |sources|
  }

  /** Calling a linear combination: weighted sources plus the last parameter
      as offset. */
  function LinearCombinationValues(sources: seq<seq<real>>, params: seq<real>): (y: seq<real>)
    requires ValidSources(sources) && |params| >= 1
    ensures |y| == |sources[0]|
  {
    var count := WeightCount(sources, params);
    seq(|sources[0]|, i requires 0 <= i < |sources[0]| =>
          WeightedSum(sources, params, count, i) + params[|params| - 1])
  }

  /** Adds one weighted source to `out`, in place. */
  method AddWeighted(out: array<real>, source: seq<real>, weight: real)
    requires out.Length == |source|
    modifies out
    ensures forall j :: 0 <= j < |source| ==> out[j] == old(out[j]) + weight * source[j]
  {
    var i := 0;
    while i < out.Length
      invariant 0 <= i <= out.Length
      invariant forall j :: 0 <= j < i ==> out[j] == old(out[j]) + weight * source[j]
      invariant forall j :: i <= j < out.Length ==> out[j] == old(out[j])
    {
      out[i] := out[i] + weight * source[i];
      i := i + 1;
    }
  }

  /** `LinearCombination.__call__`: accumulates each weighted source in
      place, then the offset. */
  method LinearCombinationCall(sources: seq<seq<real>>, params: seq<real>) returns (y: seq<real>)
    requires ValidSources(sources) && |params| >= 1
    ensures y == LinearCombinationValues(sources, params)
  {
    var n := |sources[0]|;
    var count := WeightCount(sources, params);
    var out := new real[n](_ => 0.0);
    var k := 0;
    while k < count
      invariant 0 <= k <= count
      invariant forall i :: 0 <= i < n ==> out[i] == WeightedSum(sources, params, k, i)
    {
      AddWeighted(out, sources[k], params[k]);
      k := k + 1;
    }
    var offset := params[|params| - 1];
    var i := 0;
    while i < n
      invariant 0 <= i <= n
      invariant forall j :: 0 <= j < i ==> out[j] == WeightedSum(sources, params, count, j) + offset
      invariant forall j :: i <= j < n ==> out[j] == WeightedSum(sources, params, count, j)
    {
      out[i] := out[i] + offset;
      i := i + 1;
    }
    y := out[..];
  }

  /** A combination of one source is the line with that source as its grid. */
  lemma OneSourceIsLine(source: seq<real>, weight: real, offset: real)
    ensures LinearCombinationValues([source], [weight, offset]) == LineValues(source, weight, offset)
  {
    var y := LinearCombinationValues([source], [weight, offset]);
    forall i | 0 <= i < |source|
      ensures y[i] == weight * source[i] + offset
    {
      assert WeightedSum([source], [weight, offset], 1, i) == weight * source[i];
    }
    var line := LineValues(source, weight, offset);
    assert |y| == |line| && forall i :: 0 <= i < |y| ==> y[i] == line[i];
  }

  lemma {:induction false} WeightedSumAdditive(sources: seq<seq<real>>, p: seq<real>, q: seq<real>, count: nat, i: nat)
    requires ValidSources(sources) && i < |sources[0]|
    requires |p| == |q| && count <= |sources| && count <= |p|
    ensures WeightedSum(sources, seq(|p|, k requires 0 <= k < |p| => p[k] + q[k]), count, i)
            == WeightedSum(sources, p, count, i) + WeightedSum(sources, q, count, i)
  {
    if count > 0 {
      WeightedSumAdditive(sources, p, q, count - 1, i);
    }
  }

  /** The prediction is linear in the parameters: weights and offset of a
      sum predict the sum of the predictions. */
  lemma LinearCombinationIsLinear(sources: seq<seq<real>>, p: seq<real>, q: seq<real>)
    requires ValidSources(sources) && |p| >= 1 && |p| == |q|
    ensures var sum := seq(|p|, k requires 0 <= k < |p| => p[k] + q[k]);
            var yp := LinearCombinationValues(sources, p);
            var yq := LinearCombinationValues(sources, q);
            LinearCombinationValues(sources, sum)
              == seq(|yp|, i requires 0 <= i < |yp| => yp[i] + yq[i])
  {
    var sum := seq(|p|, k requires 0 <= k < |p| => p[k] + q[k]);
    forall i | 0 <= i < |sources[0]| {
      WeightedSumAdditive(sources, p, q, WeightCount(sources, p), i);
    }
  }

  /** Two sources with weights 0.5 and 0.25 and offset 2 predict
      0.5*source0 + 0.25*source1 + 2. */
  lemma TwoSourceExample(s0: seq<real>, s1: seq<real>)
    requires |s0| == |s1|
    ensures LinearCombinationValues([s0, s1], [0.5, 0.25, 2.0])
            == seq(|s0|, i requires 0 <= i < |s0| => 0.5 * s0[i] + 0.25 * s1[i] + 2.0)
  {
    var sources := [s0, s1];
    forall i | 0 <= i < |s0|
      ensures WeightedSum(sources, [0.5, 0.25, 2.0], 2, i) == 0.5 * s0[i] + 0.25 * s1[i]
    {
      assert WeightedSum(sources, [0.5, 0.25, 2.0], 1, i) == 0.5 * s0[i];
    }
  }

  // ---------------------------------------------------------------- Gaussian, L3, K

  /** `a * exp(-(x - b)^2 / 2 / c^2)`. */
  function GaussianAt(t: Analytic, x: real, a: real, b: real, c: real): real
    requires c != 0.0
  {
    SqPositive(c);
    a * t.exp(-Sq(x - b) / 2.0 / Sq(c))
  }

  /** A positive Gaussian is higher the nearer the point is to its centre. */
  lemma GaussianNearerIsHigher(t: Analytic, x1: real, x2: real, a: real, b: real, c: real)
    requires IsAnalytic(t) && 0.0 < a && c != 0.0
    ensures Sq(x1 - b) < Sq(x2 - b) ==> GaussianAt(t, x2, a, b, c) < GaussianAt(t, x1, a, b, c)
    ensures Sq(x1 - b) == Sq(x2 - b) ==> GaussianAt(t, x2, a, b, c) == GaussianAt(t, x1, a, b, c)
  {
    SqPositive(c);
    var e1 := -Sq(x1 - b) / 2.0 / Sq(c);
    var e2 := -Sq(x2 - b) / 2.0 / Sq(c);
    if Sq(x1 - b) < Sq(x2 - b) {
      assert e2 < e1;
      assert t.exp(e2) < t.exp(e1);
      MulPositive(a, t.exp(e1) - t.exp(e2));
    }
  }

  /** The sum of the first `count` Gaussian peaks at energy `e`. */
  function PeaksAt(t: Analytic, e: real, params: seq<real>, count: nat): real
    requires 3 * count <= |params|
    requires forall k :: 0 <= k < count ==> Width(params, k) != 0.0
  {
    if count == 0 then 0.0
    else
      var i := 3 * (count - 1);
      assert Width(params, count - 1) == params[i + 2];
      PeaksAt(t, e, params, count - 1) + GaussianAt(t, e, params[i], params[i + 1], params[i + 2])
  }

  /** The width parameter of peak `k`. */
  function Width(params: seq<real>, k: nat): real
    requires 3 * k + 2 < |params|
  {
    params[3 * k + 2]
  }

  /** The arctan step with height, centre and sharpness `h`, `c`, `s`. */
  function StepAt(t: Analytic, e: real, h: real, c: real, s: real): real
    requires t.pi != 0.0
  {
    h * (t.atan((e - c) * s) / t.pi + 0.5)
  }

  /** Calling an L3 curve with `numPeaks` peaks at energy `e`. */
  function L3At(t: Analytic, e: real, params: seq<real>, numPeaks: nat): real
    requires t.pi != 0.0 && |params| == 3 * numPeaks + 4
    requires forall k :: 0 <= k < numPeaks ==> Width(params, k) != 0.0
  {
    var s := 3 * numPeaks;
    PeaksAt(t, e, params, numPeaks) + StepAt(t, e, params[s], params[s + 1], params[s + 2]) + params[s + 3]
  }

  /** Adds one Gaussian peak to `out`, in place. */
  method AddGaussian(t: Analytic, x: seq<real>, out: array<real>, a: real, b: real, c: real)
    requires out.Length == |x| && c != 0.0
    modifies out
    ensures forall j :: 0 <= j < |x| ==> out[j] == old(out[j]) + GaussianAt(t, x[j], a, b, c)
  {
    var i := 0;
    while i < out.Length
      invariant 0 <= i <= out.Length
      invariant forall j :: 0 <= j < i ==> out[j] == old(out[j]) + GaussianAt(t, x[j], a, b, c)
      invariant forall j :: i <= j < out.Length ==> out[j] == old(out[j])
    {
      out[i] := out[i] + GaussianAt(t, x[i], a, b, c);
      i := i + 1;
    }
  }

  /** The peak loop of `L3Curve.__call__`: the Gaussians added one by one
      to an array of zeros. */
  method SumPeaks(t: Analytic, x: seq<real>, numPeaks: nat, params: seq<real>) returns (out: array<real>)
    requires 3 * numPeaks <= |params|
    requires forall k :: 0 <= k < numPeaks ==> Width(params, k) != 0.0
    ensures fresh(out) && out.Length == |x|
    ensures forall j :: 0 <= j < |x| ==> out[j] == PeaksAt(t, x[j], params, numPeaks)
  {
    out := new real[|x|](_ => 0.0);
    var idx := 0;
    while idx < numPeaks
      invariant 0 <= idx <= numPeaks
      invariant forall j :: 0 <= j < |x| ==> out[j] == PeaksAt(t, x[j], params, idx)
    {
      var p := 3 * idx;
      assert Width(params, idx) == params[p + 2];
      AddGaussian(t, x, out, params[p], params[p + 1], params[p + 2]);
      idx := idx + 1;
    }
  }

  /** `L3Curve.__call__`: the peaks, then the step and the offset added in place. */
  method L3CurveCall(t: Analytic, x: seq<real>, numPeaks: nat, params: seq<real>) returns (y: seq<real>)
    requires t.pi != 0.0 && |params| == 3 * numPeaks + 4
    requires forall k :: 0 <= k < numPeaks ==> Width(params, k) != 0.0
    ensures |y| == |x|
    ensures forall i :: 0 <= i < |x| ==> y[i] == L3At(t, x[i], params, numPeaks)
  {
    var out := SumPeaks(t, x, numPeaks, params);
    var s := 3 * numPeaks;
    var i := 0;
    while i < out.Length
      invariant 0 <= i <= out.Length
      invariant forall j :: 0 <= j < i ==> out[j] == L3At(t, x[j], params, numPeaks)
      invariant forall j :: i <= j < out.Length ==> out[j] == PeaksAt(t, x[j], params, numPeaks)
    {
      out[i] := out[i] + StepAt(t, x[i], params[s], params[s + 1], params[s + 2]) + params[s + 3];
      i := i + 1;
    }
    y := out[..];
  }

  /** One peak and a step of height zero: the L3 curve is that Gaussian
      lifted by the offset. */
  lemma L3OnePeakFlatStep(t: Analytic, e: real, h: real, c: real, w: real, sc: real, ss: real, offset: real)
    requires t.pi != 0.0 && w != 0.0
    ensures L3At(t, e, [h, c, w, 0.0, sc, ss, offset], 1) == GaussianAt(t, e, h, c, w) + offset
  {
    var params := [h, c, w, 0.0, sc, ss, offset];
    assert Width(params, 0) == w;
    assert PeaksAt(t, e, params, 1) == GaussianAt(t, e, h, c, w);
  }

  /** Calling a K-edge curve at energy `e`, parameters in `KCurveNames` order. */
  function KCurveAt(t: Analytic, e: real, p: seq<real>): real
    requires t.pi != 0.0 && |p| == 8 && p[7] != 0.0
  {
    var x := e - p[2];
    var sig := t.atan(x * p[3]) / t.pi + 0.5;
    var gaus := GaussianAt(t, x, p[5], p[6], p[7]);
    var bg := x * p[4];
    p[0] * (sig + gaus + bg) + p[1]
  }

  /** At the edge energy the sigmoid is half way: the curve is the offset
      plus `scale` times one half plus the whiteline Gaussian there. */
  lemma KCurveAtEdge(t: Analytic, p: seq<real>)
    requires IsAnalytic(t) && |p| == 8 && p[7] != 0.0
    ensures KCurveAt(t, p[2], p) == p[0] * (0.5 + GaussianAt(t, 0.0, p[5], p[6], p[7])) + p[1]
  {
    assert (p[2] - p[2]) * p[3] == 0.0;
  }

  /** Parameters the curve can be called with without dividing by zero. */
  predicate NonzeroWidths(curve: Curve, params: seq<real>) {
    match curve
    case Gaussian(_) => |params| == 3 ==> params[2] != 0.0
    case L3Curve(_, numPeaks) =>
      |params| == 3 * numPeaks + 4 ==> forall k :: 0 <= k < numPeaks ==> Width(params, k) != 0.0
    case KCurve(_) => |params| == 8 ==> params[7] != 0.0
    case _ => true
  }

  /** Calling a curve. A linear combination takes any non-empty parameter
      tuple (`zip` ignores surplus weights, `params[-1]` fails on an empty
      one); every other curve needs exactly its arity, otherwise the
      unpacking of `params` fails. */
  function Evaluate(t: Analytic, curve: Curve, params: seq<real>): (r: Result<seq<real>, CurveError>)
    requires Valid(curve) && NonzeroWidths(curve, params) && t.pi != 0.0
    ensures r.Success? <==> (if curve.LinearCombination? then |params| >= 1 else |params| == Arity(curve))
    ensures r.Failure? ==>
              r.error == (if curve.LinearCombination? then NoOffset else ArityMismatch(Arity(curve), |params|))
    ensures r.Success? ==> |r.value| == (if curve.LinearCombination? then |curve.sources[0]| else |curve.x|)
  {
    if curve.LinearCombination? then
      if |params| == 0 then Failure(NoOffset)
      else Success(LinearCombinationValues(curve.sources, params))
    else if |params| != Arity(curve) then Failure(ArityMismatch(Arity(curve), |params|))
    else
      match curve
      case Line(x) => Success(LineValues(x, params[0], params[1]))
      case Gaussian(x) =>
        Success(seq(|x|, i requires 0 <= i < |x| => GaussianAt(t, x[i], params[0], params[1], params[2])))
      case L3Curve(x, numPeaks) =>
        Success(seq(|x|, i requires 0 <= i < |x| => L3At(t, x[i], params, numPeaks)))
      case KCurve(x) =>
        Success(seq(|x|, i requires 0 <= i < |x| => KCurveAt(t, x[i], params)))
  }

  /** `find_whiteline`: the energy at which the predicted curve is highest. */
  function FindWhiteline(t: Analytic, curve: Curve, params: seq<real>): (r: Result<real, CurveError>)
    requires Valid(curve) && NonzeroWidths(curve, params) && t.pi != 0.0
    ensures r.Success? <==> !curve.LinearCombination? && |params| == Arity(curve) && |curve.x| > 0
    ensures r.Success? ==>
              var fit := Evaluate(t, curve, params).value;
              exists k :: 0 <= k < |fit| == |curve.x|
                && r.value == curve.x[k]
                && (forall j :: 0 <= j < |fit| ==> fit[j] <= fit[k])
                && (forall j :: 0 <= j < k ==> fit[j] < fit[k])
  {
    var fit :- Evaluate(t, curve, params);
    if curve.LinearCombination? then Failure(NoEnergyGrid)
    else if |fit| == 0 then Failure(EmptyIntensities)
    else Success(curve.x[FirstArgMax(fit)])
  }

  /** The first grid point nearest to `b`. */
  predicate FirstNearest(x: seq<real>, b: real, k: nat) {
    && k < |x|
    && (forall j :: 0 <= j < |x| ==> Sq(x[k] - b) <= Sq(x[j] - b))
    && (forall j :: 0 <= j < k ==> Sq(x[k] - b) < Sq(x[j] - b))
  }

  /** A prediction that is a positive Gaussian plus a constant peaks first
      at the grid energy nearest to the centre. */
  lemma ShiftedGaussianPeak(t: Analytic, x: seq<real>, fit: seq<real>, a: real, b: real, c: real, offset: real)
    requires IsAnalytic(t) && 0.0 < a && c != 0.0 && |x| > 0 && |fit| == |x|
    requires forall i :: 0 <= i < |x| ==> fit[i] == GaussianAt(t, x[i], a, b, c) + offset
    ensures FirstNearest(x, b, FirstArgMax(fit))
  {
    var k := FirstArgMax(fit);
    forall j | 0 <= j < |x|
      ensures Sq(x[k] - b) <= Sq(x[j] - b)
      ensures j < k ==> Sq(x[k] - b) < Sq(x[j] - b)
    {
      GaussianNearerIsHigher(t, x[j], x[k], a, b, c);
      GaussianNearerIsHigher(t, x[k], x[j], a, b, c);
    }
  }

  /** The whiteline of a positive Gaussian is the first grid energy nearest
      to its centre. */
  lemma GaussianWhiteline(t: Analytic, x: seq<real>, a: real, b: real, c: real)
    requires IsAnalytic(t) && 0.0 < a && c != 0.0 && |x| > 0
    ensures var w := FindWhiteline(t, Gaussian(x), [a, b, c]);
            w.Success? && exists k: nat :: FirstNearest(x, b, k) && w.value == x[k]
  {
    var fit := Evaluate(t, Gaussian(x), [a, b, c]).value;
    assert forall i :: 0 <= i < |x| ==> fit[i] == GaussianAt(t, x[i], a, b, c) + 0.0;
    ShiftedGaussianPeak(t, x, fit, a, b, c, 0.0);
  }

  /** The whiteline of a one-peak L3 curve with a flat step is the first
      grid energy nearest to the peak centre. */
  lemma L3FlatStepWhiteline(t: Analytic, x: seq<real>, h: real, c: real, w: real, sc: real, ss: real, offset: real)
    requires IsAnalytic(t) && 0.0 < h && w != 0.0 && |x| > 0
    ensures var r := FindWhiteline(t, L3Curve(x, 1), [h, c, w, 0.0, sc, ss, offset]);
            r.Success? && exists k: nat :: FirstNearest(x, c, k) && r.value == x[k]
  {
    var params := [h, c, w, 0.0, sc, ss, offset];
    assert Width(params, 0) == w;
    var fit := Evaluate(t, L3Curve(x, 1), params).value;
    forall i | 0 <= i < |x|
      ensures fit[i] == GaussianAt(t, x[i], h, c, w) + offset
    {
      L3OnePeakFlatStep(t, x[i], h, c, w, sc, ss, offset);
    }
    ShiftedGaussianPeak(t, x, fit, h, c, w, offset);
  }

  // ---------------------------------------------------------------- guessing

  /** `KCurve.guess_params`, given the edge's E_0 (if any) and the edge jump
      computed for these intensities. */
  function KCurveGuess(x: seq<real>, intensities: seq<real>, e0: Option<real>, jump: real): (r: Result<seq<real>, CurveError>)
    ensures r.Success? <==> |intensities| == |x| > 0 && e0.Some?
    ensures r.Success? ==> |r.value| == |KCurveNames|
  {
    if |intensities| != |x| then Failure(ShapeMismatch(|intensities|, |x|))
    else if |intensities| == 0 then Failure(EmptyIntensities)
    else if e0.None? then Failure(MissingEdgePosition)
    else
      var voffset := Minimum(intensities);
      var top := FirstArgMax(intensities);
      Success([jump, voffset, e0.value, 0.5, 0.0,
               5.0 * (intensities[top] - jump - voffset), x[top] - e0.value, 2.0])
  }

  /** What the K-edge guess means: it fails exactly on mismatched shapes, no
      data or no edge position; otherwise it gives the eight parameters in
      `param_names` order, with the minimum as offset, the edge position as
      E0, the fixed sharpness, slope and width, and the whiteline peak at the
      first energy of highest intensity. */
  lemma KCurveGuessMeaning(x: seq<real>, intensities: seq<real>, e0: Option<real>, jump: real)
    ensures var r := KCurveGuess(x, intensities, e0, jump);
            && (|intensities| != |x| ==> r == Failure(ShapeMismatch(|intensities|, |x|)))
            && (r.Success? <==> |intensities| == |x| > 0 && e0.Some?)
            && (r.Success? ==>
                  var p := r.value;
                  && |p| == |KCurveNames|
                  && p[0] == jump
                  && (forall j :: 0 <= j < |intensities| ==> p[1] <= intensities[j])
                  && (exists j :: 0 <= j < |intensities| && p[1] == intensities[j])
                  && p[2] == e0.value && p[3] == 0.5 && p[4] == 0.0 && p[7] == 2.0
                  && exists k ::
                       && 0 <= k < |x|
                       && (forall j :: 0 <= j < |x| ==> intensities[j] <= intensities[k])
                       && (forall j :: 0 <= j < k ==> intensities[j] < intensities[k])
                       && p[5] == 5.0 * (intensities[k] - jump - p[1])
                       && p[6] + p[2] == x[k])
  {
    var r := KCurveGuess(x, intensities, e0, jump);
    if r.Success? {
      var k := FirstArgMax(intensities);
      assert r.value[6] + r.value[2] == x[k];
    }
  }

  /** Sixty intensities against sixty-one energies report both shapes. */
  lemma KCurveGuessShapeExample(x: seq<real>, intensities: seq<real>, e0: Option<real>, jump: real)
    requires |x| == 61 && |intensities| == 60
    ensures KCurveGuess(x, intensities, e0, jump) == Failure(ShapeMismatch(60, 61))
  {
  }

  /** `guess_params` of each curve; only lines and K-edge curves can guess,
      the others inherit the base class's `NotImplementedError`. */
  function GuessParams(curve: Curve, intensities: seq<real>, e0: Option<real>, jump: real): (r: Result<seq<real>, CurveError>)
    requires curve.Line? ==> Guessable(curve.x)
    ensures (curve.Gaussian? || curve.L3Curve? || curve.LinearCombination?) ==> r == Failure(NotImplemented)
    ensures curve.Line? ==> (r.Success? <==> |intensities| > 0)
    ensures curve.KCurve? ==> (r.Success? <==> |intensities| == |curve.x| > 0 && e0.Some?)
    ensures r.Success? ==> |r.value| == Arity(curve)
  {
    match curve
    case Line(x) => LineGuess(x, intensities)
    case KCurve(x) => KCurveGuess(x, intensities, e0, jump)
    case _ => Failure(NotImplemented)
  }

  // ---------------------------------------------------------------- parameter names

  function Digit(d: nat): (c: char)
    requires d < 10
    ensures '0' <= c <= '9' && c as int == '0' as int + d
  {
    ('0' as int + d) as char
  }

  /** `'%d' % n`. */
  function Decimal(n: nat): (s: string)
    ensures |s| >= 1 && (n >= 10 ==> |s| >= 2)
    ensures s[|s| - 1] == Digit(n % 10)
  {
    if n < 10 then [Digit(n)] else Decimal(n / 10) + [Digit(n % 10)]
  }

  /** Different numbers are written differently. */
  lemma {:induction false} DecimalInjective(a: nat, b: nat)
    requires Decimal(a) == Decimal(b)
    ensures a == b
  {
    var s := Decimal(a);
    assert Digit(a % 10) == Digit(b % 10);
    if a >= 10 && b >= 10 {
      assert Decimal(a / 10) == s[..|s| - 1] == Decimal(b / 10);
      DecimalInjective(a / 10, b / 10);
    }
  }

  predicate Distinct(names: seq<string>) {
    forall i, j :: 0 <= i < j < |names| ==> names[i] != names[j]
  }

  /** Names sharing a prefix differ when their numbers do. */
  lemma NumberedNamesDiffer(prefix: string, a: nat, b: nat)
    requires a != b
    ensures prefix + Decimal(a) != prefix + Decimal(b)
  {
    if prefix + Decimal(a) == prefix + Decimal(b) {
      assert (prefix + Decimal(a))[|prefix|..] == Decimal(a);
      assert (prefix + Decimal(b))[|prefix|..] == Decimal(b);
      DecimalInjective(a, b);
    }
  }

  function WeightName(k: nat): string {
    "weight_" + Decimal(k)
  }

  /** `LinearCombination.param_names` for `n` sources. */
  function WeightNames(n: nat): seq<string> {
    seq(n, k requires 0 <= k < n => WeightName(k)) + ["offset"]
  }

  method LinearCombinationParamNames(n: nat) returns (names: seq<string>)
    ensures names == WeightNames(n)
  {
    names := [];
    var k := 0;
    while k < n
      invariant 0 <= k <= n
      invariant names == seq(k, j requires 0 <= j < k => WeightName(j))
    {
      names := names + ["weight_" + Decimal(k)];
      k := k + 1;
    }
    names := names + ["offset"];
  }

  /** One distinct name per parameter of a linear combination, the weights
      in source order and the offset last. */
  lemma WeightNamesMeaning(n: nat)
    ensures |WeightNames(n)| == Arity(LinearCombination(seq(n, _ => [])))
    ensures forall k :: 0 <= k < n ==> WeightNames(n)[k] == "weight_" + Decimal(k)
    ensures WeightNames(n)[n] == "offset"
    ensures Distinct(WeightNames(n))
  {
    var names := WeightNames(n);
    forall i, j | 0 <= i < j < |names|
      ensures names[i] != names[j]
    {
      if j < n {
        NumberedNamesDiffer("weight_", i, j);
      } else {
        assert names[i][0] == 'w' && names[j][0] == 'o';
      }
    }
  }

  lemma WeightNamesExample()
    ensures WeightNames(2) == ["weight_0", "weight_1", "offset"]
  {
    assert Digit(0) == '0' && Digit(1) == '1';
    assert Decimal(0) == "0" && Decimal(1) == "1";
    assert WeightName(0) == "weight_0" && WeightName(1) == "weight_1";
  }

  const PeakPrefixes: seq<string> := ["height_", "center_", "sigma_"]
  const StepNames: seq<string> := ["sig_height", "sig_center", "sig_sigma", "offset"]

  function PeakNames(idx: nat): seq<string> {
    [PeakPrefixes[0] + Decimal(idx), PeakPrefixes[1] + Decimal(idx), PeakPrefixes[2] + Decimal(idx)]
  }

  /** The names of the first `count` peaks. */
  function PeakNamesUpTo(count: nat): (names: seq<string>)
    ensures |names| == 3 * count
  {
    if count == 0 then [] else PeakNamesUpTo(count - 1) + PeakNames(count - 1)
  }

  /** `L3Curve.param_names` for `numPeaks` peaks. */
  function L3Names(numPeaks: nat): seq<string> {
    PeakNamesUpTo(numPeaks) + StepNames
  }

  method L3CurveParamNames(numPeaks: nat) returns (names: seq<string>)
    ensures names == L3Names(numPeaks)
  {
    names := [];
    var idx := 0;
    while idx < numPeaks
      invariant 0 <= idx <= numPeaks
      invariant names == PeakNamesUpTo(idx)
    {
      names := names + ["height_" + Decimal(idx)];
      names := names + ["center_" + Decimal(idx)];
      names := names + ["sigma_" + Decimal(idx)];
      idx := idx + 1;
    }
    names := names + ["sig_height"];
    names := names + ["sig_center"];
    names := names + ["sig_sigma"];
    names := names + ["offset"];
  }

  lemma {:induction false} PeakNamesAt(count: nat, i: nat)
    requires i < 3 * count
    ensures PeakNamesUpTo(count)[i] == PeakPrefixes[i % 3] + Decimal(i / 3)
  {
    if i < 3 * (count - 1) {
      PeakNamesAt(count - 1, i);
    } else {
      assert i / 3 == count - 1;
    }
  }

  /** One distinct name per parameter of an L3 curve: three per peak in peak
      order, then the step and the offset. */
  lemma L3NamesMeaning(numPeaks: nat)
    ensures |L3Names(numPeaks)| == Arity(L3Curve([], numPeaks))
    ensures forall i :: 0 <= i < 3 * numPeaks ==> L3Names(numPeaks)[i] == PeakPrefixes[i % 3] + Decimal(i / 3)
    ensures L3Names(numPeaks)[3 * numPeaks..] == StepNames
    ensures Distinct(L3Names(numPeaks))
  {
    var names := L3Names(numPeaks);
    var s := 3 * numPeaks;
    forall i | 0 <= i < s
      ensures names[i] == PeakPrefixes[i % 3] + Decimal(i / 3)
    {
      PeakNamesAt(numPeaks, i);
    }
    forall i, j | 0 <= i < j < |names|
      ensures names[i] != names[j]
    {
      if j < s {
        if i % 3 == j % 3 {
          NumberedNamesDiffer(PeakPrefixes[i % 3], i / 3, j / 3);
        } else {
          assert names[i][0] != names[j][0];
        }
      } else if i < s {
        if i % 3 == 2 {
          assert names[i][3] != names[j][3];
        } else {
          assert names[i][0] != names[j][0];
        }
      }
    }
  }

  lemma L3NamesOnePeak()
    ensures L3Names(1) == ["height_0", "center_0", "sigma_0", "sig_height", "sig_center", "sig_sigma", "offset"]
  {
    assert Digit(0) == '0';
    assert Decimal(0) == "0";
    assert PeakPrefixes[0] + "0" == "height_0";
    assert PeakPrefixes[1] + "0" == "center_0";
    assert PeakPrefixes[2] + "0" == "sigma_0";
    assert PeakNames(0) == ["height_0", "center_0", "sigma_0"];
  }

  const GaussianNames: seq<string> := ["height", "center", "width"]
  const KCurveNames: seq<string> := ["scale", "voffset", "E0", "sigw", "bg_slope", "ga", "gb", "gc"]

  /** `param_names` of each curve; a line inherits the base class's empty tuple. */
  function ParamNames(curve: Curve): (names: seq<string>)
    ensures |names| == if curve.Line? then 0 else Arity(curve)
  {
    match curve
    case Line(_) => []
    case LinearCombination(sources) => WeightNamesMeaning(|sources|); WeightNames(|sources|)
    case Gaussian(_) => GaussianNames
    case L3Curve(_, numPeaks) => L3NamesMeaning(numPeaks); L3Names(numPeaks)
    case KCurve(_) => KCurveNames
  }

  /** Every curve but the line names each of its parameters once. */
  lemma ParamNamesMatchArity(curve: Curve)
    ensures curve.Line? <==> |ParamNames(curve)| != Arity(curve)
    ensures Distinct(ParamNames(curve))
  {
    match curve
    case LinearCombination(sources) => WeightNamesMeaning(|sources|);
    case L3Curve(_, numPeaks) => L3NamesMeaning(numPeaks);
    case _ =>
  }
}
