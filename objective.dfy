/**
 * The residual objective `error(guess, obs, func, bounds)` that the fitter
 * hands to the least-squares solver: the elementwise absolute difference
 * between observation and prediction, plus one uniform penalty of ten times
 * the distance to the bounds when the guess lies outside them.
 */
module Objective {
  import opened Wrappers
  import opened Numeric
  import opened Bounds

  /** The amount added to every residual element: `10 * distance_to_bounds`
      when the guess is out of bounds, nothing otherwise. */
  function Penalty(guess: seq<real>, bounds: Option<Box>, sqrt: real -> real): (r: real)
    requires bounds.Some? ==> Conforms(guess, bounds.value)
    requires IsSqrt(sqrt)
    ensures 0.0 <= r
    ensures 0.0 < r <==> IsOutOfBounds(guess, bounds)
  {
    if IsOutOfBounds(guess, bounds) then DistanceToBounds(guess, bounds.value, sqrt) * 10.0 else 0.0
  }

  /** `error(guess, obs, func, bounds)`. The source asserts that no element
      of the difference is NaN; predictions are real here, so that assertion
      becomes the precondition that the observation holds no NaN. */
  method Error(guess: seq<real>, obs: seq<Num>, func: seq<real> -> seq<real>,
               bounds: Option<Box>, sqrt: real -> real)
    returns (diff: seq<real>)
    requires |func(guess)| == |obs|
    requires !HasNaN(obs)
    requires bounds.Some? ==> Conforms(guess, bounds.value)
    requires IsSqrt(sqrt)
    ensures |diff| == |obs|
    ensures forall i :: 0 <= i < |obs| ==>
              diff[i] == Abs(obs[i].r - func(guess)[i]) + Penalty(guess, bounds, sqrt)
    ensures !IsOutOfBounds(guess, bounds) ==>
              forall i :: 0 <= i < |obs| ==> diff[i] == Abs(obs[i].r - func(guess)[i])
    ensures IsOutOfBounds(guess, bounds) ==>
              forall i :: 0 <= i < |obs| ==> diff[i] > Abs(obs[i].r - func(guess)[i])
    ensures forall i :: 0 <= i < |obs| ==> diff[i] >= 0.0
  {
    var predicted := func(guess);
    var d := new real[|obs|];
    // diff = np.abs(obs - predicted)
    var i := 0;
    while i < |obs|
      invariant 0 <= i <= |obs|
      invariant forall j :: 0 <= j < i ==> d[j] == Abs(obs[j].r - predicted[j])
    {
      d[i] := Abs(obs[i].r - predicted[i]);
      i := i + 1;
    }
    // diff += distance_to_bounds(guess, bounds) * 10
    if IsOutOfBounds(guess, bounds) {
      var penalty := DistanceToBounds(guess, bounds.value, sqrt) * 10.0;
      i := 0;
      while i < |obs|
        invariant 0 <= i <= |obs|
        invariant forall j :: 0 <= j < i ==> d[j] == Abs(obs[j].r - predicted[j]) + penalty
        invariant forall j :: i <= j < |obs| ==> d[j] == Abs(obs[j].r - predicted[j])
      {
        d[i] := d[i] + penalty;
        i := i + 1;
      }
    }
    diff := d[..];
  }

  /** The unit test's out-of-bounds guess `(-1, 2)` against the non-negative
      box `([0, 0], [inf, inf])` is penalised by exactly 10. */
  lemma NonnegativePenaltyExample(sqrt: real -> real)
    requires IsSqrt(sqrt)
    ensures Penalty([-1.0, 2.0], Some(Box([Finite(0.0), Finite(0.0)], [Infinite, Infinite])), sqrt) == 10.0
  {
    var b := Box([Finite(0.0), Finite(0.0)], [Infinite, Infinite]);
    assert Violates([-1.0, 2.0], b, 0);
    assert !Violates([-1.0, 2.0], b, 1);
    DistanceSingleViolation([-1.0, 2.0], b, sqrt, 0);
  }
}
