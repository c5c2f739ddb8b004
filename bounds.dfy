/**
 * The bounds policy of the fitter: `is_out_of_bounds` and
 * `distance_to_bounds` in xanespy/fitting.py. A box is a pair of
 * per-parameter limit vectors `(lower, upper)`; an infinite limit is -inf
 * on the lower side and +inf on the upper side.
 */
module Bounds {
  import opened Wrappers
  import opened Numeric

  /** One side of a box constraint on one parameter. */
  datatype Limit = Finite(r: real) | Infinite

  /** `bounds = (lower, upper)` */
  datatype Box = Box(lower: seq<Limit>, upper: seq<Limit>)

  /** The box has one lower and one upper limit per parameter. */
  predicate Conforms(p: seq<real>, b: Box) {
    |b.lower| == |p| && |b.upper| == |p|
  }

  /** `np.less(x, lower)`: false against -inf. */
  predicate BelowLower(x: real, l: Limit) {
    l.Finite? && x < l.r
  }

  /** `np.greater(x, upper)`: false against +inf. */
  predicate AboveUpper(x: real, u: Limit) {
    u.Finite? && x > u.r
  }

  /** Parameter i lies strictly outside its interval. */
  predicate Violates(p: seq<real>, b: Box, i: int)
    requires Conforms(p, b) && 0 <= i < |p|
  {
    BelowLower(p[i], b.lower[i]) || AboveUpper(p[i], b.upper[i])
  }

  /** Whether one of the first n parameters lies outside its interval. */
  function AnyViolation(p: seq<real>, b: Box, n: nat): (r: bool)
    requires Conforms(p, b) && n <= |p|
    ensures r <==> exists i :: 0 <= i < n && Violates(p, b, i)
  {
    n > 0 && (Violates(p, b, n - 1) || AnyViolation(p, b, n - 1))
  }

  /** `is_out_of_bounds(params, bounds)`: some component is strictly below
      its lower or strictly above its upper limit; never with no bounds. */
  function IsOutOfBounds(p: seq<real>, bounds: Option<Box>): (r: bool)
    requires bounds.Some? ==> Conforms(p, bounds.value)
    ensures bounds.None? ==> !r
    ensures bounds.Some? ==> (r <==> exists i :: 0 <= i < |p| && Violates(p, bounds.value, i))
  {
    bounds.Some? && AnyViolation(p, bounds.value, |p|)
  }

  /** `max(lower - x, 0) + max(x - upper, 0)`, the clipped violation of one
      component; an infinite limit contributes nothing. */
  function Violation(x: real, l: Limit, u: Limit): (v: real)
    ensures 0.0 <= v
    ensures v > 0.0 <==> BelowLower(x, l) || AboveUpper(x, u)
  {
    (if l.Finite? then Max0(l.r - x) else 0.0) + (if u.Finite? then Max0(x - u.r) else 0.0)
  }

  /** The sum of the squared violations of the first n components. */
  function SquaredDistance(p: seq<real>, b: Box, n: nat): (r: real)
    requires Conforms(p, b) && n <= |p|
    ensures 0.0 <= r
  {
    if n == 0 then 0.0
    else
      SqPositive(Violation(p[n - 1], b.lower[n - 1], b.upper[n - 1]));
      SquaredDistance(p, b, n - 1) + Sq(Violation(p[n - 1], b.lower[n - 1], b.upper[n - 1]))
  }

  /** The squared distance vanishes exactly when no component violates. */
  lemma {:induction false} SquaredDistanceZeroIff(p: seq<real>, b: Box, n: nat)
    requires Conforms(p, b) && n <= |p|
    ensures SquaredDistance(p, b, n) == 0.0 <==> forall i :: 0 <= i < n ==> !Violates(p, b, i)
  {
    if n > 0 {
      SquaredDistanceZeroIff(p, b, n - 1);
      var v := Violation(p[n - 1], b.lower[n - 1], b.upper[n - 1]);
      SqPositive(v);
      assert v == 0.0 <==> !Violates(p, b, n - 1);
      assert Sq(0.0) == 0.0;
    }
  }

  /** When only component k violates, the squared distance is its squared violation. */
  lemma {:induction false} SquaredDistanceSingle(p: seq<real>, b: Box, n: nat, k: nat)
    requires Conforms(p, b) && k < n <= |p|
    requires forall i :: 0 <= i < |p| && i != k ==> !Violates(p, b, i)
    ensures SquaredDistance(p, b, n) == Sq(Violation(p[k], b.lower[k], b.upper[k]))
  {
    if n - 1 == k {
      SquaredDistanceZeroIff(p, b, k);
    } else {
      SquaredDistanceSingle(p, b, n - 1, k);
      assert !Violates(p, b, n - 1);
      assert Sq(0.0) == 0.0;
      assert Violation(p[n - 1], b.lower[n - 1], b.upper[n - 1]) == 0.0;
    }
  }

  /** `distance_to_bounds(params, bounds)`: the Euclidean norm of the
      per-component violations, zero exactly when the parameters are in bounds. */
  function DistanceToBounds(p: seq<real>, b: Box, sqrt: real -> real): (d: real)
    requires Conforms(p, b) && IsSqrt(sqrt)
    ensures 0.0 <= d
    ensures Sq(d) == SquaredDistance(p, b, |p|)
    ensures d == 0.0 <==> !IsOutOfBounds(p, Some(b))
  {
    SquaredDistanceZeroIff(p, b, |p|);
    SqrtZeroIff(sqrt, SquaredDistance(p, b, |p|));
    sqrt(SquaredDistance(p, b, |p|))
  }

  /** With a single violating component the distance is that component's
      violation (the L2 norm reduces to one axis). */
  lemma DistanceSingleViolation(p: seq<real>, b: Box, sqrt: real -> real, k: nat)
    requires Conforms(p, b) && IsSqrt(sqrt) && k < |p|
    requires forall i :: 0 <= i < |p| && i != k ==> !Violates(p, b, i)
    ensures DistanceToBounds(p, b, sqrt) == Violation(p[k], b.lower[k], b.upper[k])
  {
    SquaredDistanceSingle(p, b, |p|, k);
    SqrtOfSq(sqrt, Violation(p[k], b.lower[k], b.upper[k]));
  }

  /** The box `([0, 0], [2, 4])` of the unit tests. */
  const TestBox := Box([Finite(0.0), Finite(0.0)], [Finite(2.0), Finite(4.0)])

  /** The tests' cases: `[1, 3]` is inside, `[-1, 0]` is below and `[1, 5]`
      above the box; distances 0, 1 and sqrt(2) for `[1, 3]`, `[-1, 0]`, `[3, 5]`,
      and distance 1 for `[1, 5]`, which the tests only classify. */
  lemma TestCases(sqrt: real -> real)
    requires IsSqrt(sqrt)
    ensures !IsOutOfBounds([1.0, 3.0], Some(TestBox))
    ensures IsOutOfBounds([-1.0, 0.0], Some(TestBox))
    ensures IsOutOfBounds([1.0, 5.0], Some(TestBox))
    ensures DistanceToBounds([1.0, 3.0], TestBox, sqrt) == 0.0
    ensures DistanceToBounds([-1.0, 0.0], TestBox, sqrt) == 1.0
    ensures DistanceToBounds([1.0, 5.0], TestBox, sqrt) == 1.0
    ensures var d := DistanceToBounds([3.0, 5.0], TestBox, sqrt); 0.0 < d && Sq(d) == 2.0
  {
    assert Violates([-1.0, 0.0], TestBox, 0);
    assert Violates([1.0, 5.0], TestBox, 1);
    assert !Violates([1.0, 3.0], TestBox, 0) && !Violates([1.0, 3.0], TestBox, 1);
    assert !Violates([-1.0, 0.0], TestBox, 1);
    DistanceSingleViolation([-1.0, 0.0], TestBox, sqrt, 0);
    assert !Violates([1.0, 5.0], TestBox, 0);
    DistanceSingleViolation([1.0, 5.0], TestBox, sqrt, 1);
    assert Violates([3.0, 5.0], TestBox, 0);
    assert Violation(3.0, Finite(0.0), Finite(2.0)) == 1.0;
    assert Violation(5.0, Finite(0.0), Finite(4.0)) == 1.0;
    assert Sq(1.0) == 1.0;
    assert SquaredDistance([3.0, 5.0], TestBox, 2) == 2.0;
  }
}
