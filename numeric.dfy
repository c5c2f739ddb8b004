/**
 * Numbers as numpy holds them in the fitting code: a double is modelled as
 * a mathematical real or NaN. The square root used by `np.linalg.norm` and
 * by the RMS residual is not definable over Dafny's reals, so it is passed
 * around as a function that is only known to be the non-negative root.
 */
module Numeric {

  /** A float64 value: NaN, or a real number. */
  datatype Num = NaN | Real(r: real)

  function Abs(x: real): real {
    if x < 0.0 then -x else x
  }

  /** `np.maximum(x, 0)` */
  function Max0(x: real): real {
    if x < 0.0 then 0.0 else x
  }

  /** `np.any(np.isnan(s))` */
  predicate HasNaN(s: seq<Num>) {
    exists i :: 0 <= i < |s| && s[i].NaN?
  }

  /** The real values of a NaN-free sequence. */
  function Values(s: seq<Num>): (r: seq<real>)
    requires !HasNaN(s)
    ensures |r| == |s|
    ensures forall i :: 0 <= i < |s| ==> s[i] == Real(r[i])
  {
    seq(|s|, i requires 0 <= i < |s| => s[i].r)
  }

  /** Real values seen as float64 values. */
  function Lift(s: seq<real>): (r: seq<Num>)
    ensures |r| == |s| && !HasNaN(r)
    ensures forall i :: 0 <= i < |s| ==> r[i] == Real(s[i])
  {
    seq(|s|, i requires 0 <= i < |s| => Real(s[i]))
  }

  /** The identity. `Sq` multiplies by it so that the solver keeps a square
      as a product of two terms, which its arithmetic handles completely. */
  function Same(x: real): real {
    x
  }

  function Sq(x: real): real {
    x * Same(x)
  }

  lemma SqPositive(x: real)
    ensures 0.0 <= Sq(x)
    ensures x != 0.0 ==> 0.0 < Sq(x)
  {
  }

  lemma MulPositive(a: real, b: real)
    requires 0.0 < a && 0.0 < b
    ensures 0.0 < a * b
  {
  }

  lemma SqStrictlyMonotonic(a: real, b: real)
    requires 0.0 <= a < b
    ensures Sq(a) < Sq(b)
  {
    MulPositive(b - a, b + a);
    assert (b - a) * (b + a) == Sq(b) - Sq(a);
  }

  /** `sqrt` returns the non-negative square root of every non-negative real. */
  ghost predicate IsSqrt(sqrt: real -> real) {
    forall x: real {:trigger sqrt(x)} :: 0.0 <= x ==> 0.0 <= sqrt(x) && Sq(sqrt(x)) == x
  }

  lemma SqrtZeroIff(sqrt: real -> real, x: real)
    requires IsSqrt(sqrt) && 0.0 <= x
    ensures 0.0 <= sqrt(x)
    ensures sqrt(x) == 0.0 <==> x == 0.0
  {
    SqPositive(sqrt(x));
  }

  /** The root of a square of a non-negative number is that number. */
  lemma SqrtOfSq(sqrt: real -> real, d: real)
    requires IsSqrt(sqrt) && 0.0 <= d
    ensures sqrt(Sq(d)) == d
  {
    SqPositive(d);
    var s := sqrt(Sq(d));
    if s < d {
      SqStrictlyMonotonic(s, d);
    } else if d < s {
      SqStrictlyMonotonic(d, s);
    }
  }

  /** Sum of the squares of the elements. */
  function SumSquares(s: seq<real>): (r: real)
    ensures 0.0 <= r
  {
    if s == [] then 0.0 else (SqPositive(s[|s| - 1]); SumSquares(s[..|s| - 1]) + Sq(s[|s| - 1]))
  }

  /** A sum of squares vanishes exactly when every element does. */
  lemma {:induction false} SumSquaresZeroIff(s: seq<real>)
    ensures SumSquares(s) == 0.0 <==> forall i :: 0 <= i < |s| ==> s[i] == 0.0
  {
    if s != [] {
      var init := s[..|s| - 1];
      SumSquaresZeroIff(init);
      SqPositive(s[|s| - 1]);
      assert forall i :: 0 <= i < |init| ==> init[i] == s[i];
    }
  }

  /** Dividing a product by one of its non-zero factors gives the other. */
  lemma DivideProduct(m: real, d: real)
    requires d != 0.0
    ensures (m * d) / d == m
  {
  }
}
