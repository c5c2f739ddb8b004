/**
 * X-ray absorption edges: an edge lists the energy regions a spectrum is
 * sampled on, each `(start, stop, step)`; `all_energies` builds the sorted
 * set of sampled energies, `energies_in_range` filters it by an inclusive
 * range, and `_post_edge_xs` turns abscissae into power-series features.
 */
module Edges {
  import opened Wrappers
  import opened Numeric

  datatype Region = Region(start: real, stop: real, step: real)
  datatype Range = Range(lo: real, hi: real)

  /** The class attributes of an edge; the base `Edge` has no E_0, no
      regions and no ranges, and a post-edge order of 2. */
  datatype Edge = Edge(
    e0: Option<real>,
    regions: seq<Region>,
    preEdge: Option<Range>,
    postEdge: Option<Range>,
    mapRange: Option<Range>,
    edgeRange: Option<Range>,
    postEdgeOrder: nat)

  datatype EdgeError =
    | ZeroStep       // dividing by a region's zero step
    | NegativeCount  // linspace of a negative number of samples
    | NoRegions      // concatenating no regions at all
    | NoMapRange     // no range given and the edge has no map range

  const BaseEdge := Edge(None, [], None, None, None, None, 2)

  // ---------------------------------------------------------------- all_energies

  /** Python's `int()` on a float: truncation toward zero. */
  function Trunc(r: real): (n: int)
    ensures r >= 0.0 ==> 0 <= n && n as real <= r < n as real + 1.0
    ensures r < 0.0 ==> n <= 0 && n as real - 1.0 < r <= n as real
  {
    if r >= 0.0 then r.Floor else -((-r).Floor)
  }

  /** The linspace sample count of a region, `int(stop - start) / step + 1`
      truncated to a whole number. */
  function Count(region: Region): int
    requires region.step != 0.0
  {
    Trunc(Trunc(region.stop - region.start) as real / region.step + 1.0)
  }

  /** `np.linspace(start, stop, n)`: n evenly spaced samples from start to
      stop inclusive. */
  function Linspace(start: real, stop: real, n: nat): (r: seq<real>)
    ensures |r| == n
  {
    if n == 1 then [start]
    else seq(n, i requires 0 <= i < n => start + i as real * Spacing(start, stop, n))
  }

  /** The distance between consecutive samples of a linspace. */
  function Spacing(start: real, stop: real, n: nat): real
    requires n >= 2
  {
    (stop - start) / (n - 1) as real
  }

  lemma ScaleQuotient(k: real, d: real)
    requires k != 0.0
    ensures k * (d / k) == d
  {
  }

  /** A linspace of two or more samples starts at `start` and ends at `stop`. */
  lemma LinspaceEnds(start: real, stop: real, n: nat)
    requires n >= 1
    ensures Linspace(start, stop, n)[0] == start
    ensures n >= 2 ==> Linspace(start, stop, n)[n - 1] == stop
  {
    if n >= 2 {
      var r := Linspace(start, stop, n);
      var k := (n - 1) as real;
      assert r[n - 1] == start + k * Spacing(start, stop, n);
      ScaleQuotient(k, stop - start);
      assert k * Spacing(start, stop, n) == stop - start;
    }
  }

  /** The samples of one region. */
  function RegionEnergies(region: Region): Result<seq<real>, EdgeError> {
    if region.step == 0.0 then Failure(ZeroStep)
    else if Count(region) < 0 then Failure(NegativeCount)
    else Success(Linspace(region.start, region.stop, Count(region)))
  }

  /** `v` is one of the samples of `region`. */
  predicate SampledAt(region: Region, v: real) {
    RegionEnergies(region).Success? && v in RegionEnergies(region).value
  }

  /** The samples of the regions concatenated in order; the first region
      that fails stops the loop. */
  function Chunks(regions: seq<Region>): Result<seq<real>, EdgeError> {
    if |regions| == 0 then Success([])
    else
      var front :- Chunks(regions[..|regions| - 1]);
      var last :- RegionEnergies(regions[|regions| - 1]);
      Success(front + last)
  }

  predicate Increasing(s: seq<real>) {
    forall i, j :: 0 <= i < j < |s| ==> s[i] < s[j]
  }

  function InsertSorted(s: seq<real>, e: real): (r: seq<real>)
    requires Increasing(s)
    ensures Increasing(r)
    ensures forall v :: v in r <==> v in s || v == e
  {
    if |s| == 0 then [e]
    else if e < s[0] then [e] + s
    else if e == s[0] then s
    else
      var rest := InsertSorted(s[1..], e);
      assert forall v :: v in s <==> v == s[0] || v in s[1..];
      assert forall k :: 0 <= k < |rest| ==> s[0] < rest[k] by {
        forall k | 0 <= k < |rest| ensures s[0] < rest[k] {
          assert rest[k] in rest;
        }
      }
      [s[0]] + rest
  }

  /** `sorted(list(set(s)))`. */
  function SortedUnique(s: seq<real>): (r: seq<real>)
    ensures Increasing(r)
    ensures forall v :: v in r <==> v in s
  {
    if |s| == 0 then []
    else
      var front := s[..|s| - 1];
      assert forall v :: v in s <==> v in front || v == s[|s| - 1];
      InsertSorted(SortedUnique(front), s[|s| - 1])
  }

  /** The energies of an edge: every sample of every region, sorted and
      without repetitions. */
  function Energies(edge: Edge): (r: Result<seq<real>, EdgeError>)
    ensures |edge.regions| == 0 ==> r == Failure(NoRegions)
    ensures r.Success? ==> Increasing(r.value)
  {
    var all :- Chunks(edge.regions);
    if |edge.regions| == 0 then Failure(NoRegions) else Success(SortedUnique(all))
  }

  lemma {:induction false} ChunksFailureStays(regions: seq<Region>, i: nat)
    requires i <= |regions| && Chunks(regions[..i]).Failure?
    ensures Chunks(regions) == Chunks(regions[..i])
    decreases |regions| - i
  {
    if i < |regions| {
      assert regions[..i + 1][..i] == regions[..i];
      ChunksFailureStays(regions, i + 1);
    } else {
      assert regions[..i] == regions;
    }
  }

  /** `Edge.all_energies`: appends the samples of each region in turn, then
      sorts them without repetitions. */
  method AllEnergies(edge: Edge) returns (r: Result<seq<real>, EdgeError>)
    ensures r == Energies(edge)
  {
    var energies: seq<real> := [];
    var i := 0;
    while i < |edge.regions|
      invariant 0 <= i <= |edge.regions|
      invariant Chunks(edge.regions[..i]) == Success(energies)
    {
      var chunk := RegionEnergies(edge.regions[i]);
      assert edge.regions[..i + 1][..i] == edge.regions[..i];
      if chunk.Failure? {
        ChunksFailureStays(edge.regions, i + 1);
        return Failure(chunk.error);
      }
      energies := energies + chunk.value;
      i := i + 1;
    }
    assert edge.regions[..i] == edge.regions;
    if |edge.regions| == 0 {
      return Failure(NoRegions);
    }
    r := Success(SortedUnique(energies));
  }

  /** The concatenation succeeds exactly when every region does, and then
      holds exactly the samples of the regions. */
  lemma {:induction false} ChunksMeaning(regions: seq<Region>)
    ensures Chunks(regions).Success? <==> forall j :: 0 <= j < |regions| ==> RegionEnergies(regions[j]).Success?
    ensures Chunks(regions).Success? ==>
              forall v :: v in Chunks(regions).value <==>
                exists j :: 0 <= j < |regions| && SampledAt(regions[j], v)
  {
    if |regions| > 0 {
      var front := regions[..|regions| - 1];
      ChunksMeaning(front);
      assert forall j :: 0 <= j < |front| ==> front[j] == regions[j];
    }
  }

  /** What `all_energies` returns: strictly increasing energies (so no
      repetitions), exactly the samples of the regions; the base edge,
      without regions, fails. */
  lemma EnergiesMeaning(edge: Edge)
    ensures |edge.regions| == 0 ==> Energies(edge) == Failure(NoRegions)
    ensures Energies(edge).Success? ==>
              && Increasing(Energies(edge).value)
              && forall v :: v in Energies(edge).value <==>
                   exists j :: 0 <= j < |edge.regions| && SampledAt(edge.regions[j], v)
  {
    ChunksMeaning(edge.regions);
    if Energies(edge).Success? {
      var all := Chunks(edge.regions).value;
      assert Energies(edge).value == SortedUnique(all);
    }
  }

  /** A region sampled at least twice. */
  predicate Sampled(region: Region) {
    region.step != 0.0 && Count(region) >= 2
  }

  /** When every region is sampled at least twice, all energies are found
      and include the start and the stop of every region. */
  lemma EnergiesHoldRegionEnds(edge: Edge)
    requires |edge.regions| > 0
    requires forall j :: 0 <= j < |edge.regions| ==> Sampled(edge.regions[j])
    ensures Energies(edge).Success?
    ensures forall j :: 0 <= j < |edge.regions| ==>
              edge.regions[j].start in Energies(edge).value && edge.regions[j].stop in Energies(edge).value
  {
    ChunksMeaning(edge.regions);
    EnergiesMeaning(edge);
    var energies := Energies(edge).value;
    forall j | 0 <= j < |edge.regions|
      ensures edge.regions[j].start in energies && edge.regions[j].stop in energies
    {
      RegionEndsSampled(edge.regions[j]);
    }
  }

  lemma RegionEndsSampled(region: Region)
    requires Sampled(region)
    ensures SampledAt(region, region.start) && SampledAt(region, region.stop)
  {
    var samples := RegionEnergies(region).value;
    LinspaceEnds(region.start, region.stop, Count(region));
    assert samples[0] == region.start && samples[|samples| - 1] == region.stop;
  }

  /** Consecutive samples of a linspace are `(stop - start) / (n - 1)` apart. */
  lemma LinspaceSpacing(start: real, stop: real, n: nat, i: nat)
    requires n >= 2 && i + 1 < n
    ensures Linspace(start, stop, n)[i + 1] - Linspace(start, stop, n)[i] == Spacing(start, stop, n)
  {
    var r := Linspace(start, stop, n);
    var q := Spacing(start, stop, n);
    assert r[i + 1] == start + (i + 1) as real * q && r[i] == start + i as real * q;
    assert (i + 1) as real * q == i as real * q + q;
  }

  /** A region of increasing energies spanning a whole number of steps, from
      a whole-number start to a whole-number stop, is sampled `step` apart. */
  lemma WholeRegionSpacing(region: Region, steps: nat)
    requires 0.0 < region.step && steps >= 1
    requires region.stop - region.start == steps as real * region.step
    requires (region.stop - region.start).Floor as real == region.stop - region.start
    ensures Count(region) == steps + 1
    ensures var samples := Linspace(region.start, region.stop, steps + 1);
            forall i :: 0 <= i < steps ==> samples[i + 1] - samples[i] == region.step
  {
    var d := region.stop - region.start;
    assert Trunc(d) as real == d;
    DivideProduct(steps as real, region.step);
    assert d / region.step == steps as real;
    assert d == region.step * steps as real;
    DivideProduct(region.step, steps as real);
    assert d / steps as real == region.step;
    var samples := Linspace(region.start, region.stop, steps + 1);
    forall i | 0 <= i < steps
      ensures samples[i + 1] - samples[i] == region.step
    {
      LinspaceSpacing(region.start, region.stop, steps + 1, i);
    }
  }

  // ---------------------------------------------------------------- shipped edges

  const NCACobaltLEdge := Edge(
    Some(793.2),
    [Region(770.0, 775.0, 1.0), Region(775.0, 785.0, 0.5), Region(785.0, 790.0, 1.0)],
    Some(Range(770.0, 775.0)), Some(Range(785.0, 790.0)), Some(Range(0.0, 1.0)), None, 2)

  const NCANickelLEdge := Edge(
    Some(853.0),
    [Region(844.0, 848.0, 1.0), Region(849.0, 856.0, 0.25), Region(857.0, 862.0, 1.0)],
    Some(Range(844.0, 848.0)), Some(Range(857.0, 862.0)), Some(Range(0.0, 1.0)), None, 2)

  const LMOMnKEdge := Edge(
    None,
    [Region(6450.0, 6510.0, 20.0), Region(6524.0, 6542.0, 2.0), Region(6544.0, 6564.0, 1.0),
     Region(6566.0, 6568.0, 2.0), Region(6572.0, 6600.0, 4.0), Region(6610.0, 6650.0, 10.0),
     Region(6700.0, 6850.0, 50.0)],
    None, None, None, None, 2)

  const NCANickelKEdge := Edge(
    Some(8333.0),
    [Region(8250.0, 8310.0, 20.0), Region(8324.0, 8344.0, 2.0), Region(8344.0, 8356.0, 1.0),
     Region(8356.0, 8360.0, 2.0), Region(8360.0, 8400.0, 4.0), Region(8400.0, 8440.0, 8.0),
     Region(8440.0, 8640.0, 50.0)],
    Some(Range(8249.0, 8281.0)), Some(Range(8440.0, 8640.0)),
    Some(Range(8341.0, 8358.0)), Some(Range(8341.0, 8358.0)), 2)

  const NCANickelKEdge61 := NCANickelKEdge.(regions :=
    [Region(8250.0, 8310.0, 15.0), Region(8324.0, 8360.0, 1.0), Region(8360.0, 8400.0, 4.0),
     Region(8400.0, 8440.0, 8.0), Region(8440.0, 8640.0, 50.0)])

  const NCANickelKEdge62 := NCANickelKEdge.(regions :=
    [Region(8250.0, 8310.0, 15.0), Region(8324.0, 8360.0, 1.0), Region(8360.0, 8400.0, 4.0),
     Region(8400.0, 8440.0, 8.0), Region(8440.0, 8690.0, 50.0)])

  const ShippedEdges := [NCACobaltLEdge, NCANickelLEdge, LMOMnKEdge, NCANickelKEdge, NCANickelKEdge61, NCANickelKEdge62]

  /** Every region of every shipped edge is sampled at least twice, so each
      shipped edge's energies contain the ends of all its regions. */
  lemma ShippedEdgesHoldRegionEnds()
    ensures forall e :: e in ShippedEdges ==> |e.regions| > 0
    ensures forall e, j :: e in ShippedEdges && 0 <= j < |e.regions| ==> Sampled(e.regions[j])
    ensures forall e, j :: e in ShippedEdges && 0 <= j < |e.regions| ==>
              Energies(e).Success?
              && e.regions[j].start in Energies(e).value && e.regions[j].stop in Energies(e).value
  {
    forall e | e in ShippedEdges
      ensures |e.regions| > 0
      ensures forall j :: 0 <= j < |e.regions| ==> Sampled(e.regions[j])
    {
      forall j | 0 <= j < |e.regions| ensures Sampled(e.regions[j]) {
        var region := e.regions[j];
        assert Count(region) >= 2;
      }
    }
    forall e | e in ShippedEdges {
      EnergiesHoldRegionEnds(e);
    }
  }

  // ---------------------------------------------------------------- energies_in_range

  /** The elements of `s` within `[lo, hi]`, in their order. */
  function Within(s: seq<real>, range: Range): (r: seq<real>)
    ensures forall v :: v in r <==> v in s && range.lo <= v <= range.hi
    ensures Increasing(s) ==> Increasing(r)
  {
    if |s| == 0 then []
    else
      var rest := Within(s[1..], range);
      assert forall v :: v in s <==> v == s[0] || v in s[1..];
      assert Increasing(s) ==> forall k :: 0 <= k < |rest| ==> s[0] < rest[k] by {
        if Increasing(s) {
          forall k | 0 <= k < |rest| ensures s[0] < rest[k] {
            assert rest[k] in s[1..];
          }
        }
      }
      if range.lo <= s[0] <= range.hi then [s[0]] + rest else rest
  }

  /** `Edge.energies_in_range`: the energies within the given range, or
      within the edge's map range when none is given. */
  function EnergiesInRange(edge: Edge, normRange: Option<Range>): (r: Result<seq<real>, EdgeError>)
    ensures normRange.None? && edge.mapRange.None? ==> r == Failure(NoMapRange)
    ensures r.Success? ==> Increasing(r.value)
    ensures r.Success? && normRange.Some? ==>
              forall v :: v in r.value ==> normRange.value.lo <= v <= normRange.value.hi
  {
    if normRange.None? && edge.mapRange.None? then Failure(NoMapRange)
    else
      var range := if normRange.Some? then normRange.value else edge.mapRange.value;
      var all :- Energies(edge);
      Success(Within(all, range))
  }

  /** The energies in a range are exactly the edge's energies `lo <= e <= hi`,
      increasing; with no range the edge's map range is used. */
  lemma EnergiesInRangeMeaning(edge: Edge, normRange: Option<Range>)
    ensures normRange.None? ==>
              EnergiesInRange(edge, normRange)
                == if edge.mapRange.None? then Failure(NoMapRange) else EnergiesInRange(edge, edge.mapRange)
    ensures normRange.Some? ==>
              (EnergiesInRange(edge, normRange).Success? <==> Energies(edge).Success?)
    ensures normRange.Some? && Energies(edge).Success? ==>
              var r := EnergiesInRange(edge, normRange).value;
              && Increasing(r)
              && forall v :: v in r <==> v in Energies(edge).value && normRange.value.lo <= v <= normRange.value.hi
  {
    EnergiesMeaning(edge);
  }

  // ---------------------------------------------------------------- _post_edge_xs

  /** `x`: one abscissa or an array of them. */
  datatype Abscissa = Scalar(v: real) | Vector(vs: seq<real>)

  function Pow(x: real, n: nat): real {
    if n == 0 then 1.0 else Pow(x, n - 1) * x
  }

  /** The feature row `[x, x^2, ..., x^order]`. */
  function Powers(x: real, order: nat): (row: seq<real>)
    ensures |row| == order
  {
    seq(order, k requires 0 <= k < order => Pow(x, k + 1))
  }

  /** The rows `_post_edge_xs` returns: one feature row per abscissa; a
      single row for a scalar; and one empty row whenever the order is 0. */
  function PostEdgeRows(x: Abscissa, order: nat): (rows: seq<seq<real>>)
    ensures |rows| == if order == 0 || x.Scalar? then 1 else |x.vs|
    ensures forall i :: 0 <= i < |rows| ==> |rows[i]| == order
  {
    if order == 0 then [[]]
    else if x.Scalar? then [Powers(x.v, order)]
    else seq(|x.vs|, i requires 0 <= i < |x.vs| => Powers(x.vs[i], order))
  }

  /** `Edge._post_edge_xs`: the powers appended one by one, then reshaped
      into one row per abscissa. */
  method PostEdgeXs(x: Abscissa, order: nat) returns (rows: seq<seq<real>>)
    ensures rows == PostEdgeRows(x, order)
  {
    var values := if x.Scalar? then [x.v] else x.vs;
    var powers: seq<seq<real>> := [];
    var power := 1;
    while power <= order
      invariant 1 <= power <= order + 1
      invariant |powers| == power - 1
      invariant forall k, i :: 0 <= k < power - 1 && 0 <= i < |values| ==>
                  |powers[k]| == |values| && powers[k][i] == Pow(values[i], k + 1)
      invariant forall k :: 0 <= k < power - 1 ==> |powers[k]| == |values|
    {
      powers := powers + [seq(|values|, i requires 0 <= i < |values| => Pow(values[i], power))];
      power := power + 1;
    }
    if order == 0 {
      rows := [[]];
    } else if x.Scalar? {
      rows := [seq(order, k requires 0 <= k < order => powers[k][0])];
      assert values[0] == x.v;
      assert forall k :: 0 <= k < order ==> rows[0][k] == Pow(x.v, k + 1);
      assert rows[0] == Powers(x.v, order);
    } else {
      rows := seq(|values|, i requires 0 <= i < |values| =>
                seq(order, k requires 0 <= k < order => powers[k][i]));
      assert forall i :: 0 <= i < |values| ==> rows[i] == Powers(values[i], order);
    }
  }

  /** Each feature row starts at x and multiplies by x from one column to
      the next. */
  lemma PostEdgeRowsMeaning(x: Abscissa, order: nat)
    requires order >= 1
    ensures var rows := PostEdgeRows(x, order);
            var values := if x.Scalar? then [x.v] else x.vs;
            && |rows| == |values|
            && forall i :: 0 <= i < |rows| ==>
                 |rows[i]| == order && rows[i][0] == values[i]
                 && forall k :: 0 <= k < order - 1 ==> rows[i][k + 1] == rows[i][k] * values[i]
  {
    var rows := PostEdgeRows(x, order);
    var values := if x.Scalar? then [x.v] else x.vs;
    forall i | 0 <= i < |rows|
      ensures rows[i] == Powers(values[i], order)
    {
    }
    forall i | 0 <= i < |rows|
      ensures rows[i][0] == values[i]
    {
      assert Pow(values[i], 1) == Pow(values[i], 0) * values[i];
    }
  }

  /** With the default order of 2 the row of x is `[x, x^2]`. */
  lemma DefaultOrderRows(x: real)
    ensures BaseEdge.postEdgeOrder == 2
    ensures PostEdgeRows(Scalar(x), BaseEdge.postEdgeOrder) == [[x, Sq(x)]]
  {
    assert Pow(x, 1) == x;
    assert Pow(x, 2) == Sq(x);
    assert Powers(x, 2) == [x, Sq(x)];
  }
}
