/**
  compute_optimal_heading in GGSurveyEstimator.py: the vertices of every part
  of the selected polygon are collected in order (a None vertex, which marks
  the start of an interior ring, is skipped), then each consecutive pair is
  measured and the bearing of the first strictly longest edge is kept. Any
  exception from the range/bearing routine makes the search return 0.
*/
module OptimalHeading {
  import opened Wrappers
  import Geodetic
  import SurveyEstimator

  type Point = SurveyEstimator.Point

  /** A part of a polygon as the geometry iterator yields it: vertices, with None before each interior ring. */
  type Part = seq<Option<Point>>

  /** The vertices of one part, in order, with the None markers dropped. */
  function PartVertices(part: Part): (v: seq<Point>)
    ensures |v| <= |part|
  {
    if part == [] then []
    else
      var rest := PartVertices(part[..|part| - 1]);
      match part[|part| - 1]
      case None => rest
      case Some(pt) => rest + [pt]
  }

  /** The vertices of all parts, part after part: the order in which the source appends them to xc and yc. */
  function Vertices(parts: seq<Part>): seq<Point>
  {
    if parts == [] then [] else Vertices(parts[..|parts| - 1]) + PartVertices(parts[|parts| - 1])
  }

  /** A part without interior-ring markers contributes every one of its vertices, in order. */
  lemma {:induction false} PartVerticesOfSimplePart(part: Part)
    requires forall j :: 0 <= j < |part| ==> part[j].Some?
    ensures |PartVertices(part)| == |part|
    ensures forall j :: 0 <= j < |part| ==> PartVertices(part)[j] == part[j].value
  {
    if part != [] {
      PartVerticesOfSimplePart(part[..|part| - 1]);
    }
  }

  /** Every vertex kept is a vertex of some part: the markers are skipped, nothing is invented. */
  lemma {:induction false} VerticesComeFromParts(parts: seq<Part>, k: nat)
    requires k < |Vertices(parts)|
    ensures exists i, j :: 0 <= i < |parts| && 0 <= j < |parts[i]| && parts[i][j] == Some(Vertices(parts)[k])
  {
    var front := Vertices(parts[..|parts| - 1]);
    var last := parts[|parts| - 1];
    if k < |front| {
      VerticesComeFromParts(parts[..|parts| - 1], k);
      var i, j :| 0 <= i < |parts| - 1 && 0 <= j < |parts[..|parts| - 1][i]| && parts[..|parts| - 1][i][j] == Some(front[k]);
      assert parts[i][j] == Some(Vertices(parts)[k]);
    } else {
      var j := PartVertexSource(last, k - |front|);
      assert last[j] == Some(Vertices(parts)[k]);
    }
  }

  /** The position in the part of its k-th kept vertex. */
  lemma {:induction false} PartVertexSource(part: Part, k: nat) returns (j: nat)
    requires k < |PartVertices(part)|
    ensures j < |part| && part[j] == Some(PartVertices(part)[k])
  {
    var rest := PartVertices(part[..|part| - 1]);
    if k < |rest| {
      j := PartVertexSource(part[..|part| - 1], k);
    } else {
      j := |part| - 1;
    }
  }

  /** Range and bearing of the edge from vertex i - 1 to vertex i; None when the routine raises. */
  function EdgeMeasure(num: Geodetic.Numerics, v: seq<Point>, isGeographic: bool, i: nat): Option<(real, real)>
    requires 1 <= i < |v|
  {
    Geodetic.RangeBearingFromCoordinates(num, v[i - 1].x, v[i - 1].y, v[i].x, v[i].y, isGeographic)
  }

  /** The measures of the consecutive edges, the i-th from vertex i to vertex i + 1. */
  function EdgeMeasures(num: Geodetic.Numerics, v: seq<Point>, isGeographic: bool): (ms: seq<Option<(real, real)>>)
    ensures |v| >= 1 ==> |ms| == |v| - 1
    ensures |v| == 0 ==> ms == []
  {
    if |v| == 0 then []
    else seq(|v| - 1, i requires 0 <= i < |v| - 1 => EdgeMeasure(num, v, isGeographic, i + 1))
  }

  /**
    The (max_range, optimal_bearing) pair after the first n edges, starting from (0, 0): an edge replaces the
    pair only when its range is strictly greater. None once an edge has raised.
  */
  function BestEdge(ms: seq<Option<(real, real)>>, n: nat): Option<(real, real)>
    requires n <= |ms|
  {
    if n == 0 then Some((0.0, 0.0))
    else
      match BestEdge(ms, n - 1)
      case None => None
      case Some(best) =>
        match ms[n - 1]
        case None => None
        case Some(rb) => if rb.0 > best.0 then Some(rb) else Some(best)
  }

  /** Each of the first n edges can be measured. */
  predicate Measurable(ms: seq<Option<(real, real)>>, n: nat)
    requires n <= |ms|
  {
    forall i :: 0 <= i < n ==> ms[i].Some?
  }

  /** The heading compute_optimal_heading returns: the bearing kept, or 0 when the measuring raised. */
  function Heading(num: Geodetic.Numerics, parts: seq<Part>, isGeographic: bool): real
  {
    var ms := EdgeMeasures(num, Vertices(parts), isGeographic);
    match BestEdge(ms, |ms|)
    case None => 0.0
    case Some(best) => best.1
  }

  /** The search fails exactly when some edge cannot be measured. */
  lemma {:induction false} BestEdgeFailsIff(ms: seq<Option<(real, real)>>, n: nat)
    requires n <= |ms|
    ensures BestEdge(ms, n).Some? <==> Measurable(ms, n)
  {
    if n > 0 {
      BestEdgeFailsIff(ms, n - 1);
    }
  }

  /** The range kept is at least 0 and at least the range of every edge. */
  lemma {:induction false} BestEdgeIsLongest(ms: seq<Option<(real, real)>>, n: nat)
    requires n <= |ms| && Measurable(ms, n)
    ensures BestEdge(ms, n).Some? && BestEdge(ms, n).value.0 >= 0.0
    ensures forall i :: 0 <= i < n ==> ms[i].value.0 <= BestEdge(ms, n).value.0
  {
    BestEdgeFailsIff(ms, n);
    if n > 0 {
      BestEdgeIsLongest(ms, n - 1);
    }
  }

  /**
    Which edge is kept: when no edge is longer than 0 the result is (0, 0); otherwise it is the range and
    bearing of the first edge whose range is the maximum, which is then positive.
  */
  lemma {:induction false} BestEdgeIsFirstLongest(ms: seq<Option<(real, real)>>, n: nat)
    requires n <= |ms| && Measurable(ms, n)
    ensures BestEdge(ms, n).Some?
    ensures var best := BestEdge(ms, n).value;
      (best == (0.0, 0.0) && (forall i :: 0 <= i < n ==> ms[i].value.0 <= 0.0)) ||
      (best.0 > 0.0 &&
       (exists i :: (0 <= i < n && ms[i] == Some(best) && (forall j :: 0 <= j < i ==> ms[j].value.0 < best.0))))
  {
    BestEdgeFailsIff(ms, n);
    if n > 0 {
      BestEdgeIsFirstLongest(ms, n - 1);
      BestEdgeIsLongest(ms, n - 1);
      var prev := BestEdge(ms, n - 1).value;
      var e := ms[n - 1].value;
      if e.0 > prev.0 {
        assert BestEdge(ms, n) == Some(e);
        assert ms[n - 1] == Some(e);
      } else {
        assert BestEdge(ms, n) == Some(prev);
        if prev.0 > 0.0 {
          var i :| 0 <= i < n - 1 && ms[i] == Some(prev) && (forall j :: 0 <= j < i ==> ms[j].value.0 < prev.0);
          assert 0 <= i < n;
        }
      }
    }
  }

  /** Ties keep the earlier edge: an edge only as long as the best so far leaves the result unchanged. */
  lemma TiesKeepEarlierEdge(ms: seq<Option<(real, real)>>, n: nat)
    requires 1 <= n <= |ms|
    requires BestEdge(ms, n - 1).Some? && ms[n - 1].Some?
    requires ms[n - 1].value.0 == BestEdge(ms, n - 1).value.0
    ensures BestEdge(ms, n) == BestEdge(ms, n - 1)
  {
  }

  /** Once an edge has raised, every later prefix fails too: the exception ends the search. */
  lemma {:induction false} FailureSticks(ms: seq<Option<(real, real)>>, n: nat, m: nat)
    requires n <= m <= |ms|
    requires BestEdge(ms, n).None?
    ensures BestEdge(ms, m).None?
    decreases m - n
  {
    if n < m {
      FailureSticks(ms, n + 1, m);
    }
  }

  /** A polygon with fewer than two vertices has no edge, and the heading is 0. */
  lemma NoEdgeHeadsNorth(num: Geodetic.Numerics, parts: seq<Part>, isGeographic: bool)
    requires |Vertices(parts)| <= 1
    ensures Heading(num, parts, isGeographic) == 0.0
  {
  }

  /** The first loop of compute_optimal_heading: x and y of every vertex, part after part, None markers skipped. */
  method CollectVertices(parts: seq<Part>) returns (xc: seq<real>, yc: seq<real>)
    ensures |xc| == |yc| == |Vertices(parts)|
    ensures forall k :: 0 <= k < |xc| ==> Vertices(parts)[k] == SurveyEstimator.Point(xc[k], yc[k])
  {
    xc, yc := [], [];
    for p := 0 to |parts|
      invariant |xc| == |yc| == |Vertices(parts[..p])|
      invariant forall k :: 0 <= k < |xc| ==> Vertices(parts[..p])[k] == SurveyEstimator.Point(xc[k], yc[k])
    {
      var part := parts[p];
      ghost var before := Vertices(parts[..p]);
      for q := 0 to |part|
        invariant |xc| == |yc| == |before| + |PartVertices(part[..q])|
        invariant forall k :: 0 <= k < |xc| ==> (before + PartVertices(part[..q]))[k] == SurveyEstimator.Point(xc[k], yc[k])
      {
        assert part[..q + 1][..q] == part[..q];
        match part[q]
        case None =>
        case Some(pnt) =>
          xc := xc + [pnt.x];
          yc := yc + [pnt.y];
      }
      assert part[..|part|] == part;
      assert parts[..p + 1][..p] == parts[..p];
    }
    assert parts[..|parts|] == parts;
  }

  /**
    compute_optimal_heading: collects x and y of every vertex, then walks the consecutive pairs keeping the
    longest edge's bearing; a raising edge makes it return 0.
  */
  method ComputeOptimalHeading(num: Geodetic.Numerics, parts: seq<Part>, isGeographic: bool) returns (heading: real)
    ensures heading == Heading(num, parts, isGeographic)
  {
    var xc, yc := CollectVertices(parts);
    ghost var ms := EdgeMeasures(num, Vertices(parts), isGeographic);
    var maxRange := 0.0;
    var bearing := 0.0;
    for count := 1 to |xc| + 1
      invariant BestEdge(ms, if count - 1 <= |ms| then count - 1 else |ms|) == Some((maxRange, bearing))
    {
      if count < |xc| {
        var m := Geodetic.RangeBearingFromCoordinates(num, xc[count - 1], yc[count - 1], xc[count], yc[count], isGeographic);
        assert m == ms[count - 1];
        if m.None? {
          FailureSticks(ms, count, |ms|);
          return 0.0;
        }
        var rng := m.value.0;
        if rng > maxRange {
          bearing := m.value.1;
          maxRange := rng;
        }
      }
    }
    return bearing;
  }
}
