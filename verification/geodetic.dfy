/**
  Geodetic helpers of the survey estimator (geodetic.py): bearing normalisation,
  nautical-mile conversions, the planar range/bearing formulae, the dispatch
  between geographic and projected coordinates, the early-return guards and
  azimuth wrapping of Vincenty's inverse and direct solutions, and the 1-D
  median filter.

  The trigonometric functions and the two Vincenty iterations are not modelled:
  they are parameters, fields of a `Numerics` value. A Vincenty inverse
  iteration that raises (a division by sin(sigma) == 0, for example) yields None.
  Floating-point values are exact reals.
*/
module Geodetic {
  import opened Wrappers
  import Sorting

  /** math.pi. */
  const PI: real := 3.141592653589793
  /** 2π; the inverse solver's `atan(1.0) * 8.0` is the same double. */
  const TWO_PI: real := 2.0 * PI

  /** WGS84 semi-major and semi-minor axes used by the inverse solvers, in metres. */
  const SEMI_MAJOR: real := 6378137.0
  const SEMI_MINOR: real := 6356752.3142
  /** Flattening the inverse solvers derive from the two axes, (a - b) / a. */
  const INVERSE_FLATTENING: real := (SEMI_MAJOR - SEMI_MINOR) / SEMI_MAJOR
  /** Flattening the direct solver states outright, 1 / 298.257223563. */
  const DIRECT_FLATTENING: real := 1.0 / 298.257223563

  /** Metres in one degree of arc: 60 nautical miles of 1852 m. */
  const METRES_PER_DEGREE: real := 1852.0 * 60.0

  /** The outcome of Vincenty's inverse iteration, before the azimuths are wrapped: the atan2 results. */
  datatype InverseRaw = InverseRaw(s: real, alpha12: real, alpha21: real)

  /** The outcome of Vincenty's direct iteration, in radians: latitude, longitude change, raw reverse azimuth. */
  datatype DirectRaw = DirectRaw(latitude2: real, omega: real, alpha21: real)

  /** The numerical routines the model takes as given. */
  datatype Numerics = Numerics(
    cos: real -> real,
    sin: real -> real,
    atan2: (real, real) -> real,
    sqrt: real -> real,
    /** math.hypot(dx, dy). */
    hypot: (real, real) -> real,
    /** Vincenty's inverse iteration on (f, a, phi1, lembda1, phi2, lembda2), all angles in radians. */
    inverseIteration: (real, real, real, real, real, real) -> Option<InverseRaw>,
    /** Vincenty's direct iteration on (f, a, latitude1, longitude1, alpha12, s), angles in radians. */
    directIteration: (real, real, real, real, real, real) -> DirectRaw
  )

  /** math.atan2 returns an angle in [-π, π]. */
  predicate AtanRange(x: real)
  {
    -PI <= x <= PI
  }

  /** A position on the ellipsoid (degrees) with the reverse azimuth of the line that reached it. */
  datatype Geographical = Geographical(latitude: real, longitude: real, alpha21: real)

  /** A range and forward and reverse azimuths. */
  datatype RangeBearings = RangeBearings(s: real, alpha12: real, alpha21: real)

  function Radians(degrees: real): real
  {
    degrees * PI / 180.0
  }

  function Degrees(radians: real): real
  {
    radians * 180.0 / PI
  }

  lemma DegreesRadians(x: real)
    ensures Degrees(Radians(x)) == x && Radians(Degrees(x)) == x
  {
  }

  /** Python `bearing % 360` on floats: bearing - 360 * floor(bearing / 360), then a correction that never applies. */
  function Normalize360(bearing: real): (r: real)
    ensures 0.0 <= r < 360.0
    ensures IsWhole((bearing - r) / 360.0)
  {
    var q := (bearing / 360.0).Floor;
    var orientation := bearing - 360.0 * q as real;
    assert (bearing - orientation) / 360.0 == q as real;
    if orientation < 0.0 then orientation + 360.0 else orientation
  }

  predicate IsWhole(x: real)
  {
    x == x.Floor as real
  }

  /** A bearing already in [0, 360) is returned unchanged. */
  lemma Normalize360Identity(bearing: real)
    requires 0.0 <= bearing < 360.0
    ensures Normalize360(bearing) == bearing
  {
    assert (bearing / 360.0).Floor == 0;
  }

  /** Whole turns do not matter: bearing and bearing + 360k normalise alike. */
  lemma Normalize360Turns(bearing: real, k: int)
    ensures Normalize360(bearing + 360.0 * k as real) == Normalize360(bearing)
  {
    var q := (bearing / 360.0).Floor;
    var o := bearing - 360.0 * q as real;
    assert 0.0 <= o < 360.0;
    var b := bearing + 360.0 * k as real;
    assert b / 360.0 == (q + k) as real + o / 360.0;
    assert (b / 360.0).Floor == q + k;
  }

  lemma Normalize360Idempotent(bearing: real)
    ensures Normalize360(Normalize360(bearing)) == Normalize360(bearing)
  {
    Normalize360Identity(Normalize360(bearing));
  }

  function DegreesToMetres(degrees: real): (m: real)
    ensures degrees >= 0.0 ==> m >= degrees
  {
    degrees * METRES_PER_DEGREE
  }

  function MetresToDegrees(metres: real): (d: real)
    ensures metres >= 0.0 ==> 0.0 <= d <= metres
  {
    metres / METRES_PER_DEGREE
  }

  /** The two conversions are exact inverses of each other. */
  lemma MetresDegreesRoundTrip(x: real)
    ensures MetresToDegrees(DegreesToMetres(x)) == x
    ensures DegreesToMetres(MetresToDegrees(x)) == x
  {
  }

  // ---------------------------------------------------------------- planar

  /** Range and bearing between two grid positions; the bearing is 90 - degrees(atan2(dy, dx)). */
  function GridRangeBearing(num: Numerics, easting1: real, northing1: real, easting2: real, northing2: real): (rb: (real, real))
    ensures AtanRange(num.atan2(northing2 - northing1, easting2 - easting1)) ==> -90.0 <= rb.1 <= 270.0
  {
    var dx := easting2 - easting1;
    var dy := northing2 - northing1;
    var a := num.atan2(dy, dx);
    assert -PI <= a <= PI ==> -180.0 <= (180.0 / PI) * a <= 180.0;
    (num.sqrt(dx * dx + dy * dy), 90.0 - (180.0 / PI) * a)
  }

  /** The planar bearing is not normalised: due west is reported as -90, not 270. */
  lemma GridBearingDueWest(num: Numerics)
    requires num.atan2(0.0, -1.0) == PI
    ensures GridRangeBearing(num, 0.0, 0.0, -1.0, 0.0).1 == -90.0
  {
  }

  /** The grid position reached from (easting, northing) at the given range and bearing. */
  function GridPosition(num: Numerics, easting: real, northing: real, rng: real, bearing: real): (p: (real, real))
  {
    var c, d := num.cos(Radians(270.0 - bearing)), num.sin(Radians(270.0 - bearing));
    (easting + c * rng, northing + d * rng)
  }

  /** At range 0 the grid position is the start point. */
  lemma GridPositionZeroRange(num: Numerics, easting: real, northing: real, bearing: real)
    ensures GridPosition(num, easting, northing, 0.0, bearing) == (easting, northing)
  {
    var c, d := num.cos(Radians(270.0 - bearing)), num.sin(Radians(270.0 - bearing));
    assert c * 0.0 == 0.0 && d * 0.0 == 0.0;
  }

  /** Opposite ranges on the same bearing land symmetrically about the start point. */
  lemma GridPositionOpposite(num: Numerics, easting: real, northing: real, rng: real, bearing: real)
    ensures var p, q := GridPosition(num, easting, northing, rng, bearing), GridPosition(num, easting, northing, -rng, bearing);
      p.0 + q.0 == 2.0 * easting && p.1 + q.1 == 2.0 * northing
  {
    var c, d := num.cos(Radians(270.0 - bearing)), num.sin(Radians(270.0 - bearing));
    assert c * rng + c * -rng == 0.0 && d * rng + d * -rng == 0.0;
  }

  // ---------------------------------------------------------------- geographic

  /** Adds 2π to a negative angle, then subtracts 2π from one above 2π. */
  function WrapAngle(angle: real): (r: real)
    ensures -TWO_PI <= angle <= 2.0 * TWO_PI ==> 0.0 <= r <= TWO_PI
    ensures r == angle || r == angle + TWO_PI || r == angle - TWO_PI
  {
    var a := if angle < 0.0 then angle + TWO_PI else angle;
    if a > TWO_PI then a - TWO_PI else a
  }

  /** Both coordinate differences are below 1e-8: the inverse solvers' coincident-point test. */
  predicate Coincident(x1: real, y1: real, x2: real, y2: real)
  {
    -0.00000001 < x2 - x1 < 0.00000001 && -0.00000001 < y2 - y1 < 0.00000001
  }

  /** vinc_dist: distance and azimuths in radians between two points given in radians. */
  function VincDist(num: Numerics, f: real, a: real, phi1: real, lembda1: real, phi2: real, lembda2: real): (r: Option<RangeBearings>)
    ensures Coincident(phi1, lembda1, phi2, lembda2) ==> r == Some(RangeBearings(0.0, 0.0, 0.0))
    ensures !Coincident(phi1, lembda1, phi2, lembda2) ==>
      (r.Some? <==> num.inverseIteration(f, a, phi1, lembda1, phi2, lembda2).Some?)
    ensures r.Some? && !Coincident(phi1, lembda1, phi2, lembda2) ==>
      var raw := num.inverseIteration(f, a, phi1, lembda1, phi2, lembda2).value;
      r.value.s == raw.s &&
      (AtanRange(raw.alpha12) ==> 0.0 <= r.value.alpha12 <= TWO_PI) &&
      (AtanRange(raw.alpha21) ==> 0.0 <= r.value.alpha21 <= TWO_PI)
  {
    if Coincident(phi1, lembda1, phi2, lembda2) then Some(RangeBearings(0.0, 0.0, 0.0))
    else
      match num.inverseIteration(f, a, phi1, lembda1, phi2, lembda2)
      case None => None
      case Some(raw) => Some(RangeBearings(raw.s, WrapAngle(raw.alpha12), WrapAngle(raw.alpha21 + TWO_PI / 2.0)))
  }

  /** calculateRangeBearingFromGeographicals2: (range, forward azimuth in radians) between two points in degrees. */
  function RangeBearingFromGeographicals2(num: Numerics, longitude1: real, latitude1: real, longitude2: real, latitude2: real): (r: Option<(real, real)>)
    ensures Coincident(Radians(latitude1), Radians(longitude1), Radians(latitude2), Radians(longitude2)) ==> r == Some((0.0, 0.0))
  {
    match VincDist(num, INVERSE_FLATTENING, SEMI_MAJOR, Radians(latitude1), Radians(longitude1), Radians(latitude2), Radians(longitude2))
    case None => None
    case Some(rb) => Some((rb.s, rb.alpha12))
  }

  /** calculateRangeBearingFromGeographicals: range and azimuths in degrees between two points in degrees. */
  function RangeBearingFromGeographicals(num: Numerics, longitude1: real, latitude1: real, longitude2: real, latitude2: real): (r: Option<RangeBearings>)
    ensures Coincident(latitude1, longitude1, latitude2, longitude2) ==> r == Some(RangeBearings(0.0, 0.0, 0.0))
    ensures !Coincident(latitude1, longitude1, latitude2, longitude2) ==>
      match num.inverseIteration(INVERSE_FLATTENING, SEMI_MAJOR, Radians(latitude1), Radians(longitude1), Radians(latitude2), Radians(longitude2))
      case None => r.None?
      case Some(raw) => r.Some? && r.value.s == raw.s && (AtanRange(raw.alpha12) ==> 0.0 <= r.value.alpha12 <= 360.0)
  {
    if Coincident(latitude1, longitude1, latitude2, longitude2) then Some(RangeBearings(0.0, 0.0, 0.0))
    else
      var phi1, lembda1, phi2, lembda2 := Radians(latitude1), Radians(longitude1), Radians(latitude2), Radians(longitude2);
      match num.inverseIteration(INVERSE_FLATTENING, SEMI_MAJOR, phi1, lembda1, phi2, lembda2)
      case None => None
      case Some(raw) =>
        var alpha12 := WrapAngle(raw.alpha12);
        assert 0.0 <= alpha12 <= TWO_PI ==> 0.0 <= Degrees(alpha12) <= 360.0;
        Some(RangeBearings(raw.s, Degrees(alpha12), Degrees(WrapAngle(raw.alpha21 + TWO_PI / 2.0))))
  }

  /** calculateGeographicalPositionFromRangeBearing: the point reached from (latitude1, longitude1) along alpha12 for s metres. */
  function GeographicalPosition(num: Numerics, latitude1: real, longitude1: real, alpha12: real, s: real): (r: Geographical)
  {
    if s == 0.0 then Geographical(latitude1, longitude1, 0.0)
    else
      var lat1, lon1 := Radians(latitude1), Radians(longitude1);
      var raw := num.directIteration(DIRECT_FLATTENING, SEMI_MAJOR, lat1, lon1, WrapAngle(Radians(alpha12)), s);
      Geographical(Degrees(raw.latitude2), Degrees(lon1 + raw.omega), Degrees(WrapAngle(raw.alpha21 + TWO_PI / 2.0)))
  }

  /**
    The direct solver's guard: range 0 returns the start point with reverse azimuth 0; otherwise the longitude moves
    by the solver's omega and the reverse azimuth is wrapped into [0, 360].
  */
  lemma GeographicalPositionGuard(num: Numerics, latitude1: real, longitude1: real, alpha12: real, s: real)
    ensures var r := GeographicalPosition(num, latitude1, longitude1, alpha12, s);
      (s == 0.0 ==> r == Geographical(latitude1, longitude1, 0.0)) &&
      (s != 0.0 ==>
        var raw := num.directIteration(DIRECT_FLATTENING, SEMI_MAJOR, Radians(latitude1), Radians(longitude1), WrapAngle(Radians(alpha12)), s);
        r.longitude == longitude1 + Degrees(raw.omega) &&
        (AtanRange(raw.alpha21) ==> 0.0 <= r.alpha21 <= 360.0))
  {
    if s != 0.0 {
      var raw := num.directIteration(DIRECT_FLATTENING, SEMI_MAJOR, Radians(latitude1), Radians(longitude1), WrapAngle(Radians(alpha12)), s);
      var alpha21 := WrapAngle(raw.alpha21 + TWO_PI / 2.0);
      assert 0.0 <= alpha21 <= TWO_PI ==> 0.0 <= Degrees(alpha21) <= 360.0;
    }
  }

  // ---------------------------------------------------------------- dispatch

  /**
    calculateCoordinateFromRangeBearing: the (X, Y) reached from (X, Y) at the given range and bearing.
    Geographic coordinates go to the direct solver as (latitude, longitude) = (Y, X) and come back as (X, Y).
  */
  function CoordinateFromRangeBearing(num: Numerics, x: real, y: real, range: real, bearing: real, isGeographic: bool): (p: (real, real))
  {
    if isGeographic then
      var g := GeographicalPosition(num, y, x, bearing, range);
      (g.longitude, g.latitude)
    else
      GridPosition(num, x, y, range, bearing)
  }

  /** At range 0 both paths return the start point unchanged. */
  lemma CoordinateZeroRange(num: Numerics, x: real, y: real, bearing: real, isGeographic: bool)
    ensures CoordinateFromRangeBearing(num, x, y, 0.0, bearing, isGeographic) == (x, y)
  {
    GridPositionZeroRange(num, x, y, bearing);
    GeographicalPositionGuard(num, y, x, bearing, 0.0);
  }

  /**
    On the geographic path Y goes to the solver as the latitude and X as the longitude, and the result comes back
    as (longitude, latitude): its X is the start X moved by the solver's omega.
  */
  lemma CoordinateGeographicOrder(num: Numerics, x: real, y: real, range: real, bearing: real)
    requires range != 0.0
    ensures var raw := num.directIteration(DIRECT_FLATTENING, SEMI_MAJOR, Radians(y), Radians(x), WrapAngle(Radians(bearing)), range);
      CoordinateFromRangeBearing(num, x, y, range, bearing, true) ==
      (x + Degrees(raw.omega), Degrees(raw.latitude2))
  {
    GeographicalPositionGuard(num, y, x, bearing, range);
  }

  /** On a grid, opposite ranges land symmetrically about the start point. */
  lemma CoordinateGridOpposite(num: Numerics, x: real, y: real, range: real, bearing: real)
    ensures var p, q := CoordinateFromRangeBearing(num, x, y, range, bearing, false), CoordinateFromRangeBearing(num, x, y, -range, bearing, false);
      p.0 + q.0 == 2.0 * x && p.1 + q.1 == 2.0 * y
  {
    GridPositionOpposite(num, x, y, range, bearing);
  }

  /** calculateRangeBearingFromCoordinates: range and bearing in degrees from (x1, y1) to (x2, y2). */
  function RangeBearingFromCoordinates(num: Numerics, x1: real, y1: real, x2: real, y2: real, isGeographic: bool): (r: Option<(real, real)>)
    ensures !isGeographic ==> r == Some(GridRangeBearing(num, x1, y1, x2, y2))
    ensures isGeographic ==>
      match RangeBearingFromGeographicals2(num, x1, y1, x2, y2)
      case None => r.None?
      case Some(rb) => r == Some((rb.0, Degrees(rb.1)))
  {
    if isGeographic then
      match RangeBearingFromGeographicals2(num, x1, y1, x2, y2)
      case None => None
      case Some(rb) => Some((rb.0, Degrees(rb.1)))
    else
      Some(GridRangeBearing(num, x1, y1, x2, y2))
  }

  /** Geographic coincident points (in radians, below 1e-8 apart) give range 0 and bearing 0. */
  lemma CoincidentRangeBearing(num: Numerics, x1: real, y1: real, x2: real, y2: real)
    requires Coincident(Radians(y1), Radians(x1), Radians(y2), Radians(x2))
    ensures RangeBearingFromCoordinates(num, x1, y1, x2, y2, true) == Some((0.0, 0.0))
  {
  }

  // ---------------------------------------------------------------- median filter

  /** Why medfilt raises: an even length (its assertion), a negative one (numpy.zeros), or x[0] of an empty array. */
  datatype FilterError = EvenLength | NegativeLength | EmptyInput

  /** An index clamped into [0, n - 1]: the boundary extension by repeated endpoints. */
  function EdgeIndex(p: int, n: nat): (i: nat)
    requires n > 0
    ensures i < n
    ensures 0 <= p < n ==> i == p
    ensures p < 0 ==> i == 0
    ensures p >= n ==> i == n - 1
  {
    if p < 0 then 0 else if p >= n then n - 1 else p
  }

  /** The k samples centred on position i, with indices clamped at both ends. */
  function Window(x: seq<real>, k: nat, i: int): (w: seq<real>)
    requires |x| > 0
    ensures |w| == k
  {
    seq(k, c => x[EdgeIndex(i + c - (k - 1) / 2, |x|)])
  }

  /** The k samples of row r of a k-wide array. */
  function Row(y: array2<real>, r: nat): (w: seq<real>)
    requires r < y.Length0
    reads y
    ensures |w| == y.Length1
  {
    seq(y.Length1, c requires 0 <= c < y.Length1 reads y => y[r, c])
  }

  /**
    medfilt: column k2 of a |x|-by-k array holds x, each pair of columns k2 - j and k2 + j holds x shifted by
    j with the ends repeated, and each output is the median of its row.
  */
  method MedFilt(x: seq<real>, k: int) returns (r: Result<seq<real>, FilterError>)
    ensures k % 2 != 1 ==> r == Failure(EvenLength)
    ensures k % 2 == 1 && k < 0 ==> r == Failure(NegativeLength)
    ensures k % 2 == 1 && k > 1 && |x| == 0 ==> r == Failure(EmptyInput)
    ensures r.Success? <==> k % 2 == 1 && k >= 1 && (|x| > 0 || k == 1)
    ensures r.Success? ==> |r.value| == |x|
    ensures r.Success? ==> forall i :: 0 <= i < |x| ==> r.value[i] == Sorting.Median(Window(x, k, i))
  {
    if k % 2 != 1 {
      return Failure(EvenLength);
    }
    if k < 0 {
      return Failure(NegativeLength);
    }
    var n := |x|;
    var k2 := (k - 1) / 2;
    if n == 0 && k2 > 0 {
      return Failure(EmptyInput);
    }
    var y := new real[n, k];
    FillColumns(y, x, k2);
    forall r | 0 <= r < n
      ensures Row(y, r) == Window(x, k, r)
    {
      RowIsWindow(y, x, k2, r);
    }
    var out := MedianRows(y, x, k);
    return Success(out);
  }

  /** Every cell of the k-wide array holds the sample its column's shift selects. */
  ghost predicate Filled(y: array2<real>, x: seq<real>, k2: nat)
    reads y
  {
    y.Length0 == |x| && y.Length1 == 2 * k2 + 1 &&
    forall p, c :: 0 <= p < |x| && 0 <= c < y.Length1 ==> y[p, c] == x[EdgeIndex(p + c - k2, |x|)]
  }

  /** The column-filling loops of medfilt: the centre column, then the columns k2 - j and k2 + j for j = k2 down to 1. */
  method FillColumns(y: array2<real>, x: seq<real>, k2: nat)
    requires y.Length0 == |x| && y.Length1 == 2 * k2 + 1
    modifies y
    ensures Filled(y, x, k2)
  {
    var n, k := |x|, 2 * k2 + 1;
    for row := 0 to n
      invariant forall p, c :: 0 <= p < row && c == k2 ==> y[p, c] == x[EdgeIndex(p + c - k2, n)]
    {
      y[row, k2] := x[row];
    }
    for i := 0 to k2
      invariant forall p, c :: 0 <= p < n && 0 <= c < k && (c == k2 || c < i || c > k - 1 - i) ==>
        y[p, c] == x[EdgeIndex(p + c - k2, n)]
    {
      FillPair(y, x, k2, i, k - 1 - i);
    }
  }

  /** One round of the shift loop: column i holds x shifted right by k2 - i, column k - 1 - i x shifted left by as much. */
  method FillPair(y: array2<real>, x: seq<real>, k2: nat, i: nat, mirror: nat)
    requires y.Length0 == |x| && y.Length1 == 2 * k2 + 1 && i < k2 && mirror == 2 * k2 - i
    modifies y
    ensures forall p :: 0 <= p < |x| ==> y[p, i] == x[EdgeIndex(p + i - k2, |x|)]
    ensures forall p :: 0 <= p < |x| ==> y[p, mirror] == x[EdgeIndex(p + mirror - k2, |x|)]
    ensures forall p, c :: 0 <= p < |x| && 0 <= c < y.Length1 && c != i && c != mirror ==> y[p, c] == old(y[p, c])
  {
    var n := |x|;
    var j := k2 - i;
    for row := 0 to n
      invariant forall p :: 0 <= p < row ==> y[p, i] == x[EdgeIndex(p + i - k2, n)]
      invariant forall p :: 0 <= p < row ==> y[p, mirror] == x[EdgeIndex(p + mirror - k2, n)]
      invariant forall p, c :: 0 <= p < n && 0 <= c < y.Length1 && c != i && c != mirror ==> y[p, c] == old(y[p, c])
    {
      y[row, i] := if row >= j then x[row - j] else x[0];
      y[row, mirror] := if row < n - j then x[row + j] else x[n - 1];
    }
  }

  /** Row r of the filled array is the window centred on sample r. */
  lemma RowIsWindow(y: array2<real>, x: seq<real>, k2: nat, r: nat)
    requires Filled(y, x, k2) && r < |x|
    ensures Row(y, r) == Window(x, y.Length1, r)
  {
    forall c | 0 <= c < y.Length1
      ensures Row(y, r)[c] == Window(x, y.Length1, r)[c]
    {
      assert y[r, c] == x[EdgeIndex(r + c - k2, |x|)];
    }
  }

  /** The median of each row of the filled array: the output of medfilt. */
  method MedianRows(y: array2<real>, x: seq<real>, k: nat) returns (out: seq<real>)
    requires y.Length0 == |x| && y.Length1 == k && k % 2 == 1
    requires forall r :: 0 <= r < |x| ==> Row(y, r) == Window(x, k, r)
    ensures |out| == |x|
    ensures forall i :: 0 <= i < |x| ==> out[i] == Sorting.Median(Window(x, k, i))
  {
    out := [];
    for row := 0 to |x|
      invariant |out| == row
      invariant forall p :: 0 <= p < row ==> out[p] == Sorting.Median(Row(y, p))
    {
      out := out + [Sorting.Median(Row(y, row))];
    }
    forall i | 0 <= i < |x|
      ensures out[i] == Sorting.Median(Window(x, k, i))
    {
      assert Row(y, i) == Window(x, k, i);
    }
  }

  /** A length-1 filter returns its input. */
  lemma FilterOfLengthOne(x: seq<real>, i: nat)
    requires i < |x|
    ensures Sorting.Median(Window(x, 1, i)) == x[i]
  {
    assert Window(x, 1, i)[0] == x[EdgeIndex(i, |x|)] == x[i];
    assert Window(x, 1, i) == [x[i]];
  }

  /** A constant signal passes through the filter unchanged, ends included. */
  lemma FilterOfConstant(x: seq<real>, k: nat, v: real, i: int)
    requires |x| > 0 && k % 2 == 1
    requires forall j :: 0 <= j < |x| ==> x[j] == v
    ensures Sorting.Median(Window(x, k, i)) == v
  {
    var w := Window(x, k, i);
    var m := Sorting.Median(w);
    var c :| 0 <= c < k && w[c] == m;
    assert w[c] == x[EdgeIndex(i + c - (k - 1) / 2, |x|)];
  }

  /** No more than half of each output's window lies strictly below it, and no more than half strictly above. */
  lemma FilterIsMedian(x: seq<real>, k: nat, i: int)
    requires |x| > 0 && k % 2 == 1
    ensures Sorting.CountBelow(Window(x, k, i), Sorting.Median(Window(x, k, i))) <= k / 2
    ensures Sorting.CountAbove(Window(x, k, i), Sorting.Median(Window(x, k, i))) <= k / 2
  {
    Sorting.MedianSplits(Window(x, k, i));
  }
}
