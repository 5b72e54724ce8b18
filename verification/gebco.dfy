/**
  The GEBCO grid lookup (GEBCO1DExtractor.py): clamping, the map from a
  latitude/longitude to the flat row-major index of the global depth grid, and
  the loading of a bounding box of depths into a 2-D grid, one latitude row at
  a time. The NetCDF `z` variable is a function from index to 16-bit depth.
*/
module Gebco {
  import opened Wrappers
  import PyText

  newtype Int16 = x: int | -0x8000 <= x < 0x8000

  /** `clamp(n, minn, maxn)`: max(min(maxn, n), minn). */
  function Clamp(n: int, minn: int, maxn: int): (r: int)
    ensures minn <= maxn ==> minn <= r <= maxn
    ensures minn <= n <= maxn ==> r == n
    ensures n < minn ==> r == minn
    ensures minn <= maxn < n ==> r == maxn
    ensures maxn < minn ==> r == minn
  {
    var m := if maxn < n then maxn else n;
    if m < minn then minn else m
  }

  /** numpy.arange's length for a non-zero step: ceil((stop - start) / step), or 0 when that is negative. */
  function ArangeLength(start: real, stop: real, step: real): (n: nat)
    requires step != 0.0
  {
    var q := (stop - start) / step;
    var c := -((-q).Floor);
    if c < 0 then 0 else c
  }

  /** `numpy.arange(start, stop, step)`: start, start + step, ... strictly before stop; a zero step raises. */
  function Arange(start: real, stop: real, step: real): (r: Result<seq<real>, string>)
    ensures r.Failure? <==> step == 0.0
    ensures r.Success? ==> forall i :: 0 <= i < |r.value| ==> r.value[i] == start + i as real * step
  {
    if step == 0.0 then Failure("ZeroDivisionError")
    else Success(seq(ArangeLength(start, stop, step), i => start + i as real * step))
  }

  /** With a positive step every value lies in [start, stop), and the next one would not. */
  lemma ArangeBounds(start: real, stop: real, step: real)
    requires step > 0.0
    ensures var v := Arange(start, stop, step).value;
      (forall i :: 0 <= i < |v| ==> start <= v[i] < stop) &&
      start + |v| as real * step >= stop
  {
    var v := Arange(start, stop, step).value;
    var q := (stop - start) / step;
    var n := |v|;
    assert n as real >= q;
    MultiplyPositive(n as real, q, step);
    forall i | 0 <= i < n
      ensures start <= v[i] < stop
    {
      assert (i as real) < q;
      MultiplyPositive(q, i as real, step);
      assert i as real * step < q * step == stop - start;
      assert 0.0 <= i as real * step;
    }
  }

  /** The arange is empty exactly when the step points away from stop: a positive step with stop <= start, or a negative one with stop >= start. */
  lemma ArangeEmpty(start: real, stop: real, step: real)
    requires step != 0.0
    ensures |Arange(start, stop, step).value| == 0 <==> (step > 0.0 && stop <= start) || (step < 0.0 && stop >= start)
  {
    var q := (stop - start) / step;
    assert q * step == stop - start;
    if step > 0.0 {
      if q > 0.0 {
        MultiplyPositive(q, 0.0, step);
      } else {
        MultiplyPositive(0.0, q, step);
      }
    } else {
      if q > 0.0 {
        MultiplyPositive(q, 0.0, -step);
        assert q * -step == -(q * step);
      } else {
        MultiplyPositive(0.0, q, -step);
        assert q * -step == -(q * step);
      }
    }
  }

  /** x >= y scales to x * step >= y * step, strictly when x > y. */
  lemma MultiplyPositive(x: real, y: real, step: real)
    requires step > 0.0 && x >= y
    ensures x * step >= y * step
    ensures x > y ==> x * step > y * step
  {
    assert x * step - y * step == (x - y) * step;
  }

  /** A bounding box given as its top-left and bottom-right corners, each (x, y) = (longitude, latitude). */
  datatype Corner = Corner(x: real, y: real)
  datatype BoundingBox = BoundingBox(topLeft: Corner, bottomRight: Corner)

  /** A GEBCO grid opened for reading: its spacing and dimension variables, its `z` variable, and the loaded grid. */
  class GebcoReader {
    const spacing0: real
    const spacing1: real
    const dimension0: nat
    const dimension1: nat
    const z: int -> Int16

    var latitude: seq<real>
    var longitude: seq<real>
    var depths: seq<seq<Int16>>

    /** The spacing read from the file is positive. */
    predicate WellFormed()
    {
      spacing0 > 0.0 && spacing1 > 0.0
    }

    /** The reader as the constructor leaves it: nothing loaded yet. */
    constructor(spacing0: real, spacing1: real, dimension0: nat, dimension1: nat, z: int -> Int16)
      requires spacing0 > 0.0 && spacing1 > 0.0
      ensures WellFormed()
      ensures this.spacing0 == spacing0 && this.spacing1 == spacing1
      ensures this.dimension0 == dimension0 && this.dimension1 == dimension1 && this.z == z
      ensures latitude == [] && longitude == [] && depths == []
    {
      this.spacing0 := spacing0;
      this.spacing1 := spacing1;
      this.dimension0 := dimension0;
      this.dimension1 := dimension1;
      this.z := z;
      latitude := [];
      longitude := [];
      depths := [];
    }

    /** The grid row of a latitude, counting southwards from 90 degrees north. */
    function Row(latitude: real): int
      requires WellFormed()
    {
      PyText.RoundHalfEven((90.0 - latitude) / spacing0)
    }

    /** The grid column of a longitude, counting eastwards from 180 degrees west. */
    function Column(longitude: real): int
      requires WellFormed()
    {
      PyText.RoundHalfEven((longitude + 180.0) / spacing1)
    }

    /** The index before clamping: row * dimension[0] + column. */
    function RawIndex(latitude: real, longitude: real): int
      requires WellFormed()
    {
      Row(latitude) * dimension0 + Column(longitude)
    }

    /** `coordinate2Index`: the raw index clamped to [0, dimension[0] * dimension[1]], both ends included. */
    function CoordinateToIndex(latitude: real, longitude: real): (idx: int)
      requires WellFormed()
      ensures 0 <= idx <= dimension0 * dimension1
      ensures 0 <= RawIndex(latitude, longitude) <= dimension0 * dimension1 ==> idx == RawIndex(latitude, longitude)
    {
      Clamp(RawIndex(latitude, longitude), 0, dimension0 * dimension1)
    }

    /** The depths of a grid of latitudes (rows) by longitudes (columns). */
    function DepthGrid(lats: seq<real>, lons: seq<real>): (g: seq<seq<Int16>>)
      requires WellFormed()
      ensures |g| == |lats|
      ensures forall i :: 0 <= i < |g| ==> |g[i]| == |lons|
    {
      seq(|lats|, i requires 0 <= i < |lats| => seq(|lons|, j requires 0 <= j < |lons| => z(CoordinateToIndex(lats[i], lons[j]))))
    }

    /** `z[idx]` can be read: the `z` variable holds dimension[0] * dimension[1] values, indexed from 0. */
    predicate Readable(latitude: real, longitude: real)
      requires WellFormed()
    {
      CoordinateToIndex(latitude, longitude) < dimension0 * dimension1
    }

    /** Every depth of the row at this latitude can be read. */
    predicate RowReadable(latitude: real, lons: seq<real>)
      requires WellFormed()
    {
      forall j :: 0 <= j < |lons| ==> Readable(latitude, lons[j])
    }

    /** How many leading rows of the grid load before a read past the end of `z` raises IndexError. */
    function ReadableRows(lats: seq<real>, lons: seq<real>): (n: nat)
      requires WellFormed()
      ensures n <= |lats|
      ensures forall p :: 0 <= p < n ==> RowReadable(lats[p], lons)
      ensures n < |lats| ==> !RowReadable(lats[n], lons)
    {
      if |lats| == 0 || !RowReadable(lats[0], lons) then 0
      else 1 + ReadableRows(lats[1..], lons)
    }

    /**
      `loadBoundingBoxDepths`: sets the latitudes (bottom to top) and longitudes (left to right) of the box at
      the grid spacing times stepSize, then appends one row of depths per latitude to the depths loaded so far.
      A zero step raises before anything changes. `np.nditer` refuses an empty arange (a box with no extent in
      the step's direction, or a negative step), so an empty latitude or longitude list raises ValueError after
      both lists are set and before any row is appended. A read of `z` past its end raises IndexError in the
      middle of a row: the rows appended before it stay, the partial row is dropped.
    */
    method LoadBoundingBoxDepths(box: BoundingBox, stepSize: real) returns (outcome: LoadOutcome)
      requires WellFormed()
      modifies this
      ensures outcome == StepError <==> stepSize == 0.0
      ensures outcome == StepError ==> latitude == old(latitude) && longitude == old(longitude) && depths == old(depths)
      ensures outcome != StepError ==> latitude == Arange(box.bottomRight.y, box.topLeft.y, spacing1 * stepSize).value
      ensures outcome != StepError ==> longitude == Arange(box.topLeft.x, box.bottomRight.x, spacing0 * stepSize).value
      ensures outcome == EmptyError <==> stepSize != 0.0 && (|latitude| == 0 || |longitude| == 0)
      ensures outcome == EmptyError ==> depths == old(depths)
      ensures outcome != StepError && outcome != EmptyError ==>
        depths == old(depths) + DepthGrid(latitude[..ReadableRows(latitude, longitude)], longitude)
      ensures outcome == Loaded <==>
        stepSize != 0.0 && |latitude| > 0 && |longitude| > 0 && ReadableRows(latitude, longitude) == |latitude|
    {
      var lats := Arange(box.bottomRight.y, box.topLeft.y, spacing1 * stepSize);
      if lats.Failure? {
        return StepError;
      }
      var lat := lats.value;
      latitude := lat;
      var lons := Arange(box.topLeft.x, box.bottomRight.x, spacing0 * stepSize);
      if lons.Failure? {
        assert false;
        return StepError;
      }
      var lon := lons.value;
      longitude := lon;
      if |lat| == 0 || |lon| == 0 {
        return EmptyError;
      }
      ghost var before := depths;
      for i := 0 to |lat|
        invariant latitude == lat && longitude == lon
        invariant depths == before + DepthGrid(lat[..i], lon)
        invariant forall p :: 0 <= p < i ==> RowReadable(lat[p], lon)
      {
        var d, read := ReadDepthRow(lat[i], lon);
        if !read {
          FirstUnreadableRow(lat, lon, i);
          return IndexError;
        }
        assert lat[..i + 1] == lat[..i] + [lat[i]];
        depths := depths + [d];
      }
      assert lat[..|lat|] == lat;
      FirstUnreadableRow(lat, lon, |lat|);
      return Loaded;
    }

    /**
      The inner loop of `loadBoundingBoxDepths`: the depths of one latitude's row, column by column. It stops at
      the first index past the end of `z`, where the read raises IndexError.
    */
    method ReadDepthRow(latitude: real, lons: seq<real>) returns (d: seq<Int16>, read: bool)
      requires WellFormed()
      ensures read <==> RowReadable(latitude, lons)
      ensures read ==> d == DepthGrid([latitude], lons)[0]
    {
      d := [];
      for j := 0 to |lons|
        invariant d == DepthGrid([latitude], lons[..j])[0]
        invariant forall q :: 0 <= q < j ==> Readable(latitude, lons[q])
      {
        var idx := CoordinateToIndex(latitude, lons[j]);
        if idx == dimension0 * dimension1 {
          return d, false;
        }
        d := d + [z(idx)];
      }
      assert lons[..|lons|] == lons;
      read := true;
    }

    /** When the rows before i all read and row i (if any) does not, exactly i rows load. */
    lemma FirstUnreadableRow(lats: seq<real>, lons: seq<real>, i: nat)
      requires WellFormed() && i <= |lats|
      requires forall p :: 0 <= p < i ==> RowReadable(lats[p], lons)
      requires i < |lats| ==> !RowReadable(lats[i], lons)
      ensures ReadableRows(lats, lons) == i
    {
    }
  }

  /**
    How loadBoundingBoxDepths ends: every row loaded, a zero step (ZeroDivisionError), an empty arange
    (ValueError from np.nditer), or a read past the end of `z` (IndexError).
  */
  datatype LoadOutcome = Loaded | StepError | EmptyError | IndexError

  /** A depth can be read exactly when the grid is non-empty and the unclamped index falls before its end. */
  lemma ReadableIffBeforeEnd(r: GebcoReader, latitude: real, longitude: real)
    requires r.WellFormed()
    ensures r.Readable(latitude, longitude) <==>
      0 < r.dimension0 * r.dimension1 && r.RawIndex(latitude, longitude) < r.dimension0 * r.dimension1
  {
  }

  /**
    When dimension[1] rows of spacing[0] span the 180 degrees of latitude exactly, the south-west corner
    (-90, -180) lands one past the last value of `z`: the clamp keeps that index, and the read raises.
  */
  lemma SouthPoleUnreadable(r: GebcoReader)
    requires r.WellFormed() && r.spacing0 * r.dimension1 as real == 180.0
    ensures r.CoordinateToIndex(-90.0, -180.0) == r.dimension0 * r.dimension1
    ensures !r.Readable(-90.0, -180.0)
  {
    assert (90.0 - -90.0) / r.spacing0 == r.dimension1 as real;
    PyText.RoundHalfEvenUnique(r.dimension1 as real, r.dimension1);
    PyText.RoundHalfEvenUnique(0.0, 0);
    assert r.Row(-90.0) == r.dimension1;
    assert r.Column(-180.0) == 0;
  }

  /** The north-west corner of the grid, (90, -180), has index 0. */
  lemma NorthWestCornerIsZero(r: GebcoReader)
    requires r.WellFormed()
    ensures r.RawIndex(90.0, -180.0) == 0
    ensures r.CoordinateToIndex(90.0, -180.0) == 0
  {
    PyText.RoundHalfEvenUnique(0.0, 0);
  }

  /** Away from rounding ties, one spacing further south is exactly one row of dimension[0] further on. */
  lemma StepSouthAddsRow(r: GebcoReader, latitude: real, longitude: real)
    requires r.WellFormed()
    requires var t := (90.0 - latitude) / r.spacing0; t - t.Floor as real != 0.5
    ensures r.RawIndex(latitude - r.spacing0, longitude) == r.RawIndex(latitude, longitude) + r.dimension0
  {
    var t := (90.0 - latitude) / r.spacing0;
    ShiftByDivisor(90.0 - latitude, r.spacing0);
    PyText.RoundHalfEvenShift(t);
  }

  lemma ShiftByDivisor(x: real, s: real)
    requires s > 0.0
    ensures (x + s) / s == x / s + 1.0
  {
    var q := x / s;
    assert q * s == x;
    assert (x + s) / s * s == x + s;
    var d := (x + s) / s - (q + 1.0);
    assert d * s == 0.0;
    if d > 0.0 {
      MultiplyPositive(d, 0.0, s);
    } else if d < 0.0 {
      MultiplyPositive(0.0, d, s);
    }
  }

  /** At a rounding tie the step is two rows: with spacing 1, latitude 89.5 is row 0 and 88.5 is row 2. */
  lemma StepSouthAtTie(r: GebcoReader, longitude: real)
    requires r.WellFormed() && r.spacing0 == 1.0
    ensures r.RawIndex(88.5, longitude) == r.RawIndex(89.5, longitude) + 2 * r.dimension0
  {
    PyText.RoundHalfEvenTie();
  }

  /** Going south never decreases the row, so never decreases the index at a fixed longitude. */
  lemma SouthwardMonotone(r: GebcoReader, north: real, south: real, longitude: real)
    requires r.WellFormed() && south <= north
    ensures r.RawIndex(north, longitude) <= r.RawIndex(south, longitude)
  {
    assert (90.0 - north) / r.spacing0 <= (90.0 - south) / r.spacing0;
    PyText.RoundHalfEvenMonotone((90.0 - north) / r.spacing0, (90.0 - south) / r.spacing0);
    var a, b := r.Row(north), r.Row(south);
    assert a * r.dimension0 <= b * r.dimension0 by {
      assert b * r.dimension0 - a * r.dimension0 == (b - a) * r.dimension0;
    }
  }
}
