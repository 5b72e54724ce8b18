/**
  The older copy of the planner under build/lib (surveyEstimator.compute and
  FC2CSV): the same centreline / starboard / port generator with these
  differences: the line half-length is the full extent diagonal, offset
  centres are always planar (CalcGridCoord), names carry "%.2f" offsets, the
  heading is used verbatim, there is no cross-line pass, the prefix and the
  name are inserted uncut into text fields of 20 characters (so a longer one
  makes the insert raise), and the turn duration is already in hours. The
  selection must hold at most one polygon.
*/
module LegacySurveyEstimator {
  import opened Wrappers
  import PyText
  import Geodetic
  import SurveyEstimator
  import SurveyCompute
  import DurationReport

  type Point = SurveyEstimator.Point

  /** A stored run line: end points, LINE_PREFIX, LINE_NAME and LINE_DIRECTION, the texts as given. */
  datatype LegacyRow = LegacyRow(start: Point, end: Point, prefix: string, name: string, direction: real)

  /** A line's name as the old generator composes it: `prefix + "_Centreline"`, or `prefix + side + "%.2f" % offset`. */
  datatype LegacyName = CentreName(prefix: string) | SideName(prefix: string, side: string, offset: real)

  function LegacyNameText(n: LegacyName): string
  {
    match n
    case CentreName(prefix) => prefix + "_Centreline"
    case SideName(prefix, side, offset) => prefix + side + PyText.FormatFixed(offset, 2)
  }

  /** A side name is prefix and side followed by the offset with two decimals, signed exactly when the offset is negative. */
  lemma LegacyNameShape(prefix: string, side: string, offset: real)
    ensures var name := LegacyNameText(SideName(prefix, side, offset)); var n := |prefix| + |side|;
      |name| >= n + 4 && name[..n] == prefix + side && name[|name| - 3] == '.' && (name[n] == '-' <==> offset < 0.0)
  {
    var f := PyText.FormatFixed(offset, 2);
    var name := LegacyNameText(SideName(prefix, side, offset));
    assert name == (prefix + side) + f;
  }

  /** A line as the old generator plans it: name, end points and heading. */
  datatype LegacyLine = LegacyLine(name: LegacyName, start: Point, end: Point, direction: real)

  /** The row addPolyline inserts when it fits: nothing is cut. */
  function StoredRow(prefix: string, line: LegacyLine): (r: LegacyRow)
    ensures r.prefix == prefix && r.name == LegacyNameText(line.name)
    ensures r.start == line.start && r.end == line.end && r.direction == line.direction
  {
    LegacyRow(line.start, line.end, prefix, LegacyNameText(line.name), line.direction)
  }

  /**
    The rows addPolyline writes for a list of lines, in order. This stays separate from the current copy's
    StoredRows, whose rows add the spacing and cut both texts to 20 characters.
  */
  function StoredRows(prefix: string, lines: seq<LegacyLine>): (rows: seq<LegacyRow>)
    ensures |rows| == |lines|
  {
    seq(|lines|, i requires 0 <= i < |lines| => StoredRow(prefix, lines[i]))
  }

  lemma StoredRowsAppend(prefix: string, a: seq<LegacyLine>, b: seq<LegacyLine>)
    ensures StoredRows(prefix, a + b) == StoredRows(prefix, a) + StoredRows(prefix, b)
  {
  }

  lemma StoredRowsTake(prefix: string, lines: seq<LegacyLine>, n: nat)
    requires n <= |lines|
    ensures StoredRows(prefix, lines)[..n] == StoredRows(prefix, lines[..n])
  {
  }

  /** LINE_PREFIX and LINE_NAME are created as text fields of 20 characters. */
  const FIELD_WIDTH: nat := 20

  /** insertRow accepts a row only when its prefix and its name fit their text fields. */
  predicate RowFits(r: LegacyRow)
  {
    |r.prefix| <= FIELD_WIDTH && |r.name| <= FIELD_WIDTH
  }

  /** The line's row can be inserted: prefix and composed name of at most 20 characters each. */
  predicate Fits(prefix: string, line: LegacyLine)
  {
    RowFits(StoredRow(prefix, line))
  }

  predicate AllFit(rows: seq<LegacyRow>)
  {
    forall i :: 0 <= i < |rows| ==> RowFits(rows[i])
  }

  /** The rows left behind when rows are inserted in order and the first one that does not fit raises. */
  function Inserted(rows: seq<LegacyRow>): (r: seq<LegacyRow>)
    ensures |r| <= |rows|
  {
    if rows == [] || !RowFits(rows[0]) then []
    else [rows[0]] + Inserted(rows[1..])
  }

  /** What is inserted is a prefix of the rows, every row of it fits, and the row after it (if any) does not. */
  lemma {:induction false} InsertedPrefix(rows: seq<LegacyRow>)
    ensures var r := Inserted(rows);
      r == rows[..|r|] && AllFit(r) && (|r| < |rows| ==> !RowFits(rows[|r|]))
  {
    if rows != [] && RowFits(rows[0]) {
      InsertedPrefix(rows[1..]);
      var t := Inserted(rows[1..]);
      assert Inserted(rows) == [rows[0]] + t;
      assert rows[..|t| + 1] == [rows[0]] + rows[1..][..|t|];
      if |t| < |rows| - 1 {
        assert rows[|t| + 1] == rows[1..][|t|];
      }
    }
  }

  /** The rows before index n fit and the row at n (if any) does not: exactly the first n rows are inserted. */
  lemma {:induction false} InsertedUnique(rows: seq<LegacyRow>, n: nat)
    requires n <= |rows| && AllFit(rows[..n])
    requires n < |rows| ==> !RowFits(rows[n])
    ensures Inserted(rows) == rows[..n]
    ensures AllFit(rows) <==> n == |rows|
    decreases n
  {
    if n > 0 {
      assert rows[..n][0] == rows[0];
      assert rows[1..][..n - 1] == rows[..n][1..];
      InsertedUnique(rows[1..], n - 1);
      assert rows[..n] == [rows[0]] + rows[1..][..n - 1];
    }
    if n == |rows| {
      assert rows[..n] == rows;
    }
  }

  /** When the first n rows fit and n is all of them, every row fits. */
  lemma AllFitWhole(rows: seq<LegacyRow>, n: nat)
    requires n <= |rows| && AllFit(rows[..n])
    ensures n == |rows| ==> AllFit(rows)
  {
    if n == |rows| {
      assert rows[..n] == rows;
    }
  }

  /** One more row that fits: the rows up to it fit, and they are the earlier rows followed by it. */
  lemma AllFitExtend(rows: seq<LegacyRow>, n: nat)
    requires n < |rows| && AllFit(rows[..n]) && RowFits(rows[n])
    ensures AllFit(rows[..n + 1]) && rows[..n + 1] == rows[..n] + [rows[n]]
  {
    assert rows[..n + 1] == rows[..n] + [rows[n]];
  }

  lemma ConcatAssoc(a: seq<LegacyRow>, b: seq<LegacyRow>, c: seq<LegacyRow>)
    ensures a + b + c == a + (b + c)
  {
  }

  /** Inserting a then b: b is reached only when every row of a fits. */
  lemma InsertedAppend(a: seq<LegacyRow>, b: seq<LegacyRow>)
    ensures AllFit(a) ==> Inserted(a + b) == a + Inserted(b)
    ensures !AllFit(a) ==> Inserted(a + b) == Inserted(a)
    ensures AllFit(a + b) <==> AllFit(a) && AllFit(b)
  {
    if AllFit(a) {
      var r := Inserted(b);
      InsertedPrefix(b);
      assert (a + b)[..|a| + |r|] == a + r;
      if |r| < |b| {
        assert (a + b)[|a| + |r|] == b[|r|];
      }
      InsertedUnique(a + b, |a| + |r|);
      InsertedUnique(b, |r|);
    } else {
      var r := Inserted(a);
      InsertedPrefix(a);
      assert (a + b)[..|r|] == r;
      assert (a + b)[|r|] == a[|r|];
      InsertedUnique(a + b, |r|);
    }
  }

  /** A loop that inserts rows in order has stored the first n of them after before, and each of those fitted. */
  predicate InsertedSoFar(rows: seq<LegacyRow>, n: nat, stored: seq<LegacyRow>, before: seq<LegacyRow>)
  {
    n <= |rows| && AllFit(rows[..n]) && stored == before + rows[..n]
  }

  /** The next row: stored when it fits; when it does not, the insert raises and what is stored is all there will be. */
  lemma InsertStep(rows: seq<LegacyRow>, n: nat, stored: seq<LegacyRow>, before: seq<LegacyRow>)
    requires InsertedSoFar(rows, n, stored, before) && n < |rows|
    ensures RowFits(rows[n]) ==> InsertedSoFar(rows, n + 1, stored + [rows[n]], before)
    ensures !RowFits(rows[n]) ==> stored == before + Inserted(rows) && !AllFit(rows)
  {
    if RowFits(rows[n]) {
      AllFitExtend(rows, n);
      ConcatAssoc(before, rows[..n], [rows[n]]);
    } else {
      InsertedUnique(rows, n);
    }
  }

  /** Every row stored: the loop has inserted all of them. */
  lemma InsertDone(rows: seq<LegacyRow>, stored: seq<LegacyRow>, before: seq<LegacyRow>)
    requires InsertedSoFar(rows, |rows|, stored, before)
    ensures stored == before + Inserted(rows) && AllFit(rows)
  {
    InsertedUnique(rows, |rows|);
    assert rows[..|rows|] == rows;
  }

  /** The rows of one line followed by two blocks of lines. */
  lemma StoredRowsThree(prefix: string, c: LegacyLine, a: seq<LegacyLine>, b: seq<LegacyLine>)
    ensures StoredRows(prefix, [c] + a + b) == [StoredRow(prefix, c)] + (StoredRows(prefix, a) + StoredRows(prefix, b))
  {
    StoredRowsAppend(prefix, [c], a);
    StoredRowsAppend(prefix, [c] + a, b);
    assert StoredRows(prefix, [c]) == [StoredRow(prefix, c)];
  }

  /** Inserting one row and then two blocks: each block is reached only when everything before it fits. */
  lemma InsertedThree(r: LegacyRow, a: seq<LegacyRow>, b: seq<LegacyRow>)
    ensures Inserted([r] + (a + b)) ==
      if !RowFits(r) then [] else if !AllFit(a) then [r] + Inserted(a) else [r] + (a + Inserted(b))
    ensures AllFit([r] + (a + b)) <==> RowFits(r) && AllFit(a) && AllFit(b)
  {
    InsertedAppend([r], a + b);
    InsertedAppend(a, b);
    if !RowFits(r) {
      InsertedUnique([r], 0);
    }
  }

  /**
    Rows of which the last is the only one after the first that does not fit: all but the last are inserted when
    the first fits, and none otherwise.
  */
  lemma InsertedBeforeMisfit(rows: seq<LegacyRow>, m: nat)
    requires |rows| == m + 1 && !RowFits(rows[m])
    requires forall i :: 1 <= i < m ==> RowFits(rows[i])
    ensures Inserted(rows) == if RowFits(rows[0]) then rows[..m] else []
  {
    if RowFits(rows[0]) {
      forall j | 0 <= j < m
        ensures RowFits(rows[..m][j])
      {
      }
      InsertedUnique(rows, m);
    } else {
      InsertedUnique(rows, 0);
    }
  }

  /** The temporary run-line feature class as the insert cursor sees it. */
  class LegacyFeatureClass {
    var rows: seq<LegacyRow>

    constructor()
      ensures rows == []
    {
      rows := [];
    }

    /** addPolyline: inserts one line with its prefix and name as given; insertRow raises when either does not fit. */
    method AddPolyline(prefix: string, line: LegacyLine) returns (ok: bool)
      modifies this
      ensures ok <==> Fits(prefix, line)
      ensures rows == old(rows) + (if ok then [StoredRow(prefix, line)] else [])
    {
      if !Fits(prefix, line) {
        return false;
      }
      rows := rows + [StoredRow(prefix, line)];
      return true;
    }
  }

  /** The fixed inputs of the generator: `diagonal` is both the line half-length and the offset limit. */
  datatype LegacyPass = LegacyPass(num: Geodetic.Numerics, centroid: Point, spacing: real, heading: real,
                                   diagonal: real, isGeographic: bool, prefix: string)

  /** The full diagonal of the polygon's extent, in layer units (degrees stay degrees). */
  function LegacyDiagonal(num: Geodetic.Numerics, area: SurveyCompute.Area): real
  {
    num.hypot(area.xMax - area.xMin, area.yMax - area.yMin)
  }

  /** The old copy's lines are twice as long, and reach twice as far, as the current planner's on a grid layer. */
  lemma DiagonalIsDoubled(num: Geodetic.Numerics, area: SurveyCompute.Area)
    ensures LegacyDiagonal(num, area) == 2.0 * SurveyCompute.HalfDiagonal(num, area, false)
  {
  }

  /** CalcLineFromPoint through centre along the pass heading, with the full diagonal as its range. */
  function PlanLine(p: LegacyPass, name: LegacyName, centre: Point): (line: LegacyLine)
    ensures line.name == name && line.direction == p.heading
  {
    var ends := SurveyEstimator.LineFromPoint(p.num, centre, p.heading, p.diagonal, p.isGeographic);
    LegacyLine(name, ends.0, ends.1, p.heading)
  }

  /** CalcGridCoord(centroid, heading - 90, offset): a planar offset centre, whatever the layer's coordinates. */
  function OffsetCentre(p: LegacyPass, offset: real): Point
  {
    SurveyEstimator.ToPoint(Geodetic.GridPosition(p.num, p.centroid.x, p.centroid.y, offset, p.heading - 90.0))
  }

  function OffsetLine(p: LegacyPass, name: LegacyName, offset: real): LegacyLine
  {
    PlanLine(p, name, OffsetCentre(p, offset))
  }

  function Centreline(p: LegacyPass): LegacyLine
  {
    PlanLine(p, CentreName(p.prefix), p.centroid)
  }

  function StarboardLine(p: LegacyPass, k: nat): LegacyLine
  {
    var offset := SurveyEstimator.Offset(p.spacing, k);
    OffsetLine(p, SideName(p.prefix, "_S", offset), offset)
  }

  function PortLine(p: LegacyPass, k: nat): LegacyLine
  {
    var offset := SurveyEstimator.PortOffset(p.spacing, k);
    OffsetLine(p, SideName(p.prefix, "_P", offset), offset)
  }

  /** The starboard loop's lines from the k-th on: while the k-th offset is below the diagonal. */
  function StarboardFrom(p: LegacyPass, k: nat): seq<LegacyLine>
    requires SurveyEstimator.Terminates(p.spacing, p.diagonal) && k >= 1 && (p.spacing > 0.0 || k == 1)
    decreases if p.spacing > 0.0 then SurveyEstimator.OffsetCount(p.spacing, p.diagonal) + 1 - k else 0
  {
    assert SurveyEstimator.Offset(p.spacing, 1) == p.spacing;
    if SurveyEstimator.Offset(p.spacing, k) < p.diagonal then
      SurveyEstimator.OffsetCountExact(p.spacing, p.diagonal, k);
      [StarboardLine(p, k)] + StarboardFrom(p, k + 1)
    else []
  }

  /** The port loop's lines from the k-th on: while the k-th port offset is above minus the diagonal. */
  function PortFrom(p: LegacyPass, k: nat): seq<LegacyLine>
    requires SurveyEstimator.Terminates(p.spacing, p.diagonal) && k >= 1 && (p.spacing > 0.0 || k == 1)
    decreases if p.spacing > 0.0 then SurveyEstimator.OffsetCount(p.spacing, p.diagonal) + 1 - k else 0
  {
    assert SurveyEstimator.PortOffset(p.spacing, 1) == -p.spacing;
    if SurveyEstimator.PortOffset(p.spacing, k) > -p.diagonal then
      SurveyEstimator.PortOffsetCountExact(p.spacing, p.diagonal, k);
      [PortLine(p, k)] + PortFrom(p, k + 1)
    else []
  }

  /** Every line the old generator plans for one polygon: centreline, starboard lines, port lines. */
  function LegacyLines(p: LegacyPass): seq<LegacyLine>
    requires SurveyEstimator.Terminates(p.spacing, p.diagonal)
  {
    [Centreline(p)] + StarboardFrom(p, 1) + PortFrom(p, 1)
  }

  /** The rows stored for one polygon. */
  function LegacyRows(p: LegacyPass): seq<LegacyRow>
    requires SurveyEstimator.Terminates(p.spacing, p.diagonal)
  {
    StoredRows(p.prefix, LegacyLines(p))
  }

  /** From the k-th on, the starboard loop plans lines k..n for n = OffsetCount over the full diagonal. */
  lemma {:induction false} StarboardFromExact(p: LegacyPass, k: nat)
    requires p.spacing > 0.0 && 1 <= k <= SurveyEstimator.OffsetCount(p.spacing, p.diagonal) + 1
    ensures |StarboardFrom(p, k)| == SurveyEstimator.OffsetCount(p.spacing, p.diagonal) + 1 - k
    ensures forall i :: 0 <= i < |StarboardFrom(p, k)| ==> StarboardFrom(p, k)[i] == StarboardLine(p, k + i)
    decreases SurveyEstimator.OffsetCount(p.spacing, p.diagonal) + 1 - k
  {
    SurveyEstimator.OffsetCountExact(p.spacing, p.diagonal, k);
    if k <= SurveyEstimator.OffsetCount(p.spacing, p.diagonal) {
      StarboardFromExact(p, k + 1);
      var s := StarboardFrom(p, k + 1);
      assert StarboardFrom(p, k) == [StarboardLine(p, k)] + s;
      forall i | 1 <= i < |StarboardFrom(p, k)|
        ensures StarboardFrom(p, k)[i] == StarboardLine(p, k + i)
      {
        assert StarboardFrom(p, k)[i] == s[i - 1] == StarboardLine(p, k + 1 + (i - 1));
      }
    }
  }

  /** From the k-th on, the port loop plans lines k..n for n = OffsetCount over the full diagonal. */
  lemma {:induction false} PortFromExact(p: LegacyPass, k: nat)
    requires p.spacing > 0.0 && 1 <= k <= SurveyEstimator.OffsetCount(p.spacing, p.diagonal) + 1
    ensures |PortFrom(p, k)| == SurveyEstimator.OffsetCount(p.spacing, p.diagonal) + 1 - k
    ensures forall i :: 0 <= i < |PortFrom(p, k)| ==> PortFrom(p, k)[i] == PortLine(p, k + i)
    decreases SurveyEstimator.OffsetCount(p.spacing, p.diagonal) + 1 - k
  {
    SurveyEstimator.PortOffsetCountExact(p.spacing, p.diagonal, k);
    if k <= SurveyEstimator.OffsetCount(p.spacing, p.diagonal) {
      PortFromExact(p, k + 1);
      var t := PortFrom(p, k + 1);
      assert PortFrom(p, k) == [PortLine(p, k)] + t;
      forall i | 1 <= i < |PortFrom(p, k)|
        ensures PortFrom(p, k)[i] == PortLine(p, k + i)
      {
        assert PortFrom(p, k)[i] == t[i - 1] == PortLine(p, k + 1 + (i - 1));
      }
    }
  }

  /**
    One polygon gives 1 + 2n lines for n = OffsetCount(spacing, diagonal): the centreline, then the k-th
    starboard line at position k and the k-th port line at position n + k.
  */
  lemma LegacyLinesShape(p: LegacyPass, k: nat)
    requires SurveyEstimator.Terminates(p.spacing, p.diagonal)
    ensures |LegacyLines(p)| == 1 + 2 * SurveyEstimator.OffsetCount(p.spacing, p.diagonal)
    ensures LegacyLines(p)[0] == Centreline(p)
    ensures 1 <= k <= SurveyEstimator.OffsetCount(p.spacing, p.diagonal) ==>
      LegacyLines(p)[k] == StarboardLine(p, k) &&
      LegacyLines(p)[SurveyEstimator.OffsetCount(p.spacing, p.diagonal) + k] == PortLine(p, k)
  {
    var n := SurveyEstimator.OffsetCount(p.spacing, p.diagonal);
    var a, b := StarboardFrom(p, 1), PortFrom(p, 1);
    SurveyEstimator.ThreeBlocks(Centreline(p), a, b);
    if p.spacing > 0.0 {
      StarboardFromExact(p, 1);
      PortFromExact(p, 1);
      if 1 <= k <= n {
        assert LegacyLines(p)[k] == a[k - 1] == StarboardLine(p, 1 + (k - 1));
        assert LegacyLines(p)[n + k] == b[n + k - n - 1] == PortLine(p, 1 + (k - 1));
      }
    } else {
      SurveyEstimator.FirstOffsets(p.spacing);
    }
  }

  /** The k-th starboard and port centres lie symmetrically about the centroid on the grid, geographic layer or not. */
  lemma CentresArePlanar(p: LegacyPass, k: nat)
    ensures var s, t := OffsetCentre(p, SurveyEstimator.Offset(p.spacing, k)), OffsetCentre(p, SurveyEstimator.PortOffset(p.spacing, k));
      s.x + t.x == 2.0 * p.centroid.x && s.y + t.y == 2.0 * p.centroid.y
  {
    SurveyEstimator.PortOffsetIsNegated(p.spacing, k);
    Geodetic.GridPositionOpposite(p.num, p.centroid.x, p.centroid.y, SurveyEstimator.Offset(p.spacing, k), p.heading - 90.0);
  }

  // ---------------------------------------------------------------- inserting the lines

  /** The generator's loops are reached: the spacing is negative, or the loops end (a zero spacing raises first). */
  predicate GeneratorRuns(p: LegacyPass)
  {
    SurveyEstimator.Terminates(p.spacing, p.diagonal) || p.spacing < 0.0
  }

  /** A starboard line this far out has an offset of more than 10^15, which prints too long for LINE_NAME. */
  function MisfitBound(p: LegacyPass): (k: nat)
    requires p.spacing < 0.0
    ensures k >= 1
  {
    var q := (PyText.Pow10(15) as real + 1.0) / -p.spacing;
    q.Floor + 1
  }

  /** One step past the floor of big / t, t times the step count exceeds big. */
  lemma PastFloor(big: real, t: real)
    requires t > 0.0
    ensures ((big / t).Floor + 1) as real * t > big
  {
    var q := big / t;
    var d := ((big / t).Floor + 1) as real - q;
    assert d > 0.0;
    assert d * t > 0.0;
    assert q * t == big;
    assert ((big / t).Floor + 1) as real * t == q * t + d * t;
  }

  /** The MisfitBound-th offset is more than 10^15 away from the centroid. */
  lemma MisfitBoundFar(p: LegacyPass)
    requires p.spacing < 0.0
    ensures PyText.Abs(SurveyEstimator.Offset(p.spacing, MisfitBound(p))) >= PyText.Pow10(15) as real + 1.0
  {
    var k := MisfitBound(p);
    var big := PyText.Pow10(15) as real + 1.0;
    PastFloor(big, -p.spacing);
    assert k as real * -p.spacing > big;
    SurveyEstimator.OffsetIsMultiple(p.spacing, k);
    assert k as real * p.spacing == -(k as real * -p.spacing);
  }

  /** An offset of more than 10^15 prints with at least 19 characters: the side name is longer than LINE_NAME. */
  lemma FarOffsetMisfits(p: LegacyPass, k: nat)
    requires PyText.Abs(SurveyEstimator.Offset(p.spacing, k)) >= PyText.Pow10(15) as real + 1.0
    ensures !Fits(p.prefix, StarboardLine(p, k))
  {
    var offset := SurveyEstimator.Offset(p.spacing, k);
    PyText.FormatTwoDecimalsLength(offset, 15);
    var name := LegacyNameText(SideName(p.prefix, "_S", offset));
    assert name == p.prefix + "_S" + PyText.FormatFixed(offset, 2);
    assert StoredRow(p.prefix, StarboardLine(p, k)).name == name;
  }

  /** At MisfitBound the name is prefix + "_S" + at least 19 characters, longer than the field. */
  lemma BoundMisfits(p: LegacyPass)
    requires p.spacing < 0.0
    ensures !Fits(p.prefix, StarboardLine(p, MisfitBound(p)))
  {
    MisfitBoundFar(p);
    FarOffsetMisfits(p, MisfitBound(p));
  }

  /** The first index from k on where fits fails, given that it fails at bound. */
  function FirstFailure(fits: nat -> bool, k: nat, bound: nat): (m: nat)
    requires 1 <= k <= bound && !fits(bound)
    ensures k <= m <= bound && !fits(m)
    ensures forall j :: k <= j < m ==> fits(j)
    decreases bound - k
  {
    if !fits(k) then k
    else FirstFailure(fits, k + 1, bound)
  }

  /** The first starboard line whose name does not fit LINE_NAME: a negative spacing always reaches one. */
  function FirstMisfit(p: LegacyPass): (m: nat)
    requires p.spacing < 0.0
    ensures 1 <= m && !Fits(p.prefix, StarboardLine(p, m))
    ensures forall j :: 1 <= j < m ==> Fits(p.prefix, StarboardLine(p, j))
  {
    BoundMisfits(p);
    var fits := (j: nat) => Fits(p.prefix, StarboardLine(p, j));
    var m := FirstFailure(fits, 1, MisfitBound(p));
    assert forall j :: 1 <= j < m ==> Fits(p.prefix, StarboardLine(p, j)) by {
      forall j | 1 <= j < m
        ensures Fits(p.prefix, StarboardLine(p, j))
      {
        assert fits(j);
      }
    }
    m
  }

  /**
    The starboard lines the loop tries to insert. With a terminating spacing, those below the diagonal. With a
    negative one the guard never fails, and the loop goes on until a name does not fit LINE_NAME: the lines up
    to and including that one.
  */
  function StarboardTried(p: LegacyPass): seq<LegacyLine>
    requires GeneratorRuns(p)
  {
    if SurveyEstimator.Terminates(p.spacing, p.diagonal) then StarboardFrom(p, 1)
    else LinesFrom((k: nat) => StarboardLine(p, k), FirstMisfit(p))
  }

  /** The lines 1 to m of a numbered family. */
  function LinesFrom(line: nat -> LegacyLine, m: nat): (r: seq<LegacyLine>)
    ensures |r| == m
    ensures forall i :: 0 <= i < m ==> r[i] == line(i + 1)
  {
    seq(m, i requires 0 <= i < m => line(i + 1))
  }

  /** The port lines the loop tries to insert: it is reached only when the starboard loop ends. */
  function PortTried(p: LegacyPass): seq<LegacyLine>
    requires GeneratorRuns(p)
  {
    if SurveyEstimator.Terminates(p.spacing, p.diagonal) then PortFrom(p, 1) else []
  }

  /** The lines the generator tries to insert, in order. */
  function TriedLines(p: LegacyPass): seq<LegacyLine>
    requires GeneratorRuns(p)
  {
    [Centreline(p)] + StarboardTried(p) + PortTried(p)
  }

  /**
    The starboard loop at step k, while every earlier line has been inserted: its guard holds exactly when line k
    is still among the lines tried, and that line is the k-th starboard line. A negative spacing's lines do not
    all fit.
  */
  lemma StarboardTriedAt(p: LegacyPass, k: nat)
    requires GeneratorRuns(p) && 1 <= k <= |StarboardTried(p)| + 1
    requires AllFit(StoredRows(p.prefix, StarboardTried(p))[..k - 1])
    ensures SurveyEstimator.Offset(p.spacing, k) < p.diagonal <==> k - 1 < |StarboardTried(p)|
    ensures k - 1 < |StarboardTried(p)| ==> StarboardTried(p)[k - 1] == StarboardLine(p, k)
    ensures k - 1 < |StarboardTried(p)| ==>
      var offset := SurveyEstimator.Offset(p.spacing, k);
      StoredRows(p.prefix, StarboardTried(p))[k - 1] == StoredRow(p.prefix, OffsetLine(p, SideName(p.prefix, "_S", offset), offset))
  {
    var tried := StarboardTried(p);
    if SurveyEstimator.Terminates(p.spacing, p.diagonal) {
      if p.spacing > 0.0 {
        StarboardFromExact(p, 1);
        SurveyEstimator.OffsetCountExact(p.spacing, p.diagonal, k);
      } else {
        SurveyEstimator.FirstOffsets(p.spacing);
      }
    } else {
      SurveyEstimator.GuardsHoldForever(p.spacing, p.diagonal, k);
      DivergentTriedAt(p, k);
    }
  }

  /** With a negative spacing the loop cannot get past the misfit: while every earlier line fits, line k is still tried. */
  lemma DivergentTriedAt(p: LegacyPass, k: nat)
    requires p.spacing < 0.0 && !SurveyEstimator.Terminates(p.spacing, p.diagonal)
    requires 1 <= k <= |StarboardTried(p)| + 1 && AllFit(StoredRows(p.prefix, StarboardTried(p))[..k - 1])
    ensures k - 1 < |StarboardTried(p)| && StarboardTried(p)[k - 1] == StarboardLine(p, k)
  {
    var rows := StoredRows(p.prefix, StarboardTried(p));
    AllFitWhole(rows, k - 1);
    StarboardFitsTerminates(p);
  }

  /** When every starboard line tried fits, the spacing terminates: a negative spacing always ends on a long name. */
  lemma StarboardFitsTerminates(p: LegacyPass)
    requires GeneratorRuns(p)
    ensures AllFit(StoredRows(p.prefix, StarboardTried(p))) ==> SurveyEstimator.Terminates(p.spacing, p.diagonal)
  {
    if !SurveyEstimator.Terminates(p.spacing, p.diagonal) {
      var m := FirstMisfit(p);
      assert StoredRows(p.prefix, StarboardTried(p))[m - 1] == StoredRow(p.prefix, StarboardLine(p, m));
    }
  }

  /** The port loop at step k: its guard holds exactly when line k is among PortFrom(p, 1), and that line is the k-th port line. */
  lemma PortFromAt(p: LegacyPass, k: nat)
    requires SurveyEstimator.Terminates(p.spacing, p.diagonal) && 1 <= k <= |PortFrom(p, 1)| + 1
    ensures SurveyEstimator.PortOffset(p.spacing, k) > -p.diagonal <==> k - 1 < |PortFrom(p, 1)|
    ensures k - 1 < |PortFrom(p, 1)| ==> PortFrom(p, 1)[k - 1] == PortLine(p, k)
    ensures k - 1 < |PortFrom(p, 1)| ==>
      var offset := SurveyEstimator.PortOffset(p.spacing, k);
      StoredRows(p.prefix, PortFrom(p, 1))[k - 1] == StoredRow(p.prefix, OffsetLine(p, SideName(p.prefix, "_P", offset), offset))
  {
    if p.spacing > 0.0 {
      PortFromAtPositive(p, k);
    } else {
      SurveyEstimator.FirstOffsets(p.spacing);
    }
  }

  /** PortFromAt for a positive spacing, whose port lines are counted by OffsetCount. */
  lemma PortFromAtPositive(p: LegacyPass, k: nat)
    requires p.spacing > 0.0 && SurveyEstimator.Terminates(p.spacing, p.diagonal) && 1 <= k <= |PortFrom(p, 1)| + 1
    ensures SurveyEstimator.PortOffset(p.spacing, k) > -p.diagonal <==> k - 1 < |PortFrom(p, 1)|
    ensures k - 1 < |PortFrom(p, 1)| ==> PortFrom(p, 1)[k - 1] == PortLine(p, k)
  {
    PortFromExact(p, 1);
    SurveyEstimator.PortOffsetCountExact(p.spacing, p.diagonal, k);
  }

  /** One loop step: the line at this offset, named by side and offset, inserted as the given row. */
  method AddOffsetLine(fc: LegacyFeatureClass, p: LegacyPass, side: string, offset: real, ghost row: LegacyRow) returns (ok: bool)
    requires row == StoredRow(p.prefix, OffsetLine(p, SideName(p.prefix, side, offset), offset))
    modifies fc
    ensures ok <==> RowFits(row)
    ensures fc.rows == old(fc.rows) + (if ok then [row] else [])
  {
    ok := fc.AddPolyline(p.prefix, OffsetLine(p, SideName(p.prefix, side, offset), offset));
  }

  /** The starboard loop: offset = spacing, 2 * spacing, ... while below the diagonal, until an insert raises. */
  method AddStarboardLines(fc: LegacyFeatureClass, p: LegacyPass) returns (ok: bool)
    requires GeneratorRuns(p)
    modifies fc
    ensures fc.rows == old(fc.rows) + Inserted(StoredRows(p.prefix, StarboardTried(p)))
    ensures ok <==> AllFit(StoredRows(p.prefix, StarboardTried(p)))
  {
    ghost var rows := StoredRows(p.prefix, StarboardTried(p));
    var offset := p.spacing;
    var k := 1;
    while offset < p.diagonal
      invariant 1 <= k && offset == SurveyEstimator.Offset(p.spacing, k)
      invariant InsertedSoFar(rows, k - 1, fc.rows, old(fc.rows))
      decreases |rows| + 1 - k
    {
      StarboardTriedAt(p, k);
      ok := AddOffsetLine(fc, p, "_S", offset, rows[k - 1]);
      InsertStep(rows, k - 1, old(fc.rows) + rows[..k - 1], old(fc.rows));
      if !ok {
        return;
      }
      offset := offset + p.spacing;
      k := k + 1;
    }
    StarboardTriedAt(p, k);
    InsertDone(rows, fc.rows, old(fc.rows));
    ok := true;
  }

  /** The port loop: offset = -spacing, -2 * spacing, ... while above minus the diagonal, until an insert raises. */
  method AddPortLines(fc: LegacyFeatureClass, p: LegacyPass) returns (ok: bool)
    requires SurveyEstimator.Terminates(p.spacing, p.diagonal)
    modifies fc
    ensures fc.rows == old(fc.rows) + Inserted(StoredRows(p.prefix, PortFrom(p, 1)))
    ensures ok <==> AllFit(StoredRows(p.prefix, PortFrom(p, 1)))
  {
    ghost var rows := StoredRows(p.prefix, PortFrom(p, 1));
    var offset := -p.spacing;
    var k := 1;
    while offset > -p.diagonal
      invariant 1 <= k && offset == SurveyEstimator.PortOffset(p.spacing, k)
      invariant InsertedSoFar(rows, k - 1, fc.rows, old(fc.rows))
      decreases |rows| + 1 - k
    {
      PortFromAt(p, k);
      ok := AddOffsetLine(fc, p, "_P", offset, rows[k - 1]);
      InsertStep(rows, k - 1, old(fc.rows) + rows[..k - 1], old(fc.rows));
      if !ok {
        return;
      }
      offset := offset - p.spacing;
      k := k + 1;
    }
    PortFromAt(p, k);
    InsertDone(rows, fc.rows, old(fc.rows));
    ok := true;
  }

  /**
    The body of the per-polygon loop: centreline, starboard lines, port lines, each inserted as it is planned.
    The first insert that raises ends it, leaving the rows inserted before.
  */
  method AddLegacyLines(fc: LegacyFeatureClass, p: LegacyPass) returns (ok: bool)
    requires GeneratorRuns(p)
    modifies fc
    ensures fc.rows == old(fc.rows) + Inserted(StoredRows(p.prefix, TriedLines(p)))
    ensures ok <==> AllFit(StoredRows(p.prefix, TriedLines(p)))
  {
    var c := Centreline(p);
    ghost var r := StoredRow(p.prefix, c);
    ghost var sr, tr := StoredRows(p.prefix, StarboardTried(p)), StoredRows(p.prefix, PortTried(p));
    StoredRowsThree(p.prefix, c, StarboardTried(p), PortTried(p));
    InsertedThree(r, sr, tr);
    ok := fc.AddPolyline(p.prefix, c);
    if !ok {
      return;
    }
    ok := AddStarboardLines(fc, p);
    if !ok {
      ConcatAssoc(old(fc.rows), [r], Inserted(sr));
      return;
    }
    InsertedUnique(sr, |sr|);
    assert sr[..|sr|] == sr;
    StarboardFitsTerminates(p);
    ok := AddPortLines(fc, p);
    ConcatAssoc(old(fc.rows) + [r], sr, Inserted(tr));
    ConcatAssoc(old(fc.rows), [r], sr + Inserted(tr));
  }

  /** When the loops end and every line fits, the lines tried are the plan's lines and all of them are stored. */
  lemma TriedLinesPlanned(p: LegacyPass)
    requires GeneratorRuns(p)
    ensures AllFit(StoredRows(p.prefix, TriedLines(p))) <==>
      SurveyEstimator.Terminates(p.spacing, p.diagonal) && AllFit(LegacyRows(p))
    ensures AllFit(StoredRows(p.prefix, TriedLines(p))) ==> Inserted(StoredRows(p.prefix, TriedLines(p))) == LegacyRows(p)
  {
    var rows := StoredRows(p.prefix, TriedLines(p));
    var sr, tr := StoredRows(p.prefix, StarboardTried(p)), StoredRows(p.prefix, PortTried(p));
    StoredRowsThree(p.prefix, Centreline(p), StarboardTried(p), PortTried(p));
    InsertedThree(StoredRow(p.prefix, Centreline(p)), sr, tr);
    StarboardFitsTerminates(p);
    if AllFit(rows) {
      InsertedUnique(rows, |rows|);
      assert rows[..|rows|] == rows;
    }
  }

  // ---------------------------------------------------------------- FC2CSV

  /** FC2CSV's per-row duration and total duration; turnDuration is taken as hours. Raises on a zero speed. */
  function LegacyDurations(lengths: seq<real>, knots: real, turnDuration: real): (r: Result<seq<(real, real)>, string>)
    ensures r.Success? ==> |r.value| == |lengths|
    ensures r.Failure? <==> knots == 0.0 && lengths != []
  {
    var speed := DurationReport.Speed(knots);
    if speed == 0.0 && lengths != [] then Failure("ZeroDivisionError")
    else if lengths == [] then Success([])
    else Success(seq(|lengths|, i requires 0 <= i < |lengths| => RowDuration(lengths[i], speed, turnDuration)))
  }

  /** One row: the duration at the speed, and that duration plus the turn. */
  function RowDuration(length: real, speed: real, turnDuration: real): (d: (real, real))
    requires speed != 0.0
    ensures d.1 == d.0 + turnDuration
  {
    var duration := length / speed / 3600.0;
    (duration, duration + turnDuration)
  }

  /**
    The old copy times a row as the current one does on a grid layer, except for the turn: an old turn of t hours
    is a current turn parameter of 60 t minutes.
  */
  lemma TurnWasInHours(length: real, knots: real, hours: real)
    requires knots != 0.0
    ensures var speed := DurationReport.Speed(knots);
      RowDuration(length, speed, hours).1 ==
      DurationReport.LineDuration(length, speed) + SurveyCompute.TurnHours(60.0 * hours)
  {
  }

  /** The FC2CSV loop: each row's duration and total duration in turn. */
  method FC2CSV(lengths: seq<real>, knots: real, turnDuration: real) returns (r: Result<seq<(real, real)>, string>)
    ensures r == LegacyDurations(lengths, knots, turnDuration)
  {
    var speed := knots * (1852.0 / 3600.0);
    var lines: seq<(real, real)> := [];
    for i := 0 to |lengths|
      invariant speed != 0.0 || i == 0
      invariant |lines| == i
      invariant forall j :: 0 <= j < i ==> lines[j] == RowDuration(lengths[j], speed, turnDuration)
    {
      if speed == 0.0 {
        return Failure("ZeroDivisionError");
      }
      var duration := lengths[i] / speed / 3600.0;
      var totalDuration := duration + turnDuration;
      lines := lines + [(duration, totalDuration)];
    }
    if lengths == [] {
      return Success([]);
    }
    assert lines == seq(|lengths|, i requires 0 <= i < |lengths| => RowDuration(lengths[i], speed, turnDuration));
    return Success(lines);
  }

  // ---------------------------------------------------------------- compute

  /** The old tool's parameters. */
  datatype LegacyParams = LegacyParams(spacing: real, heading: real, prefix: string, knots: real, turnDuration: real)

  /**
    What the old compute reads from the project: the polygons the selected layer's cursor yields and the
    lengths of the run lines FC2CSV reads.
  */
  datatype LegacyEnv = LegacyEnv(num: Geodetic.Numerics, isGeographic: bool, workspaceExists: bool, workspaceIsGdb: bool,
                                 targetReady: bool, polygons: seq<SurveyCompute.Area>, reportLengths: seq<real>)

  /** How a call of the old compute ends. */
  datatype LegacyOutcome =
    | ReturnedOne                                     // workspace, target or selection not usable
    | NothingSelected                                 // the cursor yields no polygon: the loop does nothing
    | Crashed(error: string)
    | InsertFailed(pass: LegacyPass, rows: seq<LegacyRow>)    // insertRow raised; rows were inserted before it
    | Planned(pass: LegacyPass, rows: seq<LegacyRow>, report: Result<seq<(real, real)>, string>)

  function PolygonPass(p: LegacyParams, env: LegacyEnv, area: SurveyCompute.Area): LegacyPass
  {
    LegacyPass(env.num, area.centroid, p.spacing, p.heading, LegacyDiagonal(env.num, area), env.isGeographic, p.prefix)
  }

  /**
    How the polygon's plan ends. A zero spacing raises at the line-count division on either kind of layer. Otherwise
    the lines are inserted until one does not fit its text fields; when none fails the plan is stored in full.
  */
  function PlanPolygon(p: LegacyParams, pass: LegacyPass, reportLengths: seq<real>): LegacyOutcome
  {
    if pass.spacing == 0.0 then Crashed("ZeroDivisionError")
    else if SurveyEstimator.Terminates(pass.spacing, pass.diagonal) && AllFit(LegacyRows(pass)) then
      Planned(pass, LegacyRows(pass), LegacyDurations(reportLengths, p.knots, p.turnDuration))
    else InsertFailed(pass, Inserted(StoredRows(pass.prefix, TriedLines(pass))))
  }

  /**
    The old tool never rejects a negative spacing. Its loop guards then hold at every step, but the offsets grow
    without bound and so do the starboard names: the loop ends when the first name longer than LINE_NAME makes
    insertRow raise, with the centreline and the starboard lines before it stored (nothing, when the centreline
    itself does not fit).
  */
  lemma NegativeSpacingFailsInsert(p: LegacyParams, pass: LegacyPass, reportLengths: seq<real>, k: nat)
    requires pass.spacing < 0.0 && pass.spacing < pass.diagonal && k >= 1
    ensures SurveyEstimator.Offset(pass.spacing, k) < pass.diagonal && SurveyEstimator.PortOffset(pass.spacing, k) > -pass.diagonal
    ensures var m := FirstMisfit(pass);
      PlanPolygon(p, pass, reportLengths) ==
      InsertFailed(pass, if Fits(pass.prefix, Centreline(pass))
        then StoredRows(pass.prefix, [Centreline(pass)] + seq(m - 1, i requires 0 <= i < m - 1 => StarboardLine(pass, i + 1)))
        else [])
  {
    SurveyEstimator.GuardsHoldForever(pass.spacing, pass.diagonal, k);
    DivergentInserted(pass);
  }

  /** A negative spacing tries the centreline and the starboard lines, and no port line. */
  lemma DivergentTried(pass: LegacyPass)
    requires pass.spacing < 0.0 && pass.spacing < pass.diagonal
    ensures TriedLines(pass) == [Centreline(pass)] + StarboardTried(pass)
  {
    assert PortTried(pass) == [];
  }

  /** A negative spacing's starboard loop tries the lines 1 to the first misfit. */
  lemma DivergentStarboard(pass: LegacyPass)
    requires pass.spacing < 0.0 && pass.spacing < pass.diagonal
    ensures |StarboardTried(pass)| == FirstMisfit(pass)
    ensures forall i :: 0 <= i < FirstMisfit(pass) ==> StarboardTried(pass)[i] == StarboardLine(pass, i + 1)
  {
    assert |StarboardTried(pass)| == FirstMisfit(pass);
    forall i | 0 <= i < FirstMisfit(pass)
      ensures StarboardTried(pass)[i] == StarboardLine(pass, i + 1)
    {
    }
  }

  /** The i-th row a negative spacing tries, after the centreline's, is the i-th starboard line's. */
  lemma DivergentRowAt(pass: LegacyPass, i: nat)
    requires pass.spacing < 0.0 && pass.spacing < pass.diagonal && 1 <= i <= FirstMisfit(pass)
    ensures |StoredRows(pass.prefix, TriedLines(pass))| == FirstMisfit(pass) + 1
    ensures StoredRows(pass.prefix, TriedLines(pass))[i] == StoredRow(pass.prefix, StarboardLine(pass, i))
  {
    DivergentTried(pass);
    DivergentStarboard(pass);
    assert TriedLines(pass)[i] == StarboardTried(pass)[i - 1];
  }

  /**
    The rows a negative spacing tries: the centreline's, then the starboard lines' up to the first misfit, which
    is the last row and the only one after the centreline's that does not fit.
  */
  lemma DivergentRows(pass: LegacyPass)
    requires pass.spacing < 0.0 && pass.spacing < pass.diagonal
    ensures var m := FirstMisfit(pass); var rows := StoredRows(pass.prefix, TriedLines(pass));
      |rows| == m + 1 && rows[0] == StoredRow(pass.prefix, Centreline(pass)) && !RowFits(rows[m]) &&
      forall i :: 1 <= i < m ==> RowFits(rows[i])
  {
    var m := FirstMisfit(pass);
    DivergentTried(pass);
    DivergentRowAt(pass, m);
    forall i | 1 <= i < m
      ensures RowFits(StoredRows(pass.prefix, TriedLines(pass))[i])
    {
      DivergentRowAt(pass, i);
    }
  }

  /** The first m lines a negative spacing tries are the centreline and the starboard lines before the first misfit. */
  lemma DivergentPrefix(pass: LegacyPass)
    requires pass.spacing < 0.0 && pass.spacing < pass.diagonal
    ensures var m := FirstMisfit(pass);
      StoredRows(pass.prefix, TriedLines(pass))[..m] ==
      StoredRows(pass.prefix, [Centreline(pass)] + seq(m - 1, i requires 0 <= i < m - 1 => StarboardLine(pass, i + 1)))
  {
    var m := FirstMisfit(pass);
    var tried := TriedLines(pass);
    var before := seq(m - 1, i requires 0 <= i < m - 1 => StarboardLine(pass, i + 1));
    DivergentTried(pass);
    DivergentStarboard(pass);
    TakeAfterFirst(tried, Centreline(pass), StarboardTried(pass), before);
    StoredRowsTake(pass.prefix, tried, m);
  }

  /** A first element followed by the start of the rest. */
  lemma TakeAfterFirst(tried: seq<LegacyLine>, c: LegacyLine, rest: seq<LegacyLine>, before: seq<LegacyLine>)
    requires tried == [c] + rest && |before| < |rest|
    requires forall i :: 0 <= i < |before| ==> before[i] == rest[i]
    ensures tried[..|before| + 1] == [c] + before
  {
    assert rest[..|before|] == before;
  }

  /** The rows a negative spacing leaves: the centreline and the starboard lines before the first misfit, if the centreline fits. */
  lemma DivergentInserted(pass: LegacyPass)
    requires pass.spacing < 0.0 && pass.spacing < pass.diagonal
    ensures var m := FirstMisfit(pass);
      Inserted(StoredRows(pass.prefix, TriedLines(pass))) ==
      if Fits(pass.prefix, Centreline(pass))
      then StoredRows(pass.prefix, [Centreline(pass)] + seq(m - 1, i requires 0 <= i < m - 1 => StarboardLine(pass, i + 1)))
      else []
  {
    DivergentRows(pass);
    DivergentPrefix(pass);
    InsertedBeforeMisfit(StoredRows(pass.prefix, TriedLines(pass)), FirstMisfit(pass));
  }

  /** A prefix of more than 9 characters makes the centreline's name too long: the first insert raises and nothing is stored. */
  lemma LongPrefixFailsAtOnce(p: LegacyParams, pass: LegacyPass, reportLengths: seq<real>)
    requires pass.spacing != 0.0 && |pass.prefix| > 9
    ensures PlanPolygon(p, pass, reportLengths) == InsertFailed(pass, [])
  {
    var c := Centreline(pass);
    assert |LegacyNameText(c.name)| == |pass.prefix| + 11;
    var rows := StoredRows(pass.prefix, TriedLines(pass));
    assert rows[0] == StoredRow(pass.prefix, c);
    TriedLinesPlanned(pass);
    InsertedUnique(rows, 0);
  }

  /** How the old compute ends. */
  function LegacyRun(p: LegacyParams, env: LegacyEnv): LegacyOutcome
  {
    if !(env.workspaceExists && env.workspaceIsGdb) || !env.targetReady || |env.polygons| > 1 then ReturnedOne
    else if env.polygons == [] then NothingSelected
    else PlanPolygon(p, PolygonPass(p, env, env.polygons[0]), env.reportLengths)
  }

  /** More than one selected polygon is refused; none is not, and then nothing is planned. */
  lemma SelectionChecks(p: LegacyParams, env: LegacyEnv)
    requires env.workspaceExists && env.workspaceIsGdb && env.targetReady
    ensures LegacyRun(p, env) == ReturnedOne <==> |env.polygons| > 1
    ensures LegacyRun(p, env) == NothingSelected <==> env.polygons == []
  {
  }

  /** A planned survey uses the heading verbatim, the full diagonal and the stored rows of that one polygon, and no cross pass. */
  lemma LegacyPlan(p: LegacyParams, env: LegacyEnv)
    requires LegacyRun(p, env).Planned?
    ensures |env.polygons| == 1 && |p.prefix| <= 9
    ensures var o := LegacyRun(p, env);
      o.pass.heading == p.heading && o.pass.spacing == p.spacing && o.pass.prefix == p.prefix &&
      o.pass.diagonal == LegacyDiagonal(env.num, env.polygons[0]) &&
      |o.rows| == 1 + 2 * SurveyEstimator.OffsetCount(p.spacing, o.pass.diagonal) &&
      forall i :: 0 <= i < |o.rows| ==> |o.rows[i].prefix| <= FIELD_WIDTH && |o.rows[i].name| <= FIELD_WIDTH
  {
    var o := LegacyRun(p, env);
    LegacyLinesShape(o.pass, 0);
    assert o.rows[0] == StoredRow(p.prefix, Centreline(o.pass));
    assert |LegacyNameText(Centreline(o.pass).name)| == |p.prefix| + 11;
  }

  /** The row-count loop over the selected layer's cursor. */
  method CountPolygons(polygons: seq<SurveyCompute.Area>) returns (count: nat)
    ensures count == |polygons|
  {
    count := 0;
    for i := 0 to |polygons|
      invariant count == i
    {
      count := count + 1;
    }
  }

  /** The per-polygon body: the line count's division, the generator, then FC2CSV. */
  method RunPolygon(p: LegacyParams, pass: LegacyPass, reportLengths: seq<real>, tmp: LegacyFeatureClass) returns (o: LegacyOutcome)
    modifies tmp
    ensures o == PlanPolygon(p, pass, reportLengths)
    ensures o.Planned? || o.InsertFailed? ==> tmp.rows == old(tmp.rows) + o.rows
    ensures o.Crashed? ==> tmp.rows == old(tmp.rows)
  {
    if pass.spacing == 0.0 {
      return Crashed("ZeroDivisionError");
    }
    var before := |tmp.rows|;
    var ok := AddLegacyLines(tmp, pass);
    var rows := tmp.rows[before..];
    TriedLinesPlanned(pass);
    if !ok {
      return InsertFailed(pass, rows);
    }
    var report := FC2CSV(reportLengths, p.knots, p.turnDuration);
    o := Planned(pass, rows, report);
  }

  /** surveyEstimator.compute of the old copy, with the temporary run-line feature class it fills. */
  method LegacyCompute(p: LegacyParams, env: LegacyEnv, tmp: LegacyFeatureClass) returns (o: LegacyOutcome)
    modifies tmp
    ensures o == LegacyRun(p, env)
    ensures o.Planned? || o.InsertFailed? ==> tmp.rows == old(tmp.rows) + o.rows
    ensures !o.Planned? && !o.InsertFailed? ==> tmp.rows == old(tmp.rows)
  {
    if !(env.workspaceExists && env.workspaceIsGdb) {
      return ReturnedOne;
    }
    if !env.targetReady {
      return ReturnedOne;
    }
    var count := CountPolygons(env.polygons);
    if count > 1 {
      return ReturnedOne;
    }
    if count == 0 {
      return NothingSelected;
    }
    var area := env.polygons[0];
    var pass := LegacyPass(env.num, area.centroid, p.spacing, p.heading, env.num.hypot(area.xMax - area.xMin, area.yMax - area.yMin),
                           env.isGeographic, p.prefix);
    assert pass == PolygonPass(p, env, area);
    o := RunPolygon(p, pass, env.reportLengths, tmp);
  }
}
