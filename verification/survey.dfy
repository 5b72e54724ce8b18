/**
  The survey line planner of GGSurveyEstimator.py: validation of the tool's
  parameters, resolution of the -1 sentinels for heading and spacing, the
  centreline / starboard / port line generator and its cross-line pass, the
  optimal-heading search, the depth-based spacing estimate, the duration
  report and the auto-incremented output file name.

  Feature classes are modelled by their rows; the polygon by its centroid,
  extent and the vertices of its parts; the sounding grid by the elevations
  that fall inside the polygon; the directory by its listing. Geometry goes
  through the Geodetic module with its numerical routines as parameters.
*/
module SurveyEstimator {
  import opened Wrappers
  import PyText
  import Geodetic

  datatype Point = Point(x: real, y: real)

  /** Width of the LINE_PREFIX and LINE_NAME text fields; add_polyline cuts both to it. */
  const NAME_WIDTH: nat := 20

  /** A row of a run-line feature class: its two end points and the attributes the planner writes. */
  datatype LineRow = LineRow(start: Point, end: Point, prefix: string, name: string, direction: real, spacing: real)

  /**
    A line's name as the generator composes it: `prefix + "_Centreline"`, or `prefix + side + "%.1f" % offset`
    with side "_S" or "_P". NameText renders it.
  */
  datatype LineName = CentreName(prefix: string) | SideName(prefix: string, side: string, offset: real)

  function NameText(n: LineName): string
  {
    match n
    case CentreName(prefix) => prefix + "_Centreline"
    case SideName(prefix, side, offset) => prefix + side + PyText.FormatFixed(offset, 1)
  }

  /** A line as the generator plans it, before it is stored: name, end points, heading and spacing of its pass. */
  datatype PlannedLine = PlannedLine(name: LineName, start: Point, end: Point, direction: real, spacing: real)

  /** The row add_polyline inserts: prefix and name cut to 20 characters, the spacing kept in REMARKS. */
  function StoredRow(prefix: string, line: PlannedLine): (r: LineRow)
    ensures |r.prefix| <= NAME_WIDTH && |r.name| <= NAME_WIDTH
    ensures |prefix| <= NAME_WIDTH ==> r.prefix == prefix
    ensures |NameText(line.name)| <= NAME_WIDTH ==> r.name == NameText(line.name)
    ensures r.name == NameText(line.name)[..|r.name|]
    ensures r.start == line.start && r.end == line.end && r.direction == line.direction && r.spacing == line.spacing
  {
    LineRow(line.start, line.end, PyText.Truncate(prefix, NAME_WIDTH), PyText.Truncate(NameText(line.name), NAME_WIDTH), line.direction, line.spacing)
  }

  /**
    The rows add_polyline stores for a list of lines, in order. The older copy keeps its own StoredRows: its
    rows carry no spacing and its texts are not cut, so the row type and the row-making function differ.
  */
  function StoredRows(prefix: string, lines: seq<PlannedLine>): (rows: seq<LineRow>)
    ensures |rows| == |lines|
  {
    seq(|lines|, i requires 0 <= i < |lines| => StoredRow(prefix, lines[i]))
  }

  lemma StoredRowsAppend(prefix: string, a: seq<PlannedLine>, b: seq<PlannedLine>)
    ensures StoredRows(prefix, a + b) == StoredRows(prefix, a) + StoredRows(prefix, b)
  {
  }

  /** A feature class of survey lines, as an insert cursor sees it. */
  class FeatureClass {
    var rows: seq<LineRow>

    constructor()
      ensures rows == []
    {
      rows := [];
    }

    /** add_polyline: inserts one line, its prefix and name cut to 20 characters (the row StoredRows([line]) holds). */
    method AddPolyline(prefix: string, line: PlannedLine)
      modifies this
      ensures rows == old(rows) + StoredRows(prefix, [line])
    {
      rows := rows + [StoredRow(prefix, line)];
      StoredRowsSingle(prefix, line);
    }
  }

  // ---------------------------------------------------------------- line geometry

  function ToPoint(p: (real, real)): Point
  {
    Point(p.0, p.1)
  }

  /** The point reached from `from` at range rng along bearing. */
  function Project(num: Geodetic.Numerics, from: Point, rng: real, bearing: real, isGeographic: bool): Point
  {
    ToPoint(Geodetic.CoordinateFromRangeBearing(num, from.x, from.y, rng, bearing, isGeographic))
  }

  /**
    calc_line_from_point: the two ends of a line through centre along bearing, at range +rng and -rng.
    On a grid the centre is the midpoint of the two ends.
  */
  function LineFromPoint(num: Geodetic.Numerics, centre: Point, bearing: real, rng: real, isGeographic: bool): (ends: (Point, Point))
  {
    (Project(num, centre, rng, bearing, isGeographic), Project(num, centre, -rng, bearing, isGeographic))
  }

  /** The two ends are the projections of the centre at +rng and -rng on the same bearing; on a grid the centre is their midpoint. */
  lemma LineFromPointEnds(num: Geodetic.Numerics, centre: Point, bearing: real, rng: real, isGeographic: bool)
    ensures var ends := LineFromPoint(num, centre, bearing, rng, isGeographic);
      ends.0 == Project(num, centre, rng, bearing, isGeographic) &&
      ends.1 == Project(num, centre, -rng, bearing, isGeographic) &&
      (!isGeographic ==> ends.0.x + ends.1.x == 2.0 * centre.x && ends.0.y + ends.1.y == 2.0 * centre.y) &&
      (rng == 0.0 ==> ends == (centre, centre))
  {
    Geodetic.CoordinateGridOpposite(num, centre.x, centre.y, rng, bearing);
    if rng == 0.0 {
      Geodetic.CoordinateZeroRange(num, centre.x, centre.y, bearing, isGeographic);
    }
  }

  // ---------------------------------------------------------------- offsets

  /** The generator's loops end: a positive spacing, or one that already reaches the half-diagonal. */
  predicate Terminates(spacing: real, halfDiagonal: real)
  {
    spacing > 0.0 || spacing >= halfDiagonal
  }

  /** The k-th starboard offset as the source accumulates it: spacing added k times. */
  function Offset(spacing: real, k: nat): real
  {
    if k == 0 then 0.0 else Offset(spacing, k - 1) + spacing
  }

  lemma {:induction false} OffsetIsMultiple(spacing: real, k: nat)
    ensures Offset(spacing, k) == k as real * spacing
  {
    if k > 0 {
      OffsetIsMultiple(spacing, k - 1);
    }
  }

  /** The k-th port offset as the source accumulates it: spacing subtracted k times. */
  function PortOffset(spacing: real, k: nat): real
  {
    if k == 0 then 0.0 else PortOffset(spacing, k - 1) - spacing
  }

  lemma {:induction false} PortOffsetIsNegated(spacing: real, k: nat)
    ensures PortOffset(spacing, k) == -Offset(spacing, k)
  {
    if k > 0 {
      PortOffsetIsNegated(spacing, k - 1);
    }
  }

  /**
    When the spacing does not terminate (not positive and below the half-diagonal), both loop guards hold at
    every step: each starboard offset stays below the half-diagonal and each port offset above its negation,
    so the starboard while loop never exits.
  */
  lemma GuardsHoldForever(spacing: real, halfDiagonal: real, k: nat)
    requires !Terminates(spacing, halfDiagonal) && k >= 1
    ensures Offset(spacing, k) < halfDiagonal
    ensures PortOffset(spacing, k) > -halfDiagonal
  {
    OffsetIsMultiple(spacing, k);
    PortOffsetIsNegated(spacing, k);
    assert k as real * spacing <= spacing by {
      assert k as real * spacing - spacing == (k as real - 1.0) * spacing;
      assert (k as real - 1.0) * spacing <= 0.0 by {
        if spacing < 0.0 {
          MultiplyAtLeast(k as real - 1.0, 0.0, -spacing);
        }
      }
    }
  }

  /** The number of starboard (and of port) lines: how many k >= 1 have k * spacing < halfDiagonal. */
  function OffsetCount(spacing: real, halfDiagonal: real): (n: nat)
    requires Terminates(spacing, halfDiagonal)
  {
    if spacing >= halfDiagonal then 0
    else
      var q := halfDiagonal / spacing;
      var c := -((-q).Floor);
      if c < 1 then 0 else c - 1
  }

  /** Starboard offsets are exactly the multiples k * spacing, k >= 1, that lie strictly inside the half-diagonal. */
  lemma OffsetCountExact(spacing: real, halfDiagonal: real, k: nat)
    requires spacing > 0.0 && k >= 1
    ensures Offset(spacing, k) < halfDiagonal <==> k <= OffsetCount(spacing, halfDiagonal)
  {
    OffsetIsMultiple(spacing, k);
    assert Offset(spacing, k) == k as real * spacing;
    var n := OffsetCount(spacing, halfDiagonal);
    var q := halfDiagonal / spacing;
    assert q * spacing == halfDiagonal;
    if spacing >= halfDiagonal {
      MultiplyAtLeast(k as real, 1.0, spacing);
    } else {
      var c := -((-q).Floor);
      assert c as real - 1.0 < q <= c as real;
      if k <= n {
        assert k as real <= c as real - 1.0 < q;
        MultiplyStrict(q, k as real, spacing);
      } else {
        MultiplyAtLeast(k as real, q, spacing);
      }
    }
  }

  lemma MultiplyAtLeast(x: real, y: real, m: real)
    requires m > 0.0 && x >= y
    ensures x * m >= y * m
  {
    assert x * m - y * m == (x - y) * m;
  }

  lemma MultiplyStrict(x: real, y: real, m: real)
    requires m > 0.0 && x > y
    ensures x * m > y * m
  {
    assert x * m - y * m == (x - y) * m;
  }

  /** Port offsets are the negated starboard ones: -k * spacing > -halfDiagonal exactly when k * spacing < halfDiagonal. */
  lemma PortOffsetCountExact(spacing: real, halfDiagonal: real, k: nat)
    requires spacing > 0.0 && k >= 1
    ensures PortOffset(spacing, k) > -halfDiagonal <==> k <= OffsetCount(spacing, halfDiagonal)
  {
    PortOffsetIsNegated(spacing, k);
    OffsetCountExact(spacing, halfDiagonal, k);
  }

  // ---------------------------------------------------------------- one pass of lines

  /** The fixed inputs of one pass of the generator. */
  datatype Pass = Pass(num: Geodetic.Numerics, centroid: Point, spacing: real, heading: real, halfDiagonal: real,
                       isGeographic: bool, prefix: string)

  /** A full-length line through centre along the pass's heading, tagged with the pass's heading and spacing. */
  function PlanLine(p: Pass, name: LineName, centre: Point): (line: PlannedLine)
    ensures line.name == name && line.direction == p.heading && line.spacing == p.spacing
  {
    var ends := LineFromPoint(p.num, centre, p.heading, p.halfDiagonal, p.isGeographic);
    PlannedLine(name, ends.0, ends.1, p.heading, p.spacing)
  }

  /** The line at signed offset `offset` to starboard (positive) or port (negative) of the centroid. */
  function OffsetLine(p: Pass, name: LineName, offset: real): PlannedLine
  {
    PlanLine(p, name, Project(p.num, p.centroid, offset, p.heading - 90.0, p.isGeographic))
  }

  function StarboardLine(p: Pass, k: nat): PlannedLine
  {
    var offset := Offset(p.spacing, k);
    OffsetLine(p, SideName(p.prefix, "_S", offset), offset)
  }

  function PortLine(p: Pass, k: nat): PlannedLine
  {
    var offset := PortOffset(p.spacing, k);
    OffsetLine(p, SideName(p.prefix, "_P", offset), offset)
  }

  /**
    The starboard loop's lines from the k-th on: while the k-th offset is below the half-diagonal, the k-th
    starboard line followed by the rest. With a non-positive spacing only k = 1 is asked for, and it stops at once.
  */
  function StarboardFrom(p: Pass, k: nat): seq<PlannedLine>
    requires Terminates(p.spacing, p.halfDiagonal) && k >= 1 && (p.spacing > 0.0 || k == 1)
    decreases if p.spacing > 0.0 then OffsetCount(p.spacing, p.halfDiagonal) + 1 - k else 0
  {
    assert Offset(p.spacing, 1) == p.spacing;
    if Offset(p.spacing, k) < p.halfDiagonal then
      OffsetCountExact(p.spacing, p.halfDiagonal, k);
      [StarboardLine(p, k)] + StarboardFrom(p, k + 1)
    else []
  }

  /** The port loop's lines from the k-th on: while the k-th port offset is above minus the half-diagonal. */
  function PortFrom(p: Pass, k: nat): seq<PlannedLine>
    requires Terminates(p.spacing, p.halfDiagonal) && k >= 1 && (p.spacing > 0.0 || k == 1)
    decreases if p.spacing > 0.0 then OffsetCount(p.spacing, p.halfDiagonal) + 1 - k else 0
  {
    assert PortOffset(p.spacing, 1) == -p.spacing;
    if PortOffset(p.spacing, k) > -p.halfDiagonal then
      PortOffsetCountExact(p.spacing, p.halfDiagonal, k);
      [PortLine(p, k)] + PortFrom(p, k + 1)
    else []
  }

  /** From the k-th on, the starboard loop emits the lines k..n for n = OffsetCount. */
  lemma {:induction false} StarboardFromExact(p: Pass, k: nat)
    requires p.spacing > 0.0 && 1 <= k <= OffsetCount(p.spacing, p.halfDiagonal) + 1
    ensures |StarboardFrom(p, k)| == OffsetCount(p.spacing, p.halfDiagonal) + 1 - k
    ensures forall i :: 0 <= i < |StarboardFrom(p, k)| ==> StarboardFrom(p, k)[i] == StarboardLine(p, k + i)
    decreases OffsetCount(p.spacing, p.halfDiagonal) + 1 - k
  {
    OffsetCountExact(p.spacing, p.halfDiagonal, k);
    if k <= OffsetCount(p.spacing, p.halfDiagonal) {
      StarboardFromExact(p, k + 1);
      var s := StarboardFrom(p, k + 1);
      assert StarboardFrom(p, k) == [StarboardLine(p, k)] + s;
      forall i | 1 <= i < |StarboardFrom(p, k)|
        ensures StarboardFrom(p, k)[i] == StarboardLine(p, k + i)
      {
        assert StarboardFrom(p, k)[i] == s[i - 1] == StarboardLine(p, k + 1 + (i - 1));
      }
    }
  }

  /** From the k-th on, the port loop emits the lines k..n for n = OffsetCount. */
  lemma {:induction false} PortFromExact(p: Pass, k: nat)
    requires p.spacing > 0.0 && 1 <= k <= OffsetCount(p.spacing, p.halfDiagonal) + 1
    ensures |PortFrom(p, k)| == OffsetCount(p.spacing, p.halfDiagonal) + 1 - k
    ensures forall i :: 0 <= i < |PortFrom(p, k)| ==> PortFrom(p, k)[i] == PortLine(p, k + i)
    decreases OffsetCount(p.spacing, p.halfDiagonal) + 1 - k
  {
    PortOffsetCountExact(p.spacing, p.halfDiagonal, k);
    if k <= OffsetCount(p.spacing, p.halfDiagonal) {
      PortFromExact(p, k + 1);
      var t := PortFrom(p, k + 1);
      assert PortFrom(p, k) == [PortLine(p, k)] + t;
      forall i | 1 <= i < |PortFrom(p, k)|
        ensures PortFrom(p, k)[i] == PortLine(p, k + i)
      {
        assert PortFrom(p, k)[i] == t[i - 1] == PortLine(p, k + 1 + (i - 1));
      }
    }
  }

  function Centreline(p: Pass): PlannedLine
  {
    PlanLine(p, CentreName(p.prefix), p.centroid)
  }

  /** Every line of one pass, in the order the generator emits them: centreline, starboard lines, port lines. */
  function PassLines(p: Pass): (lines: seq<PlannedLine>)
    requires Terminates(p.spacing, p.halfDiagonal)
  {
    [Centreline(p)] + StarboardFrom(p, 1) + PortFrom(p, 1)
  }

  /** Positions in a line followed by two blocks. */
  lemma ThreeBlocks<T>(c: T, a: seq<T>, b: seq<T>)
    ensures |[c] + a + b| == 1 + |a| + |b| && ([c] + a + b)[0] == c
    ensures forall k :: 1 <= k <= |a| ==> ([c] + a + b)[k] == a[k - 1]
    ensures forall k :: |a| < k <= |a| + |b| ==> ([c] + a + b)[k] == b[k - |a| - 1]
  {
  }

  /** The first offset on each side is the spacing itself. */
  lemma FirstOffsets(spacing: real)
    ensures Offset(spacing, 1) == spacing && PortOffset(spacing, 1) == -spacing
  {
  }

  /** One pass holds 1 + 2n lines for n = OffsetCount, the first of them the centreline. */
  lemma PassLinesSize(p: Pass)
    requires Terminates(p.spacing, p.halfDiagonal)
    ensures |PassLines(p)| == 1 + 2 * OffsetCount(p.spacing, p.halfDiagonal)
    ensures PassLines(p)[0] == Centreline(p)
  {
    if p.spacing > 0.0 {
      StarboardFromExact(p, 1);
      PortFromExact(p, 1);
    } else {
      FirstOffsets(p.spacing);
    }
  }

  /** Line k of a pass (1 <= k <= n) is the k-th starboard line, and line n + k the k-th port line. */
  lemma PassLineAt(p: Pass, k: nat)
    requires Terminates(p.spacing, p.halfDiagonal) && 1 <= k <= OffsetCount(p.spacing, p.halfDiagonal)
    ensures |PassLines(p)| == 1 + 2 * OffsetCount(p.spacing, p.halfDiagonal)
    ensures PassLines(p)[k] == StarboardLine(p, k)
    ensures PassLines(p)[OffsetCount(p.spacing, p.halfDiagonal) + k] == PortLine(p, k)
  {
    var n := OffsetCount(p.spacing, p.halfDiagonal);
    StarboardFromExact(p, 1);
    PortFromExact(p, 1);
    var a, b := StarboardFrom(p, 1), PortFrom(p, 1);
    ThreeBlocks(Centreline(p), a, b);
    assert PassLines(p)[k] == a[k - 1] == StarboardLine(p, 1 + (k - 1));
    assert PassLines(p)[n + k] == b[n + k - n - 1] == PortLine(p, 1 + (k - 1));
  }

  /**
    The shape of one pass: 1 + 2n lines for n = OffsetCount (the number of k >= 1 with k * spacing below the
    half-diagonal); line 0 is the centreline, lines 1..n the starboard lines at offsets k * spacing, lines n+1..2n
    the port lines at -k * spacing.
  */
  lemma PassLinesShape(p: Pass)
    requires Terminates(p.spacing, p.halfDiagonal)
    ensures var n := OffsetCount(p.spacing, p.halfDiagonal); var lines := PassLines(p);
      |lines| == 1 + 2 * n &&
      lines[0] == Centreline(p) &&
      (forall k :: 1 <= k <= n ==> lines[k] == StarboardLine(p, k) && lines[n + k] == PortLine(p, k))
  {
    PassLinesSize(p);
    forall k | 1 <= k <= OffsetCount(p.spacing, p.halfDiagonal)
      ensures PassLines(p)[k] == StarboardLine(p, k)
      ensures PassLines(p)[OffsetCount(p.spacing, p.halfDiagonal) + k] == PortLine(p, k)
    {
      PassLineAt(p, k);
    }
  }

  /** Every line of a pass carries that pass's heading and spacing (for a cross pass, its own and not the primary's). */
  lemma PassLinesTagged(p: Pass)
    requires Terminates(p.spacing, p.halfDiagonal)
    ensures forall i :: 0 <= i < |PassLines(p)| ==> PassLines(p)[i].direction == p.heading && PassLines(p)[i].spacing == p.spacing
  {
    var n := OffsetCount(p.spacing, p.halfDiagonal);
    var lines := PassLines(p);
    PassLinesShape(p);
    forall i | 0 <= i < |lines|
      ensures lines[i].direction == p.heading && lines[i].spacing == p.spacing
    {
      if i == 0 {
      } else if i <= n {
        assert lines[i] == StarboardLine(p, i);
      } else {
        assert lines[i] == PortLine(p, i - n);
      }
    }
  }

  /** Every offset a pass uses lies strictly inside the half-diagonal, and the next one would not (spacing > 0). */
  lemma PassOffsetsInside(p: Pass, k: nat)
    requires p.spacing > 0.0 && 1 <= k
    ensures k <= OffsetCount(p.spacing, p.halfDiagonal) ==> Offset(p.spacing, k) < p.halfDiagonal && PortOffset(p.spacing, k) > -p.halfDiagonal
    ensures k == OffsetCount(p.spacing, p.halfDiagonal) + 1 ==> Offset(p.spacing, k) >= p.halfDiagonal && PortOffset(p.spacing, k) <= -p.halfDiagonal
  {
    OffsetCountExact(p.spacing, p.halfDiagonal, k);
    PortOffsetCountExact(p.spacing, p.halfDiagonal, k);
  }

  // ---------------------------------------------------------------- names

  /** The name of line i of a pass with n lines a side: centreline, then starboard 1..n, then port 1..n. */
  function NameAt(prefix: string, spacing: real, n: nat, i: nat): LineName
  {
    if i == 0 then CentreName(prefix)
    else if i <= n then SideName(prefix, "_S", Offset(spacing, i))
    else SideName(prefix, "_P", PortOffset(spacing, i - n))
  }

  /** Line i of a pass is named NameAt(i). */
  lemma PassLineNames(p: Pass, i: nat)
    requires Terminates(p.spacing, p.halfDiagonal) && i < |PassLines(p)|
    ensures PassLines(p)[i].name == NameAt(p.prefix, p.spacing, OffsetCount(p.spacing, p.halfDiagonal), i)
  {
    PassLinesSize(p);
    if i > 0 {
      var n := OffsetCount(p.spacing, p.halfDiagonal);
      if i <= n {
        PassLineAt(p, i);
      } else {
        PassLineAt(p, i - n);
      }
    }
  }

  /** The character after the prefix's underscore: 'C' for the centreline, the side letter otherwise. */
  lemma NameTag(n: LineName)
    requires n.SideName? ==> |n.side| == 2 && n.side[0] == '_'
    ensures |NameText(n)| > |n.prefix| + 1
    ensures NameText(n)[|n.prefix| + 1] == if n.CentreName? then 'C' else n.side[1]
  {
  }

  /** Side names with one prefix and side, for offsets of one sign, differ when the offsets print differently. */
  lemma SideNamesDiffer(prefix: string, side: string, x: real, y: real)
    requires (x < 0.0) == (y < 0.0)
    requires PyText.ScaledDigits(x, 1) != PyText.ScaledDigits(y, 1)
    ensures NameText(SideName(prefix, side, x)) != NameText(SideName(prefix, side, y))
  {
    if NameText(SideName(prefix, side, x)) == NameText(SideName(prefix, side, y)) {
      PyText.CancelPrefix(prefix + side, PyText.FormatFixed(x, 1), PyText.FormatFixed(y, 1));
      PyText.FormatFixedInjective(x, y, 1);
    }
  }

  /** Offsets grow linearly: the k-th offset at ten times the spacing is ten times the k-th offset. */
  lemma {:induction false} OffsetScaled(spacing: real, k: nat)
    ensures Offset(spacing, k) * 10.0 == Offset(10.0 * spacing, k)
    ensures spacing >= 0.0 ==> Offset(spacing, k) >= 0.0
  {
    if k > 0 {
      OffsetScaled(spacing, k - 1);
    }
  }

  lemma {:induction false} OffsetPositive(spacing: real, k: nat)
    requires spacing > 0.0 && k >= 1
    ensures Offset(spacing, k) > 0.0
  {
    if k > 1 {
      OffsetPositive(spacing, k - 1);
    }
  }

  /** The offsets between the i-th and the j-th are j - i more spacings. */
  lemma {:induction false} OffsetDifference(spacing: real, i: nat, j: nat)
    requires i <= j
    ensures Offset(spacing, j) == Offset(spacing, i) + Offset(spacing, j - i)
    decreases j
  {
    if j > i {
      OffsetDifference(spacing, i, j - 1);
    }
  }

  /** With a spacing of at least 1 the m-th offset is at least m, and exactly m when the spacing is 1. */
  lemma {:induction false} OffsetAtLeastCount(spacing: real, m: nat)
    requires spacing >= 1.0
    ensures Offset(spacing, m) >= m as real
    ensures spacing == 1.0 ==> Offset(spacing, m) == m as real
    ensures m >= 2 ==> Offset(spacing, m) >= 2.0
  {
    if m > 0 {
      OffsetAtLeastCount(spacing, m - 1);
    }
  }

  /** "%.1f" of the k-th offset on either side prints round(k-th offset at ten times the spacing) tenths. */
  lemma ScaledOffset(spacing: real, k: nat)
    requires spacing >= 0.0
    ensures PyText.ScaledDigits(Offset(spacing, k), 1) == PyText.RoundHalfEven(Offset(10.0 * spacing, k))
    ensures PyText.ScaledDigits(PortOffset(spacing, k), 1) == PyText.RoundHalfEven(Offset(10.0 * spacing, k))
  {
    OffsetScaled(spacing, k);
    PortOffsetIsNegated(spacing, k);
    assert PyText.Pow10(1) == 10;
  }

  /** With u >= 1, the i-th and j-th offsets (i < j) round to different integers. */
  lemma OffsetsRoundApart(u: real, i: nat, j: nat)
    requires u >= 1.0 && i < j
    ensures PyText.RoundHalfEven(Offset(u, i)) < PyText.RoundHalfEven(Offset(u, j))
  {
    OffsetDifference(u, i, j);
    OffsetAtLeastCount(u, j - i);
    if Offset(u, j - i) > 1.0 {
      PyText.RoundHalfEvenGap(Offset(u, i), Offset(u, j));
    } else {
      OffsetAtLeastCount(u, i);
      OffsetAtLeastCount(u, j);
      PyText.RoundHalfEvenUnique(Offset(u, i), i);
      PyText.RoundHalfEvenUnique(Offset(u, j), j);
    }
  }

  /** With spacing at least 0.1, the k-th offsets on one side print as strictly increasing tenths. */
  lemma OffsetsPrintApart(spacing: real, i: nat, j: nat)
    requires spacing >= 0.1 && i < j
    ensures PyText.ScaledDigits(Offset(spacing, i), 1) < PyText.ScaledDigits(Offset(spacing, j), 1)
    ensures PyText.ScaledDigits(PortOffset(spacing, i), 1) < PyText.ScaledDigits(PortOffset(spacing, j), 1)
  {
    ScaledOffset(spacing, i);
    ScaledOffset(spacing, j);
    OffsetsRoundApart(10.0 * spacing, i, j);
  }

  /** Names of different kinds (centreline, starboard, port) differ in the character after the prefix's underscore. */
  lemma KindsDiffer(m: LineName, n: LineName)
    requires m.prefix == n.prefix
    requires m.SideName? ==> m.side in {"_S", "_P"}
    requires n.SideName? ==> n.side in {"_S", "_P"}
    requires m.CentreName? != n.CentreName? || (m.SideName? && n.SideName? && m.side != n.side)
    ensures NameText(m) != NameText(n)
  {
    assert m.SideName? ==> |m.side| == 2 && m.side[0] == '_' && m.side[1] != 'C';
    assert n.SideName? ==> |n.side| == 2 && n.side[0] == '_' && n.side[1] != 'C';
    NameTag(m);
    NameTag(n);
  }

  /** The i-th and j-th starboard lines (i < j) have different names once the spacing is at least 0.1. */
  lemma StarboardNamesDistinct(prefix: string, spacing: real, i: nat, j: nat)
    requires spacing >= 0.1 && 1 <= i < j
    ensures NameText(SideName(prefix, "_S", Offset(spacing, i))) != NameText(SideName(prefix, "_S", Offset(spacing, j)))
  {
    OffsetPositive(spacing, i);
    OffsetPositive(spacing, j);
    OffsetsPrintApart(spacing, i, j);
    SideNamesDiffer(prefix, "_S", Offset(spacing, i), Offset(spacing, j));
  }

  /** The i-th and j-th port lines (i < j) have different names once the spacing is at least 0.1. */
  lemma PortNamesDistinct(prefix: string, spacing: real, i: nat, j: nat)
    requires spacing >= 0.1 && 1 <= i < j
    ensures NameText(SideName(prefix, "_P", PortOffset(spacing, i))) != NameText(SideName(prefix, "_P", PortOffset(spacing, j)))
  {
    OffsetPositive(spacing, i);
    OffsetPositive(spacing, j);
    PortOffsetIsNegated(spacing, i);
    PortOffsetIsNegated(spacing, j);
    OffsetsPrintApart(spacing, i, j);
    SideNamesDiffer(prefix, "_P", PortOffset(spacing, i), PortOffset(spacing, j));
  }

  /** With spacing at least 0.1 (so "%.1f" tells the offsets apart), the lines of one pass have distinct names. */
  lemma NamesDistinct(prefix: string, spacing: real, n: nat, i: nat, j: nat)
    requires spacing >= 0.1 && i < j <= 2 * n
    ensures NameText(NameAt(prefix, spacing, n, i)) != NameText(NameAt(prefix, spacing, n, j))
  {
    var a, b := NameAt(prefix, spacing, n, i), NameAt(prefix, spacing, n, j);
    if i == 0 || (i <= n < j) {
      KindsDiffer(a, b);
    } else if j <= n {
      assert a == SideName(prefix, "_S", Offset(spacing, i)) && b == SideName(prefix, "_S", Offset(spacing, j));
      StarboardNamesDistinct(prefix, spacing, i, j);
    } else {
      var pi: nat, pj: nat := i - n, j - n;
      assert a == SideName(prefix, "_P", PortOffset(spacing, pi)) && b == SideName(prefix, "_P", PortOffset(spacing, pj));
      PortNamesDistinct(prefix, spacing, pi, pj);
    }
  }

  /** The lines of one pass have pairwise distinct full names whenever the spacing is at least 0.1. */
  lemma PassNamesDistinct(p: Pass, i: nat, j: nat)
    requires Terminates(p.spacing, p.halfDiagonal) && p.spacing >= 0.1
    requires i < j < |PassLines(p)|
    ensures NameText(PassLines(p)[i].name) != NameText(PassLines(p)[j].name)
  {
    PassLinesShape(p);
    PassLineNames(p, i);
    PassLineNames(p, j);
    NamesDistinct(p.prefix, p.spacing, OffsetCount(p.spacing, p.halfDiagonal), i, j);
  }

  /** Below 0.1 names can collide: with spacing 0.01 the first two starboard lines are both named prefix + "_S0.0". */
  lemma NamesCollideBelowOneTenth(prefix: string)
    ensures NameText(NameAt(prefix, 0.01, 2, 1)) == NameText(NameAt(prefix, 0.01, 2, 2))
  {
    ScaledOffset(0.01, 1);
    ScaledOffset(0.01, 2);
    PyText.RoundHalfEvenUnique(0.1, 0);
    PyText.RoundHalfEvenUnique(0.2, 0);
  }

  /**
    Distinct generated names can still be stored alike, because add_polyline keeps only 20 characters: with a
    16-character prefix and spacing 10, starboard lines 1 and 10 are named prefix + "_S10.0" and prefix + "_S100.0",
    and both are stored as prefix + "_S10".
  */
  lemma StoredNamesCollide(prefix: string, a: PlannedLine, b: PlannedLine)
    requires |prefix| == 16
    requires a.name == NameAt(prefix, 10.0, 10, 1) && b.name == NameAt(prefix, 10.0, 10, 10)
    ensures NameText(a.name) != NameText(b.name)
    ensures StoredRow(prefix, a).name == StoredRow(prefix, b).name == prefix + "_S10"
  {
    StarboardNamesDistinct(prefix, 10.0, 1, 10);
    OffsetIsMultiple(10.0, 1);
    OffsetIsMultiple(10.0, 10);
    var fa, fb := PyText.FormatFixed(10.0, 1), PyText.FormatFixed(100.0, 1);
    TenPrintsAsTen();
    HundredPrintsAsTen();
    CutAfter(prefix + "_S", fa);
    CutAfter(prefix + "_S", fb);
  }

  /** "%.1f" % 10.0 begins with "10". */
  lemma TenPrintsAsTen()
    ensures PyText.FormatFixed(10.0, 1)[..2] == "10"
  {
    PyText.RoundHalfEvenUnique(100.0, 100);
    assert PyText.ScaledDigits(10.0, 1) == 100;
    assert PyText.Quotient(100, 10) == 10;
    assert PyText.NatToString(10) == "10";
  }

  /** "%.1f" % 100.0 begins with "10" too. */
  lemma HundredPrintsAsTen()
    ensures PyText.FormatFixed(100.0, 1)[..2] == "10"
  {
    PyText.RoundHalfEvenUnique(1000.0, 1000);
    assert PyText.ScaledDigits(100.0, 1) == 1000;
    assert PyText.Quotient(1000, 10) == 100;
    assert PyText.NatToString(100) == "100";
  }

  /** Cutting h + f two characters after h keeps h and the first two characters of f. */
  lemma CutAfter(h: string, f: string)
    requires |f| >= 2
    ensures PyText.Truncate(h + f, |h| + 2) == h + f[..2]
  {
    assert (h + f)[..|h| + 2] == h + f[..2];
  }

  /**
    compute_survey_lines: adds the centreline, then starboard lines while the offset is below the half-diagonal,
    then port lines while the negated offset is above its negation. Only a terminating spacing can be passed:
    with spacing <= 0 below the half-diagonal the source loops forever.
  */
  method ComputeSurveyLines(num: Geodetic.Numerics, fc: FeatureClass, centroid: Point, spacing: real, heading: real,
                            halfDiagonal: real, isGeographic: bool, prefix: string)
    requires Terminates(spacing, halfDiagonal)
    modifies fc
    ensures fc.rows == old(fc.rows) + StoredRows(prefix, PassLines(Pass(num, centroid, spacing, heading, halfDiagonal, isGeographic, prefix)))
  {
    var p := Pass(num, centroid, spacing, heading, halfDiagonal, isGeographic, prefix);
    ghost var before := fc.rows;
    fc.AddPolyline(prefix, Centreline(p));
    ghost var afterCentre := fc.rows;
    AddStarboardLines(fc, p);
    ghost var afterStarboard := fc.rows;
    AddPortLines(fc, p);
    StoredRowsThree(prefix, Centreline(p), StarboardFrom(p, 1), PortFrom(p, 1), before, afterCentre, afterStarboard, fc.rows);
  }

  lemma StoredRowsSingle(prefix: string, c: PlannedLine)
    ensures StoredRows(prefix, [c]) == [StoredRow(prefix, c)]
  {
  }

  /** Rows stored for a line, then for a block, then for another block, are the rows of the three together. */
  lemma StoredRowsThree(prefix: string, c: PlannedLine, s: seq<PlannedLine>, t: seq<PlannedLine>,
                        r0: seq<LineRow>, r1: seq<LineRow>, r2: seq<LineRow>, r3: seq<LineRow>)
    requires r1 == r0 + StoredRows(prefix, [c])
    requires r2 == r1 + StoredRows(prefix, s)
    requires r3 == r2 + StoredRows(prefix, t)
    ensures r3 == r0 + StoredRows(prefix, [c] + s + t)
  {
    StoredRowsAppend(prefix, [c], s);
    StoredRowsAppend(prefix, [c] + s, t);
    AppendThree(r0, r1, r2, r3, StoredRows(prefix, [c]), StoredRows(prefix, s), StoredRows(prefix, t));
  }

  lemma AppendThree<T>(r0: seq<T>, r1: seq<T>, r2: seq<T>, r3: seq<T>, x: seq<T>, y: seq<T>, z: seq<T>)
    requires r1 == r0 + x && r2 == r1 + y && r3 == r2 + z
    ensures r3 == r0 + (x + y + z)
  {
  }

  /** Moving one stored line from the remaining work to the rows written so far. */
  lemma StoredRowsShift(prefix: string, total: seq<LineRow>, rows: seq<LineRow>, line: PlannedLine, rest: seq<PlannedLine>)
    requires total == rows + StoredRows(prefix, [line] + rest)
    ensures total == (rows + StoredRows(prefix, [line])) + StoredRows(prefix, rest)
  {
    StoredRowsAppend(prefix, [line], rest);
  }

  /** One round of the starboard loop: the k-th line heads the remaining work, and the offset moves on by one spacing. */
  lemma StarboardStep(p: Pass, k: nat)
    requires Terminates(p.spacing, p.halfDiagonal) && k >= 1 && (p.spacing > 0.0 || k == 1)
    requires Offset(p.spacing, k) < p.halfDiagonal
    ensures p.spacing > 0.0
    ensures StarboardFrom(p, k) == [OffsetLine(p, SideName(p.prefix, "_S", Offset(p.spacing, k)), Offset(p.spacing, k))] + StarboardFrom(p, k + 1)
    ensures Offset(p.spacing, k + 1) == Offset(p.spacing, k) + p.spacing
  {
    FirstOffsets(p.spacing);
  }

  /** The starboard loop of compute_survey_lines: offset = spacing, 2 * spacing, ... while below the half-diagonal. */
  method AddStarboardLines(fc: FeatureClass, p: Pass)
    requires Terminates(p.spacing, p.halfDiagonal)
    modifies fc
    ensures fc.rows == old(fc.rows) + StoredRows(p.prefix, StarboardFrom(p, 1))
  {
    ghost var total := fc.rows + StoredRows(p.prefix, StarboardFrom(p, 1));
    var offset := p.spacing;
    var k := 1;
    while offset < p.halfDiagonal
      invariant k >= 1 && (p.spacing > 0.0 || k == 1) && offset == Offset(p.spacing, k)
      invariant total == fc.rows + StoredRows(p.prefix, StarboardFrom(p, k))
      decreases |StarboardFrom(p, k)|
    {
      var line := OffsetLine(p, SideName(p.prefix, "_S", offset), offset);
      StarboardStep(p, k);
      StoredRowsShift(p.prefix, total, fc.rows, line, StarboardFrom(p, k + 1));
      fc.AddPolyline(p.prefix, line);
      offset := offset + p.spacing;
      k := k + 1;
    }
  }

  /** One round of the port loop: the k-th line heads the remaining work, and the offset moves on by one spacing. */
  lemma PortStep(p: Pass, k: nat)
    requires Terminates(p.spacing, p.halfDiagonal) && k >= 1 && (p.spacing > 0.0 || k == 1)
    requires PortOffset(p.spacing, k) > -p.halfDiagonal
    ensures p.spacing > 0.0
    ensures PortFrom(p, k) == [OffsetLine(p, SideName(p.prefix, "_P", PortOffset(p.spacing, k)), PortOffset(p.spacing, k))] + PortFrom(p, k + 1)
    ensures PortOffset(p.spacing, k + 1) == PortOffset(p.spacing, k) - p.spacing
  {
    FirstOffsets(p.spacing);
  }

  /** The port loop of compute_survey_lines: offset = -spacing, -2 * spacing, ... while above minus the half-diagonal. */
  method AddPortLines(fc: FeatureClass, p: Pass)
    requires Terminates(p.spacing, p.halfDiagonal)
    modifies fc
    ensures fc.rows == old(fc.rows) + StoredRows(p.prefix, PortFrom(p, 1))
  {
    ghost var total := fc.rows + StoredRows(p.prefix, PortFrom(p, 1));
    var offset := -p.spacing;
    var k := 1;
    while offset > -p.halfDiagonal
      invariant k >= 1 && (p.spacing > 0.0 || k == 1) && offset == PortOffset(p.spacing, k)
      invariant total == fc.rows + StoredRows(p.prefix, PortFrom(p, k))
      decreases |PortFrom(p, k)|
    {
      var line := OffsetLine(p, SideName(p.prefix, "_P", offset), offset);
      PortStep(p, k);
      StoredRowsShift(p.prefix, total, fc.rows, line, PortFrom(p, k + 1));
      fc.AddPolyline(p.prefix, line);
      offset := offset - p.spacing;
      k := k + 1;
    }
  }
}
