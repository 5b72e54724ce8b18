/**
  The duration accounting of fc_to_csv in GGSurveyEstimator.py: for every
  run line, its length in metres, its duration at the vessel speed and that
  duration plus the turn; running totals over the entire survey and over the
  lines of the current polygon (those whose LINE_PREFIX contains the tool's
  line prefix).
*/
module DurationReport {
  import opened Wrappers
  import PyText
  import Geodetic

  /** What the report reads of a stored run line: the length of its geometry (layer units) and its LINE_PREFIX. */
  datatype ReportRow = ReportRow(length: real, prefix: string)

  /** A line count, a length in metres and a duration in hours. */
  datatype Totals = Totals(count: nat, length: real, duration: real)

  /** The totals of the lines of the current polygon and of the entire survey. */
  datatype Report = Report(current: Totals, entire: Totals)

  /** Metres per second in one knot: 1852 m per 3600 s. */
  const KNOT: real := 1852.0 / 3600.0

  /** The vessel speed in metres per second. */
  function Speed(knots: real): (speed: real)
    ensures speed == 0.0 <==> knots == 0.0
    ensures knots > 0.0 ==> speed > 0.0
  {
    knots * KNOT
  }

  /** A line's length in metres: geographic lengths are in degrees and are converted. */
  function LineLength(row: ReportRow, isGeographic: bool): real
  {
    if isGeographic then Geodetic.DegreesToMetres(row.length) else row.length
  }

  /** Hours to run a line of the given length in metres at the given speed in metres per second. */
  function LineDuration(length: real, speed: real): real
    requires speed != 0.0
  {
    length / speed / 3600.0
  }

  /** One nautical mile at k knots takes 1/k hours: the speed and time conversions agree. */
  lemma NauticalMileAtSpeed(knots: real)
    requires knots > 0.0
    ensures LineDuration(1852.0, Speed(knots)) == 1.0 / knots
  {
    var s := Speed(knots);
    assert s * 3600.0 == knots * 1852.0;
    assert 1852.0 / s / 3600.0 == 1852.0 / (s * 3600.0);
  }

  /**
    The totals over the first n rows, as the loop accumulates them: one line, its length, and its duration plus
    the turn, per row.
  */
  function Entire(rows: seq<ReportRow>, n: nat, speed: real, turn: real, isGeographic: bool): Totals
    requires n <= |rows| && (speed != 0.0 || n == 0)
  {
    if n == 0 then Totals(0, 0.0, 0.0)
    else
      var t := Entire(rows, n - 1, speed, turn, isGeographic);
      var length := LineLength(rows[n - 1], isGeographic);
      Totals(t.count + 1, t.length + length, t.duration + (LineDuration(length, speed) + turn))
  }

  /** The same totals over those of the first n rows whose prefix contains linePrefix (Python `line_prefix in prefix`). */
  function Current(rows: seq<ReportRow>, n: nat, speed: real, turn: real, isGeographic: bool, linePrefix: string): Totals
    requires n <= |rows| && (speed != 0.0 || n == 0)
  {
    if n == 0 then Totals(0, 0.0, 0.0)
    else
      var t := Current(rows, n - 1, speed, turn, isGeographic, linePrefix);
      var length := LineLength(rows[n - 1], isGeographic);
      if PyText.Contains(rows[n - 1].prefix, linePrefix)
      then Totals(t.count + 1, t.length + length, t.duration + (LineDuration(length, speed) + turn))
      else t
  }

  /** The rows of the current polygon: those whose prefix contains linePrefix, in order. */
  function Matching(rows: seq<ReportRow>, linePrefix: string): (m: seq<ReportRow>)
    ensures |m| <= |rows|
  {
    if rows == [] then []
    else
      var m := Matching(rows[..|rows| - 1], linePrefix);
      if PyText.Contains(rows[|rows| - 1].prefix, linePrefix) then m + [rows[|rows| - 1]] else m
  }

  /** The report fc_to_csv prints; a zero speed with at least one row raises ZeroDivisionError. */
  function FcToCsv(rows: seq<ReportRow>, knots: real, turn: real, isGeographic: bool, linePrefix: string): Result<Report, string>
  {
    var speed := Speed(knots);
    if speed == 0.0 && rows != [] then Failure("ZeroDivisionError")
    else Success(Report(Current(rows, |rows|, speed, turn, isGeographic, linePrefix), Entire(rows, |rows|, speed, turn, isGeographic)))
  }

  /** The report fails exactly when the speed is zero and there is a line to time. */
  lemma FcToCsvFails(rows: seq<ReportRow>, knots: real, turn: real, isGeographic: bool, linePrefix: string)
    ensures FcToCsv(rows, knots, turn, isGeographic, linePrefix).Failure? <==> knots == 0.0 && rows != []
  {
  }

  /** The entire count is the number of rows, and the turns add n * turn to the running time. */
  lemma TurnsAddUp(rows: seq<ReportRow>, n: nat, speed: real, turn: real, isGeographic: bool)
    requires n <= |rows| && speed != 0.0
    ensures Entire(rows, n, speed, turn, isGeographic).count == n
    ensures Entire(rows, n, speed, turn, isGeographic).length == Entire(rows, n, speed, 0.0, isGeographic).length
    ensures Entire(rows, n, speed, turn, isGeographic).duration ==
            Entire(rows, n, speed, 0.0, isGeographic).duration + n as real * turn
  {
    TurnsAccumulate(rows, n, speed, turn, isGeographic);
    TurnTotalIsProduct(n, turn);
  }

  /** n turns, added one at a time. */
  function TurnTotal(n: nat, turn: real): real
  {
    if n == 0 then 0.0 else TurnTotal(n - 1, turn) + turn
  }

  lemma {:induction false} TurnTotalIsProduct(n: nat, turn: real)
    ensures TurnTotal(n, turn) == n as real * turn
  {
    if n > 0 {
      TurnTotalIsProduct(n - 1, turn);
    }
  }

  lemma {:induction false} TurnsAccumulate(rows: seq<ReportRow>, n: nat, speed: real, turn: real, isGeographic: bool)
    requires n <= |rows| && speed != 0.0
    ensures Entire(rows, n, speed, turn, isGeographic).count == n
    ensures Entire(rows, n, speed, turn, isGeographic).length == Entire(rows, n, speed, 0.0, isGeographic).length
    ensures Entire(rows, n, speed, turn, isGeographic).duration ==
            Entire(rows, n, speed, 0.0, isGeographic).duration + TurnTotal(n, turn)
  {
    if n > 0 {
      TurnsAccumulate(rows, n - 1, speed, turn, isGeographic);
    }
  }

  /** Rows after the n-th do not change the totals over the first n. */
  lemma {:induction false} EntirePrefix(a: seq<ReportRow>, b: seq<ReportRow>, n: nat, speed: real, turn: real, isGeographic: bool)
    requires n <= |a| && speed != 0.0
    ensures Entire(a + b, n, speed, turn, isGeographic) == Entire(a, n, speed, turn, isGeographic)
  {
    if n > 0 {
      EntirePrefix(a, b, n - 1, speed, turn, isGeographic);
      assert (a + b)[n - 1] == a[n - 1];
    }
  }

  /** The current polygon's totals are the entire totals of the Matching rows. */
  lemma {:induction false} CurrentIsMatchingTotals(rows: seq<ReportRow>, n: nat, speed: real, turn: real, isGeographic: bool, linePrefix: string)
    requires n <= |rows| && speed != 0.0
    ensures var m := Matching(rows[..n], linePrefix);
      Current(rows, n, speed, turn, isGeographic, linePrefix) == Entire(m, |m|, speed, turn, isGeographic)
  {
    if n > 0 {
      CurrentIsMatchingTotals(rows, n - 1, speed, turn, isGeographic, linePrefix);
      var m := Matching(rows[..n - 1], linePrefix);
      var row := rows[n - 1];
      assert rows[..n][..n - 1] == rows[..n - 1];
      if PyText.Contains(row.prefix, linePrefix) {
        assert Matching(rows[..n], linePrefix) == m + [row];
        EntirePrefix(m, [row], |m|, speed, turn, isGeographic);
        assert (m + [row])[|m|] == row;
      }
    }
  }

  /**
    With a positive speed, a non-negative turn and non-negative lengths, the current polygon's totals are
    within the entire survey's.
  */
  lemma {:induction false} CurrentWithinEntire(rows: seq<ReportRow>, n: nat, speed: real, turn: real, isGeographic: bool, linePrefix: string)
    requires n <= |rows| && speed > 0.0 && turn >= 0.0
    requires forall i :: 0 <= i < |rows| ==> rows[i].length >= 0.0
    ensures var current, entire := Current(rows, n, speed, turn, isGeographic, linePrefix), Entire(rows, n, speed, turn, isGeographic);
      current.count <= entire.count && current.length <= entire.length && current.duration <= entire.duration
  {
    if n > 0 {
      CurrentWithinEntire(rows, n - 1, speed, turn, isGeographic, linePrefix);
      var length := LineLength(rows[n - 1], isGeographic);
      assert length >= 0.0;
      assert LineDuration(length, speed) >= 0.0 by {
        assert length / speed >= 0.0;
      }
    }
  }

  /** An empty line prefix is contained in every prefix: the current polygon is then the entire survey. */
  lemma {:induction false} EmptyPrefixSelectsAll(rows: seq<ReportRow>, n: nat, speed: real, turn: real, isGeographic: bool)
    requires n <= |rows| && speed != 0.0
    ensures Current(rows, n, speed, turn, isGeographic, "") == Entire(rows, n, speed, turn, isGeographic)
  {
    if n > 0 {
      EmptyPrefixSelectsAll(rows, n - 1, speed, turn, isGeographic);
      assert PyText.StartsWith(rows[n - 1].prefix, "");
    }
  }

  /**
    add_polyline stores at most 20 characters of the prefix, so a line prefix longer than that matches no row:
    the current polygon's totals are then zero.
  */
  lemma {:induction false} LongPrefixSelectsNone(rows: seq<ReportRow>, n: nat, speed: real, turn: real, isGeographic: bool, linePrefix: string)
    requires n <= |rows| && speed != 0.0
    requires forall i :: 0 <= i < |rows| ==> |rows[i].prefix| <= 20
    requires |linePrefix| > 20
    ensures Current(rows, n, speed, turn, isGeographic, linePrefix) == Totals(0, 0.0, 0.0)
  {
    if n > 0 {
      LongPrefixSelectsNone(rows, n - 1, speed, turn, isGeographic, linePrefix);
      PyText.ContainsLonger(rows[n - 1].prefix, linePrefix);
    }
  }

  /** The cross lines' stored prefix, prefix + "_X" cut to 20 characters, still contains a prefix of up to 20. */
  lemma CrossLinesAreCurrent(linePrefix: string)
    requires |linePrefix| <= 20
    ensures PyText.Contains(PyText.Truncate(linePrefix + "_X", 20), linePrefix)
  {
    var stored := PyText.Truncate(linePrefix + "_X", 20);
    assert stored[..|linePrefix|] == linePrefix;
    assert PyText.StartsWith(stored, linePrefix);
  }

  /**
    The accounting loop of fc_to_csv with its six running totals; the first row met with a zero speed raises.
  */
  method ReportTotals(rows: seq<ReportRow>, knots: real, turn: real, isGeographic: bool, linePrefix: string)
    returns (r: Result<Report, string>)
    ensures r == FcToCsv(rows, knots, turn, isGeographic, linePrefix)
  {
    var currentDuration, currentLength, currentCount := 0.0, 0.0, 0;
    var entireDuration, entireLength, entireCount := 0.0, 0.0, 0;
    var speed := knots * (1852.0 / 3600.0);
    for i := 0 to |rows|
      invariant speed != 0.0 || i == 0
      invariant Totals(entireCount, entireLength, entireDuration) == Entire(rows, i, speed, turn, isGeographic)
      invariant Totals(currentCount, currentLength, currentDuration) == Current(rows, i, speed, turn, isGeographic, linePrefix)
    {
      var row := rows[i];
      var lineLength := if isGeographic then Geodetic.DegreesToMetres(row.length) else row.length;
      if speed == 0.0 {
        return Failure("ZeroDivisionError");
      }
      var duration := LineDuration(lineLength, speed);
      var totalDuration := duration + turn;
      assert lineLength == LineLength(row, isGeographic);
      entireDuration := entireDuration + totalDuration;
      entireLength := entireLength + lineLength;
      entireCount := entireCount + 1;
      if PyText.Contains(row.prefix, linePrefix) {
        currentDuration := currentDuration + totalDuration;
        currentLength := currentLength + lineLength;
        currentCount := currentCount + 1;
      }
    }
    return Success(Report(Totals(currentCount, currentLength, currentDuration), Totals(entireCount, entireLength, entireDuration)));
  }
}
