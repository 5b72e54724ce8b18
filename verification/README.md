# GGSurveyEstimator survey line planner, modelled in Dafny

GGSurveyEstimator is an ArcGIS Pro tool that estimates a hydrographic survey.

**What the tool does.** The user selects a polygon and gives a line spacing, a heading, a prefix, a vessel speed, a turn duration and a cross-line multiplier. The tool then:
- generates a centreline through the polygon's centroid, with parallel starboard and port lines at whole multiples of the spacing until the offset reaches half the extent diagonal;
- optionally repeats this for cross lines at heading + 90 with a multiplied spacing and the prefix + "_X";
- stores the lines in the run-line feature class;
- reports their count, length and duration.

A spacing of -1 asks the tool to estimate it from the mean sounding depth inside the polygon. A heading of -1 asks it to use the bearing of the polygon's longest edge.

**What the model covers.**
- The current tool, `GGSurveyEstimator.py`:
  - parameter validation;
  - resolution of the sentinels;
  - the line generator and its cross-line pass;
  - the optimal-heading search;
  - the depth-based spacing;
  - the duration report;
  - the auto-incremented output file name.
- The geodetic helpers it relies on, `geodetic.py`:
  - bearing normalisation;
  - metre/degree conversion;
  - the planar range/bearing formulae;
  - the grid/geographic dispatch;
  - the guards and azimuth wrapping of Vincenty's inverse and direct solutions;
  - the median filter.
- The GEBCO raster reader's nearest-cell index and bounding-box grid (`GEBCO1DExtractor.py`).
- The older copy of the planner kept under `build/lib`. It inserts the prefix and the line names uncut into text fields of 20 characters, so the model tracks which insert raises first.

**How the world outside the tool becomes values.**
- Feature classes are modelled by their rows. The run-line feature class is a class whose `rows` field the insert operation appends to.
- The selected polygon is its parts, centroid and extent.
- The sounding grid is the elevations that fall inside the polygon.
- A directory is its listing.
- The ArcGIS project is an `Env` value.
- The numerical routines (cos, sin, atan2, sqrt, hypot and the two Vincenty iterations) are function-valued fields of a `Geodetic.Numerics` value. The model proves what the code does around them, not their numerics.

**How Python is modelled.**
- Floats are exact reals.
- Python's `round` (ties to even) is written out.
- `"%.1f"` / `"%.2f"` formatting is written out. This is what lets the model prove when two generated line names differ.

**Modules.**
- `PyText`: Python text and rounding.
- `Sorting`: insertion sort and the median.
- `Geodetic`.
- `Gebco`.
- `SurveyEstimator`: the line generator and the run-line feature class.
- `SpacingEstimate`.
- `OptimalHeading`.
- `DurationReport`.
- `OutputFileName`.
- `SurveyCompute`: the compute entry point.
- `LegacySurveyEstimator`: the `build/lib` copy, whose run-line inserts stop at the first row that does not fit.

## Model

| member | source | states |
|---|---|---|
| PyText.NatToStringRoundTrip | GGSurveyEstimator/GGSurveyEstimator.py:653-656 | the decimal text of the candidate index is a non-empty digit string that reads back as the same number |
| PyText.NatToStringInjective | GGSurveyEstimator/GGSurveyEstimator.py:653-656 | different indices give different decimal texts |
| PyText.RoundHalfEven | GGSurveyEstimator/GEBCO1DExtractor.py:359-360 | Python's round: the result is within 1/2 of x, and an exact half goes to the even neighbour |
| PyText.RoundHalfEvenUnique | GGSurveyEstimator/GEBCO1DExtractor.py:359-360 | an integer strictly within 1/2 of x is the rounded value |
| PyText.RoundHalfEvenMonotone | GGSurveyEstimator/GEBCO1DExtractor.py:359-360 | rounding is monotone |
| PyText.RoundHalfEvenShift | GGSurveyEstimator/GEBCO1DExtractor.py:359-360 | away from an exact half, round(x + 1) == round(x) + 1 |
| PyText.RoundHalfEvenGap | GGSurveyEstimator/GGSurveyEstimator.py:337 | values more than 1 apart round to different integers |
| PyText.RoundHalfEvenTie | GGSurveyEstimator/GEBCO1DExtractor.py:359-360 | round(0.5) == 0 and round(1.5) == 2, so the shift property fails at ties |
| PyText.PadDigitsValue | GGSurveyEstimator/GGSurveyEstimator.py:337 | the zero-padded fraction digits of "%.Nf" read back as the scaled value modulo 10^N |
| PyText.FormatFixed | GGSurveyEstimator/GGSurveyEstimator.py:337 | "%.Nf" text has at least N + 2 characters, a leading '-' exactly for negative values, and the point N + 1 from the end |
| PyText.FormatFixedInjective | GGSurveyEstimator/GGSurveyEstimator.py:337 | two same-signed values with the same "%.Nf" text have the same rounded scaled digits |
| PyText.FixedTextInjective | GGSurveyEstimator/GGSurveyEstimator.py:337 | a sign and digit count determine the fixed-point text uniquely |
| PyText.Truncate | GGSurveyEstimator/GGSurveyEstimator.py:474 | s[:n] has length min(\|s\|, n) and is a prefix of s |
| PyText.ContainsItself | GGSurveyEstimator/GGSurveyEstimator.py:530-531 | `prefix in prefix` holds, so a line's own prefix selects it |
| PyText.ContainsLonger | GGSurveyEstimator/GGSurveyEstimator.py:530-531 | a text never contains a longer text |
| Sorting.Insert | GGSurveyEstimator/geodetic.py:69 | inserting into a sorted sequence keeps it sorted, adds exactly the element and grows it by one |
| Sorting.SortSeq | GGSurveyEstimator/geodetic.py:69 | the result is sorted and a permutation of the input |
| Sorting.Median | GGSurveyEstimator/geodetic.py:69 | the median of an odd-length window is one of its elements |
| Sorting.MedianSplits | GGSurveyEstimator/geodetic.py:69 | at most half of the window lies strictly below the median and at most half strictly above |
| Sorting.SortCounts | GGSurveyEstimator/geodetic.py:69 | sorting does not change how many elements lie below or above a value |
| Geodetic.DegreesRadians | GGSurveyEstimator/geodetic.py:84-85 | math.degrees and math.radians are inverse |
| Geodetic.Normalize360 | GGSurveyEstimator/geodetic.py:143-149 | the result is in [0, 360) and differs from the bearing by whole turns |
| Geodetic.Normalize360Identity | GGSurveyEstimator/geodetic.py:143-149 | a bearing already in [0, 360) is unchanged |
| Geodetic.Normalize360Turns | GGSurveyEstimator/geodetic.py:143-149 | adding whole turns does not change the normalised bearing |
| Geodetic.Normalize360Idempotent | GGSurveyEstimator/geodetic.py:143-149 | normalising twice is normalising once |
| Geodetic.DegreesToMetres | GGSurveyEstimator/geodetic.py:645-646 | a non-negative angle converts to at least as many metres |
| Geodetic.MetresToDegrees | GGSurveyEstimator/geodetic.py:648-649 | a non-negative distance converts to a non-negative angle no larger than it |
| Geodetic.MetresDegreesRoundTrip | GGSurveyEstimator/geodetic.py:645-649 | the two conversions are inverse both ways |
| Geodetic.GridRangeBearing | GGSurveyEstimator/geodetic.py:72-79 | with atan2 in [-π, π], the grid bearing 90 - degrees(atan2) lies in [-90, 270] |
| Geodetic.GridBearingDueWest | GGSurveyEstimator/geodetic.py:72-79 | due west gives -90, so grid bearings are not normalised |
| Geodetic.GridPositionZeroRange | GGSurveyEstimator/geodetic.py:83-90 | a zero range returns the start point |
| Geodetic.GridPositionOpposite | GGSurveyEstimator/geodetic.py:83-90 | ranges r and -r give points symmetric about the start |
| Geodetic.WrapAngle | GGSurveyEstimator/geodetic.py:253-262 | the wrapped angle differs from the input by at most one 2π, and lands in [0, 2π] for inputs in [-2π, 4π] |
| Geodetic.VincDist | GGSurveyEstimator/geodetic.py:181-264 | coincident points give (0, 0, 0) with no iteration; otherwise the result fails exactly when the iteration raises, keeps its distance, and wraps both azimuths into [0, 2π] |
| Geodetic.RangeBearingFromGeographicals2 | GGSurveyEstimator/geodetic.py:151-179 | coincident points give range 0 and bearing 0 |
| Geodetic.RangeBearingFromGeographicals | GGSurveyEstimator/geodetic.py:268-370 | coincident points give zeros; otherwise it fails exactly when the iteration raises, keeps its distance and wraps the forward azimuth into [0, 360] |
| Geodetic.GeographicalPositionGuard | GGSurveyEstimator/geodetic.py:403-491 | a zero distance returns the start point with a zero reverse azimuth; otherwise the longitude moves by the iteration's omega and the reverse azimuth is wrapped into [0, 360] |
| Geodetic.CoordinateZeroRange | GGSurveyEstimator/geodetic.py:386-392 | in both coordinate systems a zero range returns the start point |
| Geodetic.CoordinateGeographicOrder | GGSurveyEstimator/geodetic.py:386-390 | the geographic path passes (Y, X) to the direct solution and returns (X, Y) |
| Geodetic.CoordinateGridOpposite | GGSurveyEstimator/geodetic.py:386-392 | on a grid, ranges r and -r give points symmetric about the start |
| Geodetic.RangeBearingFromCoordinates | GGSurveyEstimator/geodetic.py:394-401 | a grid uses the planar formula; geographic coordinates use the Vincenty routine and convert its bearing to degrees |
| Geodetic.CoincidentRangeBearing | GGSurveyEstimator/geodetic.py:394-398 | coincident geographic points measure as range 0, bearing 0 |
| Geodetic.EdgeIndex | GGSurveyEstimator/geodetic.py:62-68 | an out-of-range index is replaced by the nearer end point, so the boundary repeats the end values |
| Geodetic.MedFilt | GGSurveyEstimator/geodetic.py:54-69 | an even length fails; otherwise the output has one value per input, each the median of the length-k window centred on it with end points repeated |
| Geodetic.FillColumns | GGSurveyEstimator/geodetic.py:60-68 | every cell of the k-column matrix holds the input at the clamped offset of its column |
| Geodetic.FillPair | GGSurveyEstimator/geodetic.py:63-68 | one step of the loop fills column i and its mirror column and leaves the rest unchanged |
| Geodetic.RowIsWindow | GGSurveyEstimator/geodetic.py:58-68 | each filled row is the element's window |
| Geodetic.MedianRows | GGSurveyEstimator/geodetic.py:69 | the row-wise median gives the median of each window |
| Geodetic.FilterOfLengthOne | GGSurveyEstimator/geodetic.py:54-69 | a length-1 filter returns its input |
| Geodetic.FilterOfConstant | GGSurveyEstimator/geodetic.py:54-69 | a constant signal passes through unchanged |
| Geodetic.FilterIsMedian | GGSurveyEstimator/geodetic.py:54-69 | each output splits its window: at most k/2 values below and at most k/2 above |
| Gebco.Clamp | GGSurveyEstimator/GEBCO1DExtractor.py:367-368 | max(min(maxn, n), minn): inside [minn, maxn] when that range is non-empty, n itself when in range, the nearer bound otherwise, minn when the bounds cross |
| Gebco.Arange | GGSurveyEstimator/GEBCO1DExtractor.py:283-284 | numpy.arange fails exactly for a zero step; element i is start + i * step |
| Gebco.ArangeEmpty | GGSurveyEstimator/GEBCO1DExtractor.py:283-284 | with a non-zero step the arange is empty exactly when the step points away from stop (or stop is start) |
| Gebco.ArangeBounds | GGSurveyEstimator/GEBCO1DExtractor.py:283-284 | with a positive step every value lies in [start, stop) and the next value would reach stop |
| Gebco.GebcoReader.constructor | GGSurveyEstimator/GEBCO1DExtractor.py:214-232 | the reader keeps the grid's spacing and dimensions and starts with empty latitude, longitude and depth lists |
| Gebco.GebcoReader.CoordinateToIndex | GGSurveyEstimator/GEBCO1DExtractor.py:352-362 | the index always lies in [0, dimension0 * dimension1], and equals the unclamped row-major index when that is in range |
| Gebco.GebcoReader.DepthGrid | GGSurveyEstimator/GEBCO1DExtractor.py:286-292 | one row per latitude, one value per longitude in each |
| Gebco.GebcoReader.ReadableRows | GGSurveyEstimator/GEBCO1DExtractor.py:286-292 | the rows before the count all read within `z`, and the row at the count (if any) has a cell whose index is one past the end |
| Gebco.GebcoReader.LoadBoundingBoxDepths | GGSurveyEstimator/GEBCO1DExtractor.py:274-295 | a zero step fails and changes nothing; otherwise latitude and longitude become the two aranges; an empty one makes np.nditer raise ValueError with no depth row appended; otherwise the depth rows of the leading readable latitudes are appended to the existing depths; the load completes exactly when every row reads, and otherwise stops with IndexError, dropping the partial row |
| Gebco.GebcoReader.ReadDepthRow | GGSurveyEstimator/GEBCO1DExtractor.py:287-291 | the inner loop reads a row exactly when every cell's index is before the end of `z`, and then yields that row of the depth grid |
| Gebco.ReadableIffBeforeEnd | GGSurveyEstimator/GEBCO1DExtractor.py:289-290 | `z[idx]` reads exactly when the grid is non-empty and the unclamped index is before its end |
| Gebco.SouthPoleUnreadable | GGSurveyEstimator/GEBCO1DExtractor.py:289-290 | when dimension[1] rows of spacing[0] span 180 degrees, (-90, -180) is clamped to one past the end of `z`, so its read fails |
| Gebco.NorthWestCornerIsZero | GGSurveyEstimator/GEBCO1DExtractor.py:352-362 | (90, -180) maps to index 0 |
| Gebco.StepSouthAddsRow | GGSurveyEstimator/GEBCO1DExtractor.py:359-360 | moving one cell south adds one row stride to the index (away from rounding ties) |
| Gebco.StepSouthAtTie | GGSurveyEstimator/GEBCO1DExtractor.py:359-360 | at a tie, round-half-even makes one cell south skip two rows |
| Gebco.SouthwardMonotone | GGSurveyEstimator/GEBCO1DExtractor.py:352-362 | the index never decreases as latitude decreases |
| SurveyEstimator.StoredRow | GGSurveyEstimator/GGSurveyEstimator.py:461-476 | the stored prefix and name are the first 20 characters of those given, so unchanged when short enough; end points, direction and spacing are kept |
| SurveyEstimator.StoredRowsAppend | GGSurveyEstimator/GGSurveyEstimator.py:461-476 | storing lines one after another stores their concatenation |
| SurveyEstimator.FeatureClass.constructor | GGSurveyEstimator/GGSurveyEstimator.py:374-420 | a fresh run-line feature class has no rows |
| SurveyEstimator.FeatureClass.AddPolyline | GGSurveyEstimator/GGSurveyEstimator.py:461-476 | inserting a line appends exactly its stored row |
| SurveyEstimator.LineFromPointEnds | GGSurveyEstimator/GGSurveyEstimator.py:478-482 | the ends are the projections at +range and -range; on a grid the centre is their midpoint; a zero range gives the centre twice |
| SurveyEstimator.OffsetIsMultiple | GGSurveyEstimator/GGSurveyEstimator.py:328-339 | the k-th starboard offset is k times the spacing |
| SurveyEstimator.PortOffsetIsNegated | GGSurveyEstimator/GGSurveyEstimator.py:344-355 | the k-th port offset is the negated starboard offset |
| SurveyEstimator.GuardsHoldForever | GGSurveyEstimator/GGSurveyEstimator.py:327-355 | for a spacing that is not positive and below the half-diagonal, every starboard offset stays below the half-diagonal and every port offset above its negation, so the starboard loop never exits |
| SurveyEstimator.OffsetCountExact | GGSurveyEstimator/GGSurveyEstimator.py:328-341 | a starboard line k is generated exactly when k * spacing is below the half-diagonal |
| SurveyEstimator.PortOffsetCountExact | GGSurveyEstimator/GGSurveyEstimator.py:344-357 | a port line k is generated exactly when -k * spacing is above minus the half-diagonal |
| SurveyEstimator.PlanLine | GGSurveyEstimator/GGSurveyEstimator.py:319-323 | every line carries its name, the pass heading as direction and the pass spacing |
| SurveyEstimator.StarboardFromExact | GGSurveyEstimator/GGSurveyEstimator.py:328-341 | the starboard loop from line k yields the lines k, k+1, ... up to the count, in order |
| SurveyEstimator.PortFromExact | GGSurveyEstimator/GGSurveyEstimator.py:344-357 | the port loop from line k yields the lines k, k+1, ... up to the count, in order |
| SurveyEstimator.PassLinesSize | GGSurveyEstimator/GGSurveyEstimator.py:314-359 | a pass has 1 + 2n lines, starting with the centreline |
| SurveyEstimator.PassLineAt | GGSurveyEstimator/GGSurveyEstimator.py:328-357 | line k is starboard line k and line n + k is port line k |
| SurveyEstimator.PassLinesShape | GGSurveyEstimator/GGSurveyEstimator.py:314-359 | the centreline, then the n starboard lines, then the n port lines |
| SurveyEstimator.PassLinesTagged | GGSurveyEstimator/GGSurveyEstimator.py:322-355 | every line of a pass records the pass heading and the pass spacing |
| SurveyEstimator.PassOffsetsInside | GGSurveyEstimator/GGSurveyEstimator.py:328-357 | generated offsets lie strictly inside the half-diagonal and the first skipped one does not |
| SurveyEstimator.PassLineNames | GGSurveyEstimator/GGSurveyEstimator.py:321-350 | line i is named "_Centreline", "_S" + offset or "_P" + offset by its position |
| SurveyEstimator.NameTag | GGSurveyEstimator/GGSurveyEstimator.py:321-350 | the character after the prefix's underscore is 'C', 'S' or 'P' by kind |
| SurveyEstimator.SideNamesDiffer | GGSurveyEstimator/GGSurveyEstimator.py:337 | same-signed offsets that print differently at one decimal give different names |
| SurveyEstimator.OffsetsPrintApart | GGSurveyEstimator/GGSurveyEstimator.py:337-352 | with a spacing of at least 0.1, successive offsets print strictly increasing digits |
| SurveyEstimator.KindsDiffer | GGSurveyEstimator/GGSurveyEstimator.py:321-350 | centreline, starboard and port names never coincide |
| SurveyEstimator.StarboardNamesDistinct | GGSurveyEstimator/GGSurveyEstimator.py:337 | with spacing at least 0.1, no two starboard lines share a name |
| SurveyEstimator.PortNamesDistinct | GGSurveyEstimator/GGSurveyEstimator.py:350 | with spacing at least 0.1, no two port lines share a name |
| SurveyEstimator.NamesDistinct | GGSurveyEstimator/GGSurveyEstimator.py:321-350 | with spacing at least 0.1, the 1 + 2n names of a pass are pairwise different |
| SurveyEstimator.PassNamesDistinct | GGSurveyEstimator/GGSurveyEstimator.py:314-359 | with spacing at least 0.1, no two lines of a pass share a name |
| SurveyEstimator.StoredNamesCollide | GGSurveyEstimator/GGSurveyEstimator.py:473-474 | with a 16-character prefix and spacing 10, the names of starboard lines 1 and 10 differ but both are stored as prefix + "_S10" once cut to 20 characters |
| SurveyEstimator.NamesCollideBelowOneTenth | GGSurveyEstimator/GGSurveyEstimator.py:337 | with spacing 0.01 the first two starboard lines are both named "_S0.0" |
| SurveyEstimator.ComputeSurveyLines | GGSurveyEstimator/GGSurveyEstimator.py:314-359 | the feature class gains exactly the stored rows of the pass's lines, in order |
| SurveyEstimator.AddStarboardLines | GGSurveyEstimator/GGSurveyEstimator.py:328-341 | the starboard loop appends the stored starboard lines in order |
| SurveyEstimator.AddPortLines | GGSurveyEstimator/GGSurveyEstimator.py:344-357 | the port loop appends the stored port lines in order |
| SpacingEstimate.MeanDepthSpacing | GGSurveyEstimator/GGSurveyEstimator.py:596-632 | the estimate is never negative, and is 1000 when the grid is missing or no sounding lies inside the polygon |
| SpacingEstimate.UniformDepth | GGSurveyEstimator/GGSurveyEstimator.py:613-628 | soundings of one depth d give abs(multiplier * d) |
| SpacingEstimate.EstimateBetweenDepths | GGSurveyEstimator/GGSurveyEstimator.py:613-628 | soundings between lo and hi have their mean between lo and hi, of either sign; the estimate is the absolute value of multiplier times the mean, so between multiplier times lo and hi for non-negative elevations and between multiplier times -hi and -lo for non-positive ones |
| SpacingEstimate.EstimateSpacing | GGSurveyEstimator/GGSurveyEstimator.py:596-632 | the sum/count loop returns the estimate |
| OptimalHeading.PartVerticesOfSimplePart | GGSurveyEstimator/GGSurveyEstimator.py:567-577 | a part without ring markers contributes all its vertices, in order |
| OptimalHeading.VerticesComeFromParts | GGSurveyEstimator/GGSurveyEstimator.py:567-577 | every collected vertex is a non-None point of some part |
| OptimalHeading.EdgeMeasures | GGSurveyEstimator/GGSurveyEstimator.py:579-587 | n vertices give n - 1 consecutive edges |
| OptimalHeading.BestEdgeFailsIff | GGSurveyEstimator/GGSurveyEstimator.py:579-594 | the search fails exactly when some edge measurement raises |
| OptimalHeading.BestEdgeIsLongest | GGSurveyEstimator/GGSurveyEstimator.py:579-587 | the kept range is non-negative and at least every edge's range |
| OptimalHeading.BestEdgeIsFirstLongest | GGSurveyEstimator/GGSurveyEstimator.py:579-587 | the result is (0, 0) when no edge is longer than 0, otherwise the first edge of maximal range |
| OptimalHeading.TiesKeepEarlierEdge | GGSurveyEstimator/GGSurveyEstimator.py:584 | an edge that only equals the best range does not replace it |
| OptimalHeading.FailureSticks | GGSurveyEstimator/GGSurveyEstimator.py:592-594 | once a measurement raises, the whole search returns 0 |
| OptimalHeading.NoEdgeHeadsNorth | GGSurveyEstimator/GGSurveyEstimator.py:579-590 | a polygon with fewer than two vertices gives heading 0 |
| OptimalHeading.CollectVertices | GGSurveyEstimator/GGSurveyEstimator.py:567-577 | xc and yc list the collected vertices' coordinates, in order |
| OptimalHeading.ComputeOptimalHeading | GGSurveyEstimator/GGSurveyEstimator.py:563-594 | the loop returns the heading of the first longest edge, or 0 after an exception |
| DurationReport.Speed | GGSurveyEstimator/GGSurveyEstimator.py:515 | knots * 1852 / 3600 is zero exactly for zero knots and positive for positive knots |
| DurationReport.NauticalMileAtSpeed | GGSurveyEstimator/GGSurveyEstimator.py:515-524 | 1852 m at k knots takes 1/k hours |
| DurationReport.Matching | GGSurveyEstimator/GGSurveyEstimator.py:530-531 | the rows the prefix selects are at most all rows |
| DurationReport.FcToCsvFails | GGSurveyEstimator/GGSurveyEstimator.py:515-534 | the report raises ZeroDivisionError exactly when the speed is 0 and there is a row |
| DurationReport.TurnsAddUp | GGSurveyEstimator/GGSurveyEstimator.py:524-528 | over n rows the count is n, the length does not depend on the turn, and the duration grows by n * turn |
| DurationReport.EntirePrefix | GGSurveyEstimator/GGSurveyEstimator.py:518-528 | totals over the first n rows ignore the rows after them |
| DurationReport.CurrentIsMatchingTotals | GGSurveyEstimator/GGSurveyEstimator.py:526-534 | the current-polygon totals are the totals over exactly the rows whose prefix contains the line prefix |
| DurationReport.CurrentWithinEntire | GGSurveyEstimator/GGSurveyEstimator.py:526-534 | with a positive speed, non-negative turn and lengths, the current totals never exceed the entire totals |
| DurationReport.EmptyPrefixSelectsAll | GGSurveyEstimator/GGSurveyEstimator.py:530-534 | an empty line prefix makes the current totals the entire totals |
| DurationReport.LongPrefixSelectsNone | GGSurveyEstimator/GGSurveyEstimator.py:530-534 | a line prefix longer than 20 characters selects none of the stored (20-character) prefixes |
| DurationReport.CrossLinesAreCurrent | GGSurveyEstimator/GGSurveyEstimator.py:530 | the stored cross-line prefix (prefix + "_X" cut to 20) still contains a prefix of at most 20 characters |
| DurationReport.ReportTotals | GGSurveyEstimator/GGSurveyEstimator.py:498-561 | the cursor loop's six totals are the report's current and entire totals |
| OutputFileName.Join | GGSurveyEstimator/GGSurveyEstimator.py:660 | os.path.join ends with the file name, and is the file name alone for an empty directory |
| OutputFileName.ChosenExt | GGSurveyEstimator/GGSurveyEstimator.py:645-649 | the caller's extension wins over the path's own when non-empty |
| OutputFileName.CandidateInjective | GGSurveyEstimator/GGSurveyEstimator.py:653-656 | different steps try different names |
| OutputFileName.TriedSize | GGSurveyEstimator/GGSurveyEstimator.py:653-656 | the first n candidates are n distinct names |
| OutputFileName.FirstFreeUnique | GGSurveyEstimator/GGSurveyEstimator.py:655-658 | at most one step is the first free one |
| OutputFileName.FirstFreeBound | GGSurveyEstimator/GGSurveyEstimator.py:655-658 | the search ends within as many steps as the directory has entries |
| OutputFileName.CreateOutputFileName | GGSurveyEstimator/GGSurveyEstimator.py:635-660 | a path that does not exist is returned unchanged; otherwise the first candidate not in the directory, joined to it (createOutputFileName in the build/lib copy is the same code) |
| SurveyCompute.TurnHours | GGSurveyEstimator/GGSurveyEstimator.py:150 | the turn duration parameter in minutes is passed on in hours |
| SurveyCompute.CrossSpacing | GGSurveyEstimator/GGSurveyEstimator.py:243-246 | a positive spacing and multiplier give a positive cross spacing |
| SurveyCompute.ExitsIffRejected | GGSurveyEstimator/GGSurveyEstimator.py:159-171 | compute exits exactly when no polygon is selected, the spacing is 0 or below -1, or the speed is negative |
| SurveyCompute.PlanNeverExits | GGSurveyEstimator/GGSurveyEstimator.py:202-265 | after validation, planning never calls exit |
| SurveyCompute.ReportOnly | GGSurveyEstimator/GGSurveyEstimator.py:183-186 | report_action 'true' produces only the report, with the turn in hours, and plans nothing |
| SurveyCompute.PlannedFrom | GGSurveyEstimator/GGSurveyEstimator.py:202-248 | a plan comes from the selected polygon's primary pass and its cross pass |
| SurveyCompute.SentinelsResolved | GGSurveyEstimator/GGSurveyEstimator.py:204-214 | heading -1 becomes the optimal heading, spacing -1 the depth estimate; other values are used verbatim; the pass runs through the centroid with the tool's prefix |
| SurveyCompute.CrossPassShape | GGSurveyEstimator/GGSurveyEstimator.py:243-248 | cross lines exist exactly for a positive multiplier, with heading normalize360(heading + 90), spacing times the multiplier, prefix + "_X", and the primary's centroid and half-diagonal |
| SurveyCompute.PositiveSpacingPlans | GGSurveyEstimator/GGSurveyEstimator.py:227-248 | a positive resolved spacing always yields a plan |
| SurveyCompute.NegativeSpacingDiverges | GGSurveyEstimator/GGSurveyEstimator.py:165-167 | a negative spacing that passes validation (between -1 and 0) makes the plan diverge on the primary pass, whose starboard guard holds for every step k >= 1 |
| SurveyCompute.DivergesLoopsForever | GGSurveyEstimator/GGSurveyEstimator.py:239-248 | a diverging plan names the primary or cross pass whose starboard and port guards both hold at every step k >= 1 |
| SurveyCompute.PlannedLineCount | GGSurveyEstimator/GGSurveyEstimator.py:239-248 | a plan holds 1 + 2n primary lines plus, with cross lines, 1 + 2m more |
| SurveyCompute.PlanReport | GGSurveyEstimator/GGSurveyEstimator.py:265 | the final report is fc_to_csv on the stored run lines with the turn in hours |
| SurveyCompute.PlanSurvey | GGSurveyEstimator/GGSurveyEstimator.py:202-265 | planning stores exactly the plan's rows in the temporary feature class, and nothing when it raises |
| SurveyCompute.GeneratePass | GGSurveyEstimator/GGSurveyEstimator.py:239-246 | one generator call stores one pass's rows |
| SurveyCompute.Compute | GGSurveyEstimator/GGSurveyEstimator.py:142-266 | compute ends as the model's Run says; a plan stores exactly its rows, every other ending except divergence stores none |
| LegacySurveyEstimator.LegacyNameShape | build/lib/GGSurveyEstimator/GGSurveyEstimator.py:261-282 | side names are prefix + side + "%.2f" offset: a '-' exactly for port offsets, the point third from the end |
| LegacySurveyEstimator.StoredRow | build/lib/GGSurveyEstimator/GGSurveyEstimator.py:386-396 | the row the older insert writes carries the prefix and the name uncut, with the end points and direction; whether the insert accepts it is RowFits |
| LegacySurveyEstimator.InsertedUnique | build/lib/GGSurveyEstimator/GGSurveyEstimator.py:344-345 | the rows stored by inserting one after another until the first that does not fit a 20-character field are exactly the leading rows that all fit, and all rows are stored exactly when all fit |
| LegacySurveyEstimator.LegacyFeatureClass.AddPolyline | build/lib/GGSurveyEstimator/GGSurveyEstimator.py:386-396 | insertRow succeeds exactly when the prefix and the name each have at most 20 characters, and then appends exactly the stored row; otherwise nothing changes |
| LegacySurveyEstimator.DiagonalIsDoubled | build/lib/GGSurveyEstimator/GGSurveyEstimator.py:230 | the older line half-length is the whole extent diagonal, twice the current one's, and never converted to metres |
| LegacySurveyEstimator.PlanLine | build/lib/GGSurveyEstimator/GGSurveyEstimator.py:254-256 | every line carries its name and the heading verbatim |
| LegacySurveyEstimator.StarboardFromExact | build/lib/GGSurveyEstimator/GGSurveyEstimator.py:261-270 | the starboard loop yields lines k, k+1, ... up to the count |
| LegacySurveyEstimator.PortFromExact | build/lib/GGSurveyEstimator/GGSurveyEstimator.py:273-282 | the port loop yields lines k, k+1, ... up to the count |
| LegacySurveyEstimator.LegacyLinesShape | build/lib/GGSurveyEstimator/GGSurveyEstimator.py:252-282 | centreline, then n starboard lines, then n port lines |
| LegacySurveyEstimator.CentresArePlanar | build/lib/GGSurveyEstimator/GGSurveyEstimator.py:410-413 | offset centres are always planar: matching starboard and port centres are symmetric about the centroid even for geographic data |
| LegacySurveyEstimator.AddStarboardLines | build/lib/GGSurveyEstimator/GGSurveyEstimator.py:260-270 | the starboard loop appends the rows of the lines it tries up to the first that does not fit, and succeeds exactly when all fit |
| LegacySurveyEstimator.AddPortLines | build/lib/GGSurveyEstimator/GGSurveyEstimator.py:272-282 | the port loop appends the rows of its lines up to the first that does not fit, and succeeds exactly when all fit |
| LegacySurveyEstimator.AddLegacyLines | build/lib/GGSurveyEstimator/GGSurveyEstimator.py:252-282 | the older generator appends the rows of the centreline, starboard and port lines it tries, up to the first that does not fit, and succeeds exactly when all fit |
| LegacySurveyEstimator.TriedLinesPlanned | build/lib/GGSurveyEstimator/GGSurveyEstimator.py:252-282 | all tried rows fit exactly when the spacing terminates and every planned row fits, and then the rows stored are the planned rows |
| LegacySurveyEstimator.LegacyDurations | build/lib/GGSurveyEstimator/GGSurveyEstimator.py:435-454 | one (duration, total) pair per line; raises exactly for a zero speed with a line |
| LegacySurveyEstimator.RowDuration | build/lib/GGSurveyEstimator/GGSurveyEstimator.py:446-448 | each total is the duration plus the turn |
| LegacySurveyEstimator.TurnWasInHours | build/lib/GGSurveyEstimator/GGSurveyEstimator.py:174 | the older turn parameter in hours equals the current one given 60 times as many minutes |
| LegacySurveyEstimator.FC2CSV | build/lib/GGSurveyEstimator/GGSurveyEstimator.py:435-454 | the cursor loop computes the per-line durations |
| LegacySurveyEstimator.SelectionChecks | build/lib/GGSurveyEstimator/GGSurveyEstimator.py:204-216 | with a usable workspace, more than one selected polygon returns 1 and none plans nothing |
| LegacySurveyEstimator.NegativeSpacingFailsInsert | build/lib/GGSurveyEstimator/GGSurveyEstimator.py:260-270 | in exact arithmetic, a negative spacing below the diagonal keeps both loop guards true at every step, and the run ends when insertRow rejects the first starboard name longer than 20 characters, leaving the centreline and the starboard lines before it (nothing when the centreline does not fit) |
| LegacySurveyEstimator.LongPrefixFailsAtOnce | build/lib/GGSurveyEstimator/GGSurveyEstimator.py:254-256 | a prefix of more than 9 characters makes the centreline name longer than 20 characters, so the first insert raises and no row is stored |
| LegacySurveyEstimator.LegacyPlan | build/lib/GGSurveyEstimator/GGSurveyEstimator.py:213-316 | a plan comes from the single polygon, with heading and spacing verbatim, 1 + 2n lines, a prefix of at most 9 characters and every stored prefix and name within 20 characters |
| LegacySurveyEstimator.CountPolygons | build/lib/GGSurveyEstimator/GGSurveyEstimator.py:204-208 | the counting loop counts the selected polygons |
| LegacySurveyEstimator.LegacyCompute | build/lib/GGSurveyEstimator/GGSurveyEstimator.py:166-317 | the older compute ends as the model's LegacyRun says: planned only when every row fits, otherwise InsertFailed with the rows stored before the failing insert; both append exactly those rows, every other ending stores none |

## Left out

- The numerics of Vincenty's inverse and direct iterations are parameters. So are cos, sin, atan2, sqrt and hypot. `est_dist` and `rangeBearing` (geodetic.py:621-701) and the dead `xxxcalculateGridPositionFromRangeBearing` are not modelled.
- Floating-point rounding is not modelled: reals are exact. Python's `round` and `"%.Nf"` formatting are modelled exactly on reals.
- The ArcGIS calls are not modelled:
  - the cursors are replaced by sequences;
  - Clip_analysis, Append_management and DeleteFeatures_management are left out;
  - `add_results_to_map` and `delete_survey_lines` are left out;
  - field creation in `check_run_line_fc_exists` and `check_sounding_grid_fc_exists` is reduced to a boolean (workspace usable, target ready);
  - `get_source_feature_class_name` and `get_survey_area` become a selected flag and an optional polygon;
  - the clip of the soundings to the polygon becomes the list of elevations inside it.
- The rows that fc_to_csv reads after the clip/append are an input. The model does not compute them from the generated lines, because the clip is an ArcGIS operation.
- The CSV file written by fc_to_csv and by FC2CSV is not modelled, nor are `os.startfile` and the messages. The report keeps the totals and the per-line durations.
- In the file name search, `os.path.expanduser`, `os.makedirs` and `splitext`/`dirname`/`basename` are not modelled. The path arrives already split into directory, name and extension, and the directory listing is a set.
- The PROJECT_NAME, PREPARED_BY, PREPARED_DATE and user-name fields are not modelled, because the clock, the user and the workspace path are outside the model. The LINE_PREFIX, LINE_NAME, LINE_DIRECTION and REMARKS (spacing) fields are kept.
- The tool wrappers are not modelled: getParameterInfo, execute, `main` of GEBCO1DExtractor.py and its `__main__` driver.
- From the GEBCO reader, these are left out:
  - NetCDF file access (the z variable is a function from index to Int16);
  - `loadProj`;
  - `DepthsToFeatureClass`;
  - `checkSoundingGridFCExists`;
  - `close`.
- admiralty.py is not part of this model.
- `np.median`'s averaging for even lengths is never reached, because medfilt asserts an odd length.
- SurveyCompute.Compute: the generator loop for a negative spacing between -1 and 0 never ends. The model returns `Diverges` for that case instead of running forever, and then says nothing about the rows stored.
- Gebco.StepSouthAddsRow: holds only away from exact rounding ties. Gebco.StepSouthAtTie shows the tie case, where the index skips two rows.
- SurveyEstimator.PassNamesDistinct: proved for spacings of at least 0.1. Below that, one-decimal names collide, as SurveyEstimator.NamesCollideBelowOneTenth shows.
- SurveyEstimator.PassNamesDistinct: distinctness is of the names as composed. add_polyline stores them cut to 20 characters, and cut names can collide. For example, with a 16-character prefix and spacing 10, "_S10.0" and "_S100.0" are both stored as prefix + "_S10", as SurveyEstimator.StoredNamesCollide shows.
- Gebco.GebcoReader.constructor: the model requires positive spacings, which `__init__` (GEBCO1DExtractor.py:214-232) does not check. A zero spacing would make coordinate2Index divide by zero, and that is not modelled.
- Gebco.GebcoReader.LoadBoundingBoxDepths: `z` is taken to hold dimension[0] * dimension[1] values, the size of the grid the file describes. The clamped index never leaves [0, dimension[0] * dimension[1]], so the read at the upper end is the only one that fails.
- LegacySurveyEstimator.LegacyFeatureClass.AddPolyline: the TempLines class is taken to have the 20-character LINE_PREFIX and LINE_NAME fields that checkFCExists gives a new class (build/lib/GGSurveyEstimator/GGSurveyEstimator.py:344-345). A class that already existed with other widths is not modelled. Field lengths are counted in characters.
- LegacySurveyEstimator.NegativeSpacingFailsInsert: holds in exact arithmetic only. In the code, `offset` is a float grown by repeated `+ spacing`, and the sum stops changing once |spacing| is below half the gap between neighbouring doubles at that offset. For example, with prefix "A" and spacing -0.0001 the offset stalls just past -2^40. There "A_S-1099511627776.00" still has exactly 20 characters, so no insert fails and the older loop runs forever, like the current one. Without a stall, a short prefix reaches the misfit only after about 10^13/|spacing| inserts.
- LegacySurveyEstimator.LegacyCompute: the exception insertRow raises is not caught in compute; the model ends the run with `InsertFailed` and the rows stored so far, and leaves out the traceback.
- Behaviours of the code worth knowing:
  - Vertices after an interior-ring marker take part in the heading search. The None marker is skipped, and the ring's points are appended like any other.
  - The turn duration is read in minutes and divided by 60 (GGSurveyEstimator.py:150). The older copy takes it in hours.
  - A vessel speed of 0 passes validation, which only rejects negative speeds. The report then raises ZeroDivisionError when there is a line.
  - A spacing between -1 and 0 passes validation and makes the generator loop forever.
  - In the older copy the names are not cut. In exact arithmetic a negative spacing makes the starboard offsets grow until a name exceeds the 20-character LINE_NAME field and insertRow raises. With floats, a small |spacing| can stall the offset while the name still fits, and the loop then never ends (see the LegacySurveyEstimator.NegativeSpacingFailsInsert line above).
  - The older copy's centreline name is the prefix plus 11 characters, so a prefix of more than 9 characters fails on the first insert.
  - A zero estimated spacing raises ZeroDivisionError when the number of lines is computed.
  - coordinate2Index clamps to dimension0 * dimension1 inclusive. That index is one past the last value of `z`, so reading it raises IndexError.
  - coordinate2Index divides the row by spacing[0] and the column by spacing[1], and uses dimension[0] as the row stride. loadBoundingBoxDepths steps latitude by spacing[1].
