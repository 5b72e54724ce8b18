/**
  SurveyEstimator.compute in GGSurveyEstimator.py: validate the tool's
  parameters, either only report on the existing run lines or plan a survey
  (resolve the -1 sentinels for heading and spacing, size the line plan on
  the polygon's half-diagonal, generate the primary pass and, when asked, the
  cross-line pass), then report on the run lines.

  What the ArcGIS project holds is a value here (`Env`): whether a polygon is
  selected, the layer's coordinate system, the workspace checks, the selected
  polygon, the soundings inside it and the rows the report reads.
*/
module SurveyCompute {
  import opened Wrappers
  import Geodetic
  import SurveyEstimator
  import OptimalHeading
  import SpacingEstimate
  import DurationReport

  type Point = SurveyEstimator.Point
  type Pass = SurveyEstimator.Pass

  /** The tool's parameters, in the order the tool dialog lists them. */
  datatype Params = Params(spacing: real, multiplier: real, heading: real, prefix: string, knots: real,
                           turnMinutes: real, crossMultiplier: real, reportAction: string)

  /** The selected polygon: its parts, its centroid and its extent. */
  datatype Area = Area(parts: seq<OptimalHeading.Part>, centroid: Point, xMin: real, yMin: real, xMax: real, yMax: real)

  /**
    What compute reads from the project. `area` is None when the selected layer's cursor yields no row;
    `soundings` is None when there is no Survey_Sounding_Grid; `reportRows` are the run lines fc_to_csv reads.
  */
  datatype Env = Env(num: Geodetic.Numerics, selected: bool, isGeographic: bool, workspaceExists: bool,
                     workspaceIsGdb: bool, targetReady: bool, area: Option<Area>, soundings: Option<seq<real>>,
                     reportRows: seq<DurationReport.ReportRow>)

  /** How a call of compute ends. */
  datatype Outcome =
    | Exited                                       // exit(1) after a rejected parameter
    | Reported(report: Result<DurationReport.Report, string>)  // report_action 'true': report only
    | ReturnedOne                                  // workspace or target feature class not usable
    | Crashed(error: string)                       // an exception escapes compute
    | Diverges(pass: Pass)                         // this pass's generator loop never ends
    | Planned(primary: Pass, cross: Option<Pass>, rows: seq<SurveyEstimator.LineRow>,
              report: Result<DurationReport.Report, string>)

  /** The turn duration parameter is in minutes; compute passes hours on. */
  function TurnHours(minutes: real): (hours: real)
    ensures hours * 60.0 == minutes
  {
    minutes / 60.0
  }

  /** The three parameter checks that exit: no selected polygon, a zero or below -1 spacing, a negative speed. */
  predicate Rejected(p: Params, selected: bool)
  {
    !selected || p.spacing == 0.0 || p.spacing < -1.0 || p.knots < 0.0
  }

  /** The heading used: the optimal heading for the -1 sentinel, any other value verbatim. */
  function ResolvedHeading(p: Params, env: Env, area: Area): real
  {
    if p.heading == -1.0 then OptimalHeading.Heading(env.num, area.parts, env.isGeographic) else p.heading
  }

  /** The spacing used: the depth-based estimate for the -1 sentinel, any other value verbatim. */
  function ResolvedSpacing(p: Params, env: Env): real
  {
    if p.spacing == -1.0 then SpacingEstimate.MeanDepthSpacing(env.soundings, p.multiplier) else p.spacing
  }

  /** Half the diagonal of the polygon's extent, in metres: geographic extents are converted from degrees. */
  function HalfDiagonal(num: Geodetic.Numerics, area: Area, isGeographic: bool): real
  {
    var half := num.hypot(area.xMax - area.xMin, area.yMax - area.yMin) / 2.0;
    if isGeographic then Geodetic.DegreesToMetres(half) else half
  }

  /** The primary pass: through the centroid, with the resolved heading and spacing and the tool's prefix. */
  function PrimaryPass(p: Params, env: Env, area: Area): Pass
  {
    SurveyEstimator.Pass(env.num, area.centroid, ResolvedSpacing(p, env), ResolvedHeading(p, env, area),
                         HalfDiagonal(env.num, area, env.isGeographic), env.isGeographic, p.prefix)
  }

  /** line_spacing * cross_line_multiplier: the cross lines' spacing. */
  function CrossSpacing(spacing: real, multiplier: real): (crossSpacing: real)
    ensures spacing > 0.0 && multiplier > 0.0 ==> crossSpacing > 0.0
  {
    spacing * multiplier
  }

  /** The cross-line pass, run only for a positive multiplier: heading + 90 normalised, spacing scaled, prefix + "_X". */
  function CrossPass(p: Params, primary: Pass): Option<Pass>
  {
    if p.crossMultiplier > 0.0 then
      Some(SurveyEstimator.Pass(primary.num, primary.centroid, CrossSpacing(primary.spacing, p.crossMultiplier),
                                Geodetic.Normalize360(primary.heading + 90.0), primary.halfDiagonal,
                                primary.isGeographic, primary.prefix + "_X"))
    else None
  }

  /** The rows the generator stores for one pass. */
  function PassRows(pass: Pass): seq<SurveyEstimator.LineRow>
    requires SurveyEstimator.Terminates(pass.spacing, pass.halfDiagonal)
  {
    SurveyEstimator.StoredRows(pass.prefix, SurveyEstimator.PassLines(pass))
  }

  /** The report fc_to_csv produces on the rows it reads. */
  function RunReport(p: Params, env: Env): Result<DurationReport.Report, string>
  {
    DurationReport.FcToCsv(env.reportRows, p.knots, TurnHours(p.turnMinutes), env.isGeographic, p.prefix)
  }

  /** The planning half of compute, once the checks have passed and the polygon is known. */
  function Plan(p: Params, env: Env, area: Area): Outcome
  {
    PlanPasses(p, env, PrimaryPass(p, env, area))
  }

  /** The generator runs for a primary pass: it raises on a zero spacing; then the primary lines, then the cross lines. */
  function PlanPasses(p: Params, env: Env, primary: Pass): Outcome
  {
    if primary.spacing == 0.0 then Crashed("ZeroDivisionError")
    else if !SurveyEstimator.Terminates(primary.spacing, primary.halfDiagonal) then Diverges(primary)
    else
      match CrossPass(p, primary)
      case None => Planned(primary, None, PassRows(primary), RunReport(p, env))
      case Some(cross) =>
        if !SurveyEstimator.Terminates(cross.spacing, cross.halfDiagonal) then Diverges(cross)
        else Planned(primary, Some(cross), PassRows(primary) + PassRows(cross), RunReport(p, env))
  }

  /** How compute ends for the given parameters and project. */
  function Run(p: Params, env: Env): Outcome
  {
    if Rejected(p, env.selected) then Exited
    else if p.reportAction == "true" then Reported(RunReport(p, env))
    else if !(env.workspaceExists && env.workspaceIsGdb) || !env.targetReady then ReturnedOne
    else
      match env.area
      case None => Crashed("TypeError")
      case Some(area) => Plan(p, env, area)
  }

  /** compute exits exactly when a polygon is not selected, the spacing is 0 or below -1, or the speed is negative. */
  lemma ExitsIffRejected(p: Params, env: Env)
    ensures Run(p, env).Exited? <==> !env.selected || p.spacing == 0.0 || p.spacing < -1.0 || p.knots < 0.0
  {
    if !Rejected(p, env.selected) && !(p.reportAction == "true") && (env.workspaceExists && env.workspaceIsGdb) && env.targetReady && env.area.Some? {
      PlanNeverExits(p, env, env.area.value);
    }
  }

  lemma PlanNeverExits(p: Params, env: Env, area: Area)
    ensures !Plan(p, env, area).Exited?
  {
  }

  /** With report_action 'true' and valid parameters, compute only reports, with the turn converted to hours. */
  lemma ReportOnly(p: Params, env: Env)
    requires !Rejected(p, env.selected) && p.reportAction == "true"
    ensures Run(p, env) == Reported(DurationReport.FcToCsv(env.reportRows, p.knots, p.turnMinutes / 60.0, env.isGeographic, p.prefix))
  {
  }

  /** A planned survey comes from the polygon that was found: its primary pass and its cross pass as defined above. */
  lemma PlannedFrom(p: Params, env: Env)
    requires Run(p, env).Planned?
    ensures env.area.Some? && Run(p, env) == Plan(p, env, env.area.value)
    ensures Run(p, env).primary == PrimaryPass(p, env, env.area.value)
    ensures Run(p, env).cross == CrossPass(p, Run(p, env).primary)
  {
  }

  /**
    A planned survey uses the optimal heading for the -1 sentinel and the depth estimate for the -1 spacing,
    any other heading or spacing verbatim; the primary lines go through the centroid with the tool's prefix.
  */
  lemma SentinelsResolved(p: Params, env: Env)
    requires Run(p, env).Planned?
    ensures env.area.Some?
    ensures var primary := Run(p, env).primary; var area := env.area.value;
      primary.heading == (if p.heading == -1.0 then OptimalHeading.Heading(env.num, area.parts, env.isGeographic) else p.heading) &&
      primary.spacing == (if p.spacing == -1.0 then SpacingEstimate.MeanDepthSpacing(env.soundings, p.multiplier) else p.spacing) &&
      primary.centroid == area.centroid && primary.prefix == p.prefix && primary.isGeographic == env.isGeographic
  {
    PlannedFrom(p, env);
  }

  /** The cross pass of a primary pass, when there is one: heading + 90 in [0, 360), spacing scaled, prefix + "_X". */
  lemma CrossPassShape(p: Params, primary: Pass)
    ensures CrossPass(p, primary).Some? <==> p.crossMultiplier > 0.0
    ensures var cross := CrossPass(p, primary);
      cross.Some? ==>
        cross.value.heading == Geodetic.Normalize360(primary.heading + 90.0) &&
        0.0 <= cross.value.heading < 360.0 &&
        cross.value.spacing == primary.spacing * p.crossMultiplier &&
        cross.value.prefix == primary.prefix + "_X" &&
        cross.value.centroid == primary.centroid && cross.value.halfDiagonal == primary.halfDiagonal &&
        cross.value.isGeographic == primary.isGeographic
  {
  }

  /** A positive resolved spacing always yields a plan once the checks pass and the polygon is known. */
  lemma PositiveSpacingPlans(p: Params, env: Env, area: Area)
    requires ResolvedSpacing(p, env) > 0.0
    ensures Plan(p, env, area).Planned?
  {
    var primary := PrimaryPass(p, env, area);
    if p.crossMultiplier > 0.0 {
      var cross := CrossPass(p, primary).value;
      assert cross.spacing > 0.0;
    }
  }

  /**
    A negative resolved spacing never ends on a polygon whose half-diagonal is not negative: the plan diverges on
    the primary pass, whose starboard guard `offset < polygon_diagonal_length` holds at every step.
  */
  lemma NegativeSpacingDiverges(p: Params, env: Env, area: Area)
    requires ResolvedSpacing(p, env) < 0.0 && HalfDiagonal(env.num, area, env.isGeographic) >= 0.0
    ensures Plan(p, env, area) == Diverges(PrimaryPass(p, env, area))
    ensures var primary := PrimaryPass(p, env, area);
      forall k :: k >= 1 ==> SurveyEstimator.Offset(primary.spacing, k) < primary.halfDiagonal
  {
    var primary := PrimaryPass(p, env, area);
    forall k | k >= 1
      ensures SurveyEstimator.Offset(primary.spacing, k) < primary.halfDiagonal
    {
      SurveyEstimator.GuardsHoldForever(primary.spacing, primary.halfDiagonal, k);
    }
  }

  /**
    Every Diverges outcome names a pass whose loops never exit: at every step k >= 1 the starboard offset is
    below the half-diagonal and the port offset above its negation.
  */
  lemma DivergesLoopsForever(p: Params, env: Env, primary: Pass, k: nat)
    requires PlanPasses(p, env, primary).Diverges? && k >= 1
    ensures var d := PlanPasses(p, env, primary).pass;
      (d == primary || Some(d) == CrossPass(p, primary)) &&
      SurveyEstimator.Offset(d.spacing, k) < d.halfDiagonal &&
      SurveyEstimator.PortOffset(d.spacing, k) > -d.halfDiagonal
  {
    var d := PlanPasses(p, env, primary).pass;
    SurveyEstimator.GuardsHoldForever(d.spacing, d.halfDiagonal, k);
  }

  /** A plan stores the primary pass's 1 + 2n lines, then, when there is one, the cross pass's 1 + 2m. */
  lemma PlannedLineCount(p: Params, env: Env)
    requires Run(p, env).Planned?
    ensures var o := Run(p, env);
      |o.rows| == 1 + 2 * SurveyEstimator.OffsetCount(o.primary.spacing, o.primary.halfDiagonal) +
                  (if o.cross.Some? then 1 + 2 * SurveyEstimator.OffsetCount(o.cross.value.spacing, o.cross.value.halfDiagonal) else 0)
  {
    var o := Run(p, env);
    SurveyEstimator.PassLinesSize(o.primary);
    if o.cross.Some? {
      SurveyEstimator.PassLinesSize(o.cross.value);
    }
  }

  /**
    compute after its checks: resolve the sentinels, size the plan on the half-diagonal, then run the passes.
  */
  method PlanSurvey(p: Params, env: Env, area: Area, tmp: SurveyEstimator.FeatureClass) returns (o: Outcome)
    modifies tmp
    ensures o == Plan(p, env, area)
    ensures o.Planned? ==> tmp.rows == old(tmp.rows) + o.rows
    ensures o.Crashed? ==> tmp.rows == old(tmp.rows)
  {
    var heading := p.heading;
    if heading == -1.0 {
      heading := OptimalHeading.ComputeOptimalHeading(env.num, area.parts, env.isGeographic);
    }
    var spacing := p.spacing;
    if spacing == -1.0 {
      spacing := SpacingEstimate.EstimateSpacing(env.soundings, p.multiplier);
    }
    var halfDiagonal := HalfDiagonal(env.num, area, env.isGeographic);
    var primary := SurveyEstimator.Pass(env.num, area.centroid, spacing, heading, halfDiagonal, env.isGeographic, p.prefix);
    assert primary == PrimaryPass(p, env, area);
    o := RunPasses(p, env, primary, tmp);
  }

  /**
    The line-count division, the primary pass and, for a positive multiplier, the cross pass, then the report.
    A pass whose loop would never end is returned as Diverges instead of being run.
  */
  method RunPasses(p: Params, env: Env, primary: Pass, tmp: SurveyEstimator.FeatureClass) returns (o: Outcome)
    modifies tmp
    ensures o == PlanPasses(p, env, primary)
    ensures o.Planned? ==> tmp.rows == old(tmp.rows) + o.rows
    ensures o.Crashed? ==> tmp.rows == old(tmp.rows)
  {
    if primary.spacing == 0.0 {
      return Crashed("ZeroDivisionError");
    }
    if !SurveyEstimator.Terminates(primary.spacing, primary.halfDiagonal) {
      return Diverges(primary);
    }
    ghost var before := tmp.rows;
    GeneratePass(primary, tmp);
    o := CrossAndReport(p, env, primary, tmp, before);
  }

  /** After the primary lines: the cross pass when the multiplier is positive, then the report. */
  method CrossAndReport(p: Params, env: Env, primary: Pass, tmp: SurveyEstimator.FeatureClass, ghost before: seq<SurveyEstimator.LineRow>)
    returns (o: Outcome)
    requires primary.spacing != 0.0 && SurveyEstimator.Terminates(primary.spacing, primary.halfDiagonal)
    requires tmp.rows == before + PassRows(primary)
    modifies tmp
    ensures o == PlanPasses(p, env, primary)
    ensures o.Planned? ==> tmp.rows == before + o.rows
  {
    var cross, generated := CrossStage(p, primary, tmp);
    if !generated {
      return Diverges(cross.value);
    }
    var rows := PassRows(primary);
    if cross.Some? {
      AppendAssoc(before, rows, PassRows(cross.value));
      rows := rows + PassRows(cross.value);
    }
    var report := PlanReport(p, env);
    return Planned(primary, cross, rows, report);
  }

  /** The cross pass, if the multiplier asks for one; `generated` is false when its loop would never end. */
  method CrossStage(p: Params, primary: Pass, tmp: SurveyEstimator.FeatureClass) returns (cross: Option<Pass>, generated: bool)
    modifies tmp
    ensures cross == CrossPass(p, primary)
    ensures generated <==> cross.None? || SurveyEstimator.Terminates(cross.value.spacing, cross.value.halfDiagonal)
    ensures cross.None? ==> tmp.rows == old(tmp.rows)
    ensures cross.Some? && generated ==> tmp.rows == old(tmp.rows) + PassRows(cross.value)
  {
    cross, generated := None, true;
    if p.crossMultiplier > 0.0 {
      var crossPass;
      crossPass, generated := CrossLines(p, primary, tmp);
      cross := Some(crossPass);
    }
  }

  /** fc_to_csv on the run lines, with the turn duration converted from minutes to hours. */
  method PlanReport(p: Params, env: Env) returns (report: Result<DurationReport.Report, string>)
    ensures report == RunReport(p, env)
  {
    report := DurationReport.ReportTotals(env.reportRows, p.knots, p.turnMinutes / 60.0, env.isGeographic, p.prefix);
  }

  lemma AppendAssoc<T>(a: seq<T>, b: seq<T>, c: seq<T>)
    ensures (a + b) + c == a + (b + c)
  {
  }

  /** The cross-line pass: heading + 90 normalised, spacing times the multiplier, prefix + "_X"; generated when it ends. */
  method CrossLines(p: Params, primary: Pass, tmp: SurveyEstimator.FeatureClass) returns (cross: Pass, generated: bool)
    requires p.crossMultiplier > 0.0
    modifies tmp
    ensures CrossPass(p, primary) == Some(cross)
    ensures generated == SurveyEstimator.Terminates(cross.spacing, cross.halfDiagonal)
    ensures generated ==> tmp.rows == old(tmp.rows) + PassRows(cross)
  {
    var hdg := Geodetic.Normalize360(primary.heading + 90.0);
    cross := SurveyEstimator.Pass(primary.num, primary.centroid, CrossSpacing(primary.spacing, p.crossMultiplier), hdg,
                                  primary.halfDiagonal, primary.isGeographic, primary.prefix + "_X");
    generated := SurveyEstimator.Terminates(cross.spacing, cross.halfDiagonal);
    if generated {
      GeneratePass(cross, tmp);
    }
  }

  /** compute_survey_lines called with the fields of one pass. */
  method GeneratePass(pass: Pass, tmp: SurveyEstimator.FeatureClass)
    requires SurveyEstimator.Terminates(pass.spacing, pass.halfDiagonal)
    modifies tmp
    ensures tmp.rows == old(tmp.rows) + PassRows(pass)
  {
    SurveyEstimator.ComputeSurveyLines(pass.num, tmp, pass.centroid, pass.spacing, pass.heading, pass.halfDiagonal,
                                       pass.isGeographic, pass.prefix);
  }

  /** compute: the parameter checks, the report-only action, the workspace checks, then the plan. */
  method Compute(p: Params, env: Env, tmp: SurveyEstimator.FeatureClass) returns (o: Outcome)
    modifies tmp
    ensures o == Run(p, env)
    ensures o.Planned? ==> tmp.rows == old(tmp.rows) + o.rows
    ensures !o.Planned? && !o.Diverges? ==> tmp.rows == old(tmp.rows)
  {
    if !env.selected {
      return Exited;
    }
    if p.spacing == 0.0 || p.spacing < -1.0 {
      return Exited;
    }
    if p.knots < 0.0 {
      return Exited;
    }
    if p.reportAction == "true" {
      var report := DurationReport.ReportTotals(env.reportRows, p.knots, p.turnMinutes / 60.0, env.isGeographic, p.prefix);
      return Reported(report);
    }
    if !(env.workspaceExists && env.workspaceIsGdb) {
      return ReturnedOne;
    }
    if !env.targetReady {
      return ReturnedOne;
    }
    if env.area.None? {
      return Crashed("TypeError");
    }
    o := PlanSurvey(p, env, env.area.value, tmp);
  }
}
