/** The figures `write_report` prints for the land tie and the bias: the
    time differences, the drift-corrected reading at the base station and
    the pier gravity.  The report recomputes the corrected reading from the
    stored averages and drift, and prints the stored land tie value beside
    it; the lemmas show the two agree with the land tie computation. */
module TieReport {
  import opened TieStructs
  import LandTie
  import LandTieProperties
  import BiasComputation

  /** Seconds from the first to the second occupation of the new site (`AA_timedelta`). */
  function SiteInterval(s: TieState): real
    requires |s.tAverages| == 3
  {
    (s.tAverages[2] - s.tAverages[0]) as real
  }

  /** Seconds from the first occupation of the new site to the base station (`AB_timedelta`). */
  function BaseInterval(s: TieState): real
    requires |s.tAverages| == 3
  {
    (s.tAverages[1] - s.tAverages[0]) as real
  }

  /** The drift-corrected base station reading the report prints (`dc_avg_mgals_B`). */
  function ReportedCorrectedBase(s: TieState): real
    requires |s.mgalAverages| == 3 && |s.tAverages| == 3
  {
    LandTie.DriftCorrected(s.mgalAverages[1], BaseInterval(s), s.drift)
  }

  /** The right-hand side of the report's pier gravity equation: the station
      gravity plus the first site reading less the corrected base reading. */
  function ReportedTieSum(s: TieState): real
    requires |s.mgalAverages| == 3 && |s.tAverages| == 3
  {
    s.stinfo.stationGravity + s.mgalAverages[0] - ReportedCorrectedBase(s)
  }

  /** The pier gravity the report prints, as written: the land tie value
      whenever a land tie is in use, the station gravity otherwise. */
  function ReportPierGrav(s: TieState): real
  {
    if s.lminfo.landtie then s.lminfo.landTieValue else s.stinfo.stationGravity
  }

  /** The pier gravity the report should print: the one the bias was computed from. */
  function CorrectedReportPierGrav(s: TieState): (r: real)
    ensures s.lminfo.landtie && s.lminfo.landTieValue > 0.0 ==> r == s.lminfo.landTieValue
    ensures !(s.lminfo.landtie && s.lminfo.landTieValue > 0.0) ==> r == s.stinfo.stationGravity
  {
    BiasComputation.PierGrav(s)
  }

  /** After a complete land tie computation every equation the report
      prints holds: the drift line, the corrected base reading (the same
      correction the computation applied) and the pier gravity line, whose
      sum is the stored land tie value. */
  lemma ReportMatchesLandTie(s: TieState)
    requires ShapeOk(s) && LandTie.SiteTimesDiffer(s)
    requires |s.lminfo.calib.brackets| > 0 && s.stinfo.stationGravity >= 0.0 && LandTie.AllGroupsUsed(s)
    ensures var r := LandTie.ComputeLandTie(s);
      && SiteInterval(r) != 0.0
      && r.drift == (r.mgalAverages[2] - r.mgalAverages[0]) / SiteInterval(r)
      && ReportedCorrectedBase(r) == LandTie.DriftCorrected(LandTie.GroupMgal(s.lminfo.calib, s.bcounts), BaseInterval(r), r.drift)
      && ReportedTieSum(r) == r.lminfo.landTieValue
  {
    LandTieProperties.LandTieKeepsShape(s);
    LandTieProperties.CompleteComputesTie(s);
    var m := LandTie.GroupMgals(s);
    var t := LandTie.GroupTimes(s);
    var r := LandTie.ComputeLandTie(s);
    assert r == LandTie.TieStage(LandTie.ConvertStage(s), m, t);
    FormulaLines(s.stinfo.stationGravity, m[0], m[1], m[2], t[0], t[1], t[2]);
    assert r.mgalAverages[1] == LandTie.GroupMgal(s.lminfo.calib, s.bcounts);
  }

  /** The report's three equations for one set of averages. */
  lemma FormulaLines(refG: real, m0: real, m1: real, m2: real, t0: int, t1: int, t2: int)
    requires t0 != t2
    ensures var drift := LandTie.Drift(m0, m2, (t2 - t0) as real);
      && drift == (m2 - m0) / ((t2 - t0) as real)
      && refG + m0 - (m1 - ((t1 - t0) as real) * drift)
         == LandTie.LandTieValue(refG, m0, m1, m2, t0 as real, t1 as real, t2 as real)
  {
  }

  /** The printed pier gravity is the one the bias used, except when a land
      tie is in use with a value that is not positive and differs from the
      station gravity. */
  lemma ReportPierAgreement(s: TieState)
    ensures ReportPierGrav(s) == CorrectedReportPierGrav(s) <==>
      !(s.lminfo.landtie && s.lminfo.landTieValue <= 0.0 && s.lminfo.landTieValue != s.stinfo.stationGravity)
  {
  }

  /** A land tie switched on but not yet computed: the report prints the
      -999 sentinel as the pier gravity, while the bias was computed from
      the station gravity. */
  lemma ReportPierMismatchExample(s: TieState)
    requires s.lminfo.landtie && s.lminfo.landTieValue == UnsetReal && s.stinfo.stationGravity == 979000.0
    ensures ReportPierGrav(s) == -999.0
    ensures CorrectedReportPierGrav(s) == 979000.0
  {
  }

  /** With the corrected pier gravity the report's water line equation holds
      after the bias computation: the printed pier gravity plus the free-air
      term is the stored water-line gravity. */
  lemma WaterLineEquation(s: TieState, design: nat -> seq<real>, sg: seq<real>, st: seq<int>)
    requires |s.heights| >= 3 && |sg| == |st| == |s.shinfo.gravgrav|
    requires BiasComputation.Ready(s) && BiasComputation.PierGrav(s) > 0.0
    ensures var r := BiasComputation.ComputeBias(s, design, sg, st);
      r.waterGrav == CorrectedReportPierGrav(r) + FaaFactor * r.avgHeight
  {
  }
}
