/** `on_compute_landtie` of lib/actual_computations.cpp: the three occupation
    groups of a land tie (A1 at the new site, B at the reference station, A2
    back at the new site) are converted to mGal and averaged, and a linear
    drift correction gives the absolute gravity at the new site. */
module LandTie {
  import opened Numerics
  import opened TieStructs
  import opened CountsConversion

  /** A reading takes part in the averages only when its count is positive. */
  predicate Used(v: ValTime)
  {
    v.h1 > 0.0
  }

  /** A used reading gets its calibrated value written into `m1`; others stay as they are. */
  function ConvertReading(calib: Calibration, v: ValTime): ValTime
    requires Usable(calib)
  {
    if Used(v) then v.(m1 := CountsToMgal(calib, v.h1)) else v
  }

  function ConvertedGroup(calib: Calibration, g: seq<ValTime>): seq<ValTime>
    requires Usable(calib)
  {
    seq(|g|, i requires 0 <= i < |g| => ConvertReading(calib, g[i]))
  }

  /** Calibrated values of the used readings, in order. */
  function UsedMgals(calib: Calibration, g: seq<ValTime>): (r: seq<real>)
    requires Usable(calib)
    ensures |r| == |UsedTimes(g)|
  {
    if g == [] then []
    else
      var last := g[|g| - 1];
      UsedMgals(calib, g[..|g| - 1]) + (if Used(last) then [CountsToMgal(calib, last.h1)] else [])
  }

  /** Times of the used readings, in order. */
  function UsedTimes(g: seq<ValTime>): (r: seq<int>)
    ensures |r| <= |g|
  {
    if g == [] then []
    else
      var last := g[|g| - 1];
      UsedTimes(g[..|g| - 1]) + (if Used(last) then [last.t1] else [])
  }

  function UsedCount(g: seq<ValTime>): nat
  {
    |UsedTimes(g)|
  }

  /** A group's average mGal value: `mgal_sum / icounts`. */
  function GroupMgal(calib: Calibration, g: seq<ValTime>): real
    requires Usable(calib) && UsedCount(g) > 0
  {
    Average(Sum(UsedMgals(calib, g)), UsedCount(g))
  }

  /** A group's average time: `t_sum / icounts` in C's truncating integer division. */
  function GroupTime(g: seq<ValTime>): int
    requires UsedCount(g) > 0
  {
    CDiv(SumInt(UsedTimes(g)), UsedCount(g))
  }

  // ---------------------------------------------------------------------
  // The tie formula, shared with the Python variant

  /** Drift rate between the two occupations of the new site, `dt` seconds apart, in mGal per second. */
  function Drift(mA1: real, mA2: real, dt: real): real
    requires dt != 0.0
  {
    (mA2 - mA1) / dt
  }

  /** A reading at time `t` corrected back to time `t0` with a drift rate. */
  function DriftCorrected(m: real, dt: real, drift: real): real
  {
    m - dt * drift
  }

  /** Absolute gravity at the new site: the reference gravity plus the meter
      difference between the site and the drift-corrected reference reading. */
  function LandTieValue(refG: real, mA1: real, mB: real, mA2: real, tA1: real, tB: real, tA2: real): real
    requires tA1 != tA2
  {
    refG + (mA1 - DriftCorrected(mB, tB - tA1, Drift(mA1, mA2, tA2 - tA1)))
  }

  /** Without drift the tie is the plain meter difference added to the reference. */
  lemma LandTieWithoutDrift(refG: real, mA: real, mB: real, tA1: real, tB: real, tA2: real)
    requires tA1 != tA2
    ensures Drift(mA, mA, tA2 - tA1) == 0.0
    ensures LandTieValue(refG, mA, mB, mA, tA1, tB, tA2) == refG + mA - mB
  {
  }

  /** The correction is exact for a meter that drifts linearly: if each
      reading is the local gravity plus a fixed offset plus `d` per second,
      the tie to a reference of gravity `gB` returns the site's gravity `gA`. */
  lemma LandTieExactUnderLinearDrift(gA: real, gB: real, offset: real, d: real, tA1: real, tB: real, tA2: real)
    requires tA1 != tA2
    ensures LandTieValue(gB, gA + offset + d * tA1, gB + offset + d * tB, gA + offset + d * tA2, tA1, tB, tA2) == gA
  {
    var mA1, mA2 := gA + offset + d * tA1, gA + offset + d * tA2;
    assert mA2 - mA1 == d * (tA2 - tA1);
    assert Drift(mA1, mA2, tA2 - tA1) == d;
    assert DriftCorrected(gB + offset + d * tB, tB - tA1, d) == gB + offset + d * tA1;
  }

  /** Extending the prefix by one reading extends the used values and times by at most one. */
  lemma UsedStep(calib: Calibration, g: seq<ValTime>, i: nat)
    requires Usable(calib) && i < |g|
    ensures UsedMgals(calib, g[..i + 1]) == UsedMgals(calib, g[..i]) + (if Used(g[i]) then [CountsToMgal(calib, g[i].h1)] else [])
    ensures UsedTimes(g[..i + 1]) == UsedTimes(g[..i]) + (if Used(g[i]) then [g[i].t1] else [])
  {
    assert g[..i + 1][..i] == g[..i];
  }

  /** What one reading adds to the group's mGal sum, time sum and count. */
  function MgalShare(calib: Calibration, v: ValTime): real
    requires Usable(calib)
  {
    if Used(v) then CountsToMgal(calib, v.h1) else 0.0
  }

  function TimeShare(v: ValTime): int
  {
    if Used(v) then v.t1 else 0
  }

  function CountShare(v: ValTime): nat
  {
    if Used(v) then 1 else 0
  }

  /** The running sums and count of a group after one more reading. */
  lemma SumsStep(calib: Calibration, g: seq<ValTime>, i: nat)
    requires Usable(calib) && i < |g|
    ensures Sum(UsedMgals(calib, g[..i + 1])) == Sum(UsedMgals(calib, g[..i])) + MgalShare(calib, g[i])
    ensures SumInt(UsedTimes(g[..i + 1])) == SumInt(UsedTimes(g[..i])) + TimeShare(g[i])
    ensures UsedCount(g[..i + 1]) == UsedCount(g[..i]) + CountShare(g[i])
  {
    UsedStep(calib, g, i);
    var ms, ts := UsedMgals(calib, g[..i]), UsedTimes(g[..i]);
    if Used(g[i]) {
      SumSnoc(ms, CountsToMgal(calib, g[i].h1));
      SumIntSnoc(ts, g[i].t1);
    } else {
      assert ms + [] == ms;
      assert ts + [] == ts;
    }
  }

  // ---------------------------------------------------------------------
  // One group, as the C++ loop over `thisone` does it

  /** The body of the loop over a group: a reading with a positive count gets
      its calibrated value and adds to the sums and the count. */
  method AccumulateReading(calib: Calibration, thisone: ValTime, mgalSum: real, tSum: int, icounts: nat)
    returns (updated: ValTime, mgalSum': real, tSum': int, icounts': nat)
    requires Usable(calib)
    ensures updated == ConvertReading(calib, thisone)
    ensures mgalSum' == mgalSum + MgalShare(calib, thisone)
    ensures tSum' == tSum + TimeShare(thisone) && icounts' == icounts + CountShare(thisone)
  {
    updated, mgalSum', tSum', icounts' := thisone, mgalSum, tSum, icounts;
    if thisone.h1 > 0.0 {
      var mgalval := ConvertCountsMgals(thisone, calib);
      updated := thisone.(m1 := mgalval);
      mgalSum' := mgalSum + mgalval;
      tSum' := tSum + thisone.t1;
      icounts' := icounts + 1;
    }
  }

  /** Converts and accumulates one group: the readings with their new `m1`,
      the sum of the used values and times, and the number used. */
  method AccumulateGroup(calib: Calibration, group: seq<ValTime>)
    returns (converted: seq<ValTime>, mgalSum: real, tSum: int, icounts: nat)
    requires Usable(calib)
    ensures converted == ConvertedGroup(calib, group)
    ensures mgalSum == Sum(UsedMgals(calib, group)) && tSum == SumInt(UsedTimes(group))
    ensures icounts == UsedCount(group)
  {
    converted := group;
    mgalSum, tSum, icounts := 0.0, 0, 0;
    var i := 0;
    while i < |group|
      invariant 0 <= i <= |group| && |converted| == |group|
      invariant forall j :: 0 <= j < i ==> converted[j] == ConvertReading(calib, group[j])
      invariant forall j :: i <= j < |group| ==> converted[j] == group[j]
      invariant mgalSum == Sum(UsedMgals(calib, group[..i]))
      invariant tSum == SumInt(UsedTimes(group[..i])) && icounts == UsedCount(group[..i])
    {
      SumsStep(calib, group, i);
      var updated;
      updated, mgalSum, tSum, icounts := AccumulateReading(calib, group[i], mgalSum, tSum, icounts);
      converted := converted[i := updated];
      i := i + 1;
    }
    assert group[..i] == group;
  }

  // ---------------------------------------------------------------------
  // The whole callback

  /** All three groups have a used reading, so the tie formula is reached. */
  predicate AllGroupsUsed(s: TieState)
  {
    UsedCount(s.acounts) > 0 && UsedCount(s.bcounts) > 0 && UsedCount(s.ccounts) > 0
  }

  /** The two occupations of the new site average to different seconds (the
      source divides by their difference without checking it). */
  predicate SiteTimesDiffer(s: TieState)
  {
    AllGroupsUsed(s) ==> GroupTime(s.acounts) != GroupTime(s.ccounts)
  }

  /** The groups after the accumulation loops: each group is converted only
      when every group before it had a used reading. */
  function ConvertStage(s: TieState): (r: TieState)
    requires Usable(s.lminfo.calib)
  {
    var calib := s.lminfo.calib;
    var a := ConvertedGroup(calib, s.acounts);
    var b := if UsedCount(s.acounts) > 0 then ConvertedGroup(calib, s.bcounts) else s.bcounts;
    var c := if UsedCount(s.acounts) > 0 && UsedCount(s.bcounts) > 0 then ConvertedGroup(calib, s.ccounts) else s.ccounts;
    s.(acounts := a, bcounts := b, ccounts := c)
  }

  /** The averages, drift and land tie value written once all three groups are used. */
  function TieStage(s: TieState, m: seq<real>, t: seq<int>): TieState
    requires |m| == 3 && |t| == 3 && t[0] != t[2]
  {
    var value := LandTieValue(s.stinfo.stationGravity, m[0], m[1], m[2], t[0] as real, t[1] as real, t[2] as real);
    s.(mgalAverages := m, tAverages := t,
       drift := Drift(m[0], m[2], (t[2] - t[0]) as real),
       lminfo := s.lminfo.(landTieValue := value))
  }

  function GroupMgals(s: TieState): seq<real>
    requires Usable(s.lminfo.calib) && AllGroupsUsed(s)
  {
    var calib := s.lminfo.calib;
    [GroupMgal(calib, s.acounts), GroupMgal(calib, s.bcounts), GroupMgal(calib, s.ccounts)]
  }

  function GroupTimes(s: TieState): seq<int>
    requires AllGroupsUsed(s)
  {
    [GroupTime(s.acounts), GroupTime(s.bcounts), GroupTime(s.ccounts)]
  }

  /** The tie after on_compute_landtie: nothing without a calibration table or
      with a negative reference gravity; otherwise the groups are converted in
      order until one has no used reading, and only when all three do are the
      averages, the drift and the land tie value replaced. */
  function ComputeLandTie(s: TieState): TieState
    requires WellFormed(s.lminfo.calib) && SiteTimesDiffer(s)
  {
    if |s.lminfo.calib.brackets| == 0 || s.stinfo.stationGravity < 0.0 then s
    else if !AllGroupsUsed(s) then ConvertStage(s)
    else TieStage(ConvertStage(s), GroupMgals(s), GroupTimes(s))
  }

  /** The three accumulation loops of on_compute_landtie, in order, each
      stopping the callback when its group has no used reading: the groups
      with their new `m1`, whether all three were used, and then the averages. */
  method ConvertGroups(calib: Calibration, acounts: seq<ValTime>, bcounts: seq<ValTime>, ccounts: seq<ValTime>)
    returns (a: seq<ValTime>, b: seq<ValTime>, c: seq<ValTime>, complete: bool, mgalAverages: seq<real>, tAverages: seq<int>)
    requires Usable(calib)
    ensures a == ConvertedGroup(calib, acounts)
    ensures b == if UsedCount(acounts) > 0 then ConvertedGroup(calib, bcounts) else bcounts
    ensures c == if UsedCount(acounts) > 0 && UsedCount(bcounts) > 0 then ConvertedGroup(calib, ccounts) else ccounts
    ensures complete <==> UsedCount(acounts) > 0 && UsedCount(bcounts) > 0 && UsedCount(ccounts) > 0
    ensures complete ==> mgalAverages == [GroupMgal(calib, acounts), GroupMgal(calib, bcounts), GroupMgal(calib, ccounts)]
    ensures complete ==> tAverages == [GroupTime(acounts), GroupTime(bcounts), GroupTime(ccounts)]
  {
    b, c, complete, mgalAverages, tAverages := bcounts, ccounts, false, [], [];
    var aSum, aT, aN, bSum, bT, bN, cSum, cT, cN;
    a, aSum, aT, aN := AccumulateGroup(calib, acounts);
    if aN == 0 {
      return;
    }
    mgalAverages, tAverages := mgalAverages + [Average(aSum, aN)], tAverages + [CDiv(aT, aN)];
    b, bSum, bT, bN := AccumulateGroup(calib, bcounts);
    if bN == 0 {
      return;
    }
    mgalAverages, tAverages := mgalAverages + [Average(bSum, bN)], tAverages + [CDiv(bT, bN)];
    c, cSum, cT, cN := AccumulateGroup(calib, ccounts);
    if cN == 0 {
      return;
    }
    mgalAverages, tAverages := mgalAverages + [Average(cSum, cN)], tAverages + [CDiv(cT, cN)];
    complete := true;
  }

  /** The computation of on_compute_landtie past its two guards, on a copy of
      the tie: the converted groups, whether all three were used, and then the
      averages, the drift and the land tie value. */
  method LandTieFigures(s: TieState)
    returns (a: seq<ValTime>, b: seq<ValTime>, c: seq<ValTime>, complete: bool,
             mgalAverages: seq<real>, tAverages: seq<int>, drift: real, landTieValue: real)
    requires WellFormed(s.lminfo.calib) && SiteTimesDiffer(s)
    requires |s.lminfo.calib.brackets| > 0 && s.stinfo.stationGravity >= 0.0
    ensures complete == AllGroupsUsed(s)
    ensures ComputeLandTie(s) ==
      if complete then
        s.(acounts := a, bcounts := b, ccounts := c, mgalAverages := mgalAverages, tAverages := tAverages,
           drift := drift, lminfo := s.lminfo.(landTieValue := landTieValue))
      else s.(acounts := a, bcounts := b, ccounts := c)
  {
    var refG := s.stinfo.stationGravity;
    a, b, c, complete, mgalAverages, tAverages :=
      ConvertGroups(s.lminfo.calib, s.acounts, s.bcounts, s.ccounts);
    drift, landTieValue := s.drift, s.lminfo.landTieValue;
    if !complete {
      return;
    }
    var aaTimedelta := (tAverages[2] - tAverages[0]) as real;
    var abTimedelta := (tAverages[1] - tAverages[0]) as real;
    drift := Drift(mgalAverages[0], mgalAverages[2], aaTimedelta);
    var dcAvgMgalsB := DriftCorrected(mgalAverages[1], abTimedelta, drift);
    var gdiff := mgalAverages[0] - dcAvgMgalsB;
    landTieValue := refG + gdiff;
    assert landTieValue == LandTieValue(refG, mgalAverages[0], mgalAverages[1], mgalAverages[2],
                                        tAverages[0] as real, tAverages[1] as real, tAverages[2] as real);
  }

  /** `on_compute_landtie(button, gravtie)`. */
  method OnComputeLandTie(gravtie: Tie)
    modifies gravtie
    requires WellFormed(gravtie.lminfo.calib) && SiteTimesDiffer(gravtie.State())
    ensures gravtie.State() == ComputeLandTie(old(gravtie.State()))
  {
    if |gravtie.lminfo.calib.brackets| == 0 {
      return;
    }
    if gravtie.stinfo.stationGravity < 0.0 {
      return;
    }
    var before := gravtie.State();
    var a, b, c, complete, mgalAverages, tAverages, drift, landTieValue := LandTieFigures(before);
    gravtie.SetGroups(a, b, c);
    if !complete {
      return;
    }
    gravtie.SetLandTieResults(mgalAverages, tAverages, drift, landTieValue);
  }
}

/** What on_compute_landtie promises about its results, stated on the model. */
module LandTieProperties {
  import opened Numerics
  import opened TieStructs
  import opened CountsConversion
  import opened LandTie

  /** Converting a group keeps which readings are used and their times. */
  lemma {:induction false} UsedTimesOfConverted(calib: Calibration, g: seq<ValTime>)
    requires Usable(calib)
    ensures UsedTimes(ConvertedGroup(calib, g)) == UsedTimes(g)
    ensures UsedMgals(calib, ConvertedGroup(calib, g)) == UsedMgals(calib, g)
    decreases |g|
  {
    if g != [] {
      var n := |g| - 1;
      var cg := ConvertedGroup(calib, g);
      assert cg[..n] == ConvertedGroup(calib, g[..n]);
      assert cg[n] == ConvertReading(calib, g[n]);
      UsedTimesOfConverted(calib, g[..n]);
    }
  }

  /** Converting twice is converting once. */
  lemma ConvertedGroupIdempotent(calib: Calibration, g: seq<ValTime>)
    requires Usable(calib)
    ensures |ConvertedGroup(calib, g)| == |g|
    ensures ConvertedGroup(calib, ConvertedGroup(calib, g)) == ConvertedGroup(calib, g)
  {
  }

  /** Only the times and counts of a group matter to its averages; stale `m1`
      values from an earlier run are never read. */
  lemma AveragesIgnoreConversion(calib: Calibration, g: seq<ValTime>)
    requires Usable(calib)
    ensures UsedCount(ConvertedGroup(calib, g)) == UsedCount(g)
    ensures UsedCount(g) > 0 ==> GroupMgal(calib, ConvertedGroup(calib, g)) == GroupMgal(calib, g)
    ensures UsedCount(g) > 0 ==> GroupTime(ConvertedGroup(calib, g)) == GroupTime(g)
  {
    UsedTimesOfConverted(calib, g);
  }

  /** Without a calibration table, or with a negative (unset) reference
      gravity, the callback leaves the tie exactly as it was. */
  lemma GuardsLeaveTieUnchanged(s: TieState)
    requires WellFormed(s.lminfo.calib) && SiteTimesDiffer(s)
    requires |s.lminfo.calib.brackets| == 0 || s.stinfo.stationGravity < 0.0
    ensures ComputeLandTie(s) == s
  {
  }

  /** The callback changes the three groups, the averages, the drift and the
      land tie value, and nothing else. */
  lemma LandTieFrame(s: TieState)
    requires WellFormed(s.lminfo.calib) && SiteTimesDiffer(s)
    ensures var r := ComputeLandTie(s);
      && r.shinfo == s.shinfo && r.stinfo == s.stinfo && r.prinfo == s.prinfo
      && r.lminfo == s.lminfo.(landTieValue := r.lminfo.landTieValue)
      && r.heights == s.heights && r.bias == s.bias && r.avgHeight == s.avgHeight
      && r.waterGrav == s.waterGrav && r.avgDgsGrav == s.avgDgsGrav
  {
  }

  /** When some group has no used reading, the earlier averages, drift and
      land tie value survive. */
  lemma IncompleteKeepsResults(s: TieState)
    requires WellFormed(s.lminfo.calib) && SiteTimesDiffer(s)
    requires !AllGroupsUsed(s)
    ensures var r := ComputeLandTie(s);
      && r.mgalAverages == s.mgalAverages && r.tAverages == s.tAverages
      && r.drift == s.drift && r.lminfo == s.lminfo
  {
  }

  /** With all groups used, the stored results are the group averages and the tie formula. */
  lemma CompleteComputesTie(s: TieState)
    requires WellFormed(s.lminfo.calib) && SiteTimesDiffer(s)
    requires |s.lminfo.calib.brackets| > 0 && s.stinfo.stationGravity >= 0.0 && AllGroupsUsed(s)
    ensures var r := ComputeLandTie(s);
      && r.mgalAverages == GroupMgals(s) && r.tAverages == GroupTimes(s)
      && r.lminfo.landTieValue == LandTieValue(s.stinfo.stationGravity,
           GroupMgal(s.lminfo.calib, s.acounts), GroupMgal(s.lminfo.calib, s.bcounts), GroupMgal(s.lminfo.calib, s.ccounts),
           GroupTime(s.acounts) as real, GroupTime(s.bcounts) as real, GroupTime(s.ccounts) as real)
      && r.acounts == ConvertedGroup(s.lminfo.calib, s.acounts)
  {
  }

  /** The tie keeps its shape. */
  lemma LandTieKeepsShape(s: TieState)
    requires ShapeOk(s) && SiteTimesDiffer(s)
    ensures ShapeOk(ComputeLandTie(s))
  {
  }

  /** Converting the groups a second time changes nothing, and keeps which
      groups are used and their averages. */
  lemma ConvertStageIdempotent(s: TieState)
    requires Usable(s.lminfo.calib)
    ensures ConvertStage(ConvertStage(s)) == ConvertStage(s)
    ensures AllGroupsUsed(ConvertStage(s)) == AllGroupsUsed(s)
    ensures AllGroupsUsed(s) ==> GroupMgals(ConvertStage(s)) == GroupMgals(s) && GroupTimes(ConvertStage(s)) == GroupTimes(s)
  {
    var calib := s.lminfo.calib;
    AveragesIgnoreConversion(calib, s.acounts);
    AveragesIgnoreConversion(calib, s.bcounts);
    AveragesIgnoreConversion(calib, s.ccounts);
    ConvertedGroupIdempotent(calib, s.acounts);
    ConvertedGroupIdempotent(calib, s.bcounts);
    ConvertedGroupIdempotent(calib, s.ccounts);
  }

  /** Writing the results leaves the groups alone, and writing them twice is writing them once. */
  lemma TieStageSettles(s: TieState, m: seq<real>, t: seq<int>)
    requires Usable(s.lminfo.calib) && |m| == 3 && |t| == 3 && t[0] != t[2]
    ensures ConvertStage(TieStage(s, m, t)) == TieStage(ConvertStage(s), m, t)
    ensures TieStage(TieStage(s, m, t), m, t) == TieStage(s, m, t)
  {
  }

  /** Pressing the button twice gives the same tie as pressing it once. */
  lemma LandTieIdempotent(s: TieState)
    requires WellFormed(s.lminfo.calib) && SiteTimesDiffer(s)
    ensures SiteTimesDiffer(ComputeLandTie(s))
    ensures ComputeLandTie(ComputeLandTie(s)) == ComputeLandTie(s)
  {
    var calib := s.lminfo.calib;
    if |calib.brackets| > 0 && s.stinfo.stationGravity >= 0.0 {
      var c := ConvertStage(s);
      ConvertStageIdempotent(s);
      if AllGroupsUsed(s) {
        var r := TieStage(c, GroupMgals(s), GroupTimes(s));
        TieStageSettles(c, GroupMgals(s), GroupTimes(s));
        ConvertStageIdempotent(c);
        assert ComputeLandTie(r) == TieStage(ConvertStage(r), GroupMgals(r), GroupTimes(r));
      }
    }
  }
}
