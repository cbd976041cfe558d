/** What on_compute_bias promises, stated on the model, and the two places
    where the code as written departs from what it evidently intends. */
module BiasProperties {
  import opened Wrappers
  import opened Numerics
  import opened TieStructs
  import opened FirFilter
  import opened TimeSort
  import opened BiasComputation

  /** No set height, or no meter data: the tie is left exactly as it was. */
  lemma BiasGuardsLeaveTieUnchanged(s: TieState, design: nat -> seq<real>, sg: seq<real>, st: seq<int>)
    requires |s.heights| >= 3 && |sg| == |st| == |s.shinfo.gravgrav|
    requires |UsedHeights(s.heights)| == 0 || |s.shinfo.gravgrav| == 0
    ensures ComputeBias(s, design, sg, st) == s
  {
  }

  /** Only the bias, the meter average, the water-line gravity and the
      average height are written; the bias is always their difference. */
  lemma BiasFrame(s: TieState, design: nat -> seq<real>, sg: seq<real>, st: seq<int>)
    requires |s.heights| >= 3 && |sg| == |st| == |s.shinfo.gravgrav|
    ensures var r := ComputeBias(s, design, sg, st);
      && r == s.(bias := r.bias, avgDgsGrav := r.avgDgsGrav, waterGrav := r.waterGrav, avgHeight := r.avgHeight)
      && (Ready(s) ==> r.bias == r.waterGrav - r.avgDgsGrav)
  {
  }

  /** The pier gravity is the land tie value exactly when a land tie is in
      use with a positive value, and the station's gravity otherwise. */
  lemma PierGravChoice(s: TieState)
    ensures s.lminfo.landtie && s.lminfo.landTieValue > 0.0 ==> PierGrav(s) == s.lminfo.landTieValue
    ensures !(s.lminfo.landtie && s.lminfo.landTieValue > 0.0) ==> PierGrav(s) == s.stinfo.stationGravity
  {
  }

  /** Heights are taken as depths below the pier, so their average is never positive. */
  lemma AverageHeightNonPositive(s: TieState, design: nat -> seq<real>, sg: seq<real>, st: seq<int>)
    requires |s.heights| >= 3 && |sg| == |st| == |s.shinfo.gravgrav|
    requires Ready(s) && PierGrav(s) > 0.0
    ensures ComputeBias(s, design, sg, st).avgHeight <= 0.0
    ensures ComputeBias(s, design, sg, st).waterGrav <= PierGrav(s)
  {
    var hs := UsedHeights(s.heights);
    SumNonPositive(hs);
  }

  /** Without a positive pier gravity the water-line gravity and the average
      height keep their sentinel -999. */
  lemma NoPierGravityKeepsSentinels(s: TieState, design: nat -> seq<real>, sg: seq<real>, st: seq<int>)
    requires |s.heights| >= 3 && |sg| == |st| == |s.shinfo.gravgrav|
    requires Ready(s) && PierGrav(s) <= 0.0
    ensures ComputeBias(s, design, sg, st).waterGrav == UnsetReal
    ensures ComputeBias(s, design, sg, st).avgHeight == UnsetReal
  {
  }

  /** A series that does not strictly cover the heights still writes a bias,
      against the meter-average sentinel -99999. */
  lemma NoCoverageFallsThrough(s: TieState, design: nat -> seq<real>, sg: seq<real>, st: seq<int>)
    requires |s.heights| >= 3 && |sg| == |st| == |s.shinfo.gravgrav|
    requires Ready(s) && !Covers(st, HeightStamps(s.heights))
    ensures ComputeBias(s, design, sg, st).avgDgsGrav == UnsetDgsGrav
    ensures ComputeBias(s, design, sg, st).bias == ComputeBias(s, design, sg, st).waterGrav + 99999.0
  {
  }

  /** On a time-ordered series the two bounds delimit exactly the samples
      whose times lie in `[lo, hi]`. */
  lemma WindowIsExact(t: seq<int>, lo: int, hi: int)
    requires Ascending(t) && lo <= hi
    ensures LowerBound(t, lo) <= UpperBound(t, hi)
    ensures forall i :: 0 <= i < |t| ==> (LowerBound(t, lo) <= i < UpperBound(t, hi) <==> lo <= t[i] <= hi)
  {
    var l, u := LowerBound(t, lo), UpperBound(t, hi);
    forall i | 0 <= i < |t|
      ensures l <= i < u <==> lo <= t[i] <= hi
    {
      if i >= l && l < |t| {
        assert t[l] <= t[i];
      }
      if i >= u && u < |t| {
        assert t[u] <= t[i];
      }
    }
  }

  /** Strict coverage keeps the window off both ends of the series. */
  lemma CoveredWindowIsInterior(st: seq<int>, stamps: seq<int>)
    requires |st| > 0 && |stamps| > 0 && Ascending(st) && Covers(st, stamps)
    ensures 0 < LowerBound(st, SeqMin(stamps))
    ensures UpperBound(st, SeqMax(stamps)) < |st|
  {
    assert SeqMin(st) <= st[0];
    assert st[|st| - 1] <= SeqMax(st);
    var k :| 0 <= k < |st| && st[k] == SeqMin(st);
    assert st[0] <= st[k];
    var m :| 0 <= m < |st| && st[m] == SeqMax(st);
    assert st[m] <= st[|st| - 1];
  }

  /** `ntaps` is a tenth of the window, rounded down. */
  lemma TapsIsTenth(lower: nat, upper: nat)
    requires lower <= upper
    ensures Taps(lower, upper) == (upper - lower) / 10 && Taps(lower, upper) >= 0
  {
    CDivNonNegative(upper - lower, 10);
  }

  /** The padding is trimmed off exactly: the data sits at positions `ntaps ..`. */
  lemma PassInputMiddle(ntaps: nat, data: seq<real>)
    ensures PassInput(ntaps, data)[ntaps..ntaps + |data|] == data
  {
  }

  /** Through a one-tap pass-through filter, both passes hand the time-ordered
      series back unchanged, before the final reversal. */
  lemma UnitFilterSeries(ntaps: nat, sg: seq<real>)
    ensures FilteredSeries([1.0], ntaps, sg) == Reverse(sg)
  {
    var h0 := Zeros(1);
    UnitFilterIsIdentity(h0, PassInput(ntaps, sg));
    PassInputMiddle(ntaps, sg);
    var first := Pass([1.0], h0, ntaps, sg);
    assert first == sg;
    var h1 := History(h0, PassInput(ntaps, sg));
    UnitFilterIsIdentity(h1, PassInput(ntaps, first));
    PassInputMiddle(ntaps, first);
  }

  /** Mirrored indices into a reversed series select the reversed window. */
  lemma WindowOfReversedIsWindow(x: seq<real>, lower: nat, upper: nat)
    requires lower <= upper <= |x|
    ensures WindowOfReversed(Reverse(x), lower, upper) == Reverse(x[lower..upper])
  {
    var rev, y := Reverse(x), x[lower..upper];
    var a, b := WindowOfReversed(rev, lower, upper), Reverse(y);
    assert |a| == |b|;
    forall i | 0 <= i < |a|
      ensures a[i] == b[i]
    {
      var k := |x| - upper + i;
      assert a[i] == rev[k];
      assert rev[k] == x[|x| - 1 - k];
      assert |x| - 1 - k == upper - 1 - i;
      assert b[i] == y[|y| - 1 - i];
      assert lower + (|y| - 1 - i) == upper - 1 - i;
      assert y[|y| - 1 - i] == x[upper - 1 - i];
    }
  }

  /** The evidently intended result, proved of the model: with a
      pass-through filter, whenever a meter average is written it is the mean
      gravity of exactly the samples timed inside the height window. */
  lemma MeterAverageIsWindowMean(sg: seq<real>, st: seq<int>, stamps: seq<int>)
    requires |sg| == |st| > 0 && |stamps| > 0 && Ascending(st)
    requires Covers(st, stamps)
    ensures var lower, upper := LowerBound(st, SeqMin(stamps)), UpperBound(st, SeqMax(stamps));
      lower < upper ==> DgsAverage(_ => [1.0], sg, st, stamps) == Mean(sg[lower..upper])
  {
    var lower, upper := LowerBound(st, SeqMin(stamps)), UpperBound(st, SeqMax(stamps));
    if lower < upper {
      UnitFilterSeries(Taps(lower, upper), sg);
      WindowOfReversedIsWindow(sg, lower, upper);
      SumReverse(sg[lower..upper]);
    }
  }

  /** Corrected: every average that is written is over at least one sample. */
  lemma MeterAverageNeedsSamples(design: nat -> seq<real>, sg: seq<real>, st: seq<int>, stamps: seq<int>)
    requires |sg| == |st| > 0 && |stamps| > 0 && Ascending(st)
    requires LowerBound(st, SeqMin(stamps)) >= UpperBound(st, SeqMax(stamps))
    ensures DgsAverage(design, sg, st, stamps) == UnsetDgsGrav
  {
  }

  // ---------------------------------------------------------------------
  // The code as written

  /** The slice as line 136 takes it: forward indices into the reversed series. */
  function WrittenWindow(rev: seq<real>, lower: nat, upper: nat): (r: seq<real>)
    requires lower <= upper <= |rev|
    ensures |r| == upper - lower
  {
    rev[lower..upper]
  }

  /** The meter average as written: the forward-index slice, and a division
      by the slice length even when it is zero (None: the NaN of 0.0/0). */
  function WrittenDgsAverage(design: nat -> seq<real>, sg: seq<real>, st: seq<int>, stamps: seq<int>): Option<real>
    requires |sg| == |st| > 0 && |stamps| > 0
  {
    if !Covers(st, stamps) then Some(UnsetDgsGrav)
    else
      var lower := LowerBound(st, SeqMin(stamps));
      var upper := UpperBound(st, SeqMax(stamps));
      if lower > upper then Some(UnsetDgsGrav)
      else
        var ntaps := Taps(lower, upper);
        var slice := WrittenWindow(FilteredSeries(design(ntaps), ntaps, sg), lower, upper);
        if |slice| == 0 then None else Some(Mean(slice))
  }

  /** Under a pass-through filter the written slice is the mirror image of
      the window, reversed. */
  lemma UnitWrittenWindow(taps: seq<real>, ntaps: nat, sg: seq<real>, lower: nat, upper: nat)
    requires taps == [1.0] && lower <= upper <= |sg|
    ensures WrittenWindow(FilteredSeries(taps, ntaps, sg), lower, upper) == Reverse(sg[|sg| - upper..|sg| - lower])
  {
    UnitFilterSeries(ntaps, sg);
    WindowOfReversedIsWindow(sg, |sg| - upper, |sg| - lower);
    assert WrittenWindow(Reverse(sg), lower, upper) == WindowOfReversed(Reverse(sg), |sg| - upper, |sg| - lower);
  }

  /** The written average on a covered window that is not inverted. */
  lemma WrittenAverageOfSlice(design: nat -> seq<real>, sg: seq<real>, st: seq<int>, stamps: seq<int>)
    requires |sg| == |st| > 0 && |stamps| > 0 && Covers(st, stamps)
    requires LowerBound(st, SeqMin(stamps)) <= UpperBound(st, SeqMax(stamps))
    ensures var lower, upper := LowerBound(st, SeqMin(stamps)), UpperBound(st, SeqMax(stamps));
      var slice := WrittenWindow(FilteredSeries(design(Taps(lower, upper)), Taps(lower, upper), sg), lower, upper);
      WrittenDgsAverage(design, sg, st, stamps) == if |slice| == 0 then None else Some(Mean(slice))
  {
  }

  /** Reversing a sequence keeps its mean. */
  lemma MeanReverse(x: seq<real>)
    requires |x| > 0
    ensures Mean(Reverse(x)) == Mean(x)
  {
    SumReverse(x);
  }

  /** On a time-ordered series the lower bound never passes the upper bound. */
  lemma BoundsOrdered(t: seq<int>, lo: int, hi: int)
    requires Ascending(t) && lo <= hi
    ensures LowerBound(t, lo) <= UpperBound(t, hi)
  {
    WindowIsExact(t, lo, hi);
  }

  /** The written average through a pass-through filter, for a window
      `lower .. upper` that is not inverted. */
  lemma WrittenUnitAverage(design: nat -> seq<real>, sg: seq<real>, st: seq<int>, stamps: seq<int>, lower: nat, upper: nat)
    requires forall n :: design(n) == [1.0]
    requires |sg| == |st| > 0 && |stamps| > 0 && Covers(st, stamps)
    requires lower == LowerBound(st, SeqMin(stamps)) && upper == UpperBound(st, SeqMax(stamps)) && lower <= upper
    ensures lower == upper ==> WrittenDgsAverage(design, sg, st, stamps).None?
    ensures lower < upper ==> WrittenDgsAverage(design, sg, st, stamps) == Some(Mean(sg[|sg| - upper..|sg| - lower]))
  {
    var ntaps := Taps(lower, upper);
    WrittenAverageOfSlice(design, sg, st, stamps);
    UnitWrittenWindow(design(ntaps), ntaps, sg, lower, upper);
    if lower < upper {
      MeanReverse(sg[|sg| - upper..|sg| - lower]);
    }
  }

  /** As written, with a pass-through filter: the average is taken over the
      mirror image of the height window (the samples as far from the end of
      the series as the window's samples are from its start), and an empty
      window gives no value. */
  lemma WrittenAverageIsMirroredMean(design: nat -> seq<real>, sg: seq<real>, st: seq<int>, stamps: seq<int>, lower: nat, upper: nat)
    requires forall n :: design(n) == [1.0]
    requires |sg| == |st| > 0 && |stamps| > 0 && Ascending(st) && Covers(st, stamps)
    requires lower == LowerBound(st, SeqMin(stamps)) && upper == UpperBound(st, SeqMax(stamps))
    ensures lower <= upper
    ensures lower == upper ==> WrittenDgsAverage(design, sg, st, stamps).None?
    ensures lower < upper ==> WrittenDgsAverage(design, sg, st, stamps) == Some(Mean(sg[|sg| - upper..|sg| - lower]))
  {
    assert SeqMin(stamps) <= stamps[0] <= SeqMax(stamps);
    BoundsOrdered(st, SeqMin(stamps), SeqMax(stamps));
    WrittenUnitAverage(design, sg, st, stamps, lower, upper);
  }

  /** The window of the example below: the second sample alone, unfiltered. */
  lemma ExampleWindow()
    ensures Covers([0, 1, 2, 3], [1])
    ensures LowerBound([0, 1, 2, 3], SeqMin([1])) == 1 && UpperBound([0, 1, 2, 3], SeqMax([1])) == 2
    ensures Taps(1, 2) == 0
  {
    var st := [0, 1, 2, 3];
    assert SeqMin(st) == 0 && SeqMax(st) == 3 && SeqMin([1]) == 1 && SeqMax([1]) == 1;
    assert LowerBound(st, 1) == 1 && UpperBound(st, 1) == 2;
  }

  lemma ExampleSeries()
    ensures FilteredSeries([1.0], 0, [10.0, 20.0, 30.0, 40.0]) == [40.0, 30.0, 20.0, 10.0]
  {
    var sg := [10.0, 20.0, 30.0, 40.0];
    UnitFilterSeries(0, sg);
    var rev := Reverse(sg);
    assert rev[0] == 40.0 && rev[1] == 30.0 && rev[2] == 20.0 && rev[3] == 10.0;
  }

  /** Four samples one second apart and one height at the second sample: the
      written slice averages the third sample (30) instead of the second (20). */
  lemma MirroredWindowExample()
    ensures WrittenDgsAverage(_ => [1.0], [10.0, 20.0, 30.0, 40.0], [0, 1, 2, 3], [1]) == Some(30.0)
    ensures DgsAverage(_ => [1.0], [10.0, 20.0, 30.0, 40.0], [0, 1, 2, 3], [1]) == 20.0
  {
    ExampleWindow();
    ExampleSeries();
    var rev := [40.0, 30.0, 20.0, 10.0];
    assert WrittenWindow(rev, 1, 2) == [30.0];
    MeanSingleton(30.0);
    assert WindowOfReversed(rev, 1, 2) == [20.0];
    MeanSingleton(20.0);
  }

  /** Samples at 0 and 10 s and one height at 5 s: the series covers the
      height, yet no sample lies in the window, and the written average
      divides by zero. */
  lemma EmptyWindowExample(design: nat -> seq<real>)
    ensures Covers([0, 10], [5])
    ensures WrittenDgsAverage(design, [1.0, 2.0], [0, 10], [5]) == None
    ensures DgsAverage(design, [1.0, 2.0], [0, 10], [5]) == UnsetDgsGrav
  {
    var st := [0, 10];
    assert SeqMin(st) == 0 && SeqMax(st) == 10 && SeqMin([5]) == 5 && SeqMax([5]) == 5;
    assert LowerBound(st, 5) == 1 && UpperBound(st, 5) == 1;
  }
}
