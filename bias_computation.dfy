/** `on_compute_bias` of lib/actual_computations.cpp: the water-line gravity
    from the pier heights and the pier's absolute gravity, compared with the
    meter's gravity averaged, after filtering, over the time window of the
    height readings. */
module BiasComputation {
  import opened Numerics
  import opened TieStructs
  import opened FirFilter
  import opened TimeSort

  // ---------------------------------------------------------------------
  // Heights and pier gravity

  /** A set height enters as a non-positive number (`-|h1|`). */
  function HeightEntry(v: ValTime): seq<real>
  {
    if v.h1 != UnsetReal then [-Abs(v.h1)] else []
  }

  function StampEntry(v: ValTime): seq<int>
  {
    if v.h1 != UnsetReal then [v.t1] else []
  }

  /** The heights the three readings contribute, in order. */
  function UsedHeights(hs: seq<ValTime>): (r: seq<real>)
    requires |hs| >= 3
    ensures |r| <= 3 && forall i :: 0 <= i < |r| ==> r[i] <= 0.0
  {
    HeightEntry(hs[0]) + HeightEntry(hs[1]) + HeightEntry(hs[2])
  }

  /** The time stamps of those heights, in the same order. */
  function HeightStamps(hs: seq<ValTime>): (r: seq<int>)
    requires |hs| >= 3
    ensures |r| == |UsedHeights(hs)|
  {
    StampEntry(hs[0]) + StampEntry(hs[1]) + StampEntry(hs[2])
  }

  /** The land tie value when a land tie is in use and has a positive value,
      the reference station's gravity otherwise. */
  function PierGrav(s: TieState): real
  {
    if s.lminfo.landtie && s.lminfo.landTieValue > 0.0 then s.lminfo.landTieValue else s.stinfo.stationGravity
  }

  /** Gravity at the water line, `avg_height` below the pier. */
  function WaterGrav(pier: real, avgHeight: real): real
  {
    pier + FaaFactor * avgHeight
  }

  // ---------------------------------------------------------------------
  // The time window

  function SeqMin(s: seq<int>): (m: int)
    requires |s| > 0
    ensures (exists i :: 0 <= i < |s| && s[i] == m) && forall i :: 0 <= i < |s| ==> m <= s[i]
  {
    if |s| == 1 then s[0] else var m := SeqMin(s[1..]); if s[0] <= m then s[0] else m
  }

  function SeqMax(s: seq<int>): (m: int)
    requires |s| > 0
    ensures (exists i :: 0 <= i < |s| && s[i] == m) && forall i :: 0 <= i < |s| ==> s[i] <= m
  {
    if |s| == 1 then s[0] else var m := SeqMax(s[1..]); if s[0] >= m then s[0] else m
  }

  /** The series strictly covers the height readings: it starts before the
      first and ends after the last. */
  predicate Covers(st: seq<int>, stamps: seq<int>)
    requires |st| > 0 && |stamps| > 0
  {
    SeqMin(st) < SeqMin(stamps) && SeqMax(st) > SeqMax(stamps)
  }

  /** std::lower_bound: the first position whose time is not before `x`. */
  function LowerBound(t: seq<int>, x: int): (k: nat)
    ensures k <= |t| && (forall i :: 0 <= i < k ==> t[i] < x) && (k < |t| ==> t[k] >= x)
  {
    if t == [] || t[0] >= x then 0 else 1 + LowerBound(t[1..], x)
  }

  /** std::upper_bound: the first position whose time is after `x`. */
  function UpperBound(t: seq<int>, x: int): (k: nat)
    ensures k <= |t| && (forall i :: 0 <= i < k ==> t[i] <= x) && (k < |t| ==> t[k] > x)
  {
    if t == [] || t[0] > x then 0 else 1 + UpperBound(t[1..], x)
  }

  /** `ntaps = round((upper_index - lower_index) / 10)`: the division is
      already an integer one, so the rounding changes nothing. */
  function Taps(lower: int, upper: int): int
  {
    CDiv(upper - lower, 10)
  }

  // ---------------------------------------------------------------------
  // The two filter passes

  /** What one pass feeds the filter: `ntaps` zeros, the data, `ntaps` zeros. */
  function PassInput(ntaps: nat, data: seq<real>): (r: seq<real>)
    ensures |r| == |data| + 2 * ntaps
  {
    Zeros(ntaps) + data + Zeros(ntaps)
  }

  /** The outputs of one pass with the padding trimmed off again. */
  function Pass(taps: seq<real>, h: seq<real>, ntaps: nat, data: seq<real>): (r: seq<real>)
    requires |taps| == |h|
    ensures |r| == |data|
  {
    Outputs(taps, h, PassInput(ntaps, data))[ntaps..ntaps + |data|]
  }

  /** The second pass, run on the first pass's trimmed output by the same
      filter (whose delay line carries over), then reversed. */
  function FilteredSeries(taps: seq<real>, ntaps: nat, sg: seq<real>): (r: seq<real>)
    ensures |r| == |sg|
  {
    var h0 := Zeros(|taps|);
    var first := Pass(taps, h0, ntaps, sg);
    var h1 := History(h0, PassInput(ntaps, sg));
    Reverse(Pass(taps, h1, ntaps, first))
  }

  /** The part of the reversed series that belongs to the samples
      `lower .. upper-1` of the time-ordered series. */
  function WindowOfReversed(rev: seq<real>, lower: nat, upper: nat): (r: seq<real>)
    requires lower <= upper <= |rev|
    ensures |r| == upper - lower
  {
    rev[|rev| - upper..|rev| - lower]
  }

  /** The meter's average gravity over the height window, or the sentinel
      -99999 when the series does not cover the window or has no sample in it. */
  function DgsAverage(design: nat -> seq<real>, sg: seq<real>, st: seq<int>, stamps: seq<int>): real
    requires |sg| == |st| > 0 && |stamps| > 0
  {
    if !Covers(st, stamps) then UnsetDgsGrav
    else
      var lower := LowerBound(st, SeqMin(stamps));
      var upper := UpperBound(st, SeqMax(stamps));
      if lower >= upper then UnsetDgsGrav
      else
        var ntaps := Taps(lower, upper);
        Mean(WindowOfReversed(FilteredSeries(design(ntaps), ntaps, sg), lower, upper))
  }

  /** The callback cannot start: no height is set, or there is no meter data. */
  predicate Ready(s: TieState)
    requires |s.heights| >= 3
  {
    |UsedHeights(s.heights)| > 0 && |s.shinfo.gravgrav| > 0
  }

  /** The four results on_compute_bias writes. */
  function BiasResults(s: TieState, waterGrav: real, avgDgsGrav: real, avgHeight: real): TieState
  {
    s.(bias := waterGrav - avgDgsGrav, avgDgsGrav := avgDgsGrav, waterGrav := waterGrav, avgHeight := avgHeight)
  }

  /** The tie after on_compute_bias, given the samples in time order: nothing
      changes without a set height or without meter data; otherwise the
      water-line gravity (when the pier gravity is positive) and the meter
      average (when the series covers the heights) give the bias, each
      result falling back to its sentinel. */
  function ComputeBias(s: TieState, design: nat -> seq<real>, sg: seq<real>, st: seq<int>): TieState
    requires |s.heights| >= 3 && |sg| == |st| == |s.shinfo.gravgrav|
  {
    if !Ready(s) then s
    else
      var hs := UsedHeights(s.heights);
      var pier := PierGrav(s);
      var avgHeight := if pier > 0.0 then Mean(hs) else UnsetReal;
      var waterGrav := if pier > 0.0 then WaterGrav(pier, avgHeight) else UnsetReal;
      BiasResults(s, waterGrav, DgsAverage(design, sg, st, HeightStamps(s.heights)), avgHeight)
  }

  // ---------------------------------------------------------------------
  // The callback

  /** One of the `do_sample` loops: feeds `xs` to the filter and collects its outputs. */
  method Feed(filt: Filter, xs: seq<real>) returns (ys: seq<real>)
    requires filt.Valid()
    modifies filt
    ensures filt.Valid() && filt.taps == old(filt.taps)
    ensures filt.history == History(old(filt.history), xs)
    ensures ys == Outputs(filt.taps, old(filt.history), xs)
  {
    ys := [];
    var i := 0;
    while i < |xs|
      invariant 0 <= i <= |xs| && filt.Valid() && filt.taps == old(filt.taps)
      invariant filt.history == History(old(filt.history), xs[..i])
      invariant ys == Outputs(filt.taps, old(filt.history), xs[..i])
    {
      assert xs[..i + 1][..i] == xs[..i];
      var outVal := filt.DoSample(xs[i]);
      ys := ys + [outVal];
      i := i + 1;
    }
    assert xs[..i] == xs;
  }

  /** A pass as the three loops run it is the filter run over the padded input. */
  lemma PassPieces(taps: seq<real>, h: seq<real>, ntaps: nat, data: seq<real>)
    requires |taps| == |h|
    ensures var h1 := History(h, Zeros(ntaps)); var h2 := History(h1, data);
      && History(h, PassInput(ntaps, data)) == History(h2, Zeros(ntaps))
      && Outputs(taps, h, PassInput(ntaps, data))
         == Outputs(taps, h, Zeros(ntaps)) + Outputs(taps, h1, data) + Outputs(taps, h2, Zeros(ntaps))
  {
    var h1 := History(h, Zeros(ntaps));
    HistoryAppend(h, Zeros(ntaps), data);
    OutputsAppend(taps, h, Zeros(ntaps), data);
    HistoryAppend(h, Zeros(ntaps) + data, Zeros(ntaps));
    OutputsAppend(taps, h, Zeros(ntaps) + data, Zeros(ntaps));
  }

  /** One filter pass: zero-pad, feed the data, zero-pad, trim. */
  method RunPass(filt: Filter, ntaps: nat, data: seq<real>) returns (trimmed: seq<real>)
    requires filt.Valid()
    modifies filt
    ensures filt.Valid() && filt.taps == old(filt.taps)
    ensures filt.history == History(old(filt.history), PassInput(ntaps, data))
    ensures trimmed == Pass(filt.taps, old(filt.history), ntaps, data)
  {
    PassPieces(filt.taps, filt.history, ntaps, data);
    var front := Feed(filt, Zeros(ntaps));
    var body := Feed(filt, data);
    var back := Feed(filt, Zeros(ntaps));
    var pass := front + body + back;
    trimmed := pass[ntaps..ntaps + |data|];
  }

  /** `gravsum / result.size()` over the averaged slice. */
  method AverageOf(result: seq<real>) returns (avg: real)
    requires |result| > 0
    ensures avg == Mean(result)
  {
    var gravsum := 0.0;
    var i := 0;
    while i < |result|
      invariant 0 <= i <= |result| && gravsum == Sum(result[..i])
    {
      assert result[..i + 1] == result[..i] + [result[i]];
      SumSnoc(result[..i], result[i]);
      gravsum := gravsum + result[i];
      i := i + 1;
    }
    assert result[..i] == result;
    avg := Average(gravsum, |result|);
  }

  /** The meter average over the height window, when the series covers it. */
  method MeterAverage(design: nat -> seq<real>, sortedgrav: seq<real>, sortedtime: seq<int>, heightStamps: seq<int>)
    returns (avgDgsGrav: real)
    requires |sortedgrav| == |sortedtime| > 0 && |heightStamps| > 0
    ensures avgDgsGrav == DgsAverage(design, sortedgrav, sortedtime, heightStamps)
  {
    avgDgsGrav := UnsetDgsGrav;
    var result1 := SeqMin(sortedtime);
    var result2 := SeqMin(heightStamps);
    var result3 := SeqMax(sortedtime);
    var result4 := SeqMax(heightStamps);
    if result1 < result2 && result3 > result4 {
      var lowerIndex := LowerBound(sortedtime, result2);
      var upperIndex := UpperBound(sortedtime, result4);
      if lowerIndex < upperIndex {
        var ntaps := Taps(lowerIndex, upperIndex);
        var filt := new Filter(design(ntaps));
        var firsttrim := RunPass(filt, ntaps, sortedgrav);
        var secondtrim := RunPass(filt, ntaps, firsttrim);
        secondtrim := Reverse(secondtrim);
        var result := WindowOfReversed(secondtrim, lowerIndex, upperIndex);
        avgDgsGrav := AverageOf(result);
      }
    }
  }

  /** The three height blocks: each set height is pushed as `-|h1|`, with its time. */
  method GatherHeights(hs: seq<ValTime>) returns (heights: seq<real>, heightStamps: seq<int>)
    requires |hs| >= 3
    ensures heights == UsedHeights(hs) && heightStamps == HeightStamps(hs)
  {
    heights, heightStamps := [], [];
    if hs[0].h1 != UnsetReal {
      heights, heightStamps := heights + [-Abs(hs[0].h1)], heightStamps + [hs[0].t1];
    }
    if hs[1].h1 != UnsetReal {
      heights, heightStamps := heights + [-Abs(hs[1].h1)], heightStamps + [hs[1].t1];
    }
    if hs[2].h1 != UnsetReal {
      heights, heightStamps := heights + [-Abs(hs[2].h1)], heightStamps + [hs[2].t1];
    }
  }

  /** The computing part of on_compute_bias, on the tie's values: whether it
      gets as far as writing results (it returns early without a set height
      or without meter data), and the results. The samples it sorted are
      returned as ghost values: any time order std::sort may choose. */
  method BiasFigures(s: TieState, design: nat -> seq<real>)
    returns (ready: bool, waterGrav: real, avgDgsGrav: real, avgHeight: real,
             ghost sortedgrav: seq<real>, ghost sortedtime: seq<int>)
    requires |s.heights| >= 3 && |s.shinfo.gravgrav| == |s.shinfo.gravtime|
    ensures ready == Ready(s)
    ensures |sortedgrav| == |sortedtime| == |s.shinfo.gravgrav|
    ensures ready ==> SortedPairsOf(s.shinfo.gravgrav, s.shinfo.gravtime, sortedgrav, sortedtime)
    ensures ComputeBias(s, design, sortedgrav, sortedtime)
            == if ready then BiasResults(s, waterGrav, avgDgsGrav, avgHeight) else s
  {
    sortedgrav, sortedtime := s.shinfo.gravgrav, s.shinfo.gravtime;
    ready := false;
    var heights, heightStamps := GatherHeights(s.heights);
    waterGrav, avgDgsGrav, avgHeight := UnsetReal, UnsetDgsGrav, UnsetReal;
    var pierGrav: real;
    if s.lminfo.landtie && s.lminfo.landTieValue > 0.0 {
      pierGrav := s.lminfo.landTieValue;
    } else {
      pierGrav := s.stinfo.stationGravity;
    }
    if |heights| > 0 {
      if pierGrav > 0.0 {
        avgHeight := Mean(heights);
        waterGrav := WaterGrav(pierGrav, avgHeight);
      }
    } else {
      return;
    }
    if |s.shinfo.gravgrav| > 0 {
      var sg, st := SortByTime(s.shinfo.gravgrav, s.shinfo.gravtime);
      sortedgrav, sortedtime := sg, st;
      avgDgsGrav := MeterAverage(design, sg, st, heightStamps);
    } else {
      return;
    }
    ready := true;
  }

  /** `on_compute_bias(button, gravtie)`, with the filter's window design
      given as `design` (taps for a number of taps). */
  method OnComputeBias(gravtie: Tie, design: nat -> seq<real>) returns (ghost sortedgrav: seq<real>, ghost sortedtime: seq<int>)
    requires |gravtie.heights| >= 3 && |gravtie.shinfo.gravgrav| == |gravtie.shinfo.gravtime|
    modifies gravtie
    ensures |sortedgrav| == |sortedtime| == |old(gravtie.shinfo.gravgrav)|
    ensures Ready(old(gravtie.State())) ==>
      SortedPairsOf(old(gravtie.shinfo.gravgrav), old(gravtie.shinfo.gravtime), sortedgrav, sortedtime)
    ensures gravtie.State() == ComputeBias(old(gravtie.State()), design, sortedgrav, sortedtime)
  {
    var ready, waterGrav, avgDgsGrav, avgHeight;
    var before := gravtie.State();
    ready, waterGrav, avgDgsGrav, avgHeight, sortedgrav, sortedtime := BiasFigures(before, design);
    if !ready {
      return;
    }
    gravtie.bias := waterGrav - avgDgsGrav;
    gravtie.avgDgsGrav := avgDgsGrav;
    gravtie.waterGrav := waterGrav;
    gravtie.avgHeight := avgHeight;
    assert gravtie.State() == BiasResults(before, waterGrav, avgDgsGrav, avgHeight);
  }
}
