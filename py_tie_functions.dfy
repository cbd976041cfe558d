/** The Python variant of the tie engine (py/tie_functions.py): the `tie`
    object whose entry methods collect readings, convert land meter counts
    through the calibration table, compute the land tie, average the meter
    gravity over the height window and compute the bias.  Interactive input
    is replaced by the values the user typed; numpy and scipy calls are
    modelled by what they compute, the filter itself by a parameter. */
module PyTie {
  import opened Wrappers
  import opened Numerics
  import opened TieStructs
  import LandTie
  import CountsConversion
  import BiasComputation

  /** Why an entry method stopped early: a message printed before `return`,
      or an exception it raised. */
  datatype Stop = Printed(message: string) | Raised(error: string)

  // ---------------------------------------------------------------------
  // Units and keyboard entries

  /** `imp_to_metric`: feet and inches to metres, 3.281 feet to the metre. */
  function ImpToMetric(feet: real, inches: real): real
  {
    (feet + inches / 12.0) / 3.281
  }

  /** Twelve inches are a foot, and converting back to inches gives the
      total length entered. */
  lemma ImpToMetricInverse(feet: real, inches: real)
    ensures ImpToMetric(feet, inches) * 3.281 * 12.0 == feet * 12.0 + inches
    ensures ImpToMetric(feet, inches + 12.0) == ImpToMetric(feet + 1.0, inches)
  {
  }

  /** What the user finally typed at a prompt of `_get_timestamped_float`:
      a number, or `s` to skip after an entry that was not a number. */
  datatype Typed = Number(x: real) | Skip

  /** A value with its timestamp; `None` stands for numpy's NaN. */
  datatype Reading = Reading(value: Option<real>, stamp: real)

  /** `_get_timestamped_float` as written: `float(input()) or np.nan` turns
      an entered 0 into NaN. */
  function WrittenEntry(typed: Typed, now: real): (r: Reading)
    ensures r.stamp == now
    ensures r.value.Some? <==> typed.Number? && typed.x != 0.0
    ensures r.value.Some? ==> r.value == Some(typed.x)
  {
    match typed
    case Number(x) => Reading(if x == 0.0 then None else Some(x), now)
    case Skip => Reading(None, now)
  }

  /** `_get_timestamped_float` as intended: a number entered is kept, a skip is NaN. */
  function Entry(typed: Typed, now: real): (r: Reading)
    ensures r.stamp == now
    ensures r.value.Some? <==> typed.Number?
    ensures typed.Number? ==> r.value == Some(typed.x)
  {
    match typed
    case Number(x) => Reading(Some(x), now)
    case Skip => Reading(None, now)
  }

  /** As written, a typed 0 is lost: "Enter 0 for values of 0" gives NaN. */
  lemma ZeroEntryIsLost(now: real)
    ensures WrittenEntry(Number(0.0), now).value.None?
    ensures Entry(Number(0.0), now).value == Some(0.0)
  {
  }

  /** As written and as intended agree on every entry except 0. */
  lemma EntriesAgreeOffZero(typed: Typed, now: real)
    ensures WrittenEntry(typed, now) == Entry(typed, now) <==> typed != Number(0.0)
  {
  }

  // ---------------------------------------------------------------------
  // three_water_heights

  /** A water height kept under the key `H<num>`. */
  datatype Height = Height(num: nat, value: real, stamp: real)

  /** The height measurement `i`, when its readings are finite: metres as
      entered, or the feet and inches converted (both must be finite). */
  function HeightOf(imperial: bool, first: Reading, inches: Reading): Option<real>
  {
    if !imperial then first.value
    else if first.value.Some? && inches.value.Some? then Some(ImpToMetric(first.value.value, inches.value.value))
    else None
  }

  /** The height the dictionary holds for measurement `i` (counted from 0). */
  function KeptHeight(imperial: bool, first: seq<Reading>, inches: seq<Reading>, i: nat): Height
    requires i < |first| && i < |inches| && HeightOf(imperial, first[i], inches[i]).Some?
  {
    Height(i + 1, HeightOf(imperial, first[i], inches[i]).value, first[i].stamp)
  }

  /** The heights kept from the first `n` measurements, keyed `H1`, `H2`,
      `H3` by their position and timestamped with the first reading: each
      is the kept height of a finite measurement, in increasing order. */
  function HeightsFrom(imperial: bool, first: seq<Reading>, inches: seq<Reading>, n: nat): (r: seq<Height>)
    requires n <= |first| && n <= |inches|
    ensures |r| <= n
    ensures forall j :: 0 <= j < |r| ==>
              && 1 <= r[j].num <= n
              && HeightOf(imperial, first[r[j].num - 1], inches[r[j].num - 1]).Some?
              && r[j] == KeptHeight(imperial, first, inches, r[j].num - 1)
    ensures forall j, k :: 0 <= j < k < |r| ==> r[j].num < r[k].num
  {
    if n == 0 then []
    else
      var init := HeightsFrom(imperial, first, inches, n - 1);
      match HeightOf(imperial, first[n - 1], inches[n - 1])
      case None => init
      case Some(v) => init + [Height(n, v, first[n - 1].stamp)]
  }

  /** Every finite measurement is kept. */
  lemma {:induction false} FiniteHeightsKept(imperial: bool, first: seq<Reading>, inches: seq<Reading>, n: nat, i: nat)
    requires n <= |first| && n <= |inches| && i < n
    requires HeightOf(imperial, first[i], inches[i]).Some?
    ensures KeptHeight(imperial, first, inches, i) in HeightsFrom(imperial, first, inches, n)
    decreases n
  {
    if i < n - 1 {
      FiniteHeightsKept(imperial, first, inches, n - 1, i);
    }
  }

  // ---------------------------------------------------------------------
  // land_tie_counts and its finite guard

  /** The finite readings, in order (`if np.isfinite(...): vals.append(...)`). */
  function Finite(rs: seq<Reading>): (r: seq<Reading>)
    ensures |r| <= |rs|
    ensures forall j :: 0 <= j < |r| ==> r[j].value.Some?
  {
    if rs == [] then []
    else
      var init := Finite(rs[..|rs| - 1]);
      if rs[|rs| - 1].value.Some? then init + [rs[|rs| - 1]] else init
  }

  /** Every finite reading is kept and nothing else. */
  lemma {:induction false} FiniteKeepsExactly(rs: seq<Reading>, x: Reading)
    ensures x in Finite(rs) <==> x in rs && x.value.Some?
    decreases |rs|
  {
    if rs != [] {
      FiniteKeepsExactly(rs[..|rs| - 1], x);
      assert rs == rs[..|rs| - 1] + [rs[|rs| - 1]];
    }
  }

  // ---------------------------------------------------------------------
  // _convert_meter_counts_to_mgal

  /** Row `k` is the one the Python conversion reads for count `c`: its
      bracket is the largest strictly below `c`, and no earlier row has the
      same bracket (`np.where(brackets == below)[0][0]`). */
  predicate BelowChoice(b: seq<real>, c: real, k: int)
  {
    && 0 <= k < |b| && b[k] < c
    && (forall j :: 0 <= j < |b| && b[j] < c ==> b[j] <= b[k])
    && (forall j :: 0 <= j < k ==> b[j] != b[k])
  }

  /** The row chosen among the first `n`, or `None` when no bracket of
      them is strictly below `c` (numpy's `max` of an empty selection). */
  function BracketBelow(b: seq<real>, c: real, n: nat): (r: Option<nat>)
    requires n <= |b|
    ensures r.None? <==> forall j :: 0 <= j < n ==> b[j] >= c
    ensures r.Some? ==> r.value < n && BelowChoice(b[..n], c, r.value)
  {
    if n == 0 then None
    else
      var k := BracketBelow(b, c, n - 1);
      assert forall j :: 0 <= j < n - 1 ==> b[..n][j] == b[..n - 1][j];
      if b[n - 1] < c && (k.None? || b[n - 1] > b[k.value]) then Some(n - 1) else k
  }

  /** The selection is the one row meeting the rule. */
  lemma BracketBelowIsChoice(b: seq<real>, c: real, k: int)
    ensures BracketBelow(b, c, |b|) == Some(k) <==> BelowChoice(b, c, k)
  {
    assert b[..|b|] == b;
    var r := BracketBelow(b, c, |b|);
    if BelowChoice(b, c, k) && r.Some? {
      assert b[k] <= b[r.value] && b[r.value] <= b[k];
      if k < r.value {
        assert false;
      } else if r.value < k {
        assert false;
      }
    }
  }

  /** A count equal to a bracket is read from the row beneath it, where the
      C++ conversion uses the row of that bracket. */
  lemma EqualCountUsesLowerRow()
    ensures BracketBelow([0.0, 100.0, 200.0], 100.0, 3) == Some(0)
    ensures CountsConversion.BracketIndex([0.0, 100.0, 200.0], 100.0) == 1
  {
    BracketBelowIsChoice([0.0, 100.0, 200.0], 100.0, 0);
    CountsConversion.BracketIndexIsChosen([0.0, 100.0, 200.0], 100.0, 1);
  }

  /** One count converted: `offset + (c - bracket) * factor` from the chosen
      row, or the message printed when the table does not reach `c` or the
      count lies more than 100 above the bracket. */
  function ConvertOne(cal: Calibration, c: real): Result<real, Stop>
    requires WellFormed(cal)
  {
    match BracketBelow(cal.brackets, c, |cal.brackets|)
    case None => Err(Printed("calibration table for meter is not complete"))
    case Some(k) =>
      if Abs(c - cal.brackets[k]) > 100.0 then Err(Printed("calibration table is incomplete"))
      else Ok(cal.mgvals[k] + Residual(c, cal.brackets[k], cal.factors[k]))
  }

  /** The gravities of one key's counts, stopping at the first count that
      cannot be converted. */
  function ConvertCounts(cal: Calibration, cs: seq<real>): (r: Result<seq<real>, Stop>)
    requires WellFormed(cal)
    ensures r.Ok? ==> |r.value| == |cs| && forall j :: 0 <= j < |cs| ==> ConvertOne(cal, cs[j]) == Ok(r.value[j])
    ensures r.Err? <==> exists j :: 0 <= j < |cs| && ConvertOne(cal, cs[j]).Err?
  {
    if cs == [] then Ok([])
    else
      var init := cs[..|cs| - 1];
      assert forall j :: 0 <= j < |init| ==> init[j] == cs[j];
      match ConvertCounts(cal, init)
      case Err(e) => Err(e)
      case Ok(g) =>
        match ConvertOne(cal, cs[|cs| - 1])
        case Err(e) => Err(e)
        case Ok(v) => Ok(g + [v])
  }

  /** The entry of `meter_counts` under one key: counts and timestamps, and
      once converted the gravities as the tuple's third element. */
  datatype CountSet = CountSet(key: string, counts: seq<real>, stamps: seq<real>, gravs: Option<seq<real>>)

  /** One key converted; a tuple that already has three elements cannot be
      unpacked into two names. */
  function ConvertEntry(cal: Calibration, e: CountSet): Result<CountSet, Stop>
    requires WellFormed(cal)
  {
    if e.gravs.Some? then Err(Raised("ValueError"))
    else
      match ConvertCounts(cal, e.counts)
      case Err(s) => Err(s)
      case Ok(g) => Ok(e.(gravs := Some(g)))
  }

  /** The keys from position `i` on converted in order, stopping at the
      first key that fails; the keys before it keep their conversion. */
  function ConvertFrom(cal: Calibration, es: seq<CountSet>, i: nat): (r: (seq<CountSet>, Result<(), Stop>))
    requires WellFormed(cal) && i <= |es|
    ensures |r.0| == |es|
    decreases |es| - i
  {
    if i == |es| then (es, Ok(()))
    else
      match ConvertEntry(cal, es[i])
      case Err(s) => (es, Err(s))
      case Ok(e) => ConvertFrom(cal, es[i := e], i + 1)
  }

  /** `e2` is `e1`, possibly given its gravities: one per count, each the
      conversion of its count. */
  predicate ConvertedOrKept(cal: Calibration, e1: CountSet, e2: CountSet)
    requires WellFormed(cal)
  {
    && e2.key == e1.key && e2.counts == e1.counts && e2.stamps == e1.stamps
    && (e2 == e1 || IsConverted(cal, e2))
  }

  predicate IsConverted(cal: Calibration, e: CountSet)
    requires WellFormed(cal)
  {
    && e.gravs.Some? && |e.gravs.value| == |e.counts|
    && forall j :: 0 <= j < |e.counts| ==> ConvertOne(cal, e.counts[j]) == Ok(e.gravs.value[j])
  }

  /** The conversion keeps every key's counts and timestamps; each key is
      either converted or untouched, and on success every key from `i` on
      is converted. */
  lemma {:induction false} ConvertFromEffect(cal: Calibration, es: seq<CountSet>, i: nat)
    requires WellFormed(cal) && i <= |es|
    ensures var r := ConvertFrom(cal, es, i);
      && (forall j :: 0 <= j < |es| ==> ConvertedOrKept(cal, es[j], r.0[j]))
      && (forall j :: 0 <= j < i ==> r.0[j] == es[j])
      && (r.1.Ok? ==> forall j :: i <= j < |es| ==> IsConverted(cal, r.0[j]))
    decreases |es| - i
  {
    if i < |es| {
      match ConvertEntry(cal, es[i]) {
        case Err(s) =>
        case Ok(e) =>
          var es' := es[i := e];
          ConvertFromEffect(cal, es', i + 1);
          var r := ConvertFrom(cal, es', i + 1);
          assert IsConverted(cal, e);
          forall j | 0 <= j < |es|
            ensures ConvertedOrKept(cal, es[j], r.0[j])
          {
            if j == i {
              assert r.0[j] == e;
            } else {
              assert es'[j] == es[j];
            }
          }
      }
    }
  }

  /** A key that cannot be converted leaves it and every later key as they were. */
  lemma {:induction false} ConvertFromStops(cal: Calibration, es: seq<CountSet>, i: nat)
    requires WellFormed(cal) && i <= |es| && ConvertFrom(cal, es, i).1.Err?
    ensures exists f :: i <= f < |es| && ConvertEntry(cal, es[f]).Err?
              && (forall j :: f <= j < |es| ==> ConvertFrom(cal, es, i).0[j] == es[j])
    decreases |es| - i
  {
    match ConvertEntry(cal, es[i]) {
      case Err(s) =>
        assert ConvertFrom(cal, es, i).0 == es;
      case Ok(e) =>
        var es' := es[i := e];
        ConvertFromStops(cal, es', i + 1);
        var f :| i + 1 <= f < |es'| && ConvertEntry(cal, es'[f]).Err?
                 && (forall j :: f <= j < |es'| ==> ConvertFrom(cal, es', i + 1).0[j] == es'[j]);
        assert es'[f] == es[f];
        assert forall j :: f <= j < |es| ==> es'[j] == es[j];
    }
  }

  // ---------------------------------------------------------------------
  // _compute_land_tie

  /** The first entry under `key` (a dictionary holds at most one). */
  function Lookup(es: seq<CountSet>, key: string): (r: Option<CountSet>)
    ensures r.Some? ==> r.value in es && r.value.key == key
    ensures r.None? ==> forall e :: e in es ==> e.key != key
  {
    if es == [] then None
    else if es[0].key == key then Some(es[0])
    else Lookup(es[1..], key)
  }

  /** `_compute_land_tie` step by step: the drift from the two ship
      occupations, the base reading corrected back to the first one, and
      the reference gravity plus the difference.  Returns the tie value and
      the drift. */
  function PyLandTie(refG: real, mA1: real, mB1: real, mA2: real, tA1: real, tB1: real, tA2: real): (real, real)
    requires tA2 != tA1
  {
    var aaTimedelta := tA2 - tA1;
    var abTimedelta := tB1 - tA1;
    var drift := (mA2 - mA1) / aaTimedelta;
    var dcB1 := mB1 - abTimedelta * drift;
    var gdiff := mA1 - dcB1;
    (refG + gdiff, drift)
  }

  /** The Python land tie is the C++ formula. */
  lemma PyLandTieIsCpp(refG: real, mA1: real, mB1: real, mA2: real, tA1: real, tB1: real, tA2: real)
    requires tA2 != tA1
    ensures PyLandTie(refG, mA1, mB1, mA2, tA1, tB1, tA2).0 == LandTie.LandTieValue(refG, mA1, mB1, mA2, tA1, tB1, tA2)
    ensures PyLandTie(refG, mA1, mB1, mA2, tA1, tB1, tA2).1 == LandTie.Drift(mA1, mA2, tA2 - tA1)
  {
  }

  /** Every group has a reading, and the two ship occupations have
      different mean times (numpy would otherwise give NaN or infinity). */
  predicate TieComputable(es: seq<CountSet>)
  {
    && (forall e :: e in es ==> |e.stamps| > 0 && (e.gravs.Some? ==> |e.gravs.value| > 0))
    && (Lookup(es, "A1").Some? && Lookup(es, "A2").Some? ==>
          Mean(Lookup(es, "A1").value.stamps) != Mean(Lookup(es, "A2").value.stamps))
  }

  // ---------------------------------------------------------------------
  // calculate_average_meter_grav

  /** `min` over the Python times, which are floats; `BiasComputation.SeqMin`
      is the same over the C++ integer times. */
  function RealMin(s: seq<real>): (m: real)
    requires |s| > 0
    ensures (exists i :: 0 <= i < |s| && s[i] == m) && forall i :: 0 <= i < |s| ==> m <= s[i]
  {
    if |s| == 1 then s[0] else var m := RealMin(s[1..]); if s[0] <= m then s[0] else m
  }

  /** `max` over the Python times, the float counterpart of `BiasComputation.SeqMax`. */
  function RealMax(s: seq<real>): (m: real)
    requires |s| > 0
    ensures (exists i :: 0 <= i < |s| && s[i] == m) && forall i :: 0 <= i < |s| ==> s[i] <= m
  {
    if |s| == 1 then s[0] else var m := RealMax(s[1..]); if s[0] >= m then s[0] else m
  }

  /** The samples cover the heights: no height time before the first sample
      or after the last one (equal times are accepted). */
  predicate CoversInclusive(dates: seq<real>, htimes: seq<real>)
    requires |dates| > 0 && |htimes| > 0
  {
    !(RealMin(htimes) < RealMin(dates) || RealMax(htimes) > RealMax(dates))
  }

  /** Coverage holds exactly when every height time lies between the first
      and the last sample time. */
  lemma CoversInclusiveIffInside(dates: seq<real>, htimes: seq<real>)
    requires |dates| > 0 && |htimes| > 0
    ensures CoversInclusive(dates, htimes) <==>
      forall i :: 0 <= i < |htimes| ==> RealMin(dates) <= htimes[i] <= RealMax(dates)
  {
  }

  /** Equal end times pass the Python check and fail the strict C++ one. */
  lemma EqualEndsCovered()
    ensures CoversInclusive([0.0, 10.0], [0.0, 10.0])
    ensures !BiasComputation.Covers([0, 10], [0, 10])
  {
    assert RealMin([0.0, 10.0]) == 0.0 && RealMax([0.0, 10.0]) == 10.0;
    assert BiasComputation.SeqMin([0, 10]) == 0;
  }

  /** `np.where(np.logical_and(dates >= lo, dates <= hi))[0]` over the first
      `n` samples: the positions inside the window, in increasing order. */
  function GoodIndices(dates: seq<real>, lo: real, hi: real, n: nat): (r: seq<nat>)
    requires n <= |dates|
    ensures forall j :: 0 <= j < |r| ==> r[j] < n && lo <= dates[r[j]] <= hi
    ensures forall j, k :: 0 <= j < k < |r| ==> r[j] < r[k]
  {
    if n == 0 then []
    else GoodIndices(dates, lo, hi, n - 1) + (if lo <= dates[n - 1] <= hi then [n - 1] else [])
  }

  /** Every sample inside the window is kept. */
  lemma {:induction false} GoodIndicesComplete(dates: seq<real>, lo: real, hi: real, n: nat, i: nat)
    requires n <= |dates| && i < n && lo <= dates[i] <= hi
    ensures i in GoodIndices(dates, lo, hi, n)
    decreases n
  {
    if i < n - 1 {
      GoodIndicesComplete(dates, lo, hi, n - 1, i);
    }
  }

  /** `rgrav[good_inds]`. */
  function Pick(xs: seq<real>, idx: seq<nat>): (r: seq<real>)
    requires forall j :: 0 <= j < |idx| ==> idx[j] < |xs|
    ensures |r| == |idx| && forall j :: 0 <= j < |idx| ==> r[j] == xs[idx[j]]
  {
    seq(|idx|, j requires 0 <= j < |idx| => xs[idx[j]])
  }

  /** `int(np.round(n / 10))`: numpy rounds halves to the even neighbour. */
  function RoundTenth(n: nat): (f: nat)
  {
    var q := n / 10;
    var rem := n % 10;
    if rem < 5 then q else if rem > 5 then q + 1 else if q % 2 == 0 then q else q + 1
  }

  /** The rounding is to the nearest integer, halves to the even one. */
  lemma RoundTenthNearest(n: nat)
    ensures -5 <= n - 10 * RoundTenth(n) <= 5
    ensures (n - 10 * RoundTenth(n) == 5 || n - 10 * RoundTenth(n) == -5) ==> RoundTenth(n) % 2 == 0
    ensures n <= 5 <==> RoundTenth(n) == 0
    ensures n <= 25 <==> RoundTenth(n) <= 2
  {
  }

  /** `raw=True`: raw readings scaled by GravCal/otherfactor and offset by g0. */
  function RawGrav(d: real): real
  {
    d * 414125.0 / 8388607.0 + 10000.0
  }

  /** `calculate_average_meter_grav` after the files are read: the samples
      must cover the height times (inclusive), the samples inside the
      window are kept, the filter length is `2 * round(ndata / 10)` taps
      (0 taps divides by zero), and the filtered series is averaged.  The
      cutoff handed to `firwin` is `2 / filtertime` times the Nyquist
      frequency, which `firwin` refuses with a ValueError unless it is below
      1, so a filter time of 1 or 2 raises.  The filter itself (`firwin` and
      `filtfilt`) is the parameter `filtfilt`. */
  function MeterGrav(htimes: seq<real>, rgrav: seq<real>, dates: seq<real>, filtfilt: (nat, seq<real>) -> seq<real>): Result<real, Stop>
    requires |rgrav| == |dates|
    requires forall n: nat, xs: seq<real> :: |filtfilt(n, xs)| == |xs|
  {
    if |htimes| == 0 || |dates| == 0 then Err(Raised("ValueError"))
    else if !CoversInclusive(dates, htimes) then Err(Printed("dgs files do not cover all of the time window for pier height measurements"))
    else
      var good := GoodIndices(dates, RealMin(htimes), RealMax(htimes), |dates|);
      var kept := Pick(rgrav, good);
      var filtertime := RoundTenth(|kept|);
      if filtertime == 0 then Err(Raised("ZeroDivisionError"))
      else if filtertime <= 2 then Err(Raised("ValueError"))
      else Ok(Mean(filtfilt(2 * filtertime, kept)))
  }

  /** The average is taken over exactly the samples inside the height window,
      filtered with an even number of taps. */
  lemma MeterGravWindow(htimes: seq<real>, rgrav: seq<real>, dates: seq<real>, filtfilt: (nat, seq<real>) -> seq<real>)
    requires |rgrav| == |dates|
    requires forall n: nat, xs: seq<real> :: |filtfilt(n, xs)| == |xs|
    requires MeterGrav(htimes, rgrav, dates, filtfilt).Ok?
    ensures CoversInclusive(dates, htimes)
    ensures var good := GoodIndices(dates, RealMin(htimes), RealMax(htimes), |dates|);
      && (forall i :: 0 <= i < |dates| ==> (i in good <==> RealMin(htimes) <= dates[i] <= RealMax(htimes)))
      && |good| > 25
      && MeterGrav(htimes, rgrav, dates, filtfilt).value == Mean(filtfilt(2 * RoundTenth(|good|), Pick(rgrav, good)))
  {
    var good := GoodIndices(dates, RealMin(htimes), RealMax(htimes), |dates|);
    forall i | 0 <= i < |dates| && RealMin(htimes) <= dates[i] <= RealMax(htimes)
      ensures i in good
    {
      GoodIndicesComplete(dates, RealMin(htimes), RealMax(htimes), |dates|, i);
    }
    RoundTenthNearest(|good|);
  }

  /** Between 6 and 25 kept samples the filter time rounds to 1 or 2, and
      `firwin` refuses the cutoff `2 / filtertime`. */
  lemma ShortWindowRaises(htimes: seq<real>, rgrav: seq<real>, dates: seq<real>, filtfilt: (nat, seq<real>) -> seq<real>)
    requires |rgrav| == |dates|
    requires forall n: nat, xs: seq<real> :: |filtfilt(n, xs)| == |xs|
    requires |htimes| > 0 && |dates| > 0 && CoversInclusive(dates, htimes)
    requires 6 <= |GoodIndices(dates, RealMin(htimes), RealMax(htimes), |dates|)| <= 25
    ensures MeterGrav(htimes, rgrav, dates, filtfilt) == Err(Raised("ValueError"))
  {
    RoundTenthNearest(|GoodIndices(dates, RealMin(htimes), RealMax(htimes), |dates|)|);
  }

  // ---------------------------------------------------------------------
  // compute_bias

  /** Pier heights as depths: `-1 * abs(h)`. */
  function Depths(hs: seq<Height>): (r: seq<real>)
    ensures |r| == |hs| && forall i :: 0 <= i < |hs| ==> r[i] == -Abs(hs[i].value)
  {
    seq(|hs|, i requires 0 <= i < |hs| => -Abs(hs[i].value))
  }

  /** The mean depth is never positive. */
  lemma MeanDepthNonPositive(hs: seq<Height>)
    requires |hs| > 0
    ensures Mean(Depths(hs)) <= 0.0
  {
    SumNonPositive(Depths(hs));
  }

  /** The pier gravity of the Python variant: the land tie value whenever a
      land tie was made, with no check of its sign. */
  function PyPierGrav(landtie: bool, landTieValue: real, stationGravity: real): real
  {
    if landtie then landTieValue else stationGravity
  }

  /** The two variants pick the same pier gravity unless a land tie was made
      whose value is not positive and differs from the station's gravity. */
  lemma PierChoicesAgree(s: TieState)
    ensures PyPierGrav(s.lminfo.landtie, s.lminfo.landTieValue, s.stinfo.stationGravity) == BiasComputation.PierGrav(s) <==>
      !(s.lminfo.landtie && s.lminfo.landTieValue <= 0.0 && s.lminfo.landTieValue != s.stinfo.stationGravity)
  {
  }

  // ---------------------------------------------------------------------
  // The tie object

  /** The attributes of a Python `tie`; `None` is an attribute not set yet
      (`stationGravity` is `float(station_info['GRAVITY'])`). */
  datatype PyState = PyState(
    landtie: bool, imperial: bool, meter: Option<string>, calTable: Option<Calibration>,
    stationGravity: Option<real>, heights: Option<seq<Height>>, meterCounts: Option<seq<CountSet>>,
    landTieValue: Option<real>, drift: Option<real>, avgDgsGrav: Option<real>,
    waterGrav: Option<real>, bias: Option<real>)

  /** `tie()`: no land tie, metric units, nothing else set. */
  const FreshPyState: PyState := PyState(false, false, None, None, None, None, None, None, None, None, None, None)

  /** A loaded table has parallel columns, a stored height list is never
      empty, and every key has one timestamp per count. */
  predicate PyValid(st: PyState)
  {
    && (st.calTable.Some? ==> WellFormed(st.calTable.value))
    && (st.heights.Some? ==> |st.heights.value| > 0)
    && (st.meterCounts.Some? ==> forall e :: e in st.meterCounts.value ==> |e.stamps| == |e.counts|)
  }

  /** `three_water_heights` (command line): the finite measurements are kept,
      and with none the method exits leaving the heights as they were. */
  function HeightsStep(st: PyState, first: seq<Reading>, inches: seq<Reading>): (PyState, Result<(), Stop>)
    requires |first| == 3 && |inches| == 3
  {
    var hs := HeightsFrom(st.imperial, first, inches, 3);
    if hs == [] then (st, Err(Printed("no valid height measurements given; exiting")))
    else (st.(heights := Some(hs)), Ok(()))
  }

  /** `_convert_meter_counts_to_mgal`: refused for a one-row table;
      otherwise the keys are converted in order, and the ones converted
      before a failure stay converted (the dictionary is changed in place). */
  function ConvertStep(st: PyState): (PyState, Result<(), Stop>)
    requires st.calTable.Some? && WellFormed(st.calTable.value) && st.meterCounts.Some?
  {
    var cal := st.calTable.value;
    if |cal.brackets| == 1 then (st, Err(Printed("not set up to deal with single-value cal yet, sorry")))
    else
      var r := ConvertFrom(cal, st.meterCounts.value, 0);
      (st.(meterCounts := Some(r.0)), r.1)
  }

  /** `_compute_land_tie`: the means of the timestamps and gravities of
      `A1`, `B1` and `A2` give the land tie value and the drift; a missing
      key, an unconverted key or a missing station gravity raises. */
  function LandTieStep(st: PyState): (PyState, Result<(), Stop>)
    requires st.meterCounts.Some? && TieComputable(st.meterCounts.value)
  {
    var es := st.meterCounts.value;
    var a1 := Lookup(es, "A1");
    var b1 := Lookup(es, "B1");
    var a2 := Lookup(es, "A2");
    if a1.None? || b1.None? || a2.None? then (st, Err(Raised("KeyError")))
    else if a1.value.gravs.None? || b1.value.gravs.None? || a2.value.gravs.None? then (st, Err(Raised("IndexError")))
    else if st.stationGravity.None? then (st, Err(Raised("AttributeError")))
    else
      var r := PyLandTie(st.stationGravity.value,
                         Mean(a1.value.gravs.value), Mean(b1.value.gravs.value), Mean(a2.value.gravs.value),
                         Mean(a1.value.stamps), Mean(b1.value.stamps), Mean(a2.value.stamps));
      (st.(landTieValue := Some(r.0), drift := Some(r.1)), Ok(()))
  }

  function Values(rs: seq<Reading>): (r: seq<real>)
    requires forall j :: 0 <= j < |rs| ==> rs[j].value.Some?
    ensures |r| == |rs|
  {
    seq(|rs|, j requires 0 <= j < |rs| => rs[j].value.value)
  }

  function Stamps(rs: seq<Reading>): (r: seq<real>)
    ensures |r| == |rs|
  {
    seq(|rs|, j requires 0 <= j < |rs| => rs[j].stamp)
  }

  /** The entry `land_tie_counts` builds for one occupation. */
  function Group(key: string, rs: seq<Reading>): CountSet
    requires forall j :: 0 <= j < |rs| ==> rs[j].value.Some?
  {
    CountSet(key, Values(rs), Stamps(rs), None)
  }

  /** The mean times of the two ship occupations differ whenever both have
      a finite reading. */
  predicate ShipTimesDiffer(a1: seq<Reading>, a2: seq<Reading>)
  {
    |Finite(a1)| > 0 && |Finite(a2)| > 0 ==> Mean(Stamps(Finite(a1))) != Mean(Stamps(Finite(a2)))
  }

  /** The three groups `land_tie_counts` stores. */
  function Groups(a1: seq<Reading>, b1: seq<Reading>, a2: seq<Reading>): seq<CountSet>
  {
    [Group("A1", Finite(a1)), Group("B1", Finite(b1)), Group("A2", Finite(a2))]
  }

  lemma GroupsComputable(a1: seq<Reading>, b1: seq<Reading>, a2: seq<Reading>)
    requires |Finite(a1)| > 0 && |Finite(b1)| > 0 && |Finite(a2)| > 0 && ShipTimesDiffer(a1, a2)
    ensures TieComputable(Groups(a1, b1, a2))
    ensures forall e :: e in Groups(a1, b1, a2) ==> |e.stamps| == |e.counts| && e.gravs.None?
  {
    var es := Groups(a1, b1, a2);
    assert Lookup(es, "A1") == Some(es[0]);
    assert Lookup(es, "A2") == Some(es[2]) by {
      assert es[1..][1..] == [es[2]];
    }
  }

  /** `land_tie_counts` (command line): without a meter and its table it
      prints and returns; the finite readings of each occupation are kept,
      and with an empty occupation it exits; otherwise the counts are
      stored, converted, the tie is marked a land tie and computed. */
  function LandTieCountsStep(st: PyState, a1: seq<Reading>, b1: seq<Reading>, a2: seq<Reading>): (PyState, Result<(), Stop>)
    requires PyValid(st) && ShipTimesDiffer(a1, a2)
  {
    if st.calTable.None? || st.meter.None? then
      (st, Err(Printed("you must choose a meter and load its calibration table before doing a land tie")))
    else if |Finite(a1)| == 0 || |Finite(b1)| == 0 || |Finite(a2)| == 0 then
      (st, Err(Printed("not enough measurements to do a tie; exiting")))
    else StoreAndTieStep(st, a1, b1, a2)
  }

  /** The end of `land_tie_counts`: the groups are stored, converted (a
      conversion that stops early only prints), the tie is marked a land
      tie and computed. */
  function StoreAndTieStep(st: PyState, a1: seq<Reading>, b1: seq<Reading>, a2: seq<Reading>): (PyState, Result<(), Stop>)
    requires PyValid(st) && st.calTable.Some? && ShipTimesDiffer(a1, a2)
    requires |Finite(a1)| > 0 && |Finite(b1)| > 0 && |Finite(a2)| > 0
  {
    GroupsComputable(a1, b1, a2);
    var stored := st.(meterCounts := Some(Groups(a1, b1, a2)));
    ConvertKeepsComputable(stored);
    LandTieStep(ConvertStep(stored).0.(landtie := true))
  }

  /** Lookups see the same keys and timestamps after a change that keeps them. */
  lemma {:induction false} LookupKeepsStamps(es: seq<CountSet>, es2: seq<CountSet>, key: string)
    requires |es2| == |es|
    requires forall j :: 0 <= j < |es| ==> es2[j].key == es[j].key && es2[j].stamps == es[j].stamps
    ensures Lookup(es2, key).Some? == Lookup(es, key).Some?
    ensures Lookup(es, key).Some? ==> Lookup(es2, key).value.stamps == Lookup(es, key).value.stamps
    decreases |es|
  {
    if es != [] && es[0].key != key {
      LookupKeepsStamps(es[1..], es2[1..], key);
    }
  }

  /** Conversion keeps the counts and timestamps, so what the land tie needs survives it. */
  lemma ConvertKeepsComputable(st: PyState)
    requires st.calTable.Some? && WellFormed(st.calTable.value) && st.meterCounts.Some?
    requires TieComputable(st.meterCounts.value)
    requires forall e :: e in st.meterCounts.value ==> |e.stamps| == |e.counts|
    ensures ConvertStep(st).0.meterCounts.Some? && TieComputable(ConvertStep(st).0.meterCounts.value)
    ensures forall e :: e in ConvertStep(st).0.meterCounts.value ==> |e.stamps| == |e.counts|
  {
    var cal := st.calTable.value;
    var es := st.meterCounts.value;
    if |cal.brackets| != 1 {
      ConvertFromEffect(cal, es, 0);
      var es2 := ConvertFrom(cal, es, 0).0;
      assert forall j :: 0 <= j < |es| ==> ConvertedOrKept(cal, es[j], es2[j]);
      forall e | e in es2
        ensures |e.stamps| == |e.counts| && |e.stamps| > 0 && (e.gravs.Some? ==> |e.gravs.value| > 0)
      {
        var j :| 0 <= j < |es2| && es2[j] == e;
        assert es[j] in es;
      }
      LookupKeepsStamps(es, es2, "A1");
      LookupKeepsStamps(es, es2, "A2");
    }
  }

  /** `compute_bias`: the pier gravity plus the free-air term for the mean
      depth gives the water-line gravity, less the meter average the bias;
      an attribute not set raises before anything is written. */
  function BiasStep(st: PyState): (PyState, Result<(), Stop>)
    requires PyValid(st)
  {
    if st.heights.None? then (st, Err(Raised("AttributeError")))
    else if st.landtie && st.landTieValue.None? then (st, Err(Raised("AttributeError")))
    else if !st.landtie && st.stationGravity.None? then (st, Err(Raised("AttributeError")))
    else if st.avgDgsGrav.None? then (st, Err(Raised("AttributeError")))
    else
      var pier := PyPierGrav(st.landtie, if st.landtie then st.landTieValue.value else 0.0,
                             if st.landtie then 0.0 else st.stationGravity.value);
      var water := BiasComputation.WaterGrav(pier, Mean(Depths(st.heights.value)));
      (st.(waterGrav := Some(water), bias := Some(water - st.avgDgsGrav.value)), Ok(()))
  }

  function HeightTimes(hs: seq<Height>): (r: seq<real>)
    ensures |r| == |hs|
  {
    seq(|hs|, i requires 0 <= i < |hs| => hs[i].stamp)
  }

  function RawGravs(ds: seq<real>): (r: seq<real>)
    ensures |r| == |ds|
  {
    seq(|ds|, i requires 0 <= i < |ds| => RawGrav(ds[i]))
  }

  /** `calculate_average_meter_grav` given the samples read from the files. */
  function MeterGravStep(st: PyState, raw: bool, rgrav: seq<real>, dates: seq<real>, filtfilt: (nat, seq<real>) -> seq<real>): (PyState, Result<(), Stop>)
    requires |rgrav| == |dates|
    requires forall n: nat, xs: seq<real> :: |filtfilt(n, xs)| == |xs|
  {
    var grav := if raw then RawGravs(rgrav) else rgrav;
    if st.heights.None? then (st, Err(Raised("AttributeError")))
    else
      match MeterGrav(HeightTimes(st.heights.value), grav, dates, filtfilt)
      case Err(e) => (st, Err(e))
      case Ok(avg) => (st.(avgDgsGrav := Some(avg)), Ok(()))
  }

  // ---------------------------------------------------------------------
  // What the entry methods achieve

  /** `three_water_heights` exits exactly when no measurement is finite,
      leaving the tie as it was; otherwise the stored heights are exactly
      the finite measurements. */
  lemma HeightsStepEffect(st: PyState, first: seq<Reading>, inches: seq<Reading>)
    requires |first| == 3 && |inches| == 3
    ensures var (st2, r) := HeightsStep(st, first, inches);
      && (r.Err? <==> forall i :: 0 <= i < 3 ==> HeightOf(st.imperial, first[i], inches[i]).None?)
      && (r.Err? ==> st2 == st)
      && (r.Ok? ==>
            && st2.heights.Some? && st2 == st.(heights := st2.heights)
            && (forall i :: 0 <= i < 3 && HeightOf(st.imperial, first[i], inches[i]).Some? ==>
                  KeptHeight(st.imperial, first, inches, i) in st2.heights.value)
            && (forall h :: h in st2.heights.value ==>
                  && 1 <= h.num <= 3 && HeightOf(st.imperial, first[h.num - 1], inches[h.num - 1]).Some?
                  && h == KeptHeight(st.imperial, first, inches, h.num - 1)))
  {
    var hs := HeightsFrom(st.imperial, first, inches, 3);
    if hs != [] {
      assert HeightOf(st.imperial, first[hs[0].num - 1], inches[hs[0].num - 1]).Some?;
    }
    forall h | h in hs
      ensures && 1 <= h.num <= 3 && HeightOf(st.imperial, first[h.num - 1], inches[h.num - 1]).Some?
              && h == KeptHeight(st.imperial, first, inches, h.num - 1)
    {
      var j :| 0 <= j < |hs| && hs[j] == h;
    }
    forall i | 0 <= i < 3 && HeightOf(st.imperial, first[i], inches[i]).Some?
      ensures KeptHeight(st.imperial, first, inches, i) in hs
    {
      FiniteHeightsKept(st.imperial, first, inches, 3, i);
    }
  }

  /** A one-row table is refused and nothing changes; otherwise, when the
      conversion succeeds every key holds one gravity per count, each the
      conversion of its count, and every key keeps its counts and times. */
  lemma ConvertStepEffect(st: PyState)
    requires st.calTable.Some? && WellFormed(st.calTable.value) && st.meterCounts.Some?
    ensures var (st2, r) := ConvertStep(st);
      && st2 == st.(meterCounts := st2.meterCounts) && st2.meterCounts.Some?
      && |st2.meterCounts.value| == |st.meterCounts.value|
      && (|st.calTable.value.brackets| == 1 ==> st2 == st && r.Err?)
      && (forall j :: 0 <= j < |st.meterCounts.value| ==>
            ConvertedOrKept(st.calTable.value, st.meterCounts.value[j], st2.meterCounts.value[j]))
      && (r.Ok? ==> forall j :: 0 <= j < |st.meterCounts.value| ==> IsConverted(st.calTable.value, st2.meterCounts.value[j]))
  {
    ConvertFromEffect(st.calTable.value, st.meterCounts.value, 0);
  }

  /** `_compute_land_tie` writes the C++ tie formula and drift, from the
      means of the gravities and of the timestamps, and nothing else; when
      it raises nothing changes. */
  lemma LandTieStepEffect(st: PyState)
    requires st.meterCounts.Some? && TieComputable(st.meterCounts.value)
    ensures var (st2, r) := LandTieStep(st);
      && (r.Err? ==> st2 == st)
      && (r.Ok? ==>
            var es := st.meterCounts.value;
            var a1 := Lookup(es, "A1").value;
            var b1 := Lookup(es, "B1").value;
            var a2 := Lookup(es, "A2").value;
            && a1.gravs.Some? && b1.gravs.Some? && a2.gravs.Some? && st.stationGravity.Some?
            && |a1.gravs.value| > 0 && |b1.gravs.value| > 0 && |a2.gravs.value| > 0
            && Mean(a1.stamps) != Mean(a2.stamps)
            && st2 == st.(landTieValue := st2.landTieValue, drift := st2.drift)
            && st2.landTieValue == Some(LandTie.LandTieValue(st.stationGravity.value,
                 Mean(a1.gravs.value), Mean(b1.gravs.value), Mean(a2.gravs.value),
                 Mean(a1.stamps), Mean(b1.stamps), Mean(a2.stamps)))
            && st2.drift == Some(LandTie.Drift(Mean(a1.gravs.value), Mean(a2.gravs.value), Mean(a2.stamps) - Mean(a1.stamps))))
  {
    var es := st.meterCounts.value;
    var a1 := Lookup(es, "A1");
    var b1 := Lookup(es, "B1");
    var a2 := Lookup(es, "A2");
    if a1.Some? && b1.Some? && a2.Some? && a1.value.gravs.Some? && b1.value.gravs.Some? && a2.value.gravs.Some?
       && st.stationGravity.Some? {
      PyLandTieIsCpp(st.stationGravity.value,
        Mean(a1.value.gravs.value), Mean(b1.value.gravs.value), Mean(a2.value.gravs.value),
        Mean(a1.value.stamps), Mean(b1.value.stamps), Mean(a2.value.stamps));
    }
  }

  /** When the conversion stops early, `land_tie_counts` still marks the tie
      as a land tie, and computing it then fails on the unconverted key
      without writing a tie value. */
  lemma FailedConversionStillMarksLandTie(st: PyState, a1: seq<Reading>, b1: seq<Reading>, a2: seq<Reading>)
    requires PyValid(st) && st.calTable.Some? && ShipTimesDiffer(a1, a2)
    requires |Finite(a1)| > 0 && |Finite(b1)| > 0 && |Finite(a2)| > 0
    requires ConvertStep(st.(meterCounts := Some(Groups(a1, b1, a2)))).1.Err?
    ensures var (st2, r) := StoreAndTieStep(st, a1, b1, a2);
      && st2.landtie && r == Err(Raised("IndexError"))
      && st2.landTieValue == st.landTieValue && st2.drift == st.drift
  {
    var stored := st.(meterCounts := Some(Groups(a1, b1, a2)));
    GroupsComputable(a1, b1, a2);
    ConvertStepEffect(stored);
    ConvertFailLeavesUnconverted(stored);
    var es2 := ConvertStep(stored).0.meterCounts.value;
    ThreeKeysLookup(Groups(a1, b1, a2), es2);
    ConvertKeepsComputable(stored);
    UnconvertedKeyRaises(ConvertStep(stored).0.(landtie := true));
  }

  /** `_compute_land_tie` on the three keys with one of them unconverted. */
  lemma UnconvertedKeyRaises(st: PyState)
    requires st.meterCounts.Some? && TieComputable(st.meterCounts.value) && |st.meterCounts.value| == 3
    requires Lookup(st.meterCounts.value, "A1") == Some(st.meterCounts.value[0])
    requires Lookup(st.meterCounts.value, "B1") == Some(st.meterCounts.value[1])
    requires Lookup(st.meterCounts.value, "A2") == Some(st.meterCounts.value[2])
    requires exists f :: 0 <= f < 3 && st.meterCounts.value[f].gravs.None?
    ensures LandTieStep(st) == (st, Err(Raised("IndexError")))
  {
  }

  /** A conversion of unconverted keys that fails leaves one key unconverted. */
  lemma ConvertFailLeavesUnconverted(st: PyState)
    requires st.calTable.Some? && WellFormed(st.calTable.value) && st.meterCounts.Some?
    requires |st.meterCounts.value| > 0 && forall e :: e in st.meterCounts.value ==> e.gravs.None?
    requires ConvertStep(st).1.Err?
    ensures exists f :: 0 <= f < |ConvertStep(st).0.meterCounts.value| && ConvertStep(st).0.meterCounts.value[f].gravs.None?
  {
    var cal := st.calTable.value;
    var es := st.meterCounts.value;
    if |cal.brackets| == 1 {
      assert es[0] in es;
    } else {
      ConvertFromStops(cal, es, 0);
      var f :| 0 <= f < |es| && ConvertEntry(cal, es[f]).Err?
               && (forall j :: f <= j < |es| ==> ConvertFrom(cal, es, 0).0[j] == es[j]);
      assert es[f] in es;
    }
  }

  /** `compute_bias` raises exactly when an attribute it reads is unset,
      leaving the tie as it was; otherwise it writes only the water-line
      gravity and the bias: the pier gravity plus the free-air term for the
      mean depth, which never exceeds the pier gravity, and that less the
      meter average. */
  lemma BiasStepEffect(st: PyState)
    requires PyValid(st)
    ensures var (st2, r) := BiasStep(st);
      && (r.Err? <==> st.heights.None? || st.avgDgsGrav.None?
                      || (st.landtie && st.landTieValue.None?) || (!st.landtie && st.stationGravity.None?))
      && (r.Err? ==> st2 == st)
      && (r.Ok? ==>
            var pier := if st.landtie then st.landTieValue.value else st.stationGravity.value;
            var depth := Mean(Depths(st.heights.value));
            && st2 == st.(waterGrav := st2.waterGrav, bias := st2.bias)
            && depth <= 0.0
            && st2.waterGrav == Some(pier + FaaFactor * depth)
            && st2.waterGrav.value <= pier
            && st2.bias == Some(st2.waterGrav.value - st.avgDgsGrav.value))
  {
    if st.heights.Some? {
      MeanDepthNonPositive(st.heights.value);
    }
  }

  /** With the three keys kept in place, each lookup finds its own position. */
  lemma ThreeKeysLookup(es: seq<CountSet>, es2: seq<CountSet>)
    requires |es| == 3 && |es2| == 3
    requires es[0].key == "A1" && es[1].key == "B1" && es[2].key == "A2"
    requires forall j :: 0 <= j < 3 ==> es2[j].key == es[j].key
    ensures Lookup(es2, "A1") == Some(es2[0])
    ensures Lookup(es2, "B1") == Some(es2[1])
    ensures Lookup(es2, "A2") == Some(es2[2])
  {
    assert es2[1..][1..] == [es2[2]];
  }

  /** A Python `tie` object. */
  class TieObject {
    var landtie: bool
    var imperial: bool
    var meter: Option<string>
    var calTable: Option<Calibration>
    var stationGravity: Option<real>
    var heights: Option<seq<Height>>
    var meterCounts: Option<seq<CountSet>>
    var landTieValue: Option<real>
    var drift: Option<real>
    var avgDgsGrav: Option<real>
    var waterGrav: Option<real>
    var bias: Option<real>

    function State(): PyState
      reads this
    {
      PyState(landtie, imperial, meter, calTable, stationGravity, heights, meterCounts,
              landTieValue, drift, avgDgsGrav, waterGrav, bias)
    }

    ghost predicate Valid()
      reads this
    {
      PyValid(State())
    }

    /** `tie()`; the database lists it reads are not part of this model. */
    constructor ()
      ensures State() == FreshPyState && Valid()
    {
      landtie := false;
      imperial := false;
      meter := None;
      calTable := None;
      stationGravity := None;
      heights := None;
      meterCounts := None;
      landTieValue := None;
      drift := None;
      avgDgsGrav := None;
      waterGrav := None;
      bias := None;
    }

    /** `use_imperial`. */
    method UseImperial()
      modifies this
      ensures State() == old(State()).(imperial := true)
    {
      imperial := true;
    }

    /** `three_water_heights` on the command line, given the three entries
      (metres, or feet with the matching inches). */
    method ThreeWaterHeights(first: seq<Reading>, inches: seq<Reading>) returns (r: Result<(), Stop>)
      requires Valid() && |first| == 3 && |inches| == 3
      modifies this
      ensures Valid() && (State(), r) == HeightsStep(old(State()), first, inches)
    {
      var hs: seq<Height> := [];
      for i := 0 to 3
        invariant hs == HeightsFrom(imperial, first, inches, i)
      {
        var v := HeightOf(imperial, first[i], inches[i]);
        if v.Some? {
          hs := hs + [Height(i + 1, v.value, first[i].stamp)];
        }
      }
      if |hs| == 0 {
        return Err(Printed("no valid height measurements given; exiting"));
      }
      heights := Some(hs);
      return Ok(());
    }

    /** `_convert_meter_counts_to_mgal`: each key's counts in turn, each
      count through the chosen row of the table. */
    method ConvertMeterCounts() returns (r: Result<(), Stop>)
      requires Valid() && calTable.Some? && meterCounts.Some?
      modifies this
      ensures Valid() && (State(), r) == ConvertStep(old(State()))
    {
      var cal := calTable.value;
      if |cal.brackets| == 1 {
        return Err(Printed("not set up to deal with single-value cal yet, sorry"));
      }
      var es := meterCounts.value;
      var i := 0;
      while i < |es|
        invariant i <= |es| == |old(meterCounts).value|
        invariant ConvertFrom(cal, es, i) == ConvertFrom(cal, old(meterCounts).value, 0)
        invariant unchanged(this)
      {
        var e := es[i];
        if e.gravs.Some? {
          meterCounts := Some(es);
          ConvertFromEffect(cal, old(meterCounts).value, 0);
          ValidAfterConvert(old(State()), es);
          return Err(Raised("ValueError"));
        }
        var gravs := ConvertKey(cal, e.counts);
        if gravs.Err? {
          meterCounts := Some(es);
          ConvertFromEffect(cal, old(meterCounts).value, 0);
          ValidAfterConvert(old(State()), es);
          return Err(gravs.error);
        }
        es := es[i := e.(gravs := Some(gravs.value))];
        i := i + 1;
      }
      meterCounts := Some(es);
      ConvertFromEffect(cal, old(meterCounts).value, 0);
      ValidAfterConvert(old(State()), es);
      return Ok(());
    }

    /** `_compute_land_tie`. */
    method ComputeLandTie() returns (r: Result<(), Stop>)
      requires Valid() && meterCounts.Some? && TieComputable(meterCounts.value)
      modifies this
      ensures Valid() && (State(), r) == LandTieStep(old(State()))
    {
      var es := meterCounts.value;
      var a1 := Lookup(es, "A1");
      var b1 := Lookup(es, "B1");
      var a2 := Lookup(es, "A2");
      if a1.None? || b1.None? || a2.None? {
        return Err(Raised("KeyError"));
      }
      var avgTimeA1 := Mean(a1.value.stamps);
      var avgTimeB1 := Mean(b1.value.stamps);
      var avgTimeA2 := Mean(a2.value.stamps);
      if a1.value.gravs.None? || b1.value.gravs.None? || a2.value.gravs.None? {
        return Err(Raised("IndexError"));
      }
      var avgMgalsA1 := Mean(a1.value.gravs.value);
      var avgMgalsB1 := Mean(b1.value.gravs.value);
      var avgMgalsA2 := Mean(a2.value.gravs.value);
      if stationGravity.None? {
        return Err(Raised("AttributeError"));
      }
      var tie := PyLandTie(stationGravity.value, avgMgalsA1, avgMgalsB1, avgMgalsA2, avgTimeA1, avgTimeB1, avgTimeA2);
      landTieValue := Some(tie.0);
      drift := Some(tie.1);
      return Ok(());
    }

    /** `land_tie_counts` on the command line, given the three occupations'
      entries. */
    method LandTieCounts(a1: seq<Reading>, b1: seq<Reading>, a2: seq<Reading>) returns (r: Result<(), Stop>)
      requires Valid() && ShipTimesDiffer(a1, a2)
      modifies this
      ensures Valid() && (State(), r) == LandTieCountsStep(old(State()), a1, b1, a2)
    {
      if calTable.None? || meter.None? {
        return Err(Printed("you must choose a meter and load its calibration table before doing a land tie"));
      }
      var a1Vals := KeepFinite(a1);
      var b1Vals := KeepFinite(b1);
      var a2Vals := KeepFinite(a2);
      if |a1Vals| == 0 || |b1Vals| == 0 || |a2Vals| == 0 {
        return Err(Printed("not enough measurements to do a tie; exiting"));
      }
      r := StoreAndTie(a1Vals, b1Vals, a2Vals, a1, b1, a2);
    }

    method StoreAndTie(a1Vals: seq<Reading>, b1Vals: seq<Reading>, a2Vals: seq<Reading>,
                       ghost a1: seq<Reading>, ghost b1: seq<Reading>, ghost a2: seq<Reading>) returns (r: Result<(), Stop>)
      requires Valid() && calTable.Some? && ShipTimesDiffer(a1, a2)
      requires a1Vals == Finite(a1) && b1Vals == Finite(b1) && a2Vals == Finite(a2)
      requires |a1Vals| > 0 && |b1Vals| > 0 && |a2Vals| > 0
      modifies this
      ensures Valid() && (State(), r) == StoreAndTieStep(old(State()), a1, b1, a2)
    {
      GroupsComputable(a1, b1, a2);
      meterCounts := Some([Group("A1", a1Vals), Group("B1", b1Vals), Group("A2", a2Vals)]);
      ConvertKeepsComputable(State());
      var _ := ConvertMeterCounts();
      landtie := true;
      r := ComputeLandTie();
    }

    /** `calculate_average_meter_grav`, given the samples the files hold. */
    method CalculateAverageMeterGrav(raw: bool, rgrav: seq<real>, dates: seq<real>, filtfilt: (nat, seq<real>) -> seq<real>)
      returns (r: Result<(), Stop>)
      requires Valid() && |rgrav| == |dates|
      requires forall n: nat, xs: seq<real> :: |filtfilt(n, xs)| == |xs|
      modifies this
      ensures Valid() && (State(), r) == MeterGravStep(old(State()), raw, rgrav, dates, filtfilt)
    {
      var grav := if raw then RawGravs(rgrav) else rgrav;
      if heights.None? {
        return Err(Raised("AttributeError"));
      }
      var avg := MeterGrav(HeightTimes(heights.value), grav, dates, filtfilt);
      if avg.Err? {
        return Err(avg.error);
      }
      avgDgsGrav := Some(avg.value);
      return Ok(());
    }

    /** `compute_bias`. */
    method ComputeBias() returns (r: Result<(), Stop>)
      requires Valid()
      modifies this
      ensures Valid() && (State(), r) == BiasStep(old(State()))
    {
      if heights.None? {
        return Err(Raised("AttributeError"));
      }
      var avgPierHeight := Mean(Depths(heights.value));
      var pierGrav: real;
      if landtie {
        if landTieValue.None? {
          return Err(Raised("AttributeError"));
        }
        pierGrav := landTieValue.value;
      } else {
        if stationGravity.None? {
          return Err(Raised("AttributeError"));
        }
        pierGrav := stationGravity.value;
      }
      var water := BiasComputation.WaterGrav(pierGrav, avgPierHeight);
      if avgDgsGrav.None? {
        return Err(Raised("AttributeError"));
      }
      bias := Some(water - avgDgsGrav.value);
      waterGrav := Some(water);
      return Ok(());
    }
  }

  /** The entry loop of one occupation: the finite readings, in order. */
  method KeepFinite(rs: seq<Reading>) returns (kept: seq<Reading>)
    ensures kept == Finite(rs)
  {
    kept := [];
    for i := 0 to |rs|
      invariant kept == Finite(rs[..i])
    {
      assert rs[..i + 1][..i] == rs[..i];
      if rs[i].value.Some? {
        kept := kept + [rs[i]];
      }
    }
    assert rs[..|rs|] == rs;
  }

  /** The counts of one key, in order, each through the chosen row. */
  method ConvertKey(cal: Calibration, counts: seq<real>) returns (r: Result<seq<real>, Stop>)
    requires WellFormed(cal)
    ensures r == ConvertCounts(cal, counts)
  {
    var gravs: seq<real> := [];
    for j := 0 to |counts|
      invariant ConvertCounts(cal, counts[..j]) == Ok(gravs)
    {
      ConvertCountsStep(cal, counts, j, gravs);
      var g := ConvertReading(cal, counts[j]);
      if g.Err? {
        PrefixFails(cal, counts, j + 1);
        return Err(g.error);
      }
      gravs := gravs + [g.value];
    }
    assert counts[..|counts|] == counts;
    return Ok(gravs);
  }

  /** One count: the largest bracket below it, refused when there is none
      or it is more than 100 counts away, then the row's offset plus the
      residual times the row's factor. */
  method ConvertReading(cal: Calibration, c: real) returns (r: Result<real, Stop>)
    requires WellFormed(cal)
    ensures r == ConvertOne(cal, c)
  {
    var below := BracketBelow(cal.brackets, c, |cal.brackets|);
    if below.None? {
      return Err(Printed("calibration table for meter is not complete"));
    }
    var ind := below.value;
    if Abs(c - cal.brackets[ind]) > 100.0 {
      return Err(Printed("calibration table is incomplete"));
    }
    var factor := cal.factors[ind];
    var offset := cal.mgvals[ind];
    var residual := Residual(c, cal.brackets[ind], factor);
    return Ok(offset + residual);
  }

  lemma ConvertCountsStep(cal: Calibration, counts: seq<real>, j: nat, gravs: seq<real>)
    requires WellFormed(cal) && j < |counts| && ConvertCounts(cal, counts[..j]) == Ok(gravs)
    ensures ConvertCounts(cal, counts[..j + 1]) ==
              match ConvertOne(cal, counts[j])
              case Err(e) => Err(e)
              case Ok(v) => Ok(gravs + [v])
  {
    assert counts[..j + 1][..j] == counts[..j];
  }

  /** `(c - readbrack) * factor`. */
  function Residual(c: real, readbrack: real, factor: real): real
  {
    (c - readbrack) * factor
  }

  /** A failure in a prefix is the failure of the whole sequence. */
  lemma {:induction false} PrefixFails(cal: Calibration, counts: seq<real>, n: nat)
    requires WellFormed(cal) && n <= |counts| && ConvertCounts(cal, counts[..n]).Err?
    ensures ConvertCounts(cal, counts) == ConvertCounts(cal, counts[..n])
    decreases |counts| - n
  {
    if n < |counts| {
      assert counts[..n + 1][..n] == counts[..n];
      PrefixFails(cal, counts, n + 1);
    } else {
      assert counts[..n] == counts;
    }
  }

  lemma ValidAfterConvert(st: PyState, es: seq<CountSet>)
    requires PyValid(st) && st.calTable.Some? && st.meterCounts.Some? && |es| == |st.meterCounts.value|
    requires forall j :: 0 <= j < |es| ==> ConvertedOrKept(st.calTable.value, st.meterCounts.value[j], es[j])
    ensures PyValid(st.(meterCounts := Some(es)))
  {
    forall e | e in es
      ensures |e.stamps| == |e.counts|
    {
      var j :| 0 <= j < |es| && es[j] == e;
      assert st.meterCounts.value[j] in st.meterCounts.value;
    }
  }
}
