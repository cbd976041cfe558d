/** `convert_counts_mgals` of lib/actual_computations.cpp: a land meter's raw
    count turned into milligals through its calibration table. */
module CountsConversion {
  import opened Numerics
  import opened TieStructs

  /** The calibration table convert_counts_mgals can read: at least one row and parallel columns. */
  predicate Usable(calib: Calibration)
  {
    |calib.brackets| > 0 && WellFormed(calib)
  }

  /** `k` is the row the scan over the first `n` rows settles on: row 0 unless a
      later bracket not above `c` is strictly closer; among equally close later
      brackets the earliest one. */
  predicate ChosenAmong(b: seq<real>, c: real, n: nat, k: int)
    requires n <= |b|
  {
    && 0 <= k < n
    && (k == 0 || b[k] <= c)
    && (k > 0 ==> Abs(c - b[k]) < Abs(c - b[0]))
    && (forall i :: 1 <= i < n && b[i] <= c ==> Abs(c - b[k]) <= Abs(c - b[i]))
    && (forall i :: 1 <= i < k && b[i] <= c ==> Abs(c - b[k]) < Abs(c - b[i]))
  }

  predicate IsChosenBracket(b: seq<real>, c: real, k: int)
  {
    ChosenAmong(b, c, |b|, k)
  }

  /** At most one row meets the selection rule. */
  lemma ChosenBracketUnique(b: seq<real>, c: real, k1: int, k2: int)
    requires IsChosenBracket(b, c, k1) && IsChosenBracket(b, c, k2)
    ensures k1 == k2
  {
    assert k2 >= 1 ==> Abs(c - b[k1]) <= Abs(c - b[k2]);
    assert k1 >= 1 ==> Abs(c - b[k2]) <= Abs(c - b[k1]);
  }

  /** The row chosen after scanning rows `1 .. n-1`, as the loop of convert_counts_mgals does. */
  function ChosenUpTo(b: seq<real>, c: real, n: nat): (k: nat)
    requires 1 <= n <= |b|
    ensures k < n
  {
    if n == 1 then 0
    else
      var k := ChosenUpTo(b, c, n - 1);
      if Abs(c - b[n - 1]) < Abs(c - b[k]) && b[n - 1] <= c then n - 1 else k
  }

  /** The row convert_counts_mgals uses for count `c`. */
  function BracketIndex(b: seq<real>, c: real): (k: nat)
    requires |b| > 0
    ensures k < |b|
  {
    ChosenUpTo(b, c, |b|)
  }

  /** The scan's choice meets the selection rule. */
  lemma {:induction false} ChosenUpToMeetsRule(b: seq<real>, c: real, n: nat)
    requires 1 <= n <= |b|
    ensures ChosenAmong(b, c, n, ChosenUpTo(b, c, n))
  {
    if n > 1 {
      ChosenUpToMeetsRule(b, c, n - 1);
      ChosenStep(b, c, n - 1, ChosenUpTo(b, c, n - 1));
    }
  }

  /** The row convert_counts_mgals uses is the one row meeting the selection rule. */
  lemma BracketIndexIsChosen(b: seq<real>, c: real, k: int)
    requires |b| > 0
    ensures IsChosenBracket(b, c, BracketIndex(b, c))
    ensures IsChosenBracket(b, c, k) <==> k == BracketIndex(b, c)
  {
    ChosenUpToMeetsRule(b, c, |b|);
    if IsChosenBracket(b, c, k) {
      ChosenBracketUnique(b, c, k, BracketIndex(b, c));
    }
  }

  /** The calibrated value of count `c`: residual above the bracket, times the
      row's factor, plus the row's mGal value. */
  function CountsToMgal(calib: Calibration, c: real): real
    requires Usable(calib)
  {
    RowValue(calib, BracketIndex(calib.brackets, c), c)
  }

  /** Count `c` calibrated with row `k`. */
  function RowValue(calib: Calibration, k: nat, c: real): real
    requires WellFormed(calib) && k < |calib.brackets|
  {
    (c - calib.brackets[k]) * calib.factors[k] + calib.mgvals[k]
  }

  /** Any row meeting the selection rule gives the calibrated value. */
  lemma CountsToMgalAt(calib: Calibration, c: real, k: int)
    requires Usable(calib) && IsChosenBracket(calib.brackets, c, k)
    ensures CountsToMgal(calib, c) == RowValue(calib, k, c)
  {
    BracketIndexIsChosen(calib.brackets, c, k);
  }

  /** One step of the scan: row `i` replaces the current choice exactly when it is strictly closer and not above `c`. */
  lemma ChosenStep(b: seq<real>, c: real, i: nat, k: int)
    requires 1 <= i < |b| && ChosenAmong(b, c, i, k)
    ensures ChosenAmong(b, c, i + 1, if Abs(c - b[i]) < Abs(c - b[k]) && b[i] <= c then i else k)
  {
  }

  /** `convert_counts_mgals(c1, calib)`. */
  method ConvertCountsMgals(c1: ValTime, calib: Calibration) returns (mgals: real)
    requires Usable(calib)
    ensures mgals == CountsToMgal(calib, c1.h1)
  {
    var b := calib.brackets;
    var cind := 0;
    var minDiff := Abs(c1.h1 - b[cind]);
    var i := 1;
    while i < |b|
      invariant 1 <= i <= |b|
      invariant ChosenAmong(b, c1.h1, i, cind)
      invariant minDiff == Abs(c1.h1 - b[cind])
    {
      ChosenStep(b, c1.h1, i, cind);
      var diff := Abs(c1.h1 - b[i]);
      if diff < minDiff && b[i] <= c1.h1 {
        cind := i;
        minDiff := diff;
      }
      i := i + 1;
    }
    CountsToMgalAt(calib, c1.h1, cind);
    // residual reading above the chosen bracket, times its factor, plus its mGal value
    mgals := RowValue(calib, cind, c1.h1);
  }

  /** A count below every later bracket is converted with the first row, even if it lies below that row too. */
  lemma BelowTableUsesFirstRow(calib: Calibration, c: real)
    requires Usable(calib)
    requires forall i :: 1 <= i < |calib.brackets| ==> c < calib.brackets[i]
    ensures CountsToMgal(calib, c) == (c - calib.brackets[0]) * calib.factors[0] + calib.mgvals[0]
  {
    BracketIndexIsChosen(calib.brackets, c, 0);
  }

  /** On an ascending table whose first bracket is not above `c`, the chosen
      row is the last one whose bracket does not exceed `c`. */
  lemma AscendingTablePicksFloor(b: seq<real>, c: real, k: nat)
    requires forall i, j :: 0 <= i < j < |b| ==> b[i] < b[j]
    requires k < |b| && b[k] <= c && (k + 1 == |b| || c < b[k + 1])
    ensures BracketIndex(b, c) == k
  {
    if k + 1 < |b| {
      assert forall i :: k + 1 < i < |b| ==> b[k + 1] < b[i];
    }
    assert forall i :: k < i < |b| ==> c < b[i];
    if k > 0 {
      assert b[0] < b[k];
    }
    BracketIndexIsChosen(b, c, k);
  }

  /** The worked example: brackets 0, 100, 200, values 0, 5, 12, factors 0.1,
      0.2, 0.3; a count of 150 gives 5 + 50 * 0.2 = 15. */
  lemma WorkedExample()
    ensures CountsToMgal(Calibration([0.0, 100.0, 200.0], [0.0, 5.0, 12.0], [0.1, 0.2, 0.3]), 150.0) == 15.0
  {
    AscendingTablePicksFloor([0.0, 100.0, 200.0], 150.0, 1);
  }
}
