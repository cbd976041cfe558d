/** Arithmetic helpers: C's truncating integer division and sums and means over reals. */
module Numerics {

  /** `|x|` for reals (std::abs on a double). */
  function Abs(x: real): (r: real)
    ensures r >= 0.0 && (r == x || r == -x)
  {
    if x < 0.0 then -x else x
  }

  /** C/C++ integer division by a positive divisor: the quotient is truncated
      toward zero (CDivTruncates). */
  function CDiv(a: int, b: int): int
    requires b > 0
  {
    if a >= 0 then a / b else -((-a) / b)
  }

  /** C/C++ `%` by a positive divisor: the remainder of the truncated
      division, with the sign of the dividend (CDivTruncates). */
  function CMod(a: int, b: int): int
    requires b > 0
  {
    if a >= 0 then a % b else -((-a) % b)
  }

  /** The truncated quotient leaves a remainder with the sign of the dividend,
      smaller in size than the divisor. */
  lemma CDivTruncates(a: int, b: int)
    requires b > 0
    ensures a == b * CDiv(a, b) + CMod(a, b)
    ensures 0 <= a ==> 0 <= CMod(a, b) < b
    ensures a < 0 ==> -b < CMod(a, b) <= 0
  {
    if a < 0 {
      assert (-a) == b * ((-a) / b) + (-a) % b;
    }
  }

  /** On non-negative dividends C's division agrees with Dafny's Euclidean one. */
  lemma CDivNonNegative(a: int, b: int)
    requires a >= 0 && b > 0
    ensures CDiv(a, b) == a / b && CMod(a, b) == a % b
  {
  }

  /** On negative dividends C's quotient is the negated quotient of the magnitude. */
  lemma CDivNegative(a: int, b: int)
    requires a < 0 && b > 0
    ensures CDiv(a, b) == -((-a) / b) && CMod(a, b) == -((-a) % b)
  {
  }

  /** Sum of a sequence of reals (std::accumulate starting from 0.0). */
  function Sum(s: seq<real>): real
  {
    if s == [] then 0.0 else Sum(s[..|s| - 1]) + s[|s| - 1]
  }

  /** `sum / count` for a positive count. */
  function Average(sum: real, count: nat): real
    requires count > 0
  {
    sum / (count as real)
  }

  /** Arithmetic mean, for a non-empty sequence. */
  function Mean(s: seq<real>): real
    requires |s| > 0
  {
    Average(Sum(s), |s|)
  }

  /** Sum of a sequence of integers. */
  function SumInt(s: seq<int>): int
  {
    if s == [] then 0 else SumInt(s[..|s| - 1]) + s[|s| - 1]
  }

  lemma SumSnoc(s: seq<real>, x: real)
    ensures Sum(s + [x]) == Sum(s) + x
  {
    assert (s + [x])[..|s|] == s;
  }

  lemma SumIntSnoc(s: seq<int>, x: int)
    ensures SumInt(s + [x]) == SumInt(s) + x
  {
    assert (s + [x])[..|s|] == s;
  }

  lemma {:induction false} SumAppend(a: seq<real>, b: seq<real>)
    ensures Sum(a + b) == Sum(a) + Sum(b)
    decreases |b|
  {
    if b == [] {
      assert a + b == a;
    } else {
      assert (a + b)[..|a + b| - 1] == a + b[..|b| - 1];
      SumAppend(a, b[..|b| - 1]);
    }
  }

  /** Every element non-positive makes the sum, and so the mean, non-positive. */
  lemma {:induction false} SumNonPositive(s: seq<real>)
    requires forall i :: 0 <= i < |s| ==> s[i] <= 0.0
    ensures Sum(s) <= 0.0
    decreases |s|
  {
    if s != [] {
      SumNonPositive(s[..|s| - 1]);
    }
  }

  /** The mean of a one-element sequence is that element. */
  lemma MeanSingleton(x: real)
    ensures Mean([x]) == x
  {
    assert [x][..0] == [];
    assert Sum([x]) == x;
    assert (|[x]| as real) == 1.0;
  }

  /** Sequence reversal (std::reverse). */
  function Reverse<T>(s: seq<T>): (r: seq<T>)
    ensures |r| == |s|
    ensures forall i :: 0 <= i < |s| ==> r[i] == s[|s| - 1 - i]
  {
    seq(|s|, i requires 0 <= i < |s| => s[|s| - 1 - i])
  }

  lemma {:induction false} SumReverse(s: seq<real>)
    ensures Sum(Reverse(s)) == Sum(s)
    decreases |s|
  {
    if s != [] {
      assert Reverse(s) == Reverse(s[1..]) + [s[0]];
      SumReverse(s[1..]);
      SumAppend(Reverse(s[1..]), [s[0]]);
      assert s == [s[0]] + s[1..];
      SumAppend([s[0]], s[1..]);
      assert Sum([s[0]]) == s[0] by { assert [s[0]][..0] == []; }
    }
  }

  /** `n` copies of 0.0: the zero padding fed to the filter. */
  function Zeros(n: nat): (z: seq<real>)
    ensures |z| == n && forall i :: 0 <= i < n ==> z[i] == 0.0
  {
    seq(n, i => 0.0)
  }
}
