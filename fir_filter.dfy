/** The finite impulse response filter that on_compute_bias threads the
    meter gravity through. Its window design (filt.h, a Blackman window) is
    not part of this model: the taps are given. `do_sample` is the
    direct-form step: the new input enters the delay line, the oldest value
    leaves, and the output is the dot product of taps and delay line. */
module FirFilter {
  import opened Numerics

  /** Dot product of taps and delay line. */
  function Dot(a: seq<real>, b: seq<real>): real
    requires |a| == |b|
  {
    if a == [] then 0.0 else Dot(a[..|a| - 1], b[..|b| - 1]) + a[|a| - 1] * b[|b| - 1]
  }

  /** The delay line after one input: `x` enters in front, the oldest value drops out. */
  function Shift(h: seq<real>, x: real): (r: seq<real>)
    ensures |r| == |h|
    ensures |h| > 0 ==> r[0] == x && r[1..] == h[..|h| - 1]
  {
    if h == [] then [] else [x] + h[..|h| - 1]
  }

  /** The delay line after feeding `xs`, starting from `h`. */
  function History(h: seq<real>, xs: seq<real>): (r: seq<real>)
    ensures |r| == |h|
  {
    if xs == [] then h else Shift(History(h, xs[..|xs| - 1]), xs[|xs| - 1])
  }

  /** The outputs for `xs`, one per input, starting from delay line `h`. */
  function Outputs(taps: seq<real>, h: seq<real>, xs: seq<real>): (ys: seq<real>)
    requires |taps| == |h|
    ensures |ys| == |xs|
  {
    if xs == [] then [] else Outputs(taps, h, xs[..|xs| - 1]) + [Dot(taps, History(h, xs))]
  }

  /** The filter object of filt.h: its taps and its delay line. */
  class Filter {
    var taps: seq<real>
    var history: seq<real>

    ghost predicate Valid()
      reads this
    {
      |history| == |taps|
    }

    /** A new filter: the given taps, an all-zero delay line. */
    constructor (coefficients: seq<real>)
      ensures Valid() && taps == coefficients && history == Zeros(|coefficients|)
    {
      taps := coefficients;
      history := Zeros(|coefficients|);
    }

    /** `do_sample(x)`: one step of the filter. */
    method DoSample(x: real) returns (y: real)
      requires Valid()
      modifies this
      ensures Valid() && taps == old(taps)
      ensures history == Shift(old(history), x) && y == Dot(taps, history)
    {
      history := Shift(history, x);
      y := Dot(taps, history);
    }
  }

  /** Feeding two runs one after the other is feeding their concatenation. */
  lemma {:induction false} HistoryAppend(h: seq<real>, xs: seq<real>, ys: seq<real>)
    ensures History(h, xs + ys) == History(History(h, xs), ys)
    decreases |ys|
  {
    if ys == [] {
      assert xs + ys == xs;
    } else {
      assert (xs + ys)[..|xs + ys| - 1] == xs + ys[..|ys| - 1];
      HistoryAppend(h, xs, ys[..|ys| - 1]);
    }
  }

  lemma {:induction false} OutputsAppend(taps: seq<real>, h: seq<real>, xs: seq<real>, ys: seq<real>)
    requires |taps| == |h|
    ensures Outputs(taps, h, xs + ys) == Outputs(taps, h, xs) + Outputs(taps, History(h, xs), ys)
    decreases |ys|
  {
    if ys == [] {
      assert xs + ys == xs;
    } else {
      var zs := xs + ys;
      assert zs[..|zs| - 1] == xs + ys[..|ys| - 1];
      OutputsAppend(taps, h, xs, ys[..|ys| - 1]);
      HistoryAppend(h, xs, ys);
    }
  }

  /** A one-tap filter of gain 1 passes its input through unchanged. */
  lemma {:induction false} UnitFilterIsIdentity(h: seq<real>, xs: seq<real>)
    requires |h| == 1
    ensures Outputs([1.0], h, xs) == xs
    decreases |xs|
  {
    if xs != [] {
      UnitFilterIsIdentity(h, xs[..|xs| - 1]);
      var last := History(h, xs);
      assert last == [xs[|xs| - 1]];
      assert Dot([1.0], last) == xs[|xs| - 1] by {
        assert [1.0][..0] == [] && last[..0] == [];
      }
    }
  }

  /** A filter has finite memory: once as many inputs as taps have been fed,
      the delay line holds exactly the latest inputs, newest first. */
  lemma HistoryForgets(h: seq<real>, xs: seq<real>)
    requires |xs| >= |h|
    ensures History(h, xs) == Reverse(xs[|xs| - |h|..])
  {
    var k := |xs| - |h|;
    assert xs == xs[..k] + xs[k..];
    HistoryAppend(h, xs[..k], xs[k..]);
    HistoryFilled(History(h, xs[..k]), xs[k..]);
  }

  /** The first `|h|` inputs fill the delay line completely. */
  lemma {:induction false} HistoryFilled(h: seq<real>, xs: seq<real>)
    requires |xs| == |h|
    ensures History(h, xs) == Reverse(xs)
    decreases |xs|
  {
    HistoryPartial(h, xs);
    assert h[..0] == [];
    assert Reverse(xs) + [] == Reverse(xs);
  }

  /** After `k` inputs, the newest `k` slots hold them, newest first, and
      the rest is the old line moved back. */
  lemma {:induction false} HistoryPartial(h: seq<real>, xs: seq<real>)
    requires |xs| <= |h|
    ensures History(h, xs) == Reverse(xs) + h[..|h| - |xs|]
    decreases |xs|
  {
    if xs != [] {
      var n := |xs|;
      HistoryPartial(h, xs[..n - 1]);
      var prev := History(h, xs[..n - 1]);
      var r := History(h, xs);
      assert r == [xs[n - 1]] + prev[..|h| - 1];
      assert Reverse(xs) == [xs[n - 1]] + Reverse(xs[..n - 1]);
      assert prev[..|h| - 1] == Reverse(xs[..n - 1]) + h[..|h| - n];
    } else {
      assert h[..|h|] == h;
    }
  }
}
