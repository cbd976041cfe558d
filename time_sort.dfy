/** Ordering the meter's gravity series by time, as on_compute_bias does:
    an index vector `0, 1, ..., n-1` (std::iota) sorted by the time stamps it
    points at, then both series read out through it. */
module TimeSort {

  predicate Ascending(t: seq<int>)
  {
    forall i, j :: 0 <= i < j < |t| ==> t[i] <= t[j]
  }

  /** `0, 1, ..., n-1`. */
  function Iota(n: nat): (r: seq<nat>)
    ensures |r| == n && forall i :: 0 <= i < n ==> r[i] == i
  {
    seq(n, i => i)
  }

  /** The (gravity, time) samples, paired up. */
  function Pairs(g: seq<real>, t: seq<int>): (r: seq<(real, int)>)
    requires |g| == |t|
    ensures |r| == |g|
  {
    seq(|g|, i requires 0 <= i < |g| => (g[i], t[i]))
  }

  predicate IndicesBelow(order: seq<nat>, n: nat)
  {
    forall i :: 0 <= i < |order| ==> order[i] < n
  }

  /** The sample at index `k` (a placeholder beyond the end, never read). */
  function PairAt(g: seq<real>, t: seq<int>, k: nat): (real, int)
  {
    if k < |g| && k < |t| then (g[k], t[k]) else (0.0, 0)
  }

  /** The samples read out through an index sequence. */
  function Pick(g: seq<real>, t: seq<int>, order: seq<nat>): (r: seq<(real, int)>)
    ensures |r| == |order|
  {
    seq(|order|, i requires 0 <= i < |order| => PairAt(g, t, order[i]))
  }

  /** `sg`, `st` are the samples `g`, `t` in ascending time order. */
  predicate SortedPairsOf(g: seq<real>, t: seq<int>, sg: seq<real>, st: seq<int>)
    requires |g| == |t|
  {
    && |sg| == |g| && |st| == |t| && Ascending(st)
    && multiset(Pairs(sg, st)) == multiset(Pairs(g, t))
  }

  /** Reading out through two index sequences with the same elements gives
      the same samples, in some order. */
  lemma {:induction false} PickRespectsMultiset(g: seq<real>, t: seq<int>, o1: seq<nat>, o2: seq<nat>)
    requires multiset(o1) == multiset(o2)
    ensures multiset(Pick(g, t, o1)) == multiset(Pick(g, t, o2))
    decreases |o1|
  {
    if o1 == [] {
      assert |multiset(o2)| == 0;
    } else {
      var x := o1[0];
      assert x in multiset(o1);
      var k :| 0 <= k < |o2| && o2[k] == x;
      var left, right := o2[..k], o2[k + 1..];
      RemoveOne(o1, o2, k);
      PickRespectsMultiset(g, t, o1[1..], left + right);
      assert o1 == [x] + o1[1..];
      PickConcat(g, t, [x], o1[1..]);
      assert o2 == left + ([x] + right);
      PickConcat(g, t, left, [x] + right);
      PickConcat(g, t, [x], right);
      PickConcat(g, t, left, right);
      Splice(Pick(g, t, [x]), Pick(g, t, o1[1..]), Pick(g, t, left), Pick(g, t, right));
    }
  }

  lemma Splice<T>(p: seq<T>, a: seq<T>, l: seq<T>, r: seq<T>)
    requires multiset(a) == multiset(l + r)
    ensures multiset(p + a) == multiset(l + (p + r))
  {
  }

  /** Taking the same element out of two sequences with equal multisets leaves equal multisets. */
  lemma RemoveOne(o1: seq<nat>, o2: seq<nat>, k: nat)
    requires o1 != [] && k < |o2| && o2[k] == o1[0]
    requires multiset(o1) == multiset(o2)
    ensures multiset(o1[1..]) == multiset(o2[..k] + o2[k + 1..])
  {
    var x := o1[0];
    assert o2 == o2[..k] + [x] + o2[k + 1..];
    assert o1 == [x] + o1[1..];
    assert multiset(o1[1..]) == multiset(o1) - multiset{x};
    assert multiset(o2[..k] + o2[k + 1..]) == multiset(o2) - multiset{x};
  }

  lemma PickConcat(g: seq<real>, t: seq<int>, a: seq<nat>, b: seq<nat>)
    ensures Pick(g, t, a + b) == Pick(g, t, a) + Pick(g, t, b)
  {
  }

  /** Read out through a permutation of the indices, the samples are a
      permutation of the pairs. */
  lemma PermutedPairs(g: seq<real>, t: seq<int>, order: seq<nat>)
    requires |g| == |t|
    requires multiset(order) == multiset(Iota(|g|))
    ensures multiset(Pick(g, t, order)) == multiset(Pairs(g, t))
  {
    PickRespectsMultiset(g, t, order, Iota(|g|));
    assert Pick(g, t, Iota(|g|)) == Pairs(g, t);
  }

  /** The first `i` indices are in time order. */
  predicate SortedUpTo(gtime: seq<int>, s: seq<nat>, i: nat)
    requires IndicesBelow(s, |gtime|) && i <= |s|
  {
    forall p, q :: 0 <= p < q < i ==> gtime[s[p]] <= gtime[s[q]]
  }

  /** std::iota followed by std::sort of the indices by their time stamps
      (an insertion sort here; std::sort promises no more than this). */
  method SortIndices(gtime: seq<int>) returns (indices: seq<nat>)
    ensures |indices| == |gtime| && IndicesBelow(indices, |gtime|)
    ensures multiset(indices) == multiset(Iota(|gtime|))
    ensures forall i, j :: 0 <= i < j < |indices| ==> gtime[indices[i]] <= gtime[indices[j]]
  {
    var n := |gtime|;
    var a := new nat[n](i => i);
    assert a[..] == Iota(n);
    var i := 0;
    while i < n
      invariant 0 <= i <= n && IndicesBelow(a[..], n)
      invariant SortedUpTo(gtime, a[..], i)
      invariant multiset(a[..]) == multiset(Iota(n))
    {
      Insert(gtime, a, i);
      i := i + 1;
    }
    indices := a[..];
    assert SortedUpTo(gtime, indices, n);
  }

  /** During the insertion of the `i`-th index, now at position `j`: apart
      from it the first `i + 1` indices are in time order, and it is not
      later than any index to its right. */
  predicate Inserting(gtime: seq<int>, s: seq<nat>, i: nat, j: nat)
    requires IndicesBelow(s, |gtime|) && j <= i < |s|
  {
    && (forall p, q :: 0 <= p < q <= i && p != j && q != j ==> gtime[s[p]] <= gtime[s[q]])
    && (forall q :: j < q <= i ==> gtime[s[j]] <= gtime[s[q]])
  }

  lemma SwapStep(gtime: seq<int>, s: seq<nat>, i: nat, j: nat)
    requires IndicesBelow(s, |gtime|) && 0 < j <= i < |s|
    requires Inserting(gtime, s, i, j) && gtime[s[j - 1]] > gtime[s[j]]
    ensures IndicesBelow(s[j - 1 := s[j]][j := s[j - 1]], |gtime|)
    ensures Inserting(gtime, s[j - 1 := s[j]][j := s[j - 1]], i, j - 1)
  {
  }

  lemma InsertDone(gtime: seq<int>, s: seq<nat>, i: nat, j: nat)
    requires IndicesBelow(s, |gtime|) && j <= i < |s|
    requires Inserting(gtime, s, i, j) && (j == 0 || gtime[s[j - 1]] <= gtime[s[j]])
    ensures SortedUpTo(gtime, s, i + 1)
  {
    forall p, q | 0 <= p < q < i + 1
      ensures gtime[s[p]] <= gtime[s[q]]
    {
      if q == j && p < j - 1 {
        assert gtime[s[p]] <= gtime[s[j - 1]];
      }
    }
  }

  /** Moves `a[i]` left past the later time stamps, so that the first `i + 1`
      indices are in time order. */
  method Insert(gtime: seq<int>, a: array<nat>, i: nat)
    requires i < a.Length && IndicesBelow(a[..], |gtime|)
    requires SortedUpTo(gtime, a[..], i)
    modifies a
    ensures IndicesBelow(a[..], |gtime|) && SortedUpTo(gtime, a[..], i + 1)
    ensures multiset(a[..]) == old(multiset(a[..]))
  {
    var j := i;
    while j > 0 && gtime[a[j - 1]] > gtime[a[j]]
      invariant 0 <= j <= i && IndicesBelow(a[..], |gtime|)
      invariant Inserting(gtime, a[..], i, j)
      invariant multiset(a[..]) == old(multiset(a[..]))
    {
      ghost var before := a[..];
      SwapStep(gtime, before, i, j);
      a[j - 1], a[j] := a[j], a[j - 1];
      assert a[..] == before[j - 1 := before[j]][j := before[j - 1]];
      j := j - 1;
    }
    InsertDone(gtime, a[..], i, j);
  }

  /** The sorted copies of both series (`sortedgrav`, `sortedtime`). */
  method SortByTime(grav: seq<real>, gtime: seq<int>) returns (sortedgrav: seq<real>, sortedtime: seq<int>)
    requires |grav| == |gtime|
    ensures SortedPairsOf(grav, gtime, sortedgrav, sortedtime)
  {
    var indices := SortIndices(gtime);
    sortedgrav, sortedtime := [], [];
    var i := 0;
    while i < |indices|
      invariant 0 <= i <= |indices| && |sortedgrav| == i && |sortedtime| == i
      invariant forall k :: 0 <= k < i ==> sortedgrav[k] == grav[indices[k]] && sortedtime[k] == gtime[indices[k]]
    {
      sortedgrav := sortedgrav + [grav[indices[i]]];
      sortedtime := sortedtime + [gtime[indices[i]]];
      i := i + 1;
    }
    PermutedPairs(grav, gtime, indices);
    assert Pairs(sortedgrav, sortedtime) == Pick(grav, gtime, indices);
  }
}
