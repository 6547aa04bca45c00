/** Arithmetic mean over the estimator dimension (the `torch.mean(..., dim=1)`
    reductions of the target builder) and the facts about it that the builder's
    properties rest on: a mean lies between any bounds of its entries, and it does
    not depend on the order of the entries. */
module Averages {

  /** Sum of a sequence of reals, folded from the front. */
  function Sum(s: seq<real>): real
  {
    if s == [] then 0.0 else s[0] + Sum(s[1..])
  }

  /** Unweighted arithmetic mean. The mean of nothing is undefined (a NaN in
      the source), so an empty sequence is excluded. */
  function Mean(s: seq<real>): real
    requires |s| > 0
  {
    Sum(s) / (|s| as real)
  }

  lemma {:induction false} SumConcat(a: seq<real>, b: seq<real>)
    ensures Sum(a + b) == Sum(a) + Sum(b)
  {
    if a == [] {
      assert a + b == b;
    } else {
      assert (a + b)[1..] == a[1..] + b;
      SumConcat(a[1..], b);
    }
  }

  /** With a single entry the mean is that entry. */
  lemma MeanSingleton(x: real)
    ensures Mean([x]) == x
  {
    assert Sum([x]) == x + Sum([]);
  }

  lemma {:induction false} SumAtLeast(s: seq<real>, lo: real)
    requires forall k :: 0 <= k < |s| ==> lo <= s[k]
    ensures (|s| as real) * lo <= Sum(s)
  {
    if s != [] {
      SumAtLeast(s[1..], lo);
      assert (|s| as real) * lo == lo + (|s[1..]| as real) * lo;
    }
  }

  lemma {:induction false} SumAtMost(s: seq<real>, hi: real)
    requires forall k :: 0 <= k < |s| ==> s[k] <= hi
    ensures Sum(s) <= (|s| as real) * hi
  {
    if s != [] {
      SumAtMost(s[1..], hi);
      assert (|s| as real) * hi == hi + (|s[1..]| as real) * hi;
    }
  }

  /** A mean is at least any lower bound of its entries. */
  lemma MeanAtLeast(s: seq<real>, lo: real)
    requires |s| > 0
    requires forall k :: 0 <= k < |s| ==> lo <= s[k]
    ensures lo <= Mean(s)
  {
    SumAtLeast(s, lo);
    var n := |s| as real;
    assert (n * lo) / n == lo;
  }

  /** A mean is at most any upper bound of its entries. */
  lemma MeanAtMost(s: seq<real>, hi: real)
    requires |s| > 0
    requires forall k :: 0 <= k < |s| ==> s[k] <= hi
    ensures Mean(s) <= hi
  {
    SumAtMost(s, hi);
    var n := |s| as real;
    assert (n * hi) / n == hi;
  }

  /** p lists every index of [0, n) exactly once. */
  predicate IsPermutation(p: seq<nat>, n: nat)
  {
    && |p| == n
    && (forall k :: 0 <= k < n ==> p[k] < n)
    && (forall j, k :: 0 <= j < k < n ==> p[j] != p[k])
    && (forall j :: 0 <= j < n ==> j in p)
  }

  /** Reorders s so that position k holds s[p[k]]. */
  function Permute<T>(s: seq<T>, p: seq<nat>): seq<T>
    requires IsPermutation(p, |s|)
  {
    seq(|p|, k requires 0 <= k < |p| => s[p[k]])
  }

  /** Removing from a permutation of [0, n+1) the position that holds n leaves
      a permutation of [0, n). */
  lemma DropLargest(p: seq<nat>, n: nat, k0: nat)
    requires IsPermutation(p, n + 1)
    requires k0 < n + 1 && p[k0] == n
    ensures IsPermutation(p[..k0] + p[k0 + 1..], n)
  {
    var q := p[..k0] + p[k0 + 1..];
    assert forall k :: 0 <= k < n ==> q[k] == if k < k0 then p[k] else p[k + 1];
    forall j | 0 <= j < n
      ensures j in q
    {
      assert j in p;
      var k :| 0 <= k < n + 1 && p[k] == j;
      if k < k0 {
        assert q[k] == j;
      } else {
        assert k != k0;
        assert q[k - 1] == j;
      }
    }
  }

  /** Splitting a permuted sequence at the position k0 that receives the last
      entry: the rest is the permutation of the other entries by p without k0. */
  lemma PermuteSplit(s: seq<real>, p: seq<nat>, k0: nat)
    requires |s| > 0 && IsPermutation(p, |s|)
    requires k0 < |p| && p[k0] == |s| - 1
    ensures IsPermutation(p[..k0] + p[k0 + 1..], |s| - 1)
    ensures Permute(s, p) == Permute(s, p)[..k0] + [s[|s| - 1]] + Permute(s, p)[k0 + 1..]
    ensures Permute(s[..|s| - 1], p[..k0] + p[k0 + 1..])
         == Permute(s, p)[..k0] + Permute(s, p)[k0 + 1..]
  {
    DropLargest(p, |s| - 1, k0);
  }

  /** Reordering the entries does not change their sum. */
  lemma {:induction false} SumPermute(s: seq<real>, p: seq<nat>)
    requires IsPermutation(p, |s|)
    ensures Sum(Permute(s, p)) == Sum(s)
    decreases |s|
  {
    if s != [] {
      var n := |s| - 1;
      assert n in p;
      var k0 :| 0 <= k0 < |p| && p[k0] == n;
      PermuteSplit(s, p, k0);
      var w := Permute(s, p);
      var left, right := w[..k0], w[k0 + 1..];
      SumPermute(s[..n], p[..k0] + p[k0 + 1..]);
      // induction hypothesis: Sum(left + right) == Sum(s[..n])
      SumConcat(left, right);
      SumConcat(left + [s[n]], right);
      SumConcat(left, [s[n]]);
      assert Sum([s[n]]) == s[n] + Sum([]);
      assert s == s[..n] + [s[n]];
      SumConcat(s[..n], [s[n]]);
    }
  }

  /** Reordering the entries does not change their mean. */
  lemma MeanPermute(s: seq<real>, p: seq<nat>)
    requires |s| > 0 && IsPermutation(p, |s|)
    ensures Mean(Permute(s, p)) == Mean(s)
  {
    SumPermute(s, p);
  }
}
