/** Order-keeping selection from a sequence, used by every list filter of the core. */
module Sequences {

  /** The elements `x` of `s` with `p(x) == keep`, in their order in `s` (`Array.prototype.filter`). */
  function Select<T(==,!new)>(s: seq<T>, p: T -> bool, keep: bool): (r: seq<T>)
    ensures |r| <= |s|
    ensures forall x :: x in r <==> x in s && p(x) == keep
  {
    if s == [] then []
    else
      var n := |s| - 1;
      assert s == s[..n] + [s[n]];
      var init := Select(s[..n], p, keep);
      if p(s[n]) == keep then init + [s[n]] else init
  }

  /** `idx` picks, in increasing positions of `b`, the elements of `a`. */
  ghost predicate IsEmbedding<T>(a: seq<T>, b: seq<T>, idx: seq<int>) {
    && |idx| == |a|
    && (forall k :: 0 <= k < |idx| ==> 0 <= idx[k] < |b| && b[idx[k]] == a[k])
    && (forall k, l :: 0 <= k < l < |idx| ==> idx[k] < idx[l])
  }

  /** `a` is `b` with some elements left out and the rest in their order. */
  ghost predicate IsSubsequence<T>(a: seq<T>, b: seq<T>) {
    exists idx :: IsEmbedding(a, b, idx)
  }

  /** Selecting keeps order: the result is a subsequence of the input. */
  lemma {:induction false} SelectSubsequence<T(!new)>(s: seq<T>, p: T -> bool, keep: bool)
    ensures IsSubsequence(Select(s, p, keep), s)
  {
    var idx := SelectEmbedding(s, p, keep);
  }

  lemma {:induction false} SelectEmbedding<T(!new)>(s: seq<T>, p: T -> bool, keep: bool) returns (idx: seq<int>)
    ensures IsEmbedding(Select(s, p, keep), s, idx)
  {
    if s == [] {
      idx := [];
    } else {
      var n := |s| - 1;
      var i0 := SelectEmbedding(s[..n], p, keep);
      if p(s[n]) == keep {
        idx := i0 + [n];
      } else {
        idx := i0;
      }
    }
  }

  /** The two selections for one predicate split the input: together they hold every element exactly as often. */
  lemma {:induction false} SelectPartition<T(!new)>(s: seq<T>, p: T -> bool)
    ensures multiset(Select(s, p, true)) + multiset(Select(s, p, false)) == multiset(s)
  {
    if s != [] {
      var n := |s| - 1;
      SelectPartition(s[..n], p);
      assert s == s[..n] + [s[n]];
    }
  }

  /** Selecting again with the same predicate changes nothing. */
  lemma {:induction false} SelectIdempotent<T(!new)>(s: seq<T>, p: T -> bool, keep: bool)
    ensures Select(Select(s, p, keep), p, keep) == Select(s, p, keep)
  {
    if s != [] {
      var n := |s| - 1;
      SelectIdempotent(s[..n], p, keep);
      var init := Select(s[..n], p, keep);
      if p(s[n]) == keep {
        assert (init + [s[n]])[..|init|] == init;
      }
    }
  }

  /** An embedding into the tail of `b`, shifted by one, embeds into `b`; and `b[0]` may be put in front. */
  lemma EmbeddingShift<T>(a: seq<T>, b: seq<T>, idx: seq<int>) returns (shifted: seq<int>)
    requires b != [] && IsEmbedding(a, b[1..], idx)
    ensures IsEmbedding(a, b, shifted)
    ensures IsEmbedding([b[0]] + a, b, [0] + shifted)
  {
    shifted := seq(|idx|, k requires 0 <= k < |idx| => idx[k] + 1);
    forall k | 0 <= k < |idx| ensures 1 <= shifted[k] < |b| && b[shifted[k]] == a[k] {
      assert b[shifted[k]] == b[1..][idx[k]];
    }
    EmbeddingCons(a, b, shifted);
  }

  /** An embedding that avoids position 0 extends to one that also picks `b[0]` first. */
  lemma EmbeddingCons<T>(a: seq<T>, b: seq<T>, idx: seq<int>)
    requires b != [] && |idx| == |a|
    requires forall k :: 0 <= k < |idx| ==> 1 <= idx[k] < |b| && b[idx[k]] == a[k]
    requires forall k, l :: 0 <= k < l < |idx| ==> idx[k] < idx[l]
    ensures IsEmbedding(a, b, idx)
    ensures IsEmbedding([b[0]] + a, b, [0] + idx)
  {
    var c, a2 := [0] + idx, [b[0]] + a;
    forall k | 1 <= k < |c| ensures c[k] == idx[k - 1] && a2[k] == a[k - 1] {
    }
  }

  /** When every element has `p(x) == keep`, selecting keeps them all. */
  lemma {:induction false} SelectAll<T(!new)>(s: seq<T>, p: T -> bool, keep: bool)
    requires forall i :: 0 <= i < |s| ==> p(s[i]) == keep
    ensures Select(s, p, keep) == s
  {
    if s != [] {
      var n := |s| - 1;
      SelectAll(s[..n], p, keep);
      assert s == s[..n] + [s[n]];
    }
  }

  /** An element appended at the end is selected or not by itself. */
  lemma SelectSnoc<T(!new)>(s: seq<T>, x: T, p: T -> bool, keep: bool)
    ensures Select(s + [x], p, keep) == Select(s, p, keep) + (if p(x) == keep then [x] else [])
  {
    assert (s + [x])[..|s|] == s;
  }
}
