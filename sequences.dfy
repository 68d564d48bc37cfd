/** Bounded FIFO histories: keeping the most recent `n` elements of a
    sequence, as both scrolling engines do when they evict from the front. */
module Sequences {

  /** `n` copies of `x`. */
  function Repeat<T>(x: T, n: nat): (r: seq<T>)
    ensures |r| == n && forall i :: 0 <= i < n ==> r[i] == x
  {
    seq(n, _ => x)
  }

  /** The last `n` elements of `s` (all of `s` when it is no longer). */
  function LastN<T>(s: seq<T>, n: nat): (r: seq<T>)
    ensures |r| == if |s| <= n then |s| else n
    ensures r == s[|s| - |r|..]
  {
    if |s| <= n then s else s[|s| - n..]
  }

  /** A suffix of `s` that is no longer than `n`, and as long as `n` allows,
      is the last `n` elements of `s`: what a dequeue-while-too-long loop
      leaves. */
  lemma SuffixIsLastN<T>(s: seq<T>, r: seq<T>, n: int)
    requires 0 <= n && |r| <= |s| && r == s[|s| - |r|..]
    requires |r| <= n && |r| >= (if |s| <= n then |s| else n)
    ensures r == LastN(s, n)
  {
  }

  /** Trimming before appending more changes nothing once the result is
      trimmed again: evicting early is the same as evicting late. */
  lemma {:induction false} LastNOfLastN<T>(s: seq<T>, t: seq<T>, n: nat)
    ensures LastN(LastN(s, n) + t, n) == LastN(s + t, n)
  {
    var u := LastN(s, n);
    var a, b := LastN(u + t, n), LastN(s + t, n);
    assert |a| == |b|;
    forall k | 0 <= k < |a|
      ensures a[k] == b[k]
    {
      var j := |u + t| - |a| + k;
      assert a[k] == (u + t)[j];
      assert b[k] == (s + t)[|s + t| - |b| + k];
      if j < |u| {
        assert u == s[|s| - |u|..];
        assert (u + t)[j] == u[j] == s[|s| - |u|..][j];
      } else {
        assert (u + t)[j] == t[j - |u|];
      }
    }
  }

  /** One push followed by trimming, repeated for every element of `xs`:
      the sample queue after a run of `AddData` calls, or the line buffer
      after a run of insertions. */
  function PushAll<T>(q: seq<T>, xs: seq<T>, n: nat): seq<T>
    decreases |xs|
  {
    if xs == [] then q else PushAll(LastN(q + [xs[0]], n), xs[1..], n)
  }

  /** After at least one push, the queue holds exactly the last `n` values
      of everything it ever held, in order. */
  lemma {:induction false} PushAllIsLastN<T>(q: seq<T>, xs: seq<T>, n: nat)
    requires xs != [] || |q| <= n
    ensures PushAll(q, xs, n) == LastN(q + xs, n)
    ensures |PushAll(q, xs, n)| <= n
    decreases |xs|
  {
    if xs != [] {
      var q' := LastN(q + [xs[0]], n);
      assert |q'| <= n;
      PushAllIsLastN(q', xs[1..], n);
      LastNOfLastN(q + [xs[0]], xs[1..], n);
      assert q + [xs[0]] + xs[1..] == q + xs;
    }
  }
}
