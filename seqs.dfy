/** The two array combinators the reducer and the statistics are built from:
    `filter` (keep the elements that satisfy a predicate, in order) and `map`
    (apply a function to every element), together with the notion of an
    order-preserving subsequence that characterises what `filter` returns. */
module Seqs {

  /** `s` can be obtained from `t` by deleting elements, without reordering. */
  ghost predicate IsSubsequence<T>(s: seq<T>, t: seq<T>)
    decreases |t|
  {
    if s == [] then true
    else if t == [] then false
    else (s[0] == t[0] && IsSubsequence(s[1..], t[1..])) || IsSubsequence(s, t[1..])
  }

  /** JavaScript's `Array.prototype.filter`: the elements of `xs` for which
      `keep` holds, in their original order. */
  function Filter<T>(xs: seq<T>, keep: T -> bool): (r: seq<T>)
    ensures |r| <= |xs|
    ensures forall i :: 0 <= i < |r| ==> keep(r[i])
    ensures (forall i :: 0 <= i < |xs| ==> keep(xs[i])) ==> r == xs
  {
    if xs == [] then []
    else if keep(xs[0]) then [xs[0]] + Filter(xs[1..], keep)
    else Filter(xs[1..], keep)
  }

  /** What `filter` returns comes from its input, and every element of the
      input that passes the test is in it. */
  lemma {:induction false} FilterMembers<T>(xs: seq<T>, keep: T -> bool)
    ensures forall i :: 0 <= i < |Filter(xs, keep)| ==> Filter(xs, keep)[i] in xs
    ensures forall i :: 0 <= i < |xs| && keep(xs[i]) ==> xs[i] in Filter(xs, keep)
    decreases |xs|
  {
    if xs != [] {
      FilterMembers(xs[1..], keep);
      var r, rest := Filter(xs, keep), Filter(xs[1..], keep);
      assert xs == [xs[0]] + xs[1..];
      if keep(xs[0]) {
        assert r == [xs[0]] + rest;
      }
    }
  }

  /** What `filter` keeps is an order-preserving subsequence of its input. */
  lemma {:induction false} FilterIsSubsequence<T>(xs: seq<T>, keep: T -> bool)
    ensures IsSubsequence(Filter(xs, keep), xs)
    decreases |xs|
  {
    if xs != [] {
      FilterIsSubsequence(xs[1..], keep);
      var r := Filter(xs, keep);
      if keep(xs[0]) {
        assert r[0] == xs[0] && r[1..] == Filter(xs[1..], keep);
      } else if r != [] {
        assert r == Filter(xs[1..], keep);
      }
    }
  }

  /** Filtering a concatenation filters each part. */
  lemma {:induction false} FilterAppend<T>(a: seq<T>, b: seq<T>, keep: T -> bool)
    ensures Filter(a + b, keep) == Filter(a, keep) + Filter(b, keep)
    decreases |a|
  {
    if a == [] {
      assert a + b == b;
    } else {
      assert (a + b)[0] == a[0];
      assert (a + b)[1..] == a[1..] + b;
      FilterAppend(a[1..], b, keep);
    }
  }

  /** Filtering twice is filtering once by the conjunction of the predicates. */
  lemma {:induction false} FilterFilter<T>(xs: seq<T>, p: T -> bool, q: T -> bool, pq: T -> bool)
    requires forall x :: pq(x) == (p(x) && q(x))
    ensures Filter(Filter(xs, p), q) == Filter(xs, pq)
    decreases |xs|
  {
    if xs != [] {
      FilterFilter(xs[1..], p, q, pq);
      if p(xs[0]) {
        var f := Filter(xs, p);
        assert f == [xs[0]] + Filter(xs[1..], p);
        assert f[0] == xs[0] && f[1..] == Filter(xs[1..], p);
      }
    }
  }

  /** Complementary filters split the input: their lengths add up to its length. */
  lemma {:induction false} FilterComplementLength<T>(xs: seq<T>, p: T -> bool, q: T -> bool)
    requires forall x :: q(x) == !p(x)
    ensures |Filter(xs, p)| + |Filter(xs, q)| == |xs|
    decreases |xs|
  {
    if xs != [] {
      FilterComplementLength(xs[1..], p, q);
    }
  }

  /** A subsequence of `xs` whose elements all satisfy `keep` is no longer
      than `Filter(xs, keep)`. */
  lemma {:induction false} KeptSubsequenceLength<T>(s: seq<T>, xs: seq<T>, keep: T -> bool)
    requires IsSubsequence(s, xs)
    requires forall i :: 0 <= i < |s| ==> keep(s[i])
    ensures |s| <= |Filter(xs, keep)|
    decreases |xs|
  {
    if s != [] {
      if s[0] == xs[0] && IsSubsequence(s[1..], xs[1..]) {
        KeptSubsequenceLength(s[1..], xs[1..], keep);
      } else {
        KeptSubsequenceLength(s, xs[1..], keep);
      }
    }
  }

  /** `Filter(xs, keep)` is the ONLY subsequence of `xs` that consists of kept
      elements and has that length: the result of `filter` is determined by
      these three properties. */
  lemma {:induction false} FilterUnique<T>(s: seq<T>, xs: seq<T>, keep: T -> bool)
    requires IsSubsequence(s, xs)
    requires forall i :: 0 <= i < |s| ==> keep(s[i])
    requires |s| == |Filter(xs, keep)|
    ensures s == Filter(xs, keep)
    decreases |xs|
  {
    if xs == [] {
    } else if s == [] {
    } else if s[0] == xs[0] && IsSubsequence(s[1..], xs[1..]) {
      assert keep(xs[0]);
      FilterUnique(s[1..], xs[1..], keep);
    } else {
      KeptSubsequenceLength(s, xs[1..], keep);
      if keep(xs[0]) {
        assert false;
      } else {
        FilterUnique(s, xs[1..], keep);
      }
    }
  }

  /** JavaScript's `Array.prototype.map`: `f` applied to every element. */
  function Map<T, U>(xs: seq<T>, f: T -> U): (r: seq<U>)
    ensures |r| == |xs|
    ensures forall i :: 0 <= i < |xs| ==> r[i] == f(xs[i])
  {
    if xs == [] then [] else [f(xs[0])] + Map(xs[1..], f)
  }
}
