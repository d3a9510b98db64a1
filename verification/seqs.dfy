/** Order-preserving filtering over sequences, and the subsequence relation it produces. */
module Seqs {

  /** `a` can be obtained from `b` by deleting elements, keeping the order of the rest. */
  predicate IsSubseq<T(==)>(a: seq<T>, b: seq<T>)
    decreases |b|
  {
    || |a| == 0
    || (&& |b| > 0
        && (|| (|a| > 0 && a[|a| - 1] == b[|b| - 1] && IsSubseq(a[..|a| - 1], b[..|b| - 1]))
            || IsSubseq(a, b[..|b| - 1])))
  }

  /** Every subsequence relation composes: a subsequence of a subsequence is a subsequence. */
  lemma {:induction false} SubseqTransitive<T>(a: seq<T>, b: seq<T>, c: seq<T>)
    requires IsSubseq(a, b) && IsSubseq(b, c)
    ensures IsSubseq(a, c)
    decreases |c|
  {
    if |a| > 0 {
      assert |b| > 0 && |c| > 0;
      var c' := c[..|c| - 1];
      if IsSubseq(b, c') {
        SubseqTransitive(a, b, c');
      } else {
        assert |b| > 0 && b[|b| - 1] == c[|c| - 1];
        var b' := b[..|b| - 1];
        assert IsSubseq(b', c');
        if |a| > 0 && a[|a| - 1] == b[|b| - 1] && IsSubseq(a[..|a| - 1], b') {
          SubseqTransitive(a[..|a| - 1], b', c');
        } else {
          assert IsSubseq(a, b');
          SubseqTransitive(a, b', c');
        }
      }
    }
  }

  /** Every sequence is a subsequence of itself. */
  lemma {:induction false} SubseqReflexive<T>(xs: seq<T>)
    ensures IsSubseq(xs, xs)
  {
    if |xs| > 0 {
      SubseqReflexive(xs[..|xs| - 1]);
    }
  }

  /**
   * The elements of `xs` that satisfy `p`, in their original order: a left-to-right pass
   * that appends each kept element, as the source's filter loops do.
   */
  function Filter<T>(xs: seq<T>, p: T -> bool): seq<T>
  {
    if |xs| == 0 then []
    else
      var last := xs[|xs| - 1];
      Filter(xs[..|xs| - 1], p) + (if p(last) then [last] else [])
  }

  /** Filtering keeps a subsequence of the input, so the kept elements stay in load order. */
  lemma {:induction false} FilterIsSubseq<T>(xs: seq<T>, p: T -> bool)
    ensures IsSubseq(Filter(xs, p), xs)
  {
    if |xs| > 0 {
      var init, last := xs[..|xs| - 1], xs[|xs| - 1];
      FilterIsSubseq(init, p);
      var r0 := Filter(init, p);
      if p(last) {
        var r := r0 + [last];
        assert r[..|r| - 1] == r0;
        assert Filter(xs, p) == r;
      } else {
        assert Filter(xs, p) == r0;
      }
    }
  }

  /**
   * Filtering keeps every copy of each element that satisfies `p` and no copy of any other
   * element.
   */
  lemma {:induction false} FilterCounts<T>(xs: seq<T>, p: T -> bool)
    ensures multiset(Filter(xs, p)) <= multiset(xs)
    ensures forall x :: x in xs ==> multiset(Filter(xs, p))[x] == if p(x) then multiset(xs)[x] else 0
  {
    if |xs| > 0 {
      var init, last := xs[..|xs| - 1], xs[|xs| - 1];
      assert xs == init + [last];
      FilterCounts(init, p);
      var tail := if p(last) then [last] else [];
      assert Filter(xs, p) == Filter(init, p) + tail;
      assert multiset(Filter(xs, p)) == multiset(Filter(init, p)) + multiset(tail);
      assert multiset(xs) == multiset(init) + multiset([last]);
      forall x | x in xs
        ensures multiset(Filter(xs, p))[x] == if p(x) then multiset(xs)[x] else 0
      {
        if x !in init {
          assert multiset(init)[x] == 0;
          assert multiset(Filter(init, p))[x] == 0;
        }
      }
    }
  }

  /**
   * What filtering keeps: a subsequence of the input in which every element that satisfies
   * `p` has all its copies and every other element has none.
   */
  lemma FilterSelects<T>(xs: seq<T>, p: T -> bool)
    ensures IsSubseq(Filter(xs, p), xs)
    ensures multiset(Filter(xs, p)) <= multiset(xs)
    ensures forall x :: x in xs ==> multiset(Filter(xs, p))[x] == if p(x) then multiset(xs)[x] else 0
  {
    FilterIsSubseq(xs, p);
    FilterCounts(xs, p);
  }

  /** The elements of `xs` whose `key` equals `k`, in their original order. */
  function FilterBy<T(==)>(xs: seq<T>, key: T -> int, k: int): (r: seq<T>)
    ensures IsSubseq(r, xs)
    ensures multiset(r) <= multiset(xs)
    ensures forall x :: x in xs ==> multiset(r)[x] == if key(x) == k then multiset(xs)[x] else 0
  {
    FilterSelects(xs, x => key(x) == k);
    Filter(xs, x => key(x) == k)
  }

  /** Filtering depends only on what the predicate says about the elements present. */
  lemma {:induction false} FilterExtensional<T>(xs: seq<T>, p: T -> bool, q: T -> bool)
    requires forall x :: x in xs ==> p(x) == q(x)
    ensures Filter(xs, p) == Filter(xs, q)
  {
    if |xs| > 0 {
      var init, last := xs[..|xs| - 1], xs[|xs| - 1];
      assert p(last) == q(last);
      assert forall x :: x in init ==> x in xs;
      FilterExtensional(init, p, q);
      assert Filter(xs, p) == Filter(init, p) + (if p(last) then [last] else []);
      assert Filter(xs, q) == Filter(init, q) + (if q(last) then [last] else []);
    }
  }

  /** Filtering with a predicate every element satisfies changes nothing. */
  lemma {:induction false} FilterKeepsAll<T>(xs: seq<T>, p: T -> bool)
    requires forall x :: x in xs ==> p(x)
    ensures Filter(xs, p) == xs
  {
    if |xs| > 0 {
      var init, last := xs[..|xs| - 1], xs[|xs| - 1];
      assert p(last);
      assert Filter(xs, p) == Filter(init, p) + [last];
      assert forall x :: x in init ==> x in xs;
      FilterKeepsAll(init, p);
      assert init + [last] == xs;
    }
  }

  /** Filtering by `p` and then by `q` is one filter by their conjunction. */
  lemma {:induction false} FilterFuse<T>(xs: seq<T>, p: T -> bool, q: T -> bool, pq: T -> bool)
    requires forall x :: x in xs ==> (pq(x) <==> p(x) && q(x))
    ensures Filter(Filter(xs, p), q) == Filter(xs, pq)
  {
    if |xs| > 0 {
      var init, last := xs[..|xs| - 1], xs[|xs| - 1];
      assert forall x :: x in init ==> x in xs;
      FilterFuse(init, p, q, pq);
      var a := Filter(init, p);
      assert Filter(xs, pq) == Filter(init, pq) + (if pq(last) then [last] else []);
      if p(last) {
        assert Filter(xs, p) == a + [last];
        assert (a + [last])[..|a|] == a;
        assert Filter(a + [last], q) == Filter(a, q) + (if q(last) then [last] else []);
      } else {
        assert Filter(xs, p) == a;
      }
    }
  }


  /** A key filter is the filter by any predicate that tests the same key equality. */
  lemma FilterByIsFilter<T>(xs: seq<T>, key: T -> int, k: int, p: T -> bool)
    requires forall x :: x in xs ==> p(x) == (key(x) == k)
    ensures FilterBy(xs, key, k) == Filter(xs, p)
  {
    FilterExtensional(xs, x => key(x) == k, p);
  }
}
