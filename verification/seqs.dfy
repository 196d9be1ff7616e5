/** `Array.prototype.filter` and the facts the list views need about it. */
module Seqs {

  /** `a` can be obtained from `b` by deleting elements: an order-preserving subsequence. */
  predicate IsSubseq<T(==)>(a: seq<T>, b: seq<T>)
    decreases |b|
  {
    if |a| == 0 then true
    else if |b| == 0 then false
    else (a[0] == b[0] && IsSubseq(a[1..], b[1..])) || IsSubseq(a, b[1..])
  }

  /** The elements of `s` that satisfy `p`, in their original order. */
  function Filter<T>(s: seq<T>, p: T -> bool): (r: seq<T>)
    ensures |r| <= |s|
    ensures forall i :: 0 <= i < |r| ==> r[i] in s && p(r[i])
    ensures forall i :: 0 <= i < |s| && p(s[i]) ==> s[i] in r
    ensures forall i {:trigger multiset(r)[s[i]]} :: 0 <= i < |s| ==> multiset(r)[s[i]] == if p(s[i]) then multiset(s)[s[i]] else 0
    decreases |s|
  {
    if |s| == 0 then []
    else
      assert s == [s[0]] + s[1..];
      if p(s[0]) then [s[0]] + Filter(s[1..], p)
      else Filter(s[1..], p)
  }

  /** The filter keeps every occurrence of a passing element and none of a failing one. */
  lemma FilterMultiset<T>(s: seq<T>, p: T -> bool)
    ensures forall x :: multiset(Filter(s, p))[x] == if p(x) then multiset(s)[x] else 0
  {
    var r := Filter(s, p);
    forall x
      ensures multiset(r)[x] == if p(x) then multiset(s)[x] else 0
    {
      if x in s {
        var i :| 0 <= i < |s| && s[i] == x;
        assert multiset(r)[s[i]] == if p(s[i]) then multiset(s)[s[i]] else 0;
      } else {
        assert x !in r;
      }
    }
  }

  /** Filtering a list with a given head: keep the head or not, then filter the rest. */
  lemma FilterCons<T>(x: T, s: seq<T>, p: T -> bool)
    ensures Filter([x] + s, p) == (if p(x) then [x] else []) + Filter(s, p)
  {
    assert ([x] + s)[1..] == s;
  }

  /** Filtering a four-element list, spelled out per element. */
  lemma FilterOfFour<T>(a: T, b: T, c: T, d: T, p: T -> bool)
    ensures Filter([a, b, c, d], p)
         == (if p(a) then [a] else []) + ((if p(b) then [b] else [])
          + ((if p(c) then [c] else []) + (if p(d) then [d] else [])))
  {
    FilterCons(d, [], p);
    assert [d] + [] == [d];
    FilterCons(c, [d], p);
    assert [c] + [d] == [c, d];
    FilterCons(b, [c, d], p);
    assert [b] + [c, d] == [b, c, d];
    FilterCons(a, [b, c, d], p);
    assert [a] + [b, c, d] == [a, b, c, d];
  }

  /** The filtered list is an order-preserving subsequence of its source. */
  lemma {:induction false} FilterIsSubseq<T>(s: seq<T>, p: T -> bool)
    ensures IsSubseq(Filter(s, p), s)
    decreases |s|
  {
    if |s| > 0 {
      FilterIsSubseq(s[1..], p);
      var rest := Filter(s[1..], p);
      if p(s[0]) {
        assert Filter(s, p)[1..] == rest;
      } else {
        SubseqSkip(rest, s);
      }
    }
  }

  /** Any subsequence of the tail of `b` is a subsequence of `b`. */
  lemma SubseqSkip<T>(a: seq<T>, b: seq<T>)
    requires |b| > 0 && IsSubseq(a, b[1..])
    ensures IsSubseq(a, b)
  {
  }

  /** A predicate every element satisfies keeps the whole list, in order. */
  lemma {:induction false} FilterKeepsAll<T>(s: seq<T>, p: T -> bool)
    requires forall x :: x in s ==> p(x)
    ensures Filter(s, p) == s
    decreases |s|
  {
    if |s| > 0 {
      assert s[0] in s;
      FilterKeepsAll(s[1..], p);
      assert [s[0]] + s[1..] == s;
    }
  }

  /** Filtering twice is filtering once by the conjunction. */
  lemma {:induction false} FilterFilter<T>(s: seq<T>, p: T -> bool, q: T -> bool)
    ensures Filter(Filter(s, p), q) == Filter(s, x => p(x) && q(x))
    decreases |s|
  {
    if |s| > 0 {
      FilterFilter(s[1..], p, q);
      if p(s[0]) {
        assert Filter([s[0]] + Filter(s[1..], p), q)
            == (if q(s[0]) then [s[0]] else []) + Filter(Filter(s[1..], p), q) by {
          assert ([s[0]] + Filter(s[1..], p))[1..] == Filter(s[1..], p);
        }
      }
    }
  }

  /** Filtering distributes over concatenation. */
  lemma {:induction false} FilterConcat<T>(a: seq<T>, b: seq<T>, p: T -> bool)
    ensures Filter(a + b, p) == Filter(a, p) + Filter(b, p)
    decreases |a|
  {
    if |a| == 0 {
      assert a + b == b;
    } else {
      assert (a + b)[0] == a[0] && (a + b)[1..] == a[1..] + b;
      FilterConcat(a[1..], b, p);
    }
  }

  predicate ExactlyOne(a: bool, b: bool, c: bool) {
    (if a then 1 else 0) + (if b then 1 else 0) + (if c then 1 else 0) == 1
  }

  /**
   * When every element satisfies exactly one of three predicates, the three
   * filtered lengths add up to the length of the list.
   */
  lemma {:induction false} FilterPartition3<T>(s: seq<T>, p: T -> bool, q: T -> bool, r: T -> bool)
    requires forall x :: x in s ==> ExactlyOne(p(x), q(x), r(x))
    ensures |Filter(s, p)| + |Filter(s, q)| + |Filter(s, r)| == |s|
    decreases |s|
  {
    if |s| > 0 {
      assert s[0] in s;
      assert forall x :: x in s[1..] ==> x in s;
      FilterPartition3(s[1..], p, q, r);
    }
  }

  /** Predicates that agree on the elements of `s` filter it alike. */
  lemma {:induction false} FilterCongruent<T>(s: seq<T>, p: T -> bool, q: T -> bool)
    requires forall x :: x in s ==> p(x) == q(x)
    ensures Filter(s, p) == Filter(s, q)
    decreases |s|
  {
    if |s| > 0 {
      assert s[0] in s;
      assert forall x :: x in s[1..] ==> x in s;
      FilterCongruent(s[1..], p, q);
    }
  }
}
