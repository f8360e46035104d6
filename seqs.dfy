/** Sequence helpers shared by the model: order-preserving filtering and subsequences. */
module Seqs {

  /** `a` can be obtained from `b` by deleting elements, keeping the order of the rest. */
  predicate IsSubsequence<T(==)>(a: seq<T>, b: seq<T>)
    decreases |b|
  {
    if a == [] then true
    else if b == [] then false
    else if a[0] == b[0] then IsSubsequence(a[1..], b[1..])
    else IsSubsequence(a, b[1..])
  }

  /** Swift's `filter`: the elements of `s` that `keep` accepts, in their original order. */
  function Filter<T(==)>(s: seq<T>, keep: T -> bool): (r: seq<T>)
    ensures |r| <= |s|
    ensures multiset(r) <= multiset(s)
    ensures forall i :: 0 <= i < |r| ==> keep(r[i])
    ensures forall i :: 0 <= i < |s| && keep(s[i]) ==> s[i] in r
  {
    if s == [] then []
    else
      assert s == [s[0]] + s[1..];
      assert forall i :: 1 <= i < |s| ==> s[i] == s[1..][i - 1];
      if keep(s[0]) then [s[0]] + Filter(s[1..], keep) else Filter(s[1..], keep)
  }

  /** Everything Filter keeps comes from `s`. */
  lemma FilterMember<T>(s: seq<T>, keep: T -> bool, x: T)
    requires x in Filter(s, keep)
    ensures x in s && keep(x)
  {
    assert x in multiset(Filter(s, keep));
  }

  /** `x` survives Filter exactly when it occurs in `s` and `keep` accepts it. */
  lemma FilterContains<T>(s: seq<T>, keep: T -> bool, x: T)
    ensures x in Filter(s, keep) <==> x in s && keep(x)
  {
    if x in Filter(s, keep) {
      FilterMember(s, keep, x);
    }
  }

  /** Filter keeps every occurrence of an accepted value and none of a rejected one. */
  lemma {:induction false} FilterCount<T>(s: seq<T>, keep: T -> bool, x: T)
    ensures multiset(Filter(s, keep))[x] == if keep(x) then multiset(s)[x] else 0
  {
    if s != [] {
      var t := s[1..];
      FilterCount(t, keep, x);
      assert s == [s[0]] + t;
      if keep(s[0]) {
        assert Filter(s, keep) == [s[0]] + Filter(t, keep);
      } else {
        assert Filter(s, keep) == Filter(t, keep);
      }
    }
  }

  /** Filter only deletes elements: the order of the kept ones is that of `s`. */
  lemma {:induction false} FilterIsSubsequence<T>(s: seq<T>, keep: T -> bool)
    ensures IsSubsequence(Filter(s, keep), s)
  {
    if s != [] {
      var rest := Filter(s[1..], keep);
      FilterIsSubsequence(s[1..], keep);
      if keep(s[0]) {
        assert ([s[0]] + rest)[1..] == rest;
      } else if rest != [] {
        assert rest[0] in rest;
        FilterMember(s[1..], keep, rest[0]);
        assert rest[0] != s[0];
      }
    }
  }

  /** Every sequence is a subsequence of itself. */
  lemma {:induction false} IsSubsequenceOfSelf<T>(s: seq<T>)
    ensures IsSubsequence(s, s)
  {
    if s != [] {
      IsSubsequenceOfSelf(s[1..]);
    }
  }

  function Both<T>(k1: T -> bool, k2: T -> bool): T -> bool {
    (x: T) => k1(x) && k2(x)
  }

  /** Two filters in a row are one filter on both tests. */
  lemma {:induction false} FilterFilter<T>(s: seq<T>, k1: T -> bool, k2: T -> bool)
    ensures Filter(Filter(s, k1), k2) == Filter(s, Both(k1, k2))
  {
    if s != [] {
      FilterFilter(s[1..], k1, k2);
      if k1(s[0]) {
        assert Filter(s, k1) == [s[0]] + Filter(s[1..], k1);
        assert ([s[0]] + Filter(s[1..], k1))[1..] == Filter(s[1..], k1);
      }
    }
  }

  /** Each element of `s` goes to exactly one of the two filters `keep` and not-`keep`. */
  lemma {:induction false} FilterSplit<T>(s: seq<T>, keep: T -> bool, drop: T -> bool)
    requires forall x :: drop(x) == !keep(x)
    ensures multiset(Filter(s, keep)) + multiset(Filter(s, drop)) == multiset(s)
  {
    if s != [] {
      var x, t := s[0], s[1..];
      var kept, dropped := Filter(t, keep), Filter(t, drop);
      FilterSplit(t, keep, drop);
      assert s == [x] + t;
      if keep(x) {
        assert Filter(s, keep) == [x] + kept && Filter(s, drop) == dropped;
        assert multiset([x] + kept) == multiset{x} + multiset(kept);
      } else {
        assert Filter(s, drop) == [x] + dropped && Filter(s, keep) == kept;
        assert multiset([x] + dropped) == multiset{x} + multiset(dropped);
      }
    }
  }

  /** Filtering commutes with concatenation. */
  lemma {:induction false} FilterAppend<T>(a: seq<T>, b: seq<T>, keep: T -> bool)
    ensures Filter(a + b, keep) == Filter(a, keep) + Filter(b, keep)
  {
    if a == [] {
      assert a + b == b;
    } else {
      assert (a + b)[1..] == a[1..] + b;
      assert (a + b)[0] == a[0];
      FilterAppend(a[1..], b, keep);
    }
  }

  /** Filtering one element keeps it exactly when the test accepts it. */
  lemma FilterSingle<T>(x: T, keep: T -> bool)
    ensures Filter([x], keep) == if keep(x) then [x] else []
  {
    assert [x][1..] == [];
  }

  /** No value occurs twice. */
  predicate NoDuplicates<T(==)>(s: seq<T>) {
    forall i, j :: 0 <= i < j < |s| ==> s[i] != s[j]
  }

  function Min(a: int, b: int): int {
    if a <= b then a else b
  }

  /** A prefix holds some of the elements of the whole. */
  lemma PrefixSubMultiset<T>(s: seq<T>, k: nat)
    requires k <= |s|
    ensures multiset(s[..k]) <= multiset(s)
  {
    assert s == s[..k] + s[k..];
  }

  /** Swift's `Array(set)`: every element once, in an order the language leaves unspecified. */
  method SetToSequence<T>(s: set<T>) returns (r: seq<T>)
    ensures |r| == |s| && NoDuplicates(r)
    ensures forall x :: x in r <==> x in s
  {
    r := [];
    var remaining := s;
    while remaining != {}
      invariant remaining <= s
      invariant |r| + |remaining| == |s|
      invariant NoDuplicates(r)
      invariant forall x :: x in r <==> x in s && x !in remaining
      decreases |remaining|
    {
      var x :| x in remaining;
      r := r + [x];
      remaining := remaining - {x};
    }
  }
}
