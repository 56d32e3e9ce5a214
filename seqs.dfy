/** Sequence helpers shared by the page models: JavaScript's `Array.prototype.filter`
    and `reduce`-style sums, and the order-preserving subsequence relation. */
module Seqs {

  /** `s.filter(p)`: the elements of `s` that satisfy `p`, in their original order. */
  function Filter<T>(s: seq<T>, p: T -> bool): (r: seq<T>)
    ensures |r| <= |s|
    ensures forall x :: x in r ==> x in s && p(x)
  {
    if s == [] then []
    else if p(s[0]) then [s[0]] + Filter(s[1..], p)
    else Filter(s[1..], p)
  }

  /** `sub` is obtained from `s` by deleting elements, without reordering the rest. */
  ghost predicate Subsequence<T>(sub: seq<T>, s: seq<T>)
    decreases |s|
  {
    if sub == [] then true
    else if s == [] then false
    else (sub[0] == s[0] && Subsequence(sub[1..], s[1..])) || Subsequence(sub, s[1..])
  }

  /** `s.reduce((sum, x) => sum + f(x), 0)`. */
  function Sum<T>(s: seq<T>, f: T -> int): int
  {
    if s == [] then 0 else f(s[0]) + Sum(s[1..], f)
  }

  /** `new Set(s.map(f))`: the distinct values `f` takes on the elements of `s`. Its size
      is at most the length of `s`, and it is empty exactly when `s` is. */
  function Image<T, U>(s: seq<T>, f: T -> U): (r: set<U>)
    ensures |r| <= |s|
    ensures r == {} <==> s == []
    ensures forall i :: 0 <= i < |s| ==> f(s[i]) in r
    ensures forall y :: y in r ==> exists i :: 0 <= i < |s| && f(s[i]) == y
  {
    if s == [] then {}
    else
      var rest := Image(s[1..], f);
      assert forall i :: 1 <= i < |s| ==> s[i] == s[1..][i - 1];
      {f(s[0])} + rest
  }

  /** An element is kept exactly when it occurs in the input and passes the test. */
  lemma {:induction false} FilterMembership<T>(s: seq<T>, p: T -> bool, x: T)
    ensures x in Filter(s, p) <==> x in s && p(x)
  {
    if s != [] {
      FilterMembership(s[1..], p, x);
      assert s == [s[0]] + s[1..];
    }
  }

  /** Each value occurs in the filter as often as in the input when it passes the test,
      and not at all otherwise: no passing occurrence is dropped. */
  lemma {:induction false} FilterMultiplicity<T>(s: seq<T>, p: T -> bool, x: T)
    ensures multiset(Filter(s, p))[x] == if p(x) then multiset(s)[x] else 0
  {
    if s != [] {
      FilterMultiplicity(s[1..], p, x);
      assert s == [s[0]] + s[1..];
      assert multiset(s) == multiset{s[0]} + multiset(s[1..]);
    }
  }

  /** The filter is empty exactly when no element passes. */
  lemma {:induction false} FilterEmptyIffNonePass<T>(s: seq<T>, p: T -> bool)
    ensures Filter(s, p) == [] <==> forall i :: 0 <= i < |s| ==> !p(s[i])
  {
    if s != [] {
      FilterEmptyIffNonePass(s[1..], p);
      assert forall i :: 1 <= i < |s| ==> s[i] == s[1..][i - 1];
    }
  }

  /** When every element passes, filtering is the identity. */
  lemma {:induction false} FilterAllPass<T>(s: seq<T>, p: T -> bool)
    requires forall i :: 0 <= i < |s| ==> p(s[i])
    ensures Filter(s, p) == s
  {
    if s != [] {
      FilterAllPass(s[1..], p);
    }
  }

  /** When no element passes, the filter is empty. */
  lemma {:induction false} FilterNonePass<T>(s: seq<T>, p: T -> bool)
    requires forall i :: 0 <= i < |s| ==> !p(s[i])
    ensures Filter(s, p) == []
  {
    if s != [] {
      FilterNonePass(s[1..], p);
    }
  }

  /** The filter keeps the relative order of the elements it keeps. */
  lemma {:induction false} FilterIsSubsequence<T>(s: seq<T>, p: T -> bool)
    ensures Subsequence(Filter(s, p), s)
  {
    if s != [] {
      FilterIsSubsequence(s[1..], p);
      var rest := Filter(s[1..], p);
      if p(s[0]) {
        assert Filter(s, p) == [s[0]] + rest;
        assert ([s[0]] + rest)[1..] == rest;
      } else {
        SubsequenceOfTail(rest, s);
      }
    }
  }

  lemma SubsequenceOfTail<T>(sub: seq<T>, s: seq<T>)
    requires s != [] && Subsequence(sub, s[1..])
    ensures Subsequence(sub, s)
  {
  }

  /** Two tests that agree on every element select the same elements. */
  lemma {:induction false} FilterCongruent<T>(s: seq<T>, p: T -> bool, q: T -> bool)
    requires forall i :: 0 <= i < |s| ==> p(s[i]) == q(s[i])
    ensures Filter(s, p) == Filter(s, q)
  {
    if s != [] {
      FilterCongruent(s[1..], p, q);
    }
  }

  /** Filtering distributes over concatenation. */
  lemma {:induction false} FilterAppend<T>(a: seq<T>, b: seq<T>, p: T -> bool)
    ensures Filter(a + b, p) == Filter(a, p) + Filter(b, p)
  {
    if a == [] {
      assert a + b == b;
    } else {
      var ab := a + b;
      assert ab[0] == a[0] && ab[1..] == a[1..] + b;
      FilterAppend(a[1..], b, p);
      if p(a[0]) {
        assert Filter(ab, p) == [a[0]] + Filter(a[1..] + b, p);
        assert Filter(a, p) == [a[0]] + Filter(a[1..], p);
      } else {
        assert Filter(ab, p) == Filter(a[1..] + b, p);
      }
    }
  }

  /** Two tests that never hold together select at most `|s|` elements between them. */
  lemma {:induction false} FilterDisjointCounts<T>(s: seq<T>, p: T -> bool, q: T -> bool)
    requires forall i :: 0 <= i < |s| ==> !(p(s[i]) && q(s[i]))
    ensures |Filter(s, p)| + |Filter(s, q)| <= |s|
  {
    if s != [] {
      FilterDisjointCounts(s[1..], p, q);
    }
  }

  /** In a permutation of `a`, the first element of `a` occurs at some position `k`;
      removing it there leaves a permutation of the rest of `a`. */
  lemma PickOut<T>(a: seq<T>, b: seq<T>) returns (k: nat)
    requires a != [] && multiset(a) == multiset(b)
    ensures k < |b| && b[k] == a[0]
    ensures b == b[..k] + [a[0]] + b[k+1..]
    ensures multiset(a[1..]) == multiset(b[..k] + b[k+1..])
  {
    var x := a[0];
    assert x in multiset(b);
    k :| 0 <= k < |b| && b[k] == x;
    var rest := b[..k] + b[k+1..];
    assert b == b[..k] + [x] + b[k+1..];
    assert a == [x] + a[1..];
    assert multiset(b) == multiset(b[..k]) + multiset{x} + multiset(b[k+1..]);
    assert multiset(a) == multiset{x} + multiset(a[1..]);
    assert multiset(rest) == multiset(b[..k]) + multiset(b[k+1..]);
    assert multiset(a[1..]) == multiset(a) - multiset{x};
    assert multiset(rest) == multiset(b) - multiset{x};
  }

  lemma EmptyPermutation<T>(a: seq<T>, b: seq<T>)
    requires a == [] && multiset(a) == multiset(b)
    ensures b == []
  {
    assert |b| == |multiset(b)|;
  }

  /** The number of elements passing a test depends only on the multiset of elements. */
  lemma {:induction false} FilterCountPermutation<T>(a: seq<T>, b: seq<T>, p: T -> bool)
    requires multiset(a) == multiset(b)
    ensures |Filter(a, p)| == |Filter(b, p)|
    decreases |a|
  {
    if a != [] {
      var x := a[0];
      var k := PickOut(a, b);
      var rest := b[..k] + b[k+1..];
      FilterCountPermutation(a[1..], rest, p);
      FilterAppend(b[..k] + [x], b[k+1..], p);
      FilterAppend(b[..k], [x], p);
      FilterAppend(b[..k], b[k+1..], p);
    } else {
      EmptyPermutation(a, b);
    }
  }

  /** Sums distribute over concatenation. */
  lemma {:induction false} SumAppend<T>(a: seq<T>, b: seq<T>, f: T -> int)
    ensures Sum(a + b, f) == Sum(a, f) + Sum(b, f)
  {
    if a == [] {
      assert a + b == b;
    } else {
      assert (a + b)[0] == a[0];
      assert (a + b)[1..] == a[1..] + b;
      SumAppend(a[1..], b, f);
    }
  }

  /** A sum depends only on the multiset of summed elements, not on their order. */
  lemma {:induction false} SumPermutation<T>(a: seq<T>, b: seq<T>, f: T -> int)
    requires multiset(a) == multiset(b)
    ensures Sum(a, f) == Sum(b, f)
    decreases |a|
  {
    if a != [] {
      var x := a[0];
      var k := PickOut(a, b);
      var rest := b[..k] + b[k+1..];
      SumPermutation(a[1..], rest, f);
      SumAppend(b[..k] + [x], b[k+1..], f);
      SumAppend(b[..k], [x], f);
      SumAppend(b[..k], b[k+1..], f);
    } else {
      EmptyPermutation(a, b);
    }
  }

  /** `s.reduce((sum, x) => sum + f(x), 0)` over real-valued terms. */
  function SumReal<T>(s: seq<T>, f: T -> real): real
  {
    if s == [] then 0.0 else f(s[0]) + SumReal(s[1..], f)
  }

  lemma {:induction false} SumRealAppend<T>(a: seq<T>, b: seq<T>, f: T -> real)
    ensures SumReal(a + b, f) == SumReal(a, f) + SumReal(b, f)
  {
    if a == [] {
      assert a + b == b;
    } else {
      assert (a + b)[0] == a[0];
      assert (a + b)[1..] == a[1..] + b;
      SumRealAppend(a[1..], b, f);
    }
  }

  /** A real sum depends only on the multiset of summed elements. */
  lemma {:induction false} SumRealPermutation<T>(a: seq<T>, b: seq<T>, f: T -> real)
    requires multiset(a) == multiset(b)
    ensures SumReal(a, f) == SumReal(b, f)
    decreases |a|
  {
    if a != [] {
      var x := a[0];
      var k := PickOut(a, b);
      var rest := b[..k] + b[k+1..];
      SumRealPermutation(a[1..], rest, f);
      SumRealAppend(b[..k] + [x], b[k+1..], f);
      SumRealAppend(b[..k], [x], f);
      SumRealAppend(b[..k], b[k+1..], f);
    } else {
      EmptyPermutation(a, b);
    }
  }
}
