/** Sequence helpers shared by the actors: the model of Rust's `Vec::retain`
    and the order-preservation relation it establishes. */
module Seqs {

  /** The elements of `s` for which `keep` holds, in their original order.
      Defined from the back, so that a left-to-right scan extends it one
      element at a time. */
  function Filter<T(==)>(s: seq<T>, keep: T -> bool): (r: seq<T>)
    ensures |r| <= |s|
    ensures forall x :: x in r ==> x in s && keep(x)
  {
    if s == [] then []
    else Filter(s[..|s| - 1], keep) + (if keep(s[|s| - 1]) then [s[|s| - 1]] else [])
  }

  /** `r` can be obtained from `s` by deleting elements (order is kept). */
  predicate IsSubsequence<T(==)>(r: seq<T>, s: seq<T>)
    decreases |s|
  {
    if r == [] then true
    else if s == [] then false
    else if r[|r| - 1] == s[|s| - 1] then IsSubsequence(r[..|r| - 1], s[..|s| - 1])
    else IsSubsequence(r, s[..|s| - 1])
  }

  /** Filtering distributes over concatenation. */
  lemma {:induction false} FilterAppend<T>(a: seq<T>, b: seq<T>, keep: T -> bool)
    ensures Filter(a + b, keep) == Filter(a, keep) + Filter(b, keep)
  {
    if b == [] {
      assert a + b == a;
    } else {
      var last := b[|b| - 1];
      assert (a + b)[..|a + b| - 1] == a + b[..|b| - 1];
      FilterAppend(a, b[..|b| - 1], keep);
    }
  }

  /** Filtering the one-element prefix off the front. */
  lemma {:induction false} FilterCons<T>(x: T, s: seq<T>, keep: T -> bool)
    ensures Filter([x] + s, keep) == (if keep(x) then [x] else []) + Filter(s, keep)
  {
    FilterAppend([x], s, keep);
    assert [x][..0] == [];
    assert Filter([x], keep) == Filter([], keep) + (if keep(x) then [x] else []);
  }

  /** One step of a backward removal scan: when the elements after index `i`
      are already filtered, testing element `i` (and deleting it when it
      fails) leaves the elements from `i` on filtered. */
  lemma {:induction false} FilterBackStep<T>(s: seq<T>, i: nat, done: seq<T>, keep: T -> bool)
    requires i < |s| && done == s[..i + 1] + Filter(s[i + 1..], keep)
    ensures done[i] == s[i]
    ensures keep(s[i]) ==> done == s[..i] + Filter(s[i..], keep)
    ensures !keep(s[i]) ==> done[..i] + done[i + 1..] == s[..i] + Filter(s[i..], keep)
  {
    var rest := Filter(s[i + 1..], keep);
    assert s[i..] == [s[i]] + s[i + 1..];
    FilterCons(s[i], s[i + 1..], keep);
    assert s[..i + 1] == s[..i] + [s[i]];
    SplitAround(s[..i], s[i], rest, done);
  }

  /** The three parts of `p + [x] + r`, recovered by slicing. */
  lemma SplitAround<T>(p: seq<T>, x: T, r: seq<T>, d: seq<T>)
    requires d == p + [x] + r
    ensures d[|p|] == x && d[..|p|] == p && d[|p| + 1..] == r
    ensures d == p + ([x] + r)
  {
    assert d[..|p|] == p;
    assert d[|p| + 1..] == r;
  }

  /** An element is kept exactly when it occurs in the input and satisfies `keep`. */
  lemma {:induction false} FilterMembership<T>(s: seq<T>, keep: T -> bool, x: T)
    ensures x in Filter(s, keep) <==> x in s && keep(x)
  {
    if s != [] {
      var init := s[..|s| - 1];
      assert s == init + [s[|s| - 1]];
      FilterMembership(init, keep, x);
    }
  }

  /** The kept elements keep their relative order. */
  lemma {:induction false} FilterIsSubsequence<T>(s: seq<T>, keep: T -> bool)
    ensures IsSubsequence(Filter(s, keep), s)
  {
    if s != [] {
      var init := s[..|s| - 1];
      assert s == init + [s[|s| - 1]];
      FilterIsSubsequence(init, keep);
      if keep(s[|s| - 1]) {
        var r := Filter(s, keep);
        assert r[..|r| - 1] == Filter(init, keep);
      } else {
        assert Filter(s, keep) == Filter(init, keep);
        SubsequenceExtend(Filter(init, keep), init, s[|s| - 1]);
      }
    }
  }

  /** Appending an element to the larger sequence keeps a subsequence one. */
  lemma {:induction false} SubsequenceExtend<T>(r: seq<T>, s: seq<T>, x: T)
    requires IsSubsequence(r, s)
    ensures IsSubsequence(r, s + [x])
    decreases |s|, 1
  {
    assert (s + [x])[..|s|] == s;
    if r != [] && r[|r| - 1] == x {
      SubsequenceDropLast(r, s);
    }
  }

  /** Removing the last element of a subsequence leaves a subsequence. */
  lemma {:induction false} SubsequenceDropLast<T>(r: seq<T>, s: seq<T>)
    requires r != [] && IsSubsequence(r, s)
    ensures IsSubsequence(r[..|r| - 1], s)
    decreases |s|, 0
  {
    var p := r[..|r| - 1];
    var init := s[..|s| - 1];
    assert s == init + [s[|s| - 1]];
    if r[|r| - 1] == s[|s| - 1] {
      SubsequenceExtend(p, init, s[|s| - 1]);
    } else {
      SubsequenceDropLast(r, init);
      SubsequenceExtend(p, init, s[|s| - 1]);
    }
  }

  /** Rust's `Vec::retain`: keeps, in order, the elements for which `keep` holds. */
  method Retain<T(==)>(s: seq<T>, keep: T -> bool) returns (r: seq<T>)
    ensures r == Filter(s, keep)
  {
    r := [];
    var i := 0;
    while i < |s|
      invariant 0 <= i <= |s|
      invariant r == Filter(s[..i], keep)
    {
      assert s[..i + 1][..i] == s[..i];
      if keep(s[i]) {
        r := r + [s[i]];
      }
      i := i + 1;
    }
    assert s[..|s|] == s;
  }
}
