/** `Array.prototype.filter`, `find`, `slice(0, n)` as functions on sequences. */
module Seqs {
  import opened Wrappers

  /** `s.filter(p)`: the elements satisfying `p`, in their order. */
  function Filter<T>(s: seq<T>, p: T -> bool): (r: seq<T>)
    ensures |r| <= |s|
    ensures forall x :: x in r ==> x in s && p(x)
    ensures forall x :: x in s && p(x) ==> x in r
  {
    if s == [] then [] else (if p(s[0]) then [s[0]] else []) + Filter(s[1..], p)
  }

  lemma {:induction false} FilterAppend<T>(a: seq<T>, b: seq<T>, p: T -> bool)
    ensures Filter(a + b, p) == Filter(a, p) + Filter(b, p)
  {
    if a == [] {
      assert a + b == b;
    } else {
      assert (a + b)[1..] == a[1..] + b;
      FilterAppend(a[1..], b, p);
    }
  }

  /** Filtering keeps everything when every element passes. */
  lemma {:induction false} FilterKeepsAll<T>(s: seq<T>, p: T -> bool)
    requires forall i :: 0 <= i < |s| ==> p(s[i])
    ensures Filter(s, p) == s
  {
    if s != [] {
      FilterKeepsAll(s[1..], p);
    }
  }

  /** Filtering removes everything when no element passes. */
  lemma {:induction false} FilterKeepsNone<T>(s: seq<T>, p: T -> bool)
    requires forall i :: 0 <= i < |s| ==> !p(s[i])
    ensures Filter(s, p) == []
  {
    if s != [] {
      FilterKeepsNone(s[1..], p);
    }
  }

  /** The elements of `s` that make `p` true, in their order. */
  lemma {:induction false} FilterSnoc<T>(s: seq<T>, x: T, p: T -> bool)
    ensures Filter(s + [x], p) == Filter(s, p) + (if p(x) then [x] else [])
  {
    FilterAppend(s, [x], p);
    assert Filter([x], p) == (if p(x) then [x] else []) + Filter([], p);
  }

  /** `s.slice(0, n)`. */
  function Take<T>(s: seq<T>, n: nat): (r: seq<T>)
    ensures |r| == if |s| <= n then |s| else n
    ensures r == s[..|r|]
  {
    if |s| <= n then s else s[..n]
  }

  /** The index `s.findIndex(p)` reports, or None for -1. */
  function FindFirst<T>(s: seq<T>, p: T -> bool): (r: Option<nat>)
    ensures r.Some? ==> r.value < |s| && p(s[r.value])
    ensures r.Some? ==> forall j :: 0 <= j < r.value ==> !p(s[j])
    ensures r.None? ==> forall j :: 0 <= j < |s| ==> !p(s[j])
  {
    if s == [] then None
    else if p(s[0]) then Some(0)
    else
      var r := FindFirst(s[1..], p);
      if r.Some? then Some(r.value + 1) else None
  }

  /** `s.find(p)`: the first element satisfying `p`. */
  function Find<T>(s: seq<T>, p: T -> bool): Option<T> {
    var i := FindFirst(s, p);
    if i.Some? then Some(s[i.value]) else None
  }

  /** `a` is `b` with some elements removed, the rest kept in order. */
  ghost predicate Subseq<T>(a: seq<T>, b: seq<T>)
    decreases |b|
  {
    if a == [] then true
    else if b == [] then false
    else (a[0] == b[0] && Subseq(a[1..], b[1..])) || Subseq(a, b[1..])
  }

  lemma {:induction false} FilterIsSubseq<T>(s: seq<T>, p: T -> bool)
    ensures Subseq(Filter(s, p), s)
  {
    if s != [] {
      FilterIsSubseq(s[1..], p);
      if p(s[0]) {
        assert Filter(s, p) == [s[0]] + Filter(s[1..], p);
        assert Filter(s, p)[1..] == Filter(s[1..], p);
      } else {
        assert Filter(s, p) == Filter(s[1..], p);
      }
    }
  }

  /** A prefix of a subsequence is a subsequence. */
  lemma {:induction false} SubseqPrefix<T>(a: seq<T>, b: seq<T>, k: nat)
    requires k <= |a| && Subseq(a, b)
    ensures Subseq(a[..k], b)
    decreases |b|
  {
    if k > 0 {
      if a[0] == b[0] && Subseq(a[1..], b[1..]) {
        SubseqPrefix(a[1..], b[1..], k - 1);
        assert a[..k][1..] == a[1..][..k - 1];
      } else {
        SubseqPrefix(a, b[1..], k);
      }
    }
  }

  /** `s.filter(p).slice(0, n)` keeps the order of `s`. */
  lemma TakeFilterIsSubseq<T>(s: seq<T>, p: T -> bool, n: nat)
    ensures Subseq(Take(Filter(s, p), n), s)
  {
    FilterIsSubseq(s, p);
    var f := Filter(s, p);
    SubseqPrefix(f, s, |Take(f, n)|);
  }

  /**
   * `prev.includes(x) ? prev.filter(y => y !== x) : [...prev, x]`: the
   * toggle both the planner's interests and the hotel filters use.
   */
  function Toggle<T(==,!new)>(prev: seq<T>, x: T): (next: seq<T>)
    ensures x in next <==> x !in prev
    ensures forall y :: y != x ==> (y in next <==> y in prev)
    ensures x !in prev ==> next == prev + [x]
    ensures x in prev ==> Subseq(next, prev) && forall y :: y != x ==> multiset(next)[y] == multiset(prev)[y]
  {
    if x in prev then
      FilterIsSubseq(prev, y => y != x);
      FilterCounts(prev, y => y != x);
      Filter(prev, y => y != x)
    else prev + [x]
  }

  /** Filtering keeps every copy of each element it keeps. */
  lemma {:induction false} FilterCounts<T>(s: seq<T>, p: T -> bool)
    ensures forall y :: p(y) ==> multiset(Filter(s, p))[y] == multiset(s)[y]
  {
    if s != [] {
      FilterCounts(s[1..], p);
      assert s == [s[0]] + s[1..];
      assert Filter(s, p) == (if p(s[0]) then [s[0]] else []) + Filter(s[1..], p);
    }
  }

  /** Toggling the same element twice restores every membership. */
  lemma ToggleTwice<T(!new)>(prev: seq<T>, x: T)
    ensures forall y :: y in Toggle(Toggle(prev, x), x) <==> y in prev
  {
  }
}
