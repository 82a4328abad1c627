/**
 * The contract of `Array.prototype.sort` with a numeric comparator
 * `(a, b) => key(a) - key(b)`: ascending by key and stable (elements with
 * equal keys keep their relative order, as ECMAScript requires since 2019).
 * The engine's algorithm itself is not modelled; an insertion sort stands
 * in for it, and the lemmas below pin its result down.
 */
module StableSort {
  import opened Seqs

  predicate SortedBy<T>(s: seq<T>, key: T -> real) {
    forall i, j :: 0 <= i < j < |s| ==> key(s[i]) <= key(s[j])
  }

  /** Selects the elements whose key is exactly `k`. */
  function KeyIs<T>(key: T -> real, k: real): T -> bool {
    x => key(x) == k
  }

  /** Inserts `x` after every element whose key is at most key(x). */
  function Insert<T>(x: T, s: seq<T>, key: T -> real): seq<T> {
    if s == [] || key(s[|s| - 1]) <= key(x) then s + [x]
    else Insert(x, s[..|s| - 1], key) + [s[|s| - 1]]
  }

  lemma {:induction false} InsertIsPermutation<T>(x: T, s: seq<T>, key: T -> real)
    ensures multiset(Insert(x, s, key)) == multiset(s) + multiset{x}
  {
    if !(s == [] || key(s[|s| - 1]) <= key(x)) {
      var init := s[..|s| - 1];
      assert s == init + [s[|s| - 1]];
      InsertIsPermutation(x, init, key);
    }
  }

  lemma {:induction false} InsertKeepsOrder<T>(x: T, s: seq<T>, key: T -> real)
    requires SortedBy(s, key)
    ensures SortedBy(Insert(x, s, key), key)
  {
    if !(s == [] || key(s[|s| - 1]) <= key(x)) {
      var last := s[|s| - 1];
      var init := s[..|s| - 1];
      assert s == init + [last];
      InsertKeepsOrder(x, init, key);
      InsertIsPermutation(x, init, key);
      var r := Insert(x, init, key);
      forall i | 0 <= i < |r|
        ensures key(r[i]) <= key(last)
      {
        assert r[i] in multiset(r);
        assert r[i] in multiset(init) || r[i] == x;
      }
    }
  }

  /** The stably sorted copy of `s`. */
  function Sort<T>(s: seq<T>, key: T -> real): seq<T> {
    if s == [] then [] else Insert(s[|s| - 1], Sort(s[..|s| - 1], key), key)
  }

  /** Sorting gives an ordered permutation of its input. */
  lemma {:induction false} SortIsOrderedPermutation<T>(s: seq<T>, key: T -> real)
    ensures multiset(Sort(s, key)) == multiset(s)
    ensures SortedBy(Sort(s, key), key)
  {
    if s != [] {
      var init := s[..|s| - 1];
      assert s == init + [s[|s| - 1]];
      SortIsOrderedPermutation(init, key);
      InsertIsPermutation(s[|s| - 1], Sort(init, key), key);
      InsertKeepsOrder(s[|s| - 1], Sort(init, key), key);
    }
  }

  lemma {:induction false} InsertKeepsKeyClass<T>(x: T, s: seq<T>, key: T -> real, k: real)
    requires SortedBy(s, key)
    ensures Filter(Insert(x, s, key), KeyIs(key, k))
         == Filter(s, KeyIs(key, k)) + (if key(x) == k then [x] else [])
  {
    var p := KeyIs(key, k);
    if s == [] || key(s[|s| - 1]) <= key(x) {
      FilterSnoc(s, x, p);
    } else {
      var last := s[|s| - 1];
      var init := s[..|s| - 1];
      assert s == init + [last];
      assert SortedBy(init, key);
      var xs: seq<T> := if key(x) == k then [x] else [];
      var ls: seq<T> := if key(last) == k then [last] else [];
      assert Insert(x, s, key) == Insert(x, init, key) + [last];
      InsertKeepsKeyClass(x, init, key, k);
      FilterSnoc(Insert(x, init, key), last, p);
      assert Filter(Insert(x, s, key), p) == Filter(init, p) + xs + ls;
      FilterSnoc(init, last, p);
      assert Filter(s, p) == Filter(init, p) + ls;
      // key(x) < key(last), so at most one of them has key k
      if key(x) == k {
        assert ls == [];
        assert Filter(init, p) + xs + ls == Filter(init, p) + xs;
        assert Filter(init, p) + ls == Filter(init, p);
      } else {
        assert xs == [];
        assert Filter(init, p) + xs == Filter(init, p);
      }
    }
  }

  /**
   * Stability: for every key value, the elements with that key appear in
   * the sorted result exactly as they appear in the input.
   */
  lemma {:induction false} SortIsStable<T>(s: seq<T>, key: T -> real, k: real)
    ensures Filter(Sort(s, key), KeyIs(key, k)) == Filter(s, KeyIs(key, k))
  {
    if s != [] {
      var init := s[..|s| - 1];
      SortIsStable(init, key, k);
      SortIsOrderedPermutation(init, key);
      InsertKeepsKeyClass(s[|s| - 1], Sort(init, key), key, k);
      assert s == init + [s[|s| - 1]];
      FilterSnoc(init, s[|s| - 1], KeyIs(key, k));
    }
  }

  /** An input that is already in order is left as it is. */
  lemma {:induction false} SortSorted<T>(s: seq<T>, key: T -> real)
    requires SortedBy(s, key)
    ensures Sort(s, key) == s
  {
    if s != [] {
      var init := s[..|s| - 1];
      assert SortedBy(init, key);
      SortSorted(init, key);
      assert s == init + [s[|s| - 1]];
    }
  }
}
