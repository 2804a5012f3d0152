/**
 * `Array.prototype.sort` with a numeric comparator `(a, b) => key(a) - key(b)` (or `key(b) - key(a)`),
 * as a stable insertion sort: each element goes after every earlier element it does not precede.
 */
module Sorting {

  predicate InOrder<T>(a: T, b: T, key: T -> real, desc: bool) {
    if desc then key(a) >= key(b) else key(a) <= key(b)
  }

  predicate Sorted<T>(s: seq<T>, key: T -> real, desc: bool) {
    forall i, j :: 0 <= i < j < |s| ==> InOrder(s[i], s[j], key, desc)
  }

  /** Everything in a rearrangement of `init` plus `x` precedes `last` when all of those do. */
  lemma AllBefore<T>(front: seq<T>, init: seq<T>, x: T, last: T, key: T -> real, desc: bool)
    requires multiset(front) == multiset(init) + multiset{x}
    requires forall k :: 0 <= k < |init| ==> InOrder(init[k], last, key, desc)
    requires InOrder(x, last, key, desc)
    ensures forall k :: 0 <= k < |front| ==> InOrder(front[k], last, key, desc)
  {
    forall k | 0 <= k < |front| ensures InOrder(front[k], last, key, desc) {
      assert front[k] in multiset(front);
      if front[k] != x {
        assert front[k] in multiset(init);
        var j :| 0 <= j < |init| && init[j] == front[k];
      }
    }
  }

  /** A sorted sequence stays sorted when an element that everything in it precedes is appended. */
  lemma AppendSorted<T>(s: seq<T>, x: T, key: T -> real, desc: bool)
    requires Sorted(s, key, desc)
    requires forall k :: 0 <= k < |s| ==> InOrder(s[k], x, key, desc)
    ensures Sorted(s + [x], key, desc)
  {
  }

  function Insert<T>(x: T, s: seq<T>, key: T -> real, desc: bool): (r: seq<T>)
    requires Sorted(s, key, desc)
    ensures Sorted(r, key, desc)
    ensures multiset(r) == multiset(s) + multiset{x}
    ensures |r| == |s| + 1
  {
    if |s| == 0 then [x]
    else if InOrder(s[|s| - 1], x, key, desc) then
      AppendSorted(s, x, key, desc);
      s + [x]
    else
      var init := s[..|s| - 1];
      var last := s[|s| - 1];
      assert s == init + [last];
      var front := Insert(x, init, key, desc);
      AllBefore(front, init, x, last, key, desc);
      AppendSorted(front, last, key, desc);
      front + [last]
  }

  /** The sorted rearrangement of `xs`. */
  function SortBy<T>(xs: seq<T>, key: T -> real, desc: bool): (r: seq<T>)
    ensures Sorted(r, key, desc)
    ensures multiset(r) == multiset(xs)
    ensures |r| == |xs|
  {
    if |xs| == 0 then []
    else
      var init := xs[..|xs| - 1];
      assert xs == init + [xs[|xs| - 1]];
      Insert(xs[|xs| - 1], SortBy(init, key, desc), key, desc)
  }

  /** The elements of `s` whose key is `v`, in their order in `s`. */
  function OfKey<T>(s: seq<T>, key: T -> real, v: real): seq<T> {
    if |s| == 0 then []
    else OfKey(s[..|s| - 1], key, v) + (if key(s[|s| - 1]) == v then [s[|s| - 1]] else [])
  }

  /** Inserting places the new element after every element with the same key. */
  lemma {:induction false} InsertStable<T>(x: T, s: seq<T>, key: T -> real, desc: bool, v: real)
    requires Sorted(s, key, desc)
    ensures OfKey(Insert(x, s, key, desc), key, v) == OfKey(s, key, v) + (if key(x) == v then [x] else [])
  {
    if |s| == 0 {
      assert [x][..0] == [];
    } else if InOrder(s[|s| - 1], x, key, desc) {
      assert Insert(x, s, key, desc) == s + [x];
      assert (s + [x])[..|s|] == s;
    } else {
      var init, last := s[..|s| - 1], s[|s| - 1];
      assert s == init + [last];
      SortedPrefix(init, last, key, desc);
      assert Insert(x, s, key, desc) == Insert(x, init, key, desc) + [last];
      InsertStable(x, init, key, desc, v);
      PassOver(init, Insert(x, init, key, desc), last, x, key, v);
    }
  }

  lemma SortedPrefix<T>(init: seq<T>, last: T, key: T -> real, desc: bool)
    requires Sorted(init + [last], key, desc)
    ensures Sorted(init, key, desc)
  {
    forall i, j | 0 <= i < j < |init| ensures InOrder(init[i], init[j], key, desc) {
      assert (init + [last])[i] == init[i] && (init + [last])[j] == init[j];
    }
  }

  /** An element whose key differs from `x`'s can be passed over without changing any key's order. */
  lemma PassOver<T>(init: seq<T>, front: seq<T>, last: T, x: T, key: T -> real, v: real)
    requires OfKey(front, key, v) == OfKey(init, key, v) + (if key(x) == v then [x] else [])
    requires key(last) != key(x)
    ensures OfKey(front + [last], key, v) == OfKey(init + [last], key, v) + (if key(x) == v then [x] else [])
  {
    assert (front + [last])[..|front|] == front;
    assert (init + [last])[..|init|] == init;
  }

  /** The sort is stable: the elements sharing any one key keep their input order. */
  lemma {:induction false} SortByStable<T>(xs: seq<T>, key: T -> real, desc: bool, v: real)
    ensures OfKey(SortBy(xs, key, desc), key, v) == OfKey(xs, key, v)
  {
    if |xs| > 0 {
      var init := xs[..|xs| - 1];
      SortByStable(init, key, desc, v);
      InsertStable(xs[|xs| - 1], SortBy(init, key, desc), key, desc, v);
    }
  }

  /** A rearrangement (same multiset) has the same elements, and distinct inputs stay distinct. */
  lemma PermutationKeepsDistinct<T>(xs: seq<T>, r: seq<T>)
    requires multiset(r) == multiset(xs)
    ensures forall x :: x in r <==> x in xs
    ensures (forall i, j :: 0 <= i < j < |xs| ==> xs[i] != xs[j]) ==> (forall i, j :: 0 <= i < j < |r| ==> r[i] != r[j])
  {
    forall x | x in r ensures x in xs {
      assert x in multiset(r);
    }
    forall x | x in xs ensures x in r {
      assert x in multiset(xs);
    }
    if forall i, j :: 0 <= i < j < |xs| ==> xs[i] != xs[j] {
      forall i, j | 0 <= i < j < |r| ensures r[i] != r[j] {
        if r[i] == r[j] {
          MultiplicityTwo(r, i, j);
          DistinctMultiplicity(xs, r[i]);
          assert false;
        }
      }
    }
  }

  lemma {:induction false} MultiplicityTwo<T>(s: seq<T>, i: int, j: int)
    requires 0 <= i < j < |s| && s[i] == s[j]
    ensures multiset(s)[s[i]] >= 2
  {
    assert s == s[..i] + [s[i]] + s[i + 1..j] + [s[j]] + s[j + 1..];
  }

  lemma {:induction false} DistinctMultiplicity<T>(s: seq<T>, x: T)
    requires forall i, j :: 0 <= i < j < |s| ==> s[i] != s[j]
    ensures multiset(s)[x] <= 1
  {
    if |s| > 0 {
      var init := s[..|s| - 1];
      assert s == init + [s[|s| - 1]];
      DistinctMultiplicity(init, x);
      if s[|s| - 1] == x {
        assert x !in init;
      }
    }
  }
}
