/**
 * `Array.prototype.sort` with a comparator on one integer key, which JavaScript guarantees to
 * be stable. The specification is an insertion sort into non-increasing key order; ascending
 * sorts use the negated key.
 */
module Sorting {

  predicate SortedDesc<T>(s: seq<T>, key: T -> int) {
    forall i, j :: 0 <= i < j < |s| ==> key(s[i]) >= key(s[j])
  }

  /** The elements whose key is `v`, in order: what a stable sort must not reorder. */
  function WithKey<T>(s: seq<T>, key: T -> int, v: int): seq<T> {
    if |s| == 0 then []
    else WithKey(s[..|s| - 1], key, v) + (if key(s[|s| - 1]) == v then [s[|s| - 1]] else [])
  }

  lemma {:induction false} WithKeyAppend<T>(a: seq<T>, b: seq<T>, key: T -> int, v: int)
    ensures WithKey(a + b, key, v) == WithKey(a, key, v) + WithKey(b, key, v)
    decreases |b|
  {
    if |b| == 0 {
      assert a + b == a;
    } else {
      assert (a + b)[..|a + b| - 1] == a + b[..|b| - 1];
      WithKeyAppend(a, b[..|b| - 1], key, v);
    }
  }

  lemma SplitLast<T>(s: seq<T>)
    requires |s| > 0
    ensures s == s[..|s| - 1] + [s[|s| - 1]]
  {
  }

  /** Places `x` after every element whose key is at least `key(x)`, scanning from the end. */
  function Insert<T>(s: seq<T>, x: T, key: T -> int): (r: seq<T>)
    ensures |r| == |s| + 1
    ensures multiset(r) == multiset(s) + multiset{x}
    ensures forall i :: 0 <= i < |r| ==> r[i] in s || r[i] == x
    ensures SortedDesc(s, key) ==> SortedDesc(r, key)
  {
    if |s| == 0 then [x]
    else if key(s[|s| - 1]) >= key(x) then s + [x]
    else
      var init, last := s[..|s| - 1], s[|s| - 1];
      var r := Insert(init, x, key);
      SplitLast(s);
      InsertAfterLarger(init, last, x, r, key);
      r + [last]
  }

  /** The step of `Insert` past a smaller last element keeps the order. */
  lemma InsertAfterLarger<T>(init: seq<T>, last: T, x: T, r: seq<T>, key: T -> int)
    requires key(last) < key(x)
    requires forall i :: 0 <= i < |r| ==> r[i] in init || r[i] == x
    requires SortedDesc(init, key) ==> SortedDesc(r, key)
    ensures SortedDesc(init + [last], key) ==> SortedDesc(r + [last], key)
  {
    if SortedDesc(init + [last], key) {
      assert SortedDesc(init, key) by {
        forall i, j | 0 <= i < j < |init| ensures key(init[i]) >= key(init[j]) {
          assert (init + [last])[i] == init[i] && (init + [last])[j] == init[j];
        }
      }
      assert (init + [last])[|init|] == last;
      forall i | 0 <= i < |r| ensures key(r[i]) >= key(last) {
        if r[i] != x {
          var j :| 0 <= j < |init| && init[j] == r[i];
          assert (init + [last])[j] == r[i];
        }
      }
      var t := r + [last];
      forall i, j | 0 <= i < j < |t| ensures key(t[i]) >= key(t[j]) {
        assert t[i] == r[i];
        if j < |r| {
          assert t[j] == r[j];
        }
      }
    }
  }

  lemma WithKeySnoc<T>(s: seq<T>, y: T, key: T -> int, v: int)
    ensures WithKey(s + [y], key, v) == WithKey(s, key, v) + (if key(y) == v then [y] else [])
  {
    assert (s + [y])[..|s|] == s;
  }

  /** The stable sort by non-increasing key. */
  function SortDesc<T>(s: seq<T>, key: T -> int): (r: seq<T>)
    ensures |r| == |s|
    ensures multiset(r) == multiset(s)
    ensures SortedDesc(r, key)
  {
    if |s| == 0 then []
    else
      SplitLast(s);
      Insert(SortDesc(s[..|s| - 1], key), s[|s| - 1], key)
  }

  lemma {:induction false} InsertStable<T>(s: seq<T>, x: T, key: T -> int, v: int)
    ensures WithKey(Insert(s, x, key), key, v) == WithKey(s, key, v) + (if key(x) == v then [x] else [])
    decreases |s|
  {
    if |s| == 0 {
      WithKeySnoc([], x, key, v);
      assert [] + [x] == [x];
    } else if key(s[|s| - 1]) >= key(x) {
      WithKeySnoc(s, x, key, v);
    } else {
      var init, last := s[..|s| - 1], s[|s| - 1];
      InsertStable(init, x, key, v);
      InsertStableStep(s, x, key, v);
    }
  }

  lemma InsertStableStep<T>(s: seq<T>, x: T, key: T -> int, v: int)
    requires |s| > 0 && key(s[|s| - 1]) < key(x)
    requires WithKey(Insert(s[..|s| - 1], x, key), key, v)
      == WithKey(s[..|s| - 1], key, v) + (if key(x) == v then [x] else [])
    ensures WithKey(Insert(s, x, key), key, v) == WithKey(s, key, v) + (if key(x) == v then [x] else [])
  {
    var init, last := s[..|s| - 1], s[|s| - 1];
    var r := Insert(init, x, key);
    assert Insert(s, x, key) == r + [last];
    WithKeySnoc(r, last, key, v);
    SplitLast(s);
    WithKeySnoc(init, last, key, v);
    var w := WithKey(init, key, v);
    if key(last) == v {
      assert key(x) != v;
      assert WithKey(r + [last], key, v) == w + [last];
    } else if key(x) == v {
      assert WithKey(r + [last], key, v) == w + [x];
    } else {
      assert WithKey(r + [last], key, v) == w;
    }
  }

  /** Stability: the elements sharing any one key value keep their original relative order. */
  lemma {:induction false} SortDescStable<T>(s: seq<T>, key: T -> int, v: int)
    ensures WithKey(SortDesc(s, key), key, v) == WithKey(s, key, v)
    decreases |s|
  {
    if |s| > 0 {
      var init, last := s[..|s| - 1], s[|s| - 1];
      SortDescStable(init, key, v);
      InsertStable(SortDesc(init, key), last, key, v);
    }
  }

  /** `s.slice(0, n)`: a negative `n` counts back from the end. */
  function Take<T>(s: seq<T>, n: int): (r: seq<T>)
    ensures |r| <= |s| && (n >= 0 ==> |r| <= n)
    ensures r == s[..|r|]
    ensures n >= 0 ==> |r| == if n < |s| then n else |s|
    ensures n < 0 ==> |r| == if |s| + n > 0 then |s| + n else 0
  {
    if n < 0 then (if |s| + n > 0 then s[..|s| + n] else [])
    else if n < |s| then s[..n] else s
  }
}
