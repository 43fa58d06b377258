/** `[...xs].sort((a, b) => key(b) - key(a))`: JavaScript's `Array.prototype.sort`
    is stable, so with this comparator it orders by `key`, largest first, and
    keeps elements with equal keys in their original order. The model is a
    stable insertion sort on a value; the caller's list is left as it was. */
module Sorting {
  import opened Seqs

  /** Non-increasing in `key`. */
  predicate Descending<T>(s: seq<T>, key: T -> real)
  {
    forall i, j :: 0 <= i < j < |s| ==> key(s[j]) <= key(s[i])
  }

  /** The elements of a list whose key is `v`. */
  function KeyIs<T>(key: T -> real, v: real): T -> bool
  {
    y => key(y) == v
  }

  /** A list stays non-increasing when an element no smaller than all of it is put in front. */
  lemma ConsDescending<T>(a: T, t: seq<T>, key: T -> real)
    requires Descending(t, key)
    requires forall y :: y in t ==> key(y) <= key(a)
    ensures Descending([a] + t, key)
  {
    var r := [a] + t;
    forall i, j | 0 <= i < j < |r| ensures key(r[j]) <= key(r[i]) {
      assert r[j] == t[j - 1];
      if i > 0 {
        assert r[i] == t[i - 1];
      } else {
        assert r[j] in t;
      }
    }
  }

  /** Puts `x` in front of the first element whose key is not larger than its own. */
  function Insert<T(==,!new)>(x: T, s: seq<T>, key: T -> real): (r: seq<T>)
    requires Descending(s, key)
    ensures Descending(r, key)
    ensures multiset(r) == multiset(s) + multiset{x}
    ensures |r| == |s| + 1
  {
    if s == [] || key(s[0]) <= key(x) then
      ConsDescending(x, s, key);
      [x] + s
    else
      var rest := Insert(x, s[1..], key);
      assert s == [s[0]] + s[1..];
      assert forall y :: y in rest ==> key(y) <= key(s[0]) by {
        forall y | y in rest ensures key(y) <= key(s[0]) {
          assert y in multiset(rest);
          assert y == x || y in s[1..];
        }
      }
      ConsDescending(s[0], rest, key);
      [s[0]] + rest
  }

  /** The sorted copy: non-increasing in `key` and a permutation of `s`. */
  function SortDescending<T(==,!new)>(s: seq<T>, key: T -> real): (r: seq<T>)
    ensures Descending(r, key)
    ensures multiset(r) == multiset(s)
    ensures |r| == |s|
  {
    if s == [] then []
    else
      assert s == [s[0]] + s[1..];
      Insert(s[0], SortDescending(s[1..], key), key)
  }

  /** Inserting `x` puts it before every element of the same key. */
  lemma {:induction false} InsertStable<T(!new)>(x: T, s: seq<T>, key: T -> real, v: real)
    requires Descending(s, key)
    ensures Filter(Insert(x, s, key), KeyIs(key, v)) ==
      if key(x) == v then [x] + Filter(s, KeyIs(key, v)) else Filter(s, KeyIs(key, v))
  {
    var p := KeyIs(key, v);
    var r := Insert(x, s, key);
    if s == [] || key(s[0]) <= key(x) {
      assert r == [x] + s;
      assert r[1..] == s;
    } else {
      var rest := Insert(x, s[1..], key);
      assert r == [s[0]] + rest;
      assert r[1..] == rest;
      InsertStable(x, s[1..], key, v);
    }
  }

  /** The sort is stable: the elements of each key appear in their original order. */
  lemma {:induction false} SortStable<T(!new)>(s: seq<T>, key: T -> real, v: real)
    ensures Filter(SortDescending(s, key), KeyIs(key, v)) == Filter(s, KeyIs(key, v))
  {
    if s != [] {
      SortStable(s[1..], key, v);
      InsertStable(s[0], SortDescending(s[1..], key), key, v);
    }
  }

  /** `s.slice(0, n)` for n >= 0. */
  function Take<T>(s: seq<T>, n: nat): (r: seq<T>)
    ensures |r| == if n < |s| then n else |s|
    ensures r <= s
  {
    if n < |s| then s[..n] else s
  }

  /** Cutting a non-increasing list leaves a non-increasing front part none of
      whose elements has a smaller key than an element of the back part. */
  lemma DescendingSplit<T>(t: seq<T>, key: T -> real, k: nat)
    requires Descending(t, key) && k <= |t|
    ensures Descending(t[..k], key)
    ensures forall x, y :: x in t[..k] && y in t[k..] ==> key(y) <= key(x)
  {
    forall x, y | x in t[..k] && y in t[k..] ensures key(y) <= key(x) {
      var i :| 0 <= i < k && t[..k][i] == x;
      var j :| 0 <= j < |t| - k && t[k..][j] == y;
      assert t[i] == x && t[k + j] == y;
    }
  }

  /** The first `n` elements of the sorted copy: still sorted, drawn from `s`,
      and no element left out has a larger key than one kept. */
  lemma TakeOfSorted<T(!new)>(s: seq<T>, key: T -> real, n: nat)
    ensures var r := Take(SortDescending(s, key), n);
      && Descending(r, key)
      && multiset(r) <= multiset(s)
      && forall x, y :: x in r && y in multiset(s) - multiset(r) ==> key(y) <= key(x)
  {
    var sorted := SortDescending(s, key);
    var r := Take(sorted, n);
    var k := |r|;
    assert r == sorted[..k];
    DescendingSplit(sorted, key, k);
    PrefixRest(sorted, k);
    forall x, y | x in r && y in multiset(s) - multiset(r) ensures key(y) <= key(x) {
      assert y in sorted[k..];
    }
  }

  /** What a prefix leaves of a list's multiset is the rest of the list. */
  lemma PrefixRest<T>(t: seq<T>, k: nat)
    requires k <= |t|
    ensures multiset(t[..k]) <= multiset(t)
    ensures multiset(t) - multiset(t[..k]) == multiset(t[k..])
  {
    assert t == t[..k] + t[k..];
    assert multiset(t) == multiset(t[..k]) + multiset(t[k..]);
  }
}
