/**
 * Python's `sorted` with a key, which both the backfill order of the merger
 * and the medians of the inline-TVA rule rely on: a stable insertion sort
 * into non-increasing key order. An ascending sort is the same sort on the
 * negated key.
 */
module Sorting {
  /** `s` has non-increasing keys. */
  predicate Descending<T>(key: T -> real, s: seq<T>) {
    forall i, j :: 0 <= i < j < |s| ==> key(s[i]) >= key(s[j])
  }

  /** `x` placed before the first element whose key is not above its own. */
  function InsertDesc<T>(key: T -> real, x: T, s: seq<T>): (r: seq<T>)
    ensures |r| == |s| + 1
    decreases |s|
  {
    if s == [] || key(s[0]) <= key(x) then [x] + s
    else [s[0]] + InsertDesc(key, x, s[1..])
  }

  /** `sorted(s, key=key, reverse=True)`: an insertion sort, stable like Python's. */
  function SortDesc<T>(key: T -> real, s: seq<T>): (r: seq<T>)
    ensures |r| == |s|
    decreases |s|
  {
    if s == [] then [] else InsertDesc(key, s[0], SortDesc(key, s[1..]))
  }

  /** The elements of key `c`, in order. */
  function WithKey<T>(key: T -> real, s: seq<T>, c: real): seq<T>
    decreases |s|
  {
    if s == [] then []
    else (if key(s[0]) == c then [s[0]] else []) + WithKey(key, s[1..], c)
  }

  lemma {:induction false} InsertDescPerm<T>(key: T -> real, x: T, s: seq<T>)
    ensures multiset(InsertDesc(key, x, s)) == multiset([x] + s)
    decreases |s|
  {
    if s != [] && key(s[0]) > key(x) {
      InsertDescPerm(key, x, s[1..]);
      assert s == [s[0]] + s[1..];
    }
  }

  /** Inserting keeps the order; no key ends up above both `x`'s and the head's. */
  lemma {:induction false} InsertDescSorted<T>(key: T -> real, x: T, s: seq<T>)
    requires Descending(key, s)
    ensures Descending(key, InsertDesc(key, x, s))
    ensures forall i :: 0 <= i < |InsertDesc(key, x, s)| ==>
      key(InsertDesc(key, x, s)[i]) <= key(x) || (s != [] && key(InsertDesc(key, x, s)[i]) <= key(s[0]))
    decreases |s|
  {
    var r := InsertDesc(key, x, s);
    if s == [] {
      assert r == [x];
    } else if key(s[0]) <= key(x) {
      assert r == [x] + s;
      forall i, j | 0 <= i < j < |r|
        ensures key(r[i]) >= key(r[j])
      {
        assert r[j] == s[j - 1];
        if i > 0 {
          assert r[i] == s[i - 1];
        } else {
          assert key(s[0]) >= key(s[j - 1]);
        }
      }
      forall i | 0 <= i < |r|
        ensures key(r[i]) <= key(x) || key(r[i]) <= key(s[0])
      {
        if i > 0 {
          assert r[i] == s[i - 1];
          assert key(s[0]) >= key(s[i - 1]);
        }
      }
    } else {
      var rest := InsertDesc(key, x, s[1..]);
      InsertDescSorted(key, x, s[1..]);
      assert r == [s[0]] + rest;
      forall i | 0 <= i < |rest|
        ensures key(rest[i]) <= key(s[0])
      {
        if |s| > 1 {
          assert s[1..][0] == s[1];
          assert key(s[0]) >= key(s[1]);
        }
      }
      forall i, j | 0 <= i < j < |r|
        ensures key(r[i]) >= key(r[j])
      {
        assert r[j] == rest[j - 1];
        if i > 0 {
          assert r[i] == rest[i - 1];
        }
      }
    }
  }

  lemma {:induction false} InsertDescStable<T>(key: T -> real, x: T, s: seq<T>, c: real)
    requires Descending(key, s)
    ensures WithKey(key, InsertDesc(key, x, s), c) == WithKey(key, [x] + s, c)
    decreases |s|
  {
    if s != [] && key(s[0]) > key(x) {
      var y, t := s[0], s[1..];
      var rest := InsertDesc(key, x, t);
      InsertDescStable(key, x, t, c);
      assert s == [y] + t;
      var h := if key(y) == c then [y] else [];
      var hx := if key(x) == c then [x] else [];
      var w := WithKey(key, t, c);
      WithKeyCons(key, y, rest, c);
      WithKeyCons(key, x, t, c);
      WithKeyCons(key, y, t, c);
      WithKeyCons(key, x, s, c);
      // the head and `x` cannot both have key `c`: the head's key is above `x`'s
      if key(x) == c {
        assert h == [];
        assert WithKey(key, InsertDesc(key, x, s), c) == [] + ([x] + w);
      } else {
        assert hx == [];
        assert WithKey(key, InsertDesc(key, x, s), c) == h + ([] + w);
      }
    }
  }

  lemma WithKeyCons<T>(key: T -> real, y: T, t: seq<T>, c: real)
    ensures WithKey(key, [y] + t, c) == (if key(y) == c then [y] else []) + WithKey(key, t, c)
  {
    assert ([y] + t)[0] == y && ([y] + t)[1..] == t;
  }

  /**
   * The order of the backfill: the candidates sorted by decreasing
   * confidence, each once, and candidates of equal confidence in their
   * original order (the sort is stable).
   */
  lemma {:induction false} SortDescProperties<T>(key: T -> real, s: seq<T>)
    ensures Descending(key, SortDesc(key, s))
    ensures multiset(SortDesc(key, s)) == multiset(s)
    ensures forall c :: WithKey(key, SortDesc(key, s), c) == WithKey(key, s, c)
    decreases |s|
  {
    if s != [] {
      var rest := SortDesc(key, s[1..]);
      SortDescProperties(key, s[1..]);
      InsertDescSorted(key, s[0], rest);
      InsertDescPerm(key, s[0], rest);
      assert s == [s[0]] + s[1..];
      forall c
        ensures WithKey(key, SortDesc(key, s), c) == WithKey(key, s, c)
      {
        InsertDescStable(key, s[0], rest, c);
        assert ([s[0]] + rest)[0] == s[0] && ([s[0]] + rest)[1..] == rest;
        assert s[0] == ([s[0]] + s[1..])[0];
      }
    }
  }
}
