/**
 * Python's `list.sort(key=...)` and `sorted(..., key=..., reverse=True)` as
 * used by the suggestion engines and the job matchers.  Every key used
 * there is a pair compared lexicographically: a priority rank and a negated
 * delta, a negated score, and so on.  Python's sort is stable; the model is
 * an insertion sort that inserts each element after every element whose key
 * is not greater, which is stable as well.
 */
module Sorting {
  type Key = (int, real)

  predicate KeyLess(a: Key, b: Key) {
    a.0 < b.0 || (a.0 == b.0 && a.1 < b.1)
  }

  predicate KeyLe(a: Key, b: Key) {
    !KeyLess(b, a)
  }

  /** Non-decreasing by key. */
  predicate SortedBy<T>(s: seq<T>, key: T -> Key) {
    forall i, j :: 0 <= i < j < |s| ==> KeyLe(key(s[i]), key(s[j]))
  }

  /** Inserts `x` before the first element with a strictly greater key. */
  function Insert<T>(x: T, s: seq<T>, key: T -> Key): (r: seq<T>)
    ensures |r| == |s| + 1
    ensures multiset(r) == multiset(s) + multiset{x}
    ensures forall y :: y in r ==> y == x || y in s
  {
    if s == [] then [x]
    else if KeyLess(key(x), key(s[0])) then [x] + s
    else
      assert s == [s[0]] + s[1..];
      [s[0]] + Insert(x, s[1..], key)
  }

  /** The sorted list. */
  function SortBy<T>(s: seq<T>, key: T -> Key): seq<T> {
    if s == [] then [] else Insert(s[|s| - 1], SortBy(s[..|s| - 1], key), key)
  }

  lemma {:induction false} InsertSorted<T>(x: T, s: seq<T>, key: T -> Key)
    requires SortedBy(s, key)
    ensures SortedBy(Insert(x, s, key), key)
  {
    if s != [] && !KeyLess(key(x), key(s[0])) {
      InsertSorted(x, s[1..], key);
      var r := Insert(x, s, key);
      var t := Insert(x, s[1..], key);
      assert r == [s[0]] + t;
      forall j | 0 <= j < |t| ensures KeyLe(key(s[0]), key(t[j])) {
        assert t[j] in t;
        if t[j] != x {
          var k :| 0 <= k < |s[1..]| && s[1..][k] == t[j];
          assert s[k + 1] == t[j];
        }
      }
      forall i, j | 0 <= i < j < |r| ensures KeyLe(key(r[i]), key(r[j])) {
        if i > 0 {
          assert r[i] == t[i - 1] && r[j] == t[j - 1];
        } else {
          assert r[j] == t[j - 1];
        }
      }
    }
  }

  /** The result is ordered by key and is a permutation of the input. */
  lemma SortBySpec<T>(s: seq<T>, key: T -> Key)
    ensures SortedBy(SortBy(s, key), key)
    ensures multiset(SortBy(s, key)) == multiset(s)
    ensures |SortBy(s, key)| == |s|
  {
    SortBySorted(s, key);
    SortByPermutes(s, key);
  }

  lemma {:induction false} SortBySorted<T>(s: seq<T>, key: T -> Key)
    ensures SortedBy(SortBy(s, key), key)
  {
    if s != [] {
      SortBySorted(s[..|s| - 1], key);
      InsertSorted(s[|s| - 1], SortBy(s[..|s| - 1], key), key);
    }
  }

  lemma {:induction false} SortByPermutes<T>(s: seq<T>, key: T -> Key)
    ensures multiset(SortBy(s, key)) == multiset(s)
  {
    if s != [] {
      var init := s[..|s| - 1];
      var last := s[|s| - 1];
      SortByPermutes(init, key);
      assert s == init + [last];
      calc {
        multiset(SortBy(s, key));
        multiset(SortBy(init, key)) + multiset{last};
        multiset(init) + multiset{last};
        multiset(init + [last]);
      }
    }
  }

  /** The elements whose key is exactly `k`, in order. */
  function WithKey<T>(s: seq<T>, key: T -> Key, k: Key): (r: seq<T>)
    ensures |r| <= |s|
  {
    if s == [] then []
    else (if key(s[0]) == k then [s[0]] else []) + WithKey(s[1..], key, k)
  }

  lemma {:induction false} WithKeyAbove<T>(s: seq<T>, key: T -> Key, k: Key)
    requires forall i :: 0 <= i < |s| ==> KeyLess(k, key(s[i]))
    ensures WithKey(s, key, k) == []
  {
    if s != [] {
      WithKeyAbove(s[1..], key, k);
    }
  }

  lemma KeyLessLe(a: Key, b: Key, c: Key)
    requires KeyLess(a, b) && KeyLe(b, c)
    ensures KeyLess(a, c)
  {
  }

  lemma SortedTail<T>(s: seq<T>, key: T -> Key)
    requires s != [] && SortedBy(s, key)
    ensures SortedBy(s[1..], key)
  {
    forall i, j | 0 <= i < j < |s[1..]| ensures KeyLe(key(s[1..][i]), key(s[1..][j])) {
      assert s[1..][i] == s[i + 1] && s[1..][j] == s[j + 1];
    }
  }

  /** Inserting in front of a sorted list whose head is strictly greater. */
  lemma WithKeyInsertFront<T>(x: T, s: seq<T>, key: T -> Key, k: Key)
    requires s != [] && SortedBy(s, key) && KeyLess(key(x), key(s[0]))
    ensures WithKey([x] + s, key, k) == WithKey(s, key, k) + (if key(x) == k then [x] else [])
  {
    assert ([x] + s)[1..] == s;
    if key(x) == k {
      forall i | 0 <= i < |s| ensures KeyLess(k, key(s[i])) {
        if i > 0 {
          KeyLessLe(k, key(s[0]), key(s[i]));
        }
      }
      WithKeyAbove(s, key, k);
    }
  }

  lemma ConcatAssoc<T>(a: seq<T>, b: seq<T>, c: seq<T>)
    ensures a + (b + c) == (a + b) + c
  {
  }

  lemma WithKeyCons<T>(y: T, t: seq<T>, key: T -> Key, k: Key)
    ensures WithKey([y] + t, key, k) == (if key(y) == k then [y] else []) + WithKey(t, key, k)
  {
    assert ([y] + t)[1..] == t;
  }

  lemma {:induction false} WithKeyInsert<T>(x: T, s: seq<T>, key: T -> Key, k: Key)
    requires SortedBy(s, key)
    ensures WithKey(Insert(x, s, key), key, k) == WithKey(s, key, k) + (if key(x) == k then [x] else [])
  {
    var e := if key(x) == k then [x] else [];
    if s == [] {
      assert Insert(x, s, key) == [x] + [];
      WithKeyCons(x, [], key, k);
    } else if KeyLess(key(x), key(s[0])) {
      assert Insert(x, s, key) == [x] + s;
      WithKeyInsertFront(x, s, key, k);
    } else {
      var tail := s[1..];
      var t := Insert(x, tail, key);
      var h := if key(s[0]) == k then [s[0]] else [];
      SortedTail(s, key);
      WithKeyInsert(x, tail, key, k);
      assert Insert(x, s, key) == [s[0]] + t;
      WithKeyCons(s[0], t, key, k);
      assert s == [s[0]] + tail;
      WithKeyCons(s[0], tail, key, k);
      ConcatAssoc(h, WithKey(tail, key, k), e);
    }
  }

  lemma {:induction false} WithKeyAppend<T>(s: seq<T>, x: T, key: T -> Key, k: Key)
    ensures WithKey(s + [x], key, k) == WithKey(s, key, k) + (if key(x) == k then [x] else [])
  {
    if s != [] {
      WithKeyAppend(s[1..], x, key, k);
      assert (s + [x])[1..] == s[1..] + [x];
    }
  }

  /** Stability: elements with equal keys keep their relative order. */
  lemma {:induction false} SortByStable<T>(s: seq<T>, key: T -> Key, k: Key)
    ensures WithKey(SortBy(s, key), key, k) == WithKey(s, key, k)
  {
    if s != [] {
      var init, last := s[..|s| - 1], s[|s| - 1];
      var prev := SortBy(init, key);
      var e := if key(last) == k then [last] else [];
      assert SortBy(s, key) == Insert(last, prev, key);
      SortBySorted(init, key);
      WithKeyInsert(last, prev, key, k);
      SortByStable(init, key, k);
      assert WithKey(SortBy(s, key), key, k) == WithKey(init, key, k) + e;
      WithKeyAppend(init, last, key, k);
      assert s == init + [last];
    }
  }

  /** Python `s[:n]` for any integer `n`: a negative `n` drops that many from the end. */
  function SliceTo<T>(s: seq<T>, n: int): (r: seq<T>)
    ensures |r| <= |s| && r == s[..|r|]
    ensures n >= 0 ==> |r| == if n <= |s| then n else |s|
    ensures n < 0 ==> |r| == if |s| + n >= 0 then |s| + n else 0
  {
    if n >= |s| then s
    else if n >= 0 then s[..n]
    else if |s| + n >= 0 then s[..|s| + n]
    else []
  }

  /** A sorted list's prefix holds every element whose key is below that of a member of the prefix. */
  lemma SortedPrefix<T>(s: seq<T>, key: T -> Key, n: int)
    requires SortedBy(s, key)
    ensures var top := SliceTo(s, n);
            forall r, x :: r in top && x in s && KeyLess(key(x), key(r)) ==> x in top
  {
    var top := SliceTo(s, n);
    forall r, x | r in top && x in s && KeyLess(key(x), key(r)) ensures x in top {
      var q :| 0 <= q < |top| && top[q] == r;
      var p :| 0 <= p < |s| && s[p] == x;
      assert s[q] == r;
      assert forall m :: q <= m < |s| ==> KeyLe(key(s[q]), key(s[m]));
      assert p < q;
      assert top[p] == x;
    }
  }

  /**
   * `sorted(s, key)[:n]`: ordered by key, at most `n` elements (for `n >= 0`),
   * drawn from `s`, all of `s` when `n` reaches its length, and any element of
   * `s` that sorts strictly before a returned one is returned too.
   */
  lemma SortedSliceSpec<T>(s: seq<T>, key: T -> Key, n: int)
    ensures SortedBy(SliceTo(SortBy(s, key), n), key)
    ensures n >= 0 ==> |SliceTo(SortBy(s, key), n)| <= n
    ensures multiset(SliceTo(SortBy(s, key), n)) <= multiset(s)
    ensures n >= |s| ==> multiset(SliceTo(SortBy(s, key), n)) == multiset(s)
    ensures var top := SliceTo(SortBy(s, key), n);
            forall r, x :: r in top && x in s && KeyLess(key(x), key(r)) ==> x in top
  {
    var sorted := SortBy(s, key);
    SortBySpec(s, key);
    var out := SliceTo(sorted, n);
    assert sorted == out + sorted[|out|..];
    assert multiset(sorted) == multiset(out) + multiset(sorted[|out|..]);
    SortedPrefix(sorted, key, n);
    forall i, j | 0 <= i < j < |out| ensures KeyLe(key(out[i]), key(out[j])) {
      assert out[i] == sorted[i] && out[j] == sorted[j];
    }
    forall x | x in s ensures x in sorted {
      assert x in multiset(s);
    }
  }
}
