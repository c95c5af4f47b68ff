/**
  Python's built-in sort, as `sorted(data)` (used by `statistics.median`) and
  `list.sort(key=...)` (used to rank the session's results) have it: a stable
  sort by a key. Stable means that elements with equal keys keep the order
  they had before. The model sorts by insertion from the front of the input,
  which is one sort with exactly these properties.
*/
module Sorting {

  /** `s` is ordered non-decreasingly by `key`. */
  predicate SortedBy<T>(s: seq<T>, key: T -> real) {
    forall i, j | 0 <= i < j < |s| :: key(s[i]) <= key(s[j])
  }

  /**
    Inserts `x` into `s` after the leading elements whose key is at most
    `key(x)`. On a sorted `s`, `x` lands behind the elements with an equal key.
  */
  function InsertBy<T>(s: seq<T>, x: T, key: T -> real): (r: seq<T>)
    ensures |r| == |s| + 1
    ensures multiset(r) == multiset(s) + multiset{x}
  {
    if s == [] then [x]
    else if key(s[0]) <= key(x) then
      assert s == [s[0]] + s[1..];
      [s[0]] + InsertBy(s[1..], x, key)
    else
      [x] + s
  }

  /** Inserting into a sorted sequence keeps it sorted. */
  lemma {:induction false} InsertBySorted<T>(s: seq<T>, x: T, key: T -> real)
    requires SortedBy(s, key)
    ensures SortedBy(InsertBy(s, x, key), key)
  {
    if s != [] && key(s[0]) <= key(x) {
      var rest := InsertBy(s[1..], x, key);
      assert SortedBy(s[1..], key);
      InsertBySorted(s[1..], x, key);
      forall k | 0 <= k < |rest|
        ensures key(s[0]) <= key(rest[k])
      {
        assert rest[k] in multiset(rest);
        assert rest[k] == x || rest[k] in multiset(s[1..]);
        if rest[k] != x {
          var m :| 0 <= m < |s[1..]| && s[1..][m] == rest[k];
          assert s[1 + m] == rest[k];
        }
      }
      var r := [s[0]] + rest;
      assert InsertBy(s, x, key) == r;
      forall i, j | 0 <= i < j < |r|
        ensures key(r[i]) <= key(r[j])
      {
        assert r[j] == rest[j - 1];
        if i > 0 {
          assert r[i] == rest[i - 1];
        }
      }
    }
  }

  /** The elements of `s` whose key is `v`, in their order in `s`. */
  function WithKey<T>(s: seq<T>, key: T -> real, v: real): seq<T> {
    if s == [] then []
    else (if key(s[0]) == v then [s[0]] else []) + WithKey(s[1..], key, v)
  }

  /** Sorts `s` stably by `key`: each element is inserted in input order. */
  function SortBy<T>(s: seq<T>, key: T -> real): (r: seq<T>)
    ensures |r| == |s|
    ensures SortedBy(r, key)
    ensures multiset(r) == multiset(s)
  {
    if s == [] then []
    else
      var init := s[..|s| - 1];
      assert s == init + [s[|s| - 1]];
      InsertBySorted(SortBy(init, key), s[|s| - 1], key);
      InsertBy(SortBy(init, key), s[|s| - 1], key)
  }

  lemma {:induction false} WithKeyAppend<T>(s: seq<T>, t: seq<T>, key: T -> real, v: real)
    ensures WithKey(s + t, key, v) == WithKey(s, key, v) + WithKey(t, key, v)
  {
    if s == [] {
      assert s + t == t;
    } else {
      var u := s + t;
      var head := if key(s[0]) == v then [s[0]] else [];
      assert u[0] == s[0] && u[1..] == s[1..] + t;
      WithKeyAppend(s[1..], t, key, v);
      calc {
        WithKey(u, key, v);
        head + WithKey(s[1..] + t, key, v);
        head + (WithKey(s[1..], key, v) + WithKey(t, key, v));
        (head + WithKey(s[1..], key, v)) + WithKey(t, key, v);
      }
    }
  }

  /** In a sorted sequence, nothing after an element has a smaller key. */
  lemma {:induction false} WithKeyAboveIsEmpty<T>(s: seq<T>, key: T -> real, v: real)
    requires forall k | 0 <= k < |s| :: v < key(s[k])
    ensures WithKey(s, key, v) == []
  {
    if s != [] {
      WithKeyAboveIsEmpty(s[1..], key, v);
    }
  }

  /** Inserting `x` puts it behind every element with the same key. */
  lemma {:induction false} InsertByWithKey<T>(s: seq<T>, x: T, key: T -> real, v: real)
    requires SortedBy(s, key)
    ensures WithKey(InsertBy(s, x, key), key, v)
         == WithKey(s, key, v) + (if key(x) == v then [x] else [])
  {
    if s == [] {
      assert WithKey([x], key, v) == (if key(x) == v then [x] else []) + WithKey([x][1..], key, v);
    } else if key(s[0]) <= key(x) {
      assert SortedBy(s[1..], key);
      InsertByWithKey(s[1..], x, key, v);
      InsertBehindHead(s, x, key, v);
    } else {
      var r := InsertBy(s, x, key);
      assert r == [x] + s;
      assert r[0] == x && r[1..] == s;
      if key(x) == v {
        WithKeyAboveIsEmpty(s, key, v);
      }
    }
  }

  /** The step of InsertByWithKey where `x` goes behind the head of `s`. */
  lemma InsertBehindHead<T>(s: seq<T>, x: T, key: T -> real, v: real)
    requires s != [] && key(s[0]) <= key(x)
    requires WithKey(InsertBy(s[1..], x, key), key, v)
          == WithKey(s[1..], key, v) + (if key(x) == v then [x] else [])
    ensures WithKey(InsertBy(s, x, key), key, v)
         == WithKey(s, key, v) + (if key(x) == v then [x] else [])
  {
    var head := if key(s[0]) == v then [s[0]] else [];
    var tail := if key(x) == v then [x] else [];
    var mid := WithKey(s[1..], key, v);
    var rest := InsertBy(s[1..], x, key);
    assert InsertBy(s, x, key) == [s[0]] + rest;
    assert WithKey(s, key, v) == head + mid;
    WithKeyCons(s[0], rest, key, v);
    calc {
      WithKey(InsertBy(s, x, key), key, v);
      WithKey([s[0]] + rest, key, v);
      head + WithKey(rest, key, v);
      head + (mid + tail);
      { ConcatAssoc(head, mid, tail); }
      (head + mid) + tail;
      WithKey(s, key, v) + tail;
    }
  }

  /** Concatenation is associative; stated apart to keep InsertBehindHead's proof small. */
  lemma ConcatAssoc<T>(a: seq<T>, b: seq<T>, c: seq<T>)
    ensures a + (b + c) == (a + b) + c
  {
  }

  lemma WithKeyCons<T>(h: T, t: seq<T>, key: T -> real, v: real)
    ensures WithKey([h] + t, key, v) == (if key(h) == v then [h] else []) + WithKey(t, key, v)
  {
    assert ([h] + t)[0] == h && ([h] + t)[1..] == t;
  }

  /** SortBy is stable: for every key value, the elements carrying it keep their order. */
  lemma {:induction false} SortByStable<T>(s: seq<T>, key: T -> real, v: real)
    ensures WithKey(SortBy(s, key), key, v) == WithKey(s, key, v)
  {
    if s != [] {
      var init, last := s[..|s| - 1], s[|s| - 1];
      assert s == init + [last];
      SortByStable(init, key, v);
      InsertByWithKey(SortBy(init, key), last, key, v);
      WithKeyAppend(init, [last], key, v);
      assert WithKey([last], key, v) == (if key(last) == v then [last] else []) by {
        assert [last][1..] == [];
      }
    }
  }

  /** A sequence that is already sorted is left as it is. */
  lemma {:induction false} SortBySorted<T>(s: seq<T>, key: T -> real)
    requires SortedBy(s, key)
    ensures SortBy(s, key) == s
  {
    if s != [] {
      var init, last := s[..|s| - 1], s[|s| - 1];
      assert s == init + [last];
      assert SortedBy(init, key);
      SortBySorted(init, key);
      InsertAtEnd(init, last, key);
    }
  }

  lemma {:induction false} InsertAtEnd<T>(s: seq<T>, x: T, key: T -> real)
    requires SortedBy(s, key)
    requires forall k | 0 <= k < |s| :: key(s[k]) <= key(x)
    ensures InsertBy(s, x, key) == s + [x]
  {
    if s != [] {
      assert SortedBy(s[1..], key);
      InsertAtEnd(s[1..], x, key);
      assert s == [s[0]] + s[1..];
    }
  }
}
