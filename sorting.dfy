/** `Array.prototype.sort` with a numeric comparator, as the engine uses it: a stable sort that
    orders elements by non-increasing key. An ascending sort on `d` is the same sort on `-d`. */
module StableSort {

  /** Puts `x` after every element of `s` whose key is at least `key(x)`. */
  function Insert<T>(s: seq<T>, x: T, key: T -> real): (r: seq<T>)
    ensures |r| == |s| + 1
  {
    if s == [] then [x]
    else if key(s[0]) >= key(x) then [s[0]] + Insert(s[1..], x, key)
    else [x] + s
  }

  /** Insertion sort, taking elements in input order. */
  function SortDesc<T>(s: seq<T>, key: T -> real): (r: seq<T>)
    ensures |r| == |s|
  {
    if s == [] then [] else Insert(SortDesc(s[..|s| - 1], key), s[|s| - 1], key)
  }

  ghost predicate NonIncreasing<T>(s: seq<T>, key: T -> real) {
    forall i, j :: 0 <= i < j < |s| ==> key(s[i]) >= key(s[j])
  }

  /** The elements of `s` whose key is `v`, in their order in `s`. */
  function WithKey<T>(s: seq<T>, key: T -> real, v: real): seq<T> {
    if s == [] then [] else (if key(s[0]) == v then [s[0]] else []) + WithKey(s[1..], key, v)
  }

  ghost predicate Pairwise<T>(s: seq<T>, rel: (T, T) -> bool) {
    forall i, j :: 0 <= i < j < |s| ==> rel(s[i], s[j])
  }

  ghost predicate SymmetricRel<T(!new)>(rel: (T, T) -> bool) {
    forall a, b :: rel(a, b) == rel(b, a)
  }

  lemma {:induction false} InsertMultiset<T>(s: seq<T>, x: T, key: T -> real)
    ensures multiset(Insert(s, x, key)) == multiset(s) + multiset{x}
  {
    if s != [] && key(s[0]) >= key(x) {
      InsertMultiset(s[1..], x, key);
      assert s == [s[0]] + s[1..];
    }
  }

  /** The sort is a permutation of its input. */
  lemma {:induction false} SortMultiset<T>(s: seq<T>, key: T -> real)
    ensures multiset(SortDesc(s, key)) == multiset(s)
  {
    if s != [] {
      var p := s[..|s| - 1];
      SortMultiset(p, key);
      InsertMultiset(SortDesc(p, key), s[|s| - 1], key);
      assert s == p + [s[|s| - 1]];
    }
  }

  lemma SortMembers<T>(s: seq<T>, key: T -> real)
    ensures forall x :: x in SortDesc(s, key) <==> x in s
  {
    SortMultiset(s, key);
    forall x ensures x in SortDesc(s, key) <==> x in s {
      assert x in SortDesc(s, key) <==> x in multiset(SortDesc(s, key));
      assert x in s <==> x in multiset(s);
    }
  }

  lemma {:induction false} InsertSorted<T>(s: seq<T>, x: T, key: T -> real)
    requires NonIncreasing(s, key)
    ensures NonIncreasing(Insert(s, x, key), key)
  {
    if s != [] && key(s[0]) >= key(x) {
      var rest := Insert(s[1..], x, key);
      InsertSorted(s[1..], x, key);
      InsertMultiset(s[1..], x, key);
      forall j | 0 <= j < |rest| ensures key(s[0]) >= key(rest[j]) {
        assert rest[j] in multiset(rest);
        if rest[j] != x {
          assert rest[j] in multiset(s[1..]);
          var m :| 0 <= m < |s[1..]| && s[1..][m] == rest[j];
          assert s[m + 1] == rest[j];
        }
      }
    }
  }

  /** The sort orders its output by non-increasing key. */
  lemma {:induction false} SortSorted<T>(s: seq<T>, key: T -> real)
    ensures NonIncreasing(SortDesc(s, key), key)
  {
    if s != [] {
      SortSorted(s[..|s| - 1], key);
      InsertSorted(SortDesc(s[..|s| - 1], key), s[|s| - 1], key);
    }
  }

  lemma {:induction false} WithKeyAppend<T>(a: seq<T>, b: seq<T>, key: T -> real, v: real)
    ensures WithKey(a + b, key, v) == WithKey(a, key, v) + WithKey(b, key, v)
  {
    if a == [] {
      assert a + b == b;
    } else {
      var h := if key(a[0]) == v then [a[0]] else [];
      assert (a + b)[0] == a[0] && (a + b)[1..] == a[1..] + b;
      WithKeyAppend(a[1..], b, key, v);
      calc {
        WithKey(a + b, key, v);
        h + WithKey(a[1..] + b, key, v);
        h + (WithKey(a[1..], key, v) + WithKey(b, key, v));
        (h + WithKey(a[1..], key, v)) + WithKey(b, key, v);
      }
    }
  }

  lemma {:induction false} WithKeyNone<T>(s: seq<T>, key: T -> real, v: real)
    requires forall i :: 0 <= i < |s| ==> key(s[i]) < v
    ensures WithKey(s, key, v) == []
  {
    if s != [] {
      WithKeyNone(s[1..], key, v);
    }
  }

  lemma {:induction false} InsertWithKey<T>(s: seq<T>, x: T, key: T -> real, v: real)
    requires NonIncreasing(s, key)
    ensures WithKey(Insert(s, x, key), key, v)
         == WithKey(s, key, v) + (if key(x) == v then [x] else [])
  {
    var tail := if key(x) == v then [x] else [];
    if s == [] {
      assert WithKey([x], key, v) == tail + WithKey([], key, v);
    } else if key(s[0]) >= key(x) {
      var h := if key(s[0]) == v then [s[0]] else [];
      var rest := Insert(s[1..], x, key);
      assert NonIncreasing(s[1..], key);
      InsertWithKey(s[1..], x, key, v);
      var r := [s[0]] + rest;
      assert r[0] == s[0] && r[1..] == rest;
      calc {
        WithKey(r, key, v);
        h + WithKey(rest, key, v);
        h + (WithKey(s[1..], key, v) + tail);
        (h + WithKey(s[1..], key, v)) + tail;
      }
    } else {
      var r := [x] + s;
      assert r[0] == x && r[1..] == s;
      assert WithKey(r, key, v) == tail + WithKey(s, key, v);
      if key(x) == v {
        WithKeyNone(s, key, v);
      }
    }
  }

  /** Stability: for every key, the elements with that key keep their input order. */
  lemma {:induction false} SortStable<T>(s: seq<T>, key: T -> real, v: real)
    ensures WithKey(SortDesc(s, key), key, v) == WithKey(s, key, v)
  {
    if s != [] {
      var p, x := s[..|s| - 1], s[|s| - 1];
      SortStable(p, key, v);
      SortSorted(p, key);
      InsertWithKey(SortDesc(p, key), x, key, v);
      assert s == p + [x];
      WithKeyAppend(p, [x], key, v);
      assert WithKey([x], key, v) == (if key(x) == v then [x] else []) + WithKey([], key, v);
    }
  }

  lemma {:induction false} InsertPairwise<T(!new)>(s: seq<T>, x: T, key: T -> real, rel: (T, T) -> bool)
    requires SymmetricRel(rel)
    requires Pairwise(s, rel)
    requires forall y :: y in s ==> rel(x, y)
    ensures Pairwise(Insert(s, x, key), rel)
  {
    if s != [] && key(s[0]) >= key(x) {
      var rest := Insert(s[1..], x, key);
      InsertPairwise(s[1..], x, key, rel);
      InsertMultiset(s[1..], x, key);
      forall j | 0 <= j < |rest| ensures rel(s[0], rest[j]) {
        assert rest[j] in multiset(rest);
        if rest[j] == x {
          assert rel(x, s[0]);
        } else {
          assert rest[j] in multiset(s[1..]);
          var m :| 0 <= m < |s[1..]| && s[1..][m] == rest[j];
          assert s[m + 1] == rest[j];
        }
      }
      var r := [s[0]] + rest;
      forall i, j | 0 <= i < j < |r| ensures rel(r[i], r[j]) {
        if i == 0 {
          assert r[j] == rest[j - 1];
        } else {
          assert r[i] == rest[i - 1] && r[j] == rest[j - 1];
        }
      }
    } else if s != [] {
      var r := [x] + s;
      forall i, j | 0 <= i < j < |r| ensures rel(r[i], r[j]) {
        if i == 0 {
          assert r[j] == s[j - 1] && r[j] in s;
        } else {
          assert r[i] == s[i - 1] && r[j] == s[j - 1];
        }
      }
    }
  }

  /** A symmetric relation that holds between every two elements of the input holds between
      every two elements of the output. */
  lemma {:induction false} SortPairwise<T(!new)>(s: seq<T>, key: T -> real, rel: (T, T) -> bool)
    requires SymmetricRel(rel)
    requires Pairwise(s, rel)
    ensures Pairwise(SortDesc(s, key), rel)
  {
    if s != [] {
      var p, x := s[..|s| - 1], s[|s| - 1];
      assert Pairwise(p, rel) by {
        forall i, j | 0 <= i < j < |p| ensures rel(p[i], p[j]) {
          assert p[i] == s[i] && p[j] == s[j];
        }
      }
      SortPairwise(p, key, rel);
      SortMembers(p, key);
      forall y | y in SortDesc(p, key) ensures rel(x, y) {
        var m :| 0 <= m < |p| && p[m] == y;
        assert rel(s[m], s[|s| - 1]);
      }
      InsertPairwise(SortDesc(p, key), x, key, rel);
    }
  }
}
