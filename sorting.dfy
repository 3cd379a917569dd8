/**
 * Python's `list.sort(key=..., reverse=True)` and `sorted(..., reverse=True)`:
 * a stable sort into non-increasing key order. Elements with equal keys keep
 * their original relative order, as Python guarantees even with `reverse=True`.
 */
module Sorting {
  import opened Seqs

  predicate SortedDesc<T>(s: seq<T>, key: T -> real) {
    forall i, j :: 0 <= i < j < |s| ==> key(s[i]) >= key(s[j])
  }

  /** Place `x` before the first element whose key is not above its own. */
  function Insert<T>(x: T, t: seq<T>, key: T -> real): seq<T>
  {
    if t == [] || key(t[0]) <= key(x) then [x] + t
    else [t[0]] + Insert(x, t[1..], key)
  }

  /** Insertion sort, inserting the elements from the back so that earlier ones come first among equals. */
  function SortDesc<T>(s: seq<T>, key: T -> real): seq<T>
  {
    if s == [] then [] else Insert(s[0], SortDesc(s[1..], key), key)
  }

  /** The elements whose key equals `c`, in their order in `s`. */
  function WithKey<T>(s: seq<T>, key: T -> real, c: real): (r: seq<T>)
    ensures |r| <= |s|
  {
    if s == [] then []
    else (if key(s[0]) == c then [s[0]] else []) + WithKey(s[1..], key, c)
  }

  lemma {:induction false} InsertPerm<T>(x: T, t: seq<T>, key: T -> real)
    ensures multiset(Insert(x, t, key)) == multiset(t) + multiset{x}
  {
    if !(t == [] || key(t[0]) <= key(x)) {
      InsertPerm(x, t[1..], key);
      assert t == [t[0]] + t[1..];
    }
  }

  lemma {:induction false} InsertSorted<T>(x: T, t: seq<T>, key: T -> real)
    requires SortedDesc(t, key)
    ensures SortedDesc(Insert(x, t, key), key)
  {
    var r := Insert(x, t, key);
    if !(t == [] || key(t[0]) <= key(x)) {
      var rest := Insert(x, t[1..], key);
      InsertSorted(x, t[1..], key);
      InsertPerm(x, t[1..], key);
      assert r == [t[0]] + rest;
      forall j | 0 < j < |r| ensures key(r[0]) >= key(r[j]) {
        var y := r[j];
        assert y == rest[j - 1];
        assert y in multiset(rest);
        assert y in multiset(t[1..]) || y == x;
        if y != x {
          var m :| 0 <= m < |t[1..]| && t[1..][m] == y;
          assert t[m + 1] == y;
        }
      }
    }
  }

  lemma {:induction false} InsertWithKey<T>(x: T, t: seq<T>, key: T -> real, c: real)
    requires SortedDesc(t, key)
    ensures WithKey(Insert(x, t, key), key, c) ==
            (if key(x) == c then [x] else []) + WithKey(t, key, c)
  {
    var r := Insert(x, t, key);
    if t == [] || key(t[0]) <= key(x) {
      assert r[1..] == t;
    } else {
      SortedTail(t, key);
      InsertWithKey(x, t[1..], key, c);
      assert r[0] == t[0] && r[1..] == Insert(x, t[1..], key);
      assert WithKey(r, key, c) == (if key(t[0]) == c then [t[0]] else []) + WithKey(Insert(x, t[1..], key), key, c);
      assert WithKey(t, key, c) == (if key(t[0]) == c then [t[0]] else []) + WithKey(t[1..], key, c);
    }
  }

  lemma SortedTail<T>(t: seq<T>, key: T -> real)
    requires t != [] && SortedDesc(t, key)
    ensures SortedDesc(t[1..], key)
  {
    forall i, j | 0 <= i < j < |t[1..]| ensures key(t[1..][i]) >= key(t[1..][j]) {
      assert t[1..][i] == t[i + 1] && t[1..][j] == t[j + 1];
    }
  }

  /** The sort result is ordered by non-increasing key. */
  lemma {:induction false} SortDescFacts<T>(s: seq<T>, key: T -> real)
    ensures SortedDesc(SortDesc(s, key), key)
    ensures multiset(SortDesc(s, key)) == multiset(s)
    ensures forall c :: WithKey(SortDesc(s, key), key, c) == WithKey(s, key, c)
  {
    if s != [] {
      var rest := SortDesc(s[1..], key);
      SortDescFacts(s[1..], key);
      InsertSorted(s[0], rest, key);
      InsertPerm(s[0], rest, key);
      forall c ensures WithKey(SortDesc(s, key), key, c) == WithKey(s, key, c) {
        InsertWithKey(s[0], rest, key, c);
      }
      assert s == [s[0]] + s[1..];
    }
  }

  /** Sorting neither loses nor adds an element. */
  lemma SortDescMembers<T>(s: seq<T>, key: T -> real)
    ensures forall x :: x in SortDesc(s, key) <==> x in s
  {
    SortDescFacts(s, key);
    forall x ensures x in SortDesc(s, key) <==> x in s {
      assert x in SortDesc(s, key) <==> x in multiset(SortDesc(s, key));
      assert x in s <==> x in multiset(s);
    }
  }

  /** A comprehension over a sorted list is sorted. */
  lemma {:induction false} KeepSortedDesc<T>(s: seq<T>, p: T -> bool, key: T -> real)
    requires SortedDesc(s, key)
    ensures SortedDesc(Keep(s, p), key)
  {
    if s != [] {
      var rest := Keep(s[1..], p);
      KeepSortedDesc(s[1..], p, key);
      KeepMembers(s[1..], p);
      forall k | 0 <= k < |rest| ensures key(s[0]) >= key(rest[k]) {
        assert rest[k] in rest;
        assert rest[k] in s[1..];
        var i :| 0 <= i < |s[1..]| && s[1..][i] == rest[k];
        assert s[i + 1] == rest[k];
      }
    }
  }

  /** Sorting a list whose keys are already non-increasing changes nothing. */
  lemma {:induction false} SortDescSorted<T>(s: seq<T>, key: T -> real)
    requires SortedDesc(s, key)
    ensures SortDesc(s, key) == s
  {
    if s != [] {
      SortDescSorted(s[1..], key);
      assert SortDesc(s[1..], key) == s[1..];
    }
  }
}
