/**
 * List comprehensions with a condition (`[x for x in s if p(x)]`), reversal
 * and the `min` the source uses when it takes a prefix of a list.
 */
module Seqs {

  /** `[x for x in s if p(x)]`: the elements that pass, in their order. */
  function Keep<T>(s: seq<T>, p: T -> bool): (r: seq<T>)
    ensures |r| <= |s|
    ensures forall k :: 0 <= k < |r| ==> p(r[k])
  {
    if s == [] then []
    else (if p(s[0]) then [s[0]] else []) + Keep(s[1..], p)
  }

  /** Keeping loses no element that passes and invents none. */
  lemma {:induction false} KeepMembers<T>(s: seq<T>, p: T -> bool)
    ensures forall x :: x in Keep(s, p) ==> x in s && p(x)
    ensures forall x :: x in s && p(x) ==> x in Keep(s, p)
  {
    if s != [] {
      KeepMembers(s[1..], p);
      assert s == [s[0]] + s[1..];
    }
  }

  /** Keeping distributes over concatenation. */
  lemma {:induction false} KeepAppend<T>(s: seq<T>, t: seq<T>, p: T -> bool)
    ensures Keep(s + t, p) == Keep(s, p) + Keep(t, p)
  {
    if s != [] {
      var head := if p(s[0]) then [s[0]] else [];
      KeepAppend(s[1..], t, p);
      assert (s + t)[0] == s[0];
      assert (s + t)[1..] == s[1..] + t;
      assert Keep(s + t, p) == head + (Keep(s[1..], p) + Keep(t, p));
      assert Keep(s, p) == head + Keep(s[1..], p);
    } else {
      assert s + t == t;
    }
  }

  /** A condition every element passes keeps the whole list. */
  lemma {:induction false} KeepAll<T>(s: seq<T>, p: T -> bool)
    requires forall x :: x in s ==> p(x)
    ensures Keep(s, p) == s
  {
    if s != [] {
      KeepAll(s[1..], p);
      assert s == [s[0]] + s[1..];
    }
  }

  /** A condition no element passes keeps nothing. */
  lemma {:induction false} KeepNone<T>(s: seq<T>, p: T -> bool)
    requires forall x :: x in s ==> !p(x)
    ensures Keep(s, p) == []
  {
    if s != [] {
      KeepNone(s[1..], p);
    }
  }

  /** Two conditions that agree on every element keep the same elements. */
  lemma {:induction false} KeepSame<T>(s: seq<T>, p: T -> bool, q: T -> bool)
    requires forall x :: x in s ==> p(x) == q(x)
    ensures Keep(s, p) == Keep(s, q)
  {
    if s != [] {
      KeepSame(s[1..], p, q);
    }
  }

  /** When every element passes exactly one of two conditions, the two kept lists share out the list. */
  lemma {:induction false} KeepComplement<T>(s: seq<T>, p: T -> bool, q: T -> bool)
    requires forall x :: x in s ==> (p(x) <==> !q(x))
    ensures |Keep(s, p)| + |Keep(s, q)| == |s|
  {
    if s != [] {
      KeepComplement(s[1..], p, q);
    }
  }

  /** Keeping preserves a strictly increasing key. */
  lemma {:induction false} KeepIncreasing<T>(s: seq<T>, p: T -> bool, key: T -> int)
    requires forall i, j :: 0 <= i < j < |s| ==> key(s[i]) < key(s[j])
    ensures forall i, j :: 0 <= i < j < |Keep(s, p)| ==> key(Keep(s, p)[i]) < key(Keep(s, p)[j])
  {
    if s != [] {
      var rest := Keep(s[1..], p);
      KeepIncreasing(s[1..], p, key);
      KeepMembers(s[1..], p);
      forall k | 0 <= k < |rest| ensures key(s[0]) < key(rest[k]) {
        assert rest[k] in rest;
        assert rest[k] in s[1..];
        var i :| 0 <= i < |s[1..]| && s[1..][i] == rest[k];
        assert s[i + 1] == rest[k];
      }
    }
  }

  function Reverse<T>(s: seq<T>): (r: seq<T>)
    ensures |r| == |s|
    ensures forall k :: 0 <= k < |s| ==> r[k] == s[|s| - 1 - k]
  {
    seq(|s|, k requires 0 <= k < |s| => s[|s| - 1 - k])
  }

  function Min(a: nat, b: nat): (m: nat)
    ensures m <= a && m <= b && (m == a || m == b)
  {
    if a <= b then a else b
  }

  /** `s[:n]`: the first `n` elements, or all of them when there are fewer. */
  function Prefix<T>(s: seq<T>, n: nat): (r: seq<T>)
    ensures |r| == Min(n, |s|)
    ensures forall k :: 0 <= k < |r| ==> r[k] == s[k]
  {
    s[..Min(n, |s|)]
  }
}
