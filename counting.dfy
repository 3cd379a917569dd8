/**
 * Occurrence counts kept in a dictionary, the way the source builds its
 * statistics: `counts[k] = counts.get(k, 0) + 1` for every element in turn.
 */
module Counting {

  /** One step of the counting loop: bump the count of `k`, starting from 0. */
  function Bump<K>(m: map<K, nat>, k: K): (r: map<K, nat>)
    ensures r.Keys == m.Keys + {k}
    ensures r[k] == (if k in m then m[k] else 0) + 1
    ensures forall j :: j in m && j != k ==> r[j] == m[j]
  {
    m[k := (if k in m then m[k] else 0) + 1]
  }

  /** The dictionary the counting loop leaves behind after the keys `ks`, in order. */
  function Tally<K>(ks: seq<K>): map<K, nat>
  {
    if ks == [] then map[] else Bump(Tally(ks[..|ks| - 1]), ks[|ks| - 1])
  }

  /** Each key present is counted exactly as often as it occurs, and no absent key appears. */
  lemma {:induction false} TallyCounts<K>(ks: seq<K>)
    ensures forall k :: k in Tally(ks) <==> k in multiset(ks)
    ensures forall k :: k in Tally(ks) ==> Tally(ks)[k] == multiset(ks)[k]
  {
    if ks != [] {
      var init := ks[..|ks| - 1];
      TallyCounts(init);
      assert ks == init + [ks[|ks| - 1]];
      assert multiset(ks) == multiset(init) + multiset{ks[|ks| - 1]};
    }
  }

  /** An arbitrary but fixed element of a non-empty set. */
  ghost function Pick<K>(s: set<K>): K
    requires s != {}
  {
    var k :| k in s; k
  }

  /** The sum of the counts in a dictionary. */
  ghost function Sum<K>(m: map<K, nat>): nat
    decreases |m.Keys|
  {
    if m.Keys == {} then 0
    else
      var k := Pick(m.Keys);
      m[k] + Sum(m - {k})
  }

  /** The sum does not depend on which key is taken out first. */
  lemma {:induction false} SumRemove<K>(m: map<K, nat>, k: K)
    requires k in m
    decreases |m.Keys|
    ensures Sum(m) == m[k] + Sum(m - {k})
  {
    var j := Pick(m.Keys);
    if j != k {
      assert (m - {j}) - {k} == (m - {k}) - {j};
      SumRemove(m - {j}, k);
      SumRemove(m - {k}, j);
    }
  }

  /** One bump adds one to the sum. */
  lemma SumBump<K>(m: map<K, nat>, k: K)
    ensures Sum(Bump(m, k)) == Sum(m) + 1
  {
    var r := Bump(m, k);
    SumRemove(r, k);
    assert r - {k} == m - {k};
    if k in m {
      SumRemove(m, k);
    } else {
      assert m - {k} == m;
    }
  }

  /** The counts of a tally add up to the number of keys counted. */
  lemma {:induction false} TallySum<K>(ks: seq<K>)
    ensures Sum(Tally(ks)) == |ks|
  {
    if ks == [] {
      assert Tally(ks).Keys == {};
    } else {
      TallySum(ks[..|ks| - 1]);
      SumBump(Tally(ks[..|ks| - 1]), ks[|ks| - 1]);
    }
  }
}
