/** Totals over finite maps and sequences, as byte and row accounting needs them. */
module Sums {
  /** Sum of all values of a map. */
  ghost function Total<K>(m: map<K, nat>): nat
  {
    if m == map[] then 0
    else
      var k :| k in m;
      m[k] + Total(m - {k})
  }

  /** The total does not depend on the order in which keys are taken. */
  lemma {:induction false} TotalRemove<K>(m: map<K, nat>, k: K)
    requires k in m
    ensures Total(m) == m[k] + Total(m - {k})
    decreases m
  {
    var j :| j in m && Total(m) == m[j] + Total(m - {j});
    if j != k {
      TotalRemove(m - {j}, k);
      TotalRemove(m - {k}, j);
      assert m - {j} - {k} == m - {k} - {j};
    }
  }

  lemma TotalInsert<K>(m: map<K, nat>, k: K, n: nat)
    requires k !in m
    ensures Total(m[k := n]) == Total(m) + n
  {
    TotalRemove(m[k := n], k);
    assert m[k := n] - {k} == m;
  }

  /** A restriction of a map never totals more than the map. */
  lemma {:induction false} TotalSubmap<K>(small: map<K, nat>, big: map<K, nat>)
    requires forall k | k in small :: k in big && small[k] == big[k]
    ensures Total(small) <= Total(big)
    ensures |small| <= |big|
    decreases small
  {
    if small != map[] {
      var k :| k in small;
      TotalRemove(small, k);
      TotalRemove(big, k);
      TotalSubmap(small - {k}, big - {k});
      assert (small - {k}).Keys == small.Keys - {k};
      assert (big - {k}).Keys == big.Keys - {k};
    }
  }

  function SumSeq(s: seq<nat>): nat
  {
    if s == [] then 0 else SumSeq(s[..|s| - 1]) + s[|s| - 1]
  }

  lemma SumSeqAppend(s: seq<nat>, n: nat)
    ensures SumSeq(s + [n]) == SumSeq(s) + n
  {
    assert (s + [n])[..|s|] == s;
  }

  lemma {:induction false} SumSeqMonotone(s: seq<nat>, t: seq<nat>)
    requires |s| == |t| && forall i | 0 <= i < |s| :: s[i] <= t[i]
    ensures SumSeq(s) <= SumSeq(t)
  {
    if s != [] {
      SumSeqMonotone(s[..|s| - 1], t[..|t| - 1]);
    }
  }

  lemma {:induction false} SumSeqUpdate(s: seq<nat>, i: nat, n: nat)
    requires i < |s|
    ensures SumSeq(s[i := n]) == SumSeq(s) - s[i] + n
  {
    var last := |s| - 1;
    if i == last {
      assert s[i := n][..last] == s[..last];
    } else {
      SumSeqUpdate(s[..last], i, n);
      assert s[i := n][..last] == s[..last][i := n];
    }
  }
}
