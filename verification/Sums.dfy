/** Finite sums over maps: the one notion of total that the ledgers, the vault and the scheduler share. */
module Sums {

  /** Sum of all the values of `m`. */
  ghost function Sum<K(!new)>(m: map<K, int>): int
  {
    if m == map[] then 0
    else
      var k :| k in m;
      m[k] + Sum(m - {k})
  }

  /** Any key can be split off, whichever one the definition happens to choose. */
  lemma {:induction false} SumSplit<K(!new)>(m: map<K, int>, k: K)
    requires k in m
    ensures Sum(m) == m[k] + Sum(m - {k})
    decreases m.Keys
  {
    var c :| c in m && Sum(m) == m[c] + Sum(m - {c});
    if c != k {
      SumSplit(m - {c}, k);
      SumSplit(m - {k}, c);
      assert m - {c} - {k} == m - {k} - {c};
    }
  }

  /** Writing one key changes the sum by the change at that key. */
  lemma SumUpdate<K(!new)>(m: map<K, int>, k: K, v: int)
    ensures Sum(m[k := v]) == Sum(m) - (if k in m then m[k] else 0) + v
  {
    SumSplit(m[k := v], k);
    assert m[k := v] - {k} == m - {k};
    if k in m {
      SumSplit(m, k);
    } else {
      assert m - {k} == m;
    }
  }

  /** A map that is dominated on its keys by a non-negative map has the smaller sum. */
  lemma {:induction false} SumDominated<K(!new)>(a: map<K, int>, b: map<K, int>)
    requires forall k :: k in a ==> k in b && a[k] <= b[k]
    requires forall k :: k in b ==> 0 <= b[k]
    ensures Sum(a) <= Sum(b)
    decreases b.Keys
  {
    if b != map[] {
      var k :| k in b;
      SumSplit(b, k);
      if k in a {
        SumSplit(a, k);
        SumDominated(a - {k}, b - {k});
      } else {
        SumDominated(a, b - {k});
      }
    }
  }

  /** Two different keys of a non-negative map together weigh no more than the whole. */
  lemma SumPair<K(!new)>(m: map<K, int>, j: K, k: K)
    requires j in m && k in m && j != k
    requires forall i :: i in m ==> 0 <= m[i]
    ensures m[j] + m[k] <= Sum(m)
  {
    SumSplit(m, j);
    SumSplit(m - {j}, k);
    SumDominated(map[], m - {j} - {k});
  }

  /** No single key of a non-negative map outweighs the whole. */
  lemma SumAtLeast<K(!new)>(m: map<K, int>, k: K)
    requires k in m
    requires forall i :: i in m ==> 0 <= m[i]
    ensures m[k] <= Sum(m)
  {
    SumSplit(m, k);
    SumDominated(map[], m - {k});
  }

  lemma {:induction false} SumZero<K(!new)>(m: map<K, int>)
    requires forall k :: k in m ==> m[k] == 0
    ensures Sum(m) == 0
    decreases m.Keys
  {
    if m != map[] {
      var k :| k in m;
      SumSplit(m, k);
      SumZero(m - {k});
    }
  }

  lemma {:induction false} SumOfPositives<K(!new)>(m: map<K, int>)
    requires forall k :: k in m ==> 1 <= m[k]
    ensures |m| <= Sum(m)
    decreases m.Keys
  {
    if m != map[] {
      var k :| k in m;
      SumSplit(m, k);
      SumOfPositives(m - {k});
      assert m.Keys == (m - {k}).Keys + {k};
    }
  }
}
