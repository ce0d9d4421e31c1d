/** The sum of the sizes in a finite map. */
module Totals {

  ghost function Total<K(!new)>(m: map<K, nat>): nat {
    if m == map[] then 0 else
    var k :| k in m;
    m[k] + Total(m - {k})
  }

  lemma {:induction false} TotalSplit<K(!new)>(m: map<K, nat>, k: K)
    requires k in m
    ensures Total(m) == m[k] + Total(m - {k})
    decreases m
  {
    var first :| first in m && Total(m) == m[first] + Total(m - {first});
    if first != k {
      TotalSplit(m - {first}, k);
      TotalSplit(m - {k}, first);
      assert m - {first} - {k} == m - {k} - {first};
    }
  }

  /** Replacing or adding one entry. */
  lemma TotalUpdate<K(!new)>(m: map<K, nat>, k: K, size: nat)
    ensures Total(m[k := size]) == Total(m) - (if k in m then m[k] else 0) + size
  {
    TotalSplit(m[k := size], k);
    if k in m {
      TotalSplit(m, k);
      assert m[k := size] - {k} == m - {k};
    } else {
      assert m[k := size] - {k} == m;
    }
  }

  lemma {:induction false} TotalLess<K(!new)>(m: map<K, nat>, keys: set<K>)
    ensures Total(m - keys) <= Total(m)
    decreases m
  {
    if keys * m.Keys == {} {
      forall k | k in m ensures k !in keys { assert k in keys ==> k in keys * m.Keys; }
      assert m - keys == m;
    } else {
      var k :| k in keys * m.Keys;
      TotalSplit(m, k);
      TotalLess(m - {k}, keys);
      assert m - {k} - keys == m - keys;
    }
  }

  /** Entrywise smaller maps have smaller sums. */
  lemma {:induction false} TotalMonotone<K(!new)>(m: map<K, nat>, m': map<K, nat>)
    requires forall k :: k in m ==> k in m' && m[k] <= m'[k]
    ensures Total(m) <= Total(m')
    decreases m
  {
    if m != map[] {
      var k :| k in m;
      TotalSplit(m, k);
      TotalSplit(m', k);
      TotalMonotone(m - {k}, m' - {k});
    }
  }

  function Restricted<K, V>(m: map<K, V>, keys: set<K>): map<K, V> { map k | k in m && k in keys :: m[k] }

  /** A sum splits along any set of keys. */
  lemma {:induction false} TotalPartition<K(!new)>(m: map<K, nat>, keys: set<K>)
    ensures Total(m) == Total(m - keys) + Total(Restricted(m, keys))
    decreases m
  {
    if m == map[] {
      assert m - keys == m && Restricted(m, keys) == m;
    } else {
      var k :| k in m;
      TotalSplit(m, k);
      TotalPartition(m - {k}, keys);
      if k in keys {
        TotalSplit(Restricted(m, keys), k);
        assert Restricted(m, keys) - {k} == Restricted(m - {k}, keys) && m - {k} - keys == m - keys;
      } else {
        TotalSplit(m - keys, k);
        assert Restricted(m, keys) == Restricted(m - {k}, keys) && m - {k} - keys == m - keys - {k};
      }
    }
  }

  /** The contribution of one key. */
  lemma TotalAt<K(!new)>(m: map<K, nat>, k: K)
    ensures Total(m) == Total(m - {k}) + (if k in m then m[k] else 0)
  {
    if k in m {
      TotalSplit(m, k);
    } else {
      assert m - {k} == m;
    }
  }

  predicate Below<K(!new)>(n: map<K, nat>, m: map<K, nat>) { forall k :: k in m && k in n ==> n[k] <= m[k] }

  /** What is left of each entry of m after the entry of n. */
  function Rest<K(!new)>(m: map<K, nat>, n: map<K, nat>): map<K, nat>
    requires Below(n, m)
  {
    map k | k in m :: m[k] - (if k in n then n[k] else 0)
  }

  lemma {:induction false} TotalRest<K(!new)>(m: map<K, nat>, n: map<K, nat>)
    requires Below(n, m)
    ensures Total(m) == Total(Restricted(n, m.Keys)) + Total(Rest(m, n))
    decreases m
  {
    if m == map[] {
      assert Rest(m, n) == map[] && Restricted(n, m.Keys) == map[];
    } else {
      var k :| k in m;
      var m' := m - {k};
      TotalRest(m', n);
      TotalSplit(m, k);
      TotalSplit(Rest(m, n), k);
      assert Rest(m, n) - {k} == Rest(m', n);
      TotalAt(Restricted(n, m.Keys), k);
      assert Restricted(n, m.Keys) - {k} == Restricted(n, m'.Keys);
    }
  }
}
