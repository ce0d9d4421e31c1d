/**
 Counting the entries of a finite map whose value satisfies a predicate.  The
 engine's reference counts, queue lengths and ownership claims are all stated
 as such counts, so one update lemma serves every transition.
 */
module Counting {

  ghost function Count<K(!new), V>(m: map<K, V>, p: V -> bool): nat {
    |set k | k in m && p(m[k])|
  }

  function Weight<K, V>(m: map<K, V>, k: K, p: V -> bool): nat {
    if k in m && p(m[k]) then 1 else 0
  }

  lemma CountSplit<K(!new), V>(m: map<K, V>, k: K, p: V -> bool)
    ensures Count(m, p) == Count(m - {k}, p) + Weight(m, k, p)
  {
    var whole := set k' | k' in m && p(m[k']);
    var rest := set k' | k' in m - {k} && p((m - {k})[k']);
    if k in m && p(m[k]) {
      assert whole == rest + {k};
    } else {
      assert whole == rest;
    }
  }

  /** The two maps agree on every other key. */
  ghost predicate SameOff<K(!new), V>(m: map<K, V>, m': map<K, V>, k: K) {
    forall k' :: k' != k ==> (k' in m <==> k' in m') && (k' in m ==> m[k'] == m'[k'])
  }

  /** Two maps that agree off one key differ in count by the weights at that key. */
  lemma CountChange<K(!new), V>(m: map<K, V>, m': map<K, V>, k: K, p: V -> bool)
    requires SameOff(m, m', k)
    ensures Count(m', p) + Weight(m, k, p) == Count(m, p) + Weight(m', k, p)
  {
    assert m - {k} == m' - {k};
    CountSplit(m, k, p);
    CountSplit(m', k, p);
  }

  /** Entries that do not satisfy the predicate may be dropped without changing the count. */
  lemma CountDrop<K(!new), V>(m: map<K, V>, dropped: set<K>, p: V -> bool)
    requires forall k :: k in m && k in dropped ==> !p(m[k])
    ensures Count(m - dropped, p) == Count(m, p)
  {
    assert (set k | k in m && p(m[k])) == (set k | k in m - dropped && p((m - dropped)[k]));
  }

  lemma CountWitness<K(!new), V>(m: map<K, V>, k: K, p: V -> bool)
    requires k in m && p(m[k])
    ensures Count(m, p) >= 1
  {
    CountSplit(m, k, p);
  }

  lemma CountUnique<K(!new), V>(m: map<K, V>, k: K, k': K, p: V -> bool)
    requires k in m && p(m[k]) && k' in m && p(m[k'])
    requires Count(m, p) <= 1
    ensures k == k'
  {
    CountSplit(m, k, p);
    if k != k' {
      CountWitness(m - {k}, k', p);
    }
  }

  lemma CountSet<K(!new), V>(m: map<K, V>, p: V -> bool, chosen: set<K>)
    requires forall k :: k in chosen <==> k in m && p(m[k])
    ensures Count(m, p) == |chosen|
  {
    assert (set k | k in m && p(m[k])) == chosen;
  }

  lemma SubsetSize<T>(a: set<T>, b: set<T>)
    requires a <= b
    ensures |a| <= |b|
  {
    assert b == a + (b - a);
  }
}
