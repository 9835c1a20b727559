/** Facts about maps and sets that the solver needs to be told one at a time. */
module Collections {
  import opened Wrappers

  function Get<K, V>(m: map<K, V>, k: K): Option<V> { if k in m then Some(m[k]) else None }

  lemma GetDecides<K, V>(a: map<K, V>, b: map<K, V>)
    requires forall k :: Get(a, k) == Get(b, k)
    ensures a == b
  {
    assert forall k :: (k in a <==> Get(a, k).Some?) && (k in b <==> Get(b, k).Some?);
    assert forall k | k in a :: a[k] == Get(a, k).value;
  }

  lemma PlusNothing<K, V>(m: map<K, V>)
    ensures m + map[] == m
  {
  }

  lemma PlusOne<K, V>(m: map<K, V>, k: K, v: V)
    ensures m + map[k := v] == m[k := v]
  {
  }

  lemma PlusAssociates<K, V>(m: map<K, V>, a: map<K, V>, b: map<K, V>)
    ensures m + a + b == m + (a + b)
  {
  }

  lemma MinusNothing<K, V>(m: map<K, V>)
    ensures m - {} == m
  {
  }

  lemma MinusTwice<K, V>(m: map<K, V>, a: set<K>, b: set<K>)
    ensures m - a - b == m - (a + b)
  {
  }

  lemma MinusAll<K, V>(m: map<K, V>, gone: set<K>)
    requires m.Keys <= gone
    ensures m - gone == map[]
  {
  }

  lemma DisjointUnion<T>(a: set<T>, b: set<T>, c: set<T>)
    requires c == a + b && a !! b
    ensures |c| == |a| + |b|
  {
  }

  lemma MoveOver<T>(done: set<T>, rest: set<T>, stale: set<T>, x: T)
    requires done + rest == stale && done !! rest && x in rest
    ensures (done + {x}) + (rest - {x}) == stale && (done + {x}) !! (rest - {x}) && x !in done
  {
  }

  lemma MembersCount<T>(s: set<T>)
    ensures forall x | x in s :: |s| > 0
  {
  }
}
