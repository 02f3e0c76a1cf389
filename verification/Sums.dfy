/** Sums over the values of a finite map, independent of the order in which a Go map is ranged over. */
module Sums {

  ghost function Total<K>(m: map<K, int>): int {
    if m == map[] then 0 else
    var k :| k in m;
    m[k] + Total(m - {k})
  }

  /** Any key can be taken out first: the sum does not depend on the choice made in Total. */
  lemma {:induction false} TotalWithout<K>(m: map<K, int>, k: K)
    requires k in m
    ensures Total(m) == m[k] + Total(m - {k})
    decreases |m|
  {
    var first :| first in m && Total(m) == m[first] + Total(m - {first});
    if first != k {
      TotalWithout(m - {first}, k);
      TotalWithout(m - {k}, first);
      assert m - {first} - {k} == m - {k} - {first};
    }
  }

  lemma TotalUpdate<K>(m: map<K, int>, k: K, v: int)
    ensures Total(m[k := v]) == Total(m - {k}) + v
  {
    TotalWithout(m[k := v], k);
    assert m[k := v] - {k} == m - {k};
  }

  lemma {:induction false} TotalNonNegative<K>(m: map<K, int>)
    requires forall k | k in m :: 0 <= m[k]
    ensures 0 <= Total(m)
    ensures forall k | k in m :: m[k] <= Total(m)
    decreases |m|
  {
    forall k | k in m
      ensures 0 <= Total(m) && m[k] <= Total(m)
    {
      TotalNonNegative(m - {k});
      TotalWithout(m, k);
    }
    if m != map[] {
      var k :| k in m;
      assert m[k] <= Total(m);
    }
  }

  /** A map that sends different keys to different values has as many values as keys. */
  lemma {:induction false} InjectiveSize<K, V>(m: map<K, V>)
    requires forall j, k | j in m && k in m && j != k :: m[j] != m[k]
    ensures |m.Values| == |m|
    decreases |m|
  {
    if m != map[] {
      var k :| k in m;
      var rest := m - {k};
      InjectiveSize(rest);
      forall v
        ensures v in m.Values <==> v in rest.Values + {m[k]}
      {
        if v in m.Values {
          var j :| j in m && m[j] == v;
          assert j == k || j in rest;
        }
        if v in rest.Values {
          var j :| j in rest && rest[j] == v;
          assert j in m;
        }
      }
      assert m.Values == rest.Values + {m[k]};
    }
  }

  /** A subset is the whole exactly when it is as large. */
  lemma SubsetBySize<T>(a: set<T>, b: set<T>)
    requires a <= b
    ensures |a| <= |b| && (|a| == |b| <==> a == b)
  {
    assert b == a + (b - a);
  }
}
