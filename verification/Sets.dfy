/** Taking elements out of finite sets, and comparing sizes. */
module Sets {

  /** Some element: the order in which a set is consumed never matters here. */
  method Pick<T>(s: set<T>) returns (x: T)
    requires s != {}
    ensures x in s
  {
    x :| x in s;
  }

  lemma SubsetSize<T>(a: set<T>, b: set<T>)
    requires a <= b
    ensures |a| <= |b|
  {
    assert a + (b - a) == b;
  }

  lemma SameSize<T>(a: set<T>, b: set<T>)
    requires a <= b && |a| == |b|
    ensures a == b
  {
    assert b == a + (b - a);
  }

  lemma Missing<T>(a: set<T>, b: set<T>) returns (x: T)
    requires a <= b && |a| < |b|
    ensures x in b && x !in a
  {
    assert a != b;
    x :| x in b && x !in a;
  }

  lemma DifferenceSize<T>(a: set<T>, b: set<T>)
    requires b <= a
    ensures |a - b| == |a| - |b|
  {
    assert a == (a - b) + b;
  }

  lemma SameMap<K, V>(m: map<K, V>, n: map<K, V>)
    requires forall k :: k in m <==> k in n
    requires forall k :: k in m ==> m[k] == n[k]
    ensures m == n
  {
  }

  lemma SameElements<T>(a: set<T>, b: set<T>)
    requires forall x :: x in a <==> x in b
    ensures a == b
  {
  }
}
