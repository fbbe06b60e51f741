/** Sequences without repetition, and in order. */
module Sequences {
  predicate Distinct<T(==)>(s: seq<T>) {
    forall i, j :: 0 <= i < j < |s| ==> s[i] != s[j]
  }

  /** Of two different elements exactly one comes before the other. */
  ghost predicate StrictOrder<T(!new)>(before: (T, T) -> bool) {
    && (forall a :: !before(a, a))
    && (forall a, b, c :: before(a, b) && before(b, c) ==> before(a, c))
    && (forall a, b :: a == b || before(a, b) || before(b, a))
  }

  /** Nothing stands after what it comes before. */
  ghost predicate Ascends<T>(s: seq<T>, before: (T, T) -> bool) {
    forall i, j :: 0 <= i < j < |s| ==> !before(s[j], s[i])
  }

  lemma RestOf<T>(s: seq<T>)
    requires s != []
    ensures multiset(s[1..]) == multiset(s) - multiset{s[0]}
  {
    assert s == [s[0]] + s[1..];
  }

  lemma SameFirst<T(!new)>(s: seq<T>, t: seq<T>, before: (T, T) -> bool)
    requires StrictOrder(before) && Ascends(s, before) && Ascends(t, before) && s != [] && t != []
    requires s[0] in t && t[0] in s
    ensures s[0] == t[0]
  {
    var j :| 0 <= j < |t| && t[j] == s[0];
    var k :| 0 <= k < |s| && s[k] == t[0];
  }

  /** The same elements can ascend in one way only. */
  lemma {:induction false} OneAscending<T(!new)>(s: seq<T>, t: seq<T>, before: (T, T) -> bool)
    requires StrictOrder(before) && Ascends(s, before) && Ascends(t, before) && multiset(s) == multiset(t)
    ensures s == t
    decreases |s|
  {
    assert |multiset(s)| == |multiset(t)|;
    if s != [] {
      assert s[0] in multiset(t) && t[0] in multiset(s);
      SameFirst(s, t, before);
      RestOf(s);
      RestOf(t);
      OneAscending(s[1..], t[1..], before);
      assert s == [s[0]] + s[1..] && t == [t[0]] + t[1..];
    }
  }
}
