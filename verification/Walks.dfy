/** Directed multigraphs of spends, their walks, and what acyclicity gives.

A link is one saved spend: the transaction that created an output, the
outpoint, and the transaction that spends it. Several outputs of one
transaction may be spent by the same child, so links form a multigraph and are
told apart by their outpoint. */
module Walks {
  import opened Sets

  type TxId = int

  datatype Outpoint = Outpoint(txid: TxId, index: int)

  datatype Arc = Arc(tail: TxId, key: Outpoint, head: TxId)

  function Reverse(a: Arc): Arc {
    Arc(a.head, a.key, a.tail)
  }

  function ReverseAll(arcs: set<Arc>): set<Arc> {
    set a | a in arcs :: Reverse(a)
  }

  /** `p` leads from `from` to `to` along `arcs`, arc by arc. */
  ghost predicate Walk(arcs: set<Arc>, from: TxId, p: seq<Arc>, to: TxId) {
    && (forall i :: 0 <= i < |p| ==> p[i] in arcs)
    && (forall i :: 0 < i < |p| ==> p[i - 1].head == p[i].tail)
    && (if p == [] then from == to else p[0].tail == from && p[|p| - 1].head == to)
  }

  ghost predicate Acyclic(arcs: set<Arc>) {
    forall v, p :: Walk(arcs, v, p, v) ==> p == []
  }

  ghost predicate Within(arcs: set<Arc>, vertices: set<TxId>) {
    forall a :: a in arcs ==> a.tail in vertices && a.head in vertices
  }

  /** The vertex a walk visits after its first `i` arcs. */
  function Visit(from: TxId, p: seq<Arc>, i: nat): TxId
    requires i <= |p|
  {
    if i == 0 then from else p[i - 1].head
  }

  lemma WalkPrefix(arcs: set<Arc>, from: TxId, p: seq<Arc>, to: TxId, i: nat)
    requires Walk(arcs, from, p, to) && i <= |p|
    ensures Walk(arcs, from, p[..i], Visit(from, p, i))
    ensures Walk(arcs, Visit(from, p, i), p[i..], to)
  {
    forall j | 0 < j < |p[i..]|
      ensures p[i..][j - 1].head == p[i..][j].tail
    {
      assert p[i + j - 1].head == p[i + j].tail;
    }
    if 0 < i < |p| {
      assert p[i..][0] == p[i];
      assert p[i - 1].head == p[i].tail;
    }
  }

  lemma WalkJoin(arcs: set<Arc>, a: TxId, p: seq<Arc>, b: TxId, q: seq<Arc>, c: TxId)
    requires Walk(arcs, a, p, b) && Walk(arcs, b, q, c)
    ensures Walk(arcs, a, p + q, c)
  {
    forall i | 0 < i < |p + q|
      ensures (p + q)[i - 1].head == (p + q)[i].tail
    {
      if i > |p| {
        assert q[i - |p| - 1].head == q[i - |p|].tail;
      }
    }
  }

  lemma WalkMono(arcs: set<Arc>, more: set<Arc>, from: TxId, p: seq<Arc>, to: TxId)
    requires Walk(arcs, from, p, to) && arcs <= more
    ensures Walk(more, from, p, to)
  {
  }

  lemma AcyclicMono(arcs: set<Arc>, more: set<Arc>)
    requires arcs <= more && Acyclic(more)
    ensures Acyclic(arcs)
  {
    forall v, p | Walk(arcs, v, p, v)
      ensures p == []
    {
      WalkMono(arcs, more, v, p, v);
    }
  }

  function ReverseWalk(p: seq<Arc>): (r: seq<Arc>)
    ensures |r| == |p|
    ensures forall i :: 0 <= i < |p| ==> r[i] == Reverse(p[|p| - 1 - i])
  {
    seq(|p|, i requires 0 <= i < |p| => Reverse(p[|p| - 1 - i]))
  }

  /** Walking the reversed links backwards is walking the links forwards. */
  lemma WalkReverse(arcs: set<Arc>, from: TxId, p: seq<Arc>, to: TxId)
    requires Walk(arcs, from, p, to)
    ensures Walk(ReverseAll(arcs), to, ReverseWalk(p), from)
  {
    var r := ReverseWalk(p);
    forall i | 0 < i < |r|
      ensures r[i - 1].head == r[i].tail
    {
      assert p[|p| - 1 - i].head == p[|p| - i].tail;
    }
  }

  lemma ReverseReverse(arcs: set<Arc>)
    ensures ReverseAll(ReverseAll(arcs)) == arcs
  {
    forall a | a in arcs
      ensures a in ReverseAll(ReverseAll(arcs))
    {
      assert Reverse(a) in ReverseAll(arcs);
      assert Reverse(Reverse(a)) == a;
    }
  }

  /** In an acyclic graph a walk never meets a vertex twice. */
  lemma VisitsDistinct(arcs: set<Arc>, from: TxId, p: seq<Arc>, to: TxId, i: nat, j: nat)
    requires Acyclic(arcs) && Walk(arcs, from, p, to)
    requires i < j <= |p|
    ensures Visit(from, p, i) != Visit(from, p, j)
  {
    WalkPrefix(arcs, from, p, to, j);
    WalkPrefix(arcs, from, p[..j], Visit(from, p, j), i);
    assert Visit(from, p[..j], i) == Visit(from, p, i);
    assert p[..j][i..] != [];
  }

  function Visited(from: TxId, p: seq<Arc>, n: nat): (r: set<TxId>)
    requires n <= |p|
    ensures forall v :: v in r ==> exists i: nat :: i <= n && v == Visit(from, p, i)
    ensures forall i: nat :: i <= n ==> Visit(from, p, i) in r
  {
    if n == 0 then {Visit(from, p, 0)} else Visited(from, p, n - 1) + {Visit(from, p, n)}
  }

  lemma {:induction false} VisitedCount(arcs: set<Arc>, from: TxId, p: seq<Arc>, to: TxId, n: nat)
    requires Acyclic(arcs) && Walk(arcs, from, p, to) && n <= |p|
    ensures |Visited(from, p, n)| == n + 1
  {
    if n > 0 {
      VisitedCount(arcs, from, p, to, n - 1);
      var last, before := Visit(from, p, n), Visited(from, p, n - 1);
      if last in before {
        var i: nat :| i <= n - 1 && last == Visit(from, p, i);
        VisitsDistinct(arcs, from, p, to, i, n);
      }
      assert |before + {last}| == |before| + 1;
    }
  }

  /** A verified graph of N transactions has no path of N or more spends. */
  lemma WalkBound(arcs: set<Arc>, vertices: set<TxId>, from: TxId, p: seq<Arc>, to: TxId)
    requires Acyclic(arcs) && Within(arcs, vertices) && from in vertices
    requires Walk(arcs, from, p, to)
    ensures |p| < |vertices|
  {
    VisitedCount(arcs, from, p, to, |p|);
    SubsetSize(Visited(from, p, |p|), vertices);
  }
}
