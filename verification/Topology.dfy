/** Kahn's pass over the verified spend links.

The pass pops transactions with no unprocessed incoming link and decrements the
counts of their children. It is proved to accept exactly the acyclic
multigraphs, and to list every transaction after all of its parents. */
module Topology {
  import opened Sequences
  import opened Sets
  import opened Walks

  function Elems<T>(s: seq<T>): set<T> {
    set x | x in s
  }

  /** Links of `live` arriving at `v`; parallel links count separately. */
  function Into(live: set<Arc>, v: TxId): set<Arc> {
    set a | a in live && a.head == v
  }

  /** Links whose funding transaction is not among `done`. */
  function Unprocessed(arcs: set<Arc>, done: seq<TxId>): set<Arc> {
    set a | a in arcs && a.tail !in done
  }

  /** Every listed transaction comes after all the parents that fund it. */
  ghost predicate ParentsFirst(arcs: set<Arc>, order: seq<TxId>) {
    forall a, j :: a in arcs && 0 <= j < |order| && order[j] == a.head ==> a.tail in order[..j]
  }

  lemma DistinctSize<T(!new)>(s: seq<T>)
    requires Distinct(s)
    ensures |Elems(s)| == |s|
  {
    if s != [] {
      var front, last := s[..|s| - 1], s[|s| - 1];
      DistinctSize(front);
      assert Elems(s) == Elems(front) + {last};
      assert last !in Elems(front);
    }
  }

  ghost predicate Entered(arcs: set<Arc>, stuck: set<TxId>, v: TxId) {
    exists a :: a in arcs && a.head == v && a.tail in stuck
  }

  /** If each vertex of a nonempty set is entered from that set, the set holds walks of every length. */
  lemma {:induction false} BackwardWalk(arcs: set<Arc>, stuck: set<TxId>, v: TxId, n: nat)
      returns (from: TxId, p: seq<Arc>)
    requires v in stuck
    requires forall u :: u in stuck ==> Entered(arcs, stuck, u)
    ensures from in stuck && Walk(arcs, from, p, v) && |p| == n
    decreases n
  {
    if n == 0 {
      return v, [];
    }
    assert Entered(arcs, stuck, v);
    var a :| a in arcs && a.head == v && a.tail in stuck;
    var q;
    from, q := BackwardWalk(arcs, stuck, a.tail, n - 1);
    WalkJoin(arcs, from, q, a.tail, [a], v);
    p := q + [a];
  }

  lemma StuckIsCyclic(arcs: set<Arc>, vertices: set<TxId>, stuck: set<TxId>, v: TxId)
    requires Within(arcs, vertices) && v in stuck && stuck <= vertices
    requires forall u :: u in stuck ==> Entered(arcs, stuck, u)
    ensures !Acyclic(arcs)
  {
    if Acyclic(arcs) {
      var from, p := BackwardWalk(arcs, stuck, v, |vertices|);
      WalkBound(arcs, vertices, from, p, v);
    }
  }

  /** Where a transaction stands in a listing. */
  function Position(order: seq<TxId>, v: TxId): (i: nat)
    requires v in order
    ensures i < |order| && order[i] == v
  {
    if order[0] == v then 0 else 1 + Position(order[1..], v)
  }

  lemma {:induction false} WalkClimbs(arcs: set<Arc>, order: seq<TxId>, from: TxId, p: seq<Arc>, to: TxId)
    requires Distinct(order) && ParentsFirst(arcs, order)
    requires forall a :: a in arcs ==> a.head in order && a.tail in order
    requires p != [] && Walk(arcs, from, p, to)
    ensures Position(order, from) < Position(order, to)
    decreases |p|
  {
    var a := p[0];
    assert a in arcs;
    var j := Position(order, a.head);
    assert a.tail in order[..j];
    var i := Position(order[..j], a.tail);
    assert order[i] == order[Position(order, from)];
    if |p| > 1 {
      WalkPrefix(arcs, from, p, to, 1);
      WalkClimbs(arcs, order, a.head, p[1..], to);
    }
  }

  lemma OrderedIsAcyclic(arcs: set<Arc>, order: seq<TxId>)
    requires Distinct(order) && ParentsFirst(arcs, order)
    requires forall a :: a in arcs ==> a.head in order && a.tail in order
    ensures Acyclic(arcs)
  {
    forall v, p | Walk(arcs, v, p, v)
      ensures p == []
    {
      if p != [] {
        WalkClimbs(arcs, order, v, p, v);
      }
    }
  }

  /** `indegree` counts, for every transaction, the links of `live` that spend into it. */
  ghost predicate Tallied(vertices: set<TxId>, indegree: map<TxId, nat>, live: set<Arc>) {
    && indegree.Keys == vertices
    && forall v :: v in vertices ==> indegree[v] == |Into(live, v)|
  }

  lemma IntoAdd(live: set<Arc>, a: Arc, v: TxId)
    requires a !in live
    ensures |Into(live + {a}, v)| == |Into(live, v)| + (if v == a.head then 1 else 0)
  {
    if v == a.head {
      assert Into(live + {a}, v) == Into(live, v) + {a};
    } else {
      assert Into(live + {a}, v) == Into(live, v);
    }
  }

  lemma TallyAdd(vertices: set<TxId>, indegree: map<TxId, nat>, live: set<Arc>, a: Arc)
    requires Tallied(vertices, indegree, live) && a !in live && a.head in vertices
    ensures Tallied(vertices, indegree[a.head := indegree[a.head] + 1], live + {a})
  {
    forall v | v in vertices
      ensures indegree[a.head := indegree[a.head] + 1][v] == |Into(live + {a}, v)|
    {
      IntoAdd(live, a, v);
    }
  }

  lemma TallyRemove(vertices: set<TxId>, indegree: map<TxId, nat>, live: set<Arc>, a: Arc)
    requires Tallied(vertices, indegree, live) && a in live && a.head in vertices
    ensures indegree[a.head] > 0
    ensures Tallied(vertices, indegree[a.head := indegree[a.head] - 1], live - {a})
  {
    assert a in Into(live, a.head);
    assert live - {a} + {a} == live;
    forall v | v in vertices
      ensures |Into(live, v)| == |Into(live - {a}, v)| + (if v == a.head then 1 else 0)
    {
      IntoAdd(live - {a}, a, v);
    }
  }

  /** Exactly the transactions with no unprocessed parent have been queued, each once. */
  ghost predicate Queued(indegree: map<TxId, nat>, listed: seq<TxId>) {
    && Distinct(listed)
    && (forall v :: v in listed ==> v in indegree)
    && (forall v :: v in indegree ==> (v in listed <==> indegree[v] == 0))
  }

  function Enqueue(indegree: map<TxId, nat>, ready: seq<TxId>, v: TxId): seq<TxId>
    requires v in indegree
  {
    if indegree[v] == 0 then ready + [v] else ready
  }

  lemma QueueStep(indegree: map<TxId, nat>, listed: seq<TxId>, v: TxId)
    requires Queued(indegree, listed) && v in indegree && indegree[v] > 0
    ensures var after := indegree[v := indegree[v] - 1]; Queued(after, Enqueue(after, listed, v))
  {
    assert v !in listed;
    var after := indegree[v := indegree[v] - 1];
    var more := Enqueue(after, listed, v);
    forall u | u in after
      ensures u in more <==> after[u] == 0
    {
      assert u in listed <==> indegree[u] == 0;
    }
  }

  /** `out` lists the links of `arcs` that `v` funds, each once. */
  ghost predicate FundedBy(out: seq<Arc>, arcs: set<Arc>, v: TxId) {
    Distinct(out) && forall a :: a in out <==> a in arcs && a.tail == v
  }

  ghost predicate Adjacent(forward: map<TxId, seq<Arc>>, arcs: set<Arc>) {
    forall v :: v in forward ==> FundedBy(forward[v], arcs, v)
  }

  lemma AdjacentAdd(forward: map<TxId, seq<Arc>>, done: set<Arc>, a: Arc)
    requires Adjacent(forward, done) && a !in done && a.tail in forward
    ensures Adjacent(forward[a.tail := forward[a.tail] + [a]], done + {a})
  {
    var grown := forward[a.tail := forward[a.tail] + [a]];
    forall v | v in grown
      ensures FundedBy(grown[v], done + {a}, v)
    {
      assert FundedBy(forward[v], done, v);
    }
  }

  lemma ElemsGrow(links: seq<Arc>, i: nat)
    requires i < |links| && Distinct(links)
    ensures Elems(links[..i + 1]) == Elems(links[..i]) + {links[i]}
    ensures links[i] !in Elems(links[..i])
  {
    assert links[..i + 1] == links[..i] + [links[i]];
  }

  /** The adjacency lists `forward[parent]` and the counts `indegree[child]`, filled link by link. */
  method Index(order: seq<TxId>, links: seq<Arc>)
      returns (forward: map<TxId, seq<Arc>>, indegree: map<TxId, nat>)
    requires Distinct(links) && Within(Elems(links), Elems(order))
    ensures forward.Keys == Elems(order) && Adjacent(forward, Elems(links))
    ensures Tallied(Elems(order), indegree, Elems(links))
  {
    forward := map v | v in Elems(order) :: [];
    indegree := map v | v in Elems(order) :: 0;
    assert forall v :: Into({}, v) == {};
    for i := 0 to |links|
      invariant forward.Keys == Elems(order) && Adjacent(forward, Elems(links[..i]))
      invariant Tallied(Elems(order), indegree, Elems(links[..i]))
    {
      var a := links[i];
      assert a in Elems(links);
      ElemsGrow(links, i);
      TallyAdd(Elems(order), indegree, Elems(links[..i]), a);
      AdjacentAdd(forward, Elems(links[..i]), a);
      indegree := indegree[a.head := indegree[a.head] + 1];
      forward := forward[a.tail := forward[a.tail] + [a]];
    }
    assert links[..|links|] == links;
  }

  /** The first transactions to list: those no link spends into, in saved order. */
  method Roots(order: seq<TxId>, indegree: map<TxId, nat>) returns (ready: seq<TxId>)
    requires Distinct(order) && indegree.Keys == Elems(order)
    ensures Queued(indegree, ready)
  {
    ready := [];
    for i := 0 to |order|
      invariant Distinct(ready)
      invariant forall v :: v in ready <==> v in order[..i] && v in indegree && indegree[v] == 0
    {
      assert order[i] in Elems(order);
      assert order[i] !in order[..i];
      assert order[..i + 1] == order[..i] + [order[i]];
      ready := Enqueue(indegree, ready, order[i]);
    }
    assert order[..|order|] == order;
  }

  lemma ParentsFirstStep(arcs: set<Arc>, topology: seq<TxId>, parent: TxId)
    requires ParentsFirst(arcs, topology)
    requires Into(Unprocessed(arcs, topology), parent) == {}
    ensures ParentsFirst(arcs, topology + [parent])
  {
    var longer := topology + [parent];
    forall a, j | a in arcs && 0 <= j < |longer| && longer[j] == a.head
      ensures a.tail in longer[..j]
    {
      if j < |topology| {
        assert longer[..j] == topology[..j];
      } else {
        assert longer[..j] == topology;
        assert a !in Into(Unprocessed(arcs, topology), parent);
      }
    }
  }

  lemma UnprocessedStep(arcs: set<Arc>, topology: seq<TxId>, parent: TxId, out: seq<Arc>)
    requires parent !in topology
    requires forall a :: a in out <==> a in arcs && a.tail == parent
    ensures Unprocessed(arcs, topology) - Elems(out) == Unprocessed(arcs, topology + [parent])
    ensures Elems(out) <= Unprocessed(arcs, topology)
  {
  }

  /** Takes the links a listed transaction funds out of the counts, queueing children that reach zero. */
  method Release(vertices: set<TxId>, out: seq<Arc>, indegree0: map<TxId, nat>, ghost live: set<Arc>,
      ghost topology: seq<TxId>, ready0: seq<TxId>) returns (indegree: map<TxId, nat>, ready: seq<TxId>)
    requires Tallied(vertices, indegree0, live) && Queued(indegree0, topology + ready0)
    requires Distinct(out) && Elems(out) <= live && Within(live, vertices)
    ensures Tallied(vertices, indegree, live - Elems(out)) && Queued(indegree, topology + ready)
  {
    indegree, ready := indegree0, ready0;
    assert live - Elems(out[..0]) == live;
    for k := 0 to |out|
      invariant Tallied(vertices, indegree, live - Elems(out[..k]))
      invariant Queued(indegree, topology + ready)
    {
      var a := out[k];
      ElemsGrow(out, k);
      assert a in Elems(out);
      assert live - Elems(out[..k + 1]) == live - Elems(out[..k]) - {a};
      TallyRemove(vertices, indegree, live - Elems(out[..k]), a);
      QueueStep(indegree, topology + ready, a.head);
      indegree := indegree[a.head := indegree[a.head] - 1];
      assert topology + (ready + [a.head]) == topology + ready + [a.head];
      ready := Enqueue(indegree, ready, a.head);
    }
    assert out[..|out|] == out;
  }

  lemma QueuedSize(order: seq<TxId>, indegree: map<TxId, nat>, topology: seq<TxId>, ready: seq<TxId>)
    requires Queued(indegree, topology + ready) && indegree.Keys == Elems(order) && Distinct(order)
    ensures Distinct(topology) && Elems(topology) <= Elems(order) && |topology| <= |order|
  {
    var listed := topology + ready;
    assert forall i :: 0 <= i < |topology| ==> topology[i] == listed[i];
    assert forall v :: v in topology ==> v in listed;
    DistinctSize(topology);
    DistinctSize(order);
    SubsetSize(Elems(topology), Elems(order));
  }

  /** A transaction left off the list waits for another that was left off. */
  lemma StillEntered(order: seq<TxId>, arcs: set<Arc>, indegree: map<TxId, nat>, topology: seq<TxId>, u: TxId)
    requires Within(arcs, Elems(order)) && u in order && u !in topology
    requires Tallied(Elems(order), indegree, Unprocessed(arcs, topology)) && Queued(indegree, topology)
    ensures Entered(arcs, Elems(order) - Elems(topology), u)
  {
    var live := Unprocessed(arcs, topology);
    assert u in Elems(order);
    assert indegree[u] != 0;
    assert Into(live, u) != {};
    var a :| a in Into(live, u);
    assert a in arcs && a.head == u && a.tail in Elems(order) - Elems(topology);
  }

  /** When the queue runs dry, having listed everything is the same as there being no cycle. */
  lemma DryQueue(order: seq<TxId>, arcs: set<Arc>, indegree: map<TxId, nat>, topology: seq<TxId>)
    requires Distinct(order) && Within(arcs, Elems(order)) && ParentsFirst(arcs, topology)
    requires Tallied(Elems(order), indegree, Unprocessed(arcs, topology)) && Queued(indegree, topology)
    ensures |topology| == |order| <==> Acyclic(arcs)
    ensures |topology| == |order| ==> Elems(topology) == Elems(order)
  {
    assert topology + [] == topology;
    QueuedSize(order, indegree, topology, []);
    DistinctSize(order);
    DistinctSize(topology);
    if |topology| == |order| {
      SameSize(Elems(topology), Elems(order));
      assert forall v :: v in Elems(order) ==> v in Elems(topology);
      OrderedIsAcyclic(arcs, topology);
    } else {
      var v := Missing(Elems(topology), Elems(order));
      var stuck := Elems(order) - Elems(topology);
      forall u | u in stuck
        ensures Entered(arcs, stuck, u)
      {
        StillEntered(order, arcs, indegree, topology, u);
      }
      StuckIsCyclic(arcs, Elems(order), stuck, v);
    }
  }

  /** What the outer loop keeps. */
  ghost predicate Listing(order: seq<TxId>, arcs: set<Arc>, indegree: map<TxId, nat>,
      topology: seq<TxId>, ready: seq<TxId>)
  {
    && Tallied(Elems(order), indegree, Unprocessed(arcs, topology))
    && Queued(indegree, topology + ready)
    && ParentsFirst(arcs, topology)
  }

  lemma ListFront(order: seq<TxId>, arcs: set<Arc>, indegree: map<TxId, nat>, topology: seq<TxId>,
      ready: seq<TxId>, out: seq<Arc>)
    requires Distinct(order) && ready != [] && Listing(order, arcs, indegree, topology, ready)
    requires forall a :: a in out <==> a in arcs && a.tail == ready[0]
    ensures Queued(indegree, topology + [ready[0]] + ready[1..])
    ensures ParentsFirst(arcs, topology + [ready[0]])
    ensures Elems(out) <= Unprocessed(arcs, topology)
    ensures Unprocessed(arcs, topology) - Elems(out) == Unprocessed(arcs, topology + [ready[0]])
    ensures |topology| < |order|
  {
    var parent := ready[0];
    var listed := topology + ready;
    assert topology + [parent] + ready[1..] == listed;
    assert listed[|topology|] == parent && parent in listed;
    forall i | 0 <= i < |topology|
      ensures topology[i] != parent
    {
      assert topology[i] == listed[i];
    }
    assert indegree[parent] == 0;
    assert Into(Unprocessed(arcs, topology), parent) == {};
    ParentsFirstStep(arcs, topology, parent);
    UnprocessedStep(arcs, topology, parent, out);
    QueuedSize(order, indegree, topology + [parent], ready[1..]);
  }

  /** One turn: list the front of the queue and release its children. */
  method Turn(order: seq<TxId>, ghost arcs: set<Arc>, out: seq<Arc>, indegree0: map<TxId, nat>,
      ghost topology: seq<TxId>, ready0: seq<TxId>) returns (indegree: map<TxId, nat>, ready: seq<TxId>)
    requires Distinct(order) && Within(arcs, Elems(order)) && ready0 != []
    requires Listing(order, arcs, indegree0, topology, ready0)
    requires FundedBy(out, arcs, ready0[0])
    ensures Listing(order, arcs, indegree, topology + [ready0[0]], ready)
    ensures |topology| < |order|
  {
    ListFront(order, arcs, indegree0, topology, ready0, out);
    indegree, ready := Release(Elems(order), out, indegree0, Unprocessed(arcs, topology), topology + [ready0[0]], ready0[1..]);
  }

  lemma FrontIndexed(order: seq<TxId>, arcs: set<Arc>, indegree: map<TxId, nat>, topology: seq<TxId>,
      ready: seq<TxId>, parent: TxId)
    requires ready != [] && parent == ready[0] && Listing(order, arcs, indegree, topology, ready)
    ensures parent in Elems(order)
  {
    assert parent in topology + ready;
  }

  method Drain(order: seq<TxId>, ghost arcs: set<Arc>, forward: map<TxId, seq<Arc>>, indegree0: map<TxId, nat>,
      ready0: seq<TxId>) returns (topology: seq<TxId>, ghost indegree: map<TxId, nat>)
    requires Distinct(order) && Within(arcs, Elems(order))
    requires forward.Keys == Elems(order) && Adjacent(forward, arcs)
    requires Listing(order, arcs, indegree0, [], ready0)
    ensures Listing(order, arcs, indegree, topology, [])
  {
    var ready, left := ready0, indegree0;
    topology := [];
    while ready != []
      invariant Listing(order, arcs, left, topology, ready)
      decreases |order| - |topology|
    {
      var parent := ready[0];
      FrontIndexed(order, arcs, left, topology, ready, parent);
      left, ready := Turn(order, arcs, forward[parent], left, topology, ready);
      topology := topology + [parent];
    }
    indegree := left;
  }

  /** Accepts exactly the acyclic saved spends, and then lists every transaction after its parents. */
  method Sort(order: seq<TxId>, links: seq<Arc>) returns (topology: seq<TxId>)
    requires Distinct(order) && Distinct(links) && Within(Elems(links), Elems(order))
    ensures Distinct(topology) && Elems(topology) <= Elems(order) && ParentsFirst(Elems(links), topology)
    ensures |topology| == |order| <==> Acyclic(Elems(links))
    ensures |topology| == |order| ==> Elems(topology) == Elems(order)
  {
    ghost var arcs := Elems(links);
    var forward, indegree := Index(order, links);
    var ready := Roots(order, indegree);
    assert Unprocessed(arcs, []) == arcs;
    assert [] + ready == ready;
    ghost var left;
    topology, left := Drain(order, arcs, forward, indegree, ready);
    assert topology + [] == topology;
    QueuedSize(order, left, topology, []);
    DryQueue(order, arcs, left, topology);
  }
}
