/** The bounded breadth-first pass of the connection search.

`Explore` is the queue loop; `Nearest` says what its distance table means: it
holds exactly the transactions some walk of at most `limit` open links reaches,
each with the length of a shortest such walk. */
module Distances {
  import opened Sequences
  import opened Sets
  import opened Walks
  import opened Topology

  datatype Origin = Anywhere | From(source: TxId)

  /** Leaving the source, only selected seed outputs may be followed. */
  predicate Open(a: Arc, origin: Origin, seeds: set<Outpoint>) {
    origin.From? && a.tail == origin.source ==> a.key in seeds
  }

  function OpenArcs(arcs: set<Arc>, origin: Origin, seeds: set<Outpoint>): set<Arc> {
    set a | a in arcs && Open(a, origin, seeds)
  }

  ghost predicate Reaches(arcs: set<Arc>, starts: set<TxId>, p: seq<Arc>, v: TxId) {
    exists s :: s in starts && Walk(arcs, s, p, v)
  }

  /** `dist` is the table of shortest walk lengths from `starts`, cut off at `limit`. */
  ghost predicate Nearest(arcs: set<Arc>, starts: set<TxId>, limit: nat, dist: map<TxId, nat>) {
    && (forall v :: v in dist ==> dist[v] <= limit && exists p :: |p| == dist[v] && Reaches(arcs, starts, p, v))
    && (forall v, p :: Reaches(arcs, starts, p, v) && |p| <= limit ==> v in dist && dist[v] <= |p|)
  }

  /** `v` is `n` links away from some start, told link by link. */
  ghost predicate Hops(arcs: set<Arc>, starts: set<TxId>, v: TxId, n: nat)
    decreases n
  {
    if n == 0 then v in starts
    else exists a :: a in arcs && a.head == v && Hops(arcs, starts, a.tail, n - 1)
  }

  /** Everything in the table is that many links away from a start. */
  ghost predicate Witnessed(arcs: set<Arc>, starts: set<TxId>, limit: nat, dist: map<TxId, nat>) {
    forall v :: v in dist ==> dist[v] <= limit && Hops(arcs, starts, v, dist[v])
  }

  lemma {:induction false} HopsAreWalks(arcs: set<Arc>, starts: set<TxId>, v: TxId, n: nat) returns (p: seq<Arc>)
    requires Hops(arcs, starts, v, n)
    ensures |p| == n && Reaches(arcs, starts, p, v)
    decreases n
  {
    p := [];
    if n == 0 {
      assert Walk(arcs, v, p, v);
    } else {
      var a :| a in arcs && a.head == v && Hops(arcs, starts, a.tail, n - 1);
      var q := HopsAreWalks(arcs, starts, a.tail, n - 1);
      var s :| s in starts && Walk(arcs, s, q, a.tail);
      WalkJoin(arcs, s, q, a.tail, [a], v);
      p := q + [a];
    }
  }

  /** The queue runs in order of distance and holds at most two adjacent distances. */
  ghost predicate Layered(dist: map<TxId, nat>, queue: seq<TxId>) {
    && (forall i :: 0 <= i < |queue| ==> queue[i] in dist)
    && (forall i, j :: 0 <= i < j < |queue| ==> dist[queue[i]] <= dist[queue[j]])
    && (queue != [] ==> forall v :: v in dist ==> dist[v] <= dist[queue[0]] + 1)
  }

  /** A link out of an already expanded transaction leads to one at most a step farther. */
  ghost predicate Relaxed(a: Arc, dist: map<TxId, nat>) {
    a.tail in dist ==> a.head in dist && dist[a.head] <= dist[a.tail] + 1
  }

  /** Links out of transactions that have left the queue are relaxed, unless the limit stops them. */
  ghost predicate Expanded(arcs: set<Arc>, limit: nat, dist: map<TxId, nat>, queue: seq<TxId>) {
    forall a :: a in arcs && a.tail in dist && a.tail !in queue && dist[a.tail] < limit ==> Relaxed(a, dist)
  }

  lemma WitnessStep(arcs: set<Arc>, starts: set<TxId>, limit: nat, dist: map<TxId, nat>, a: Arc)
    requires Witnessed(arcs, starts, limit, dist) && a in arcs && a.tail in dist && dist[a.tail] < limit
    ensures Witnessed(arcs, starts, limit, dist[a.head := dist[a.tail] + 1])
  {
    assert Hops(arcs, starts, a.tail, dist[a.tail]);
    assert Hops(arcs, starts, a.head, dist[a.tail] + 1);
  }

  /** With the queue empty, every walk within the limit has been found out. */
  lemma {:induction false} ReachedWithin(arcs: set<Arc>, starts: set<TxId>, limit: nat, dist: map<TxId, nat>,
      s: TxId, p: seq<Arc>, v: TxId)
    requires forall x :: x in starts ==> x in dist && dist[x] == 0
    requires Expanded(arcs, limit, dist, [])
    requires s in starts && Walk(arcs, s, p, v) && |p| <= limit
    ensures v in dist && dist[v] <= |p|
    decreases |p|
  {
    if p != [] {
      var i := |p| - 1;
      WalkPrefix(arcs, s, p, v, i);
      ReachedWithin(arcs, starts, limit, dist, s, p[..i], p[i].tail);
      assert Relaxed(p[i], dist);
    }
  }

  lemma QueueDone(arcs: set<Arc>, starts: set<TxId>, limit: nat, dist: map<TxId, nat>)
    requires forall x :: x in starts ==> x in dist && dist[x] == 0
    requires Witnessed(arcs, starts, limit, dist) && Expanded(arcs, limit, dist, [])
    ensures Nearest(arcs, starts, limit, dist)
  {
    forall v, p | Reaches(arcs, starts, p, v) && |p| <= limit
      ensures v in dist && dist[v] <= |p|
    {
      var s :| s in starts && Walk(arcs, s, p, v);
      ReachedWithin(arcs, starts, limit, dist, s, p, v);
    }
    forall v | v in dist
      ensures dist[v] <= limit && exists p :: |p| == dist[v] && Reaches(arcs, starts, p, v)
    {
      var p := HopsAreWalks(arcs, starts, v, dist[v]);
    }
  }

  /** What a sweep over the first links out of `node` keeps. */
  ghost predicate Sweeping(arcs: set<Arc>, starts: set<TxId>, limit: nat, dist: map<TxId, nat>, node: TxId, queue: seq<TxId>) {
    && Witnessed(arcs, starts, limit, dist)
    && node in dist && node !in queue && dist[node] < limit
    && Layered(dist, [node] + queue)
    && Expanded(arcs, limit, dist, [node] + queue)
    && Distinct(queue)
    && (forall x :: x in starts ==> x in dist && dist[x] == 0)
  }

  lemma LayeredGrow(dist: map<TxId, nat>, queue: seq<TxId>, v: TxId)
    requires queue != [] && Layered(dist, queue) && v !in dist
    ensures Layered(dist[v := dist[queue[0]] + 1], queue + [v])
  {
    var more, longer := dist[v := dist[queue[0]] + 1], queue + [v];
    forall i | 0 <= i < |queue|
      ensures longer[i] == queue[i] && queue[i] in more && more[queue[i]] == dist[queue[i]]
    {
    }
    assert longer[|queue|] == v;
  }

  lemma ExpandedGrow(arcs: set<Arc>, limit: nat, dist: map<TxId, nat>, queue: seq<TxId>, v: TxId, d: nat)
    requires Expanded(arcs, limit, dist, queue) && v !in dist
    ensures Expanded(arcs, limit, dist[v := d], queue + [v])
  {
    var more := dist[v := d];
    forall b | b in arcs && b.tail in more && b.tail !in queue + [v] && more[b.tail] < limit
      ensures Relaxed(b, more)
    {
      assert b.tail !in queue && b.tail != v;
      assert Relaxed(b, dist);
    }
  }

  lemma Discover(arcs: set<Arc>, starts: set<TxId>, limit: nat, dist: map<TxId, nat>, node: TxId, queue: seq<TxId>, a: Arc)
    requires Sweeping(arcs, starts, limit, dist, node, queue)
    requires a in arcs && a.tail == node && a.head !in dist
    ensures Sweeping(arcs, starts, limit, dist[a.head := dist[node] + 1], node, queue + [a.head])
  {
    WitnessStep(arcs, starts, limit, dist, a);
    var before := [node] + queue;
    assert before + [a.head] == [node] + (queue + [a.head]);
    assert before[0] == node;
    LayeredGrow(dist, before, a.head);
    ExpandedGrow(arcs, limit, dist, before, a.head, dist[node] + 1);
    forall i | 0 <= i < |queue|
      ensures queue[i] != a.head
    {
      assert queue[i] == before[i + 1];
    }
  }

  lemma RelaxedGrow(open: set<Arc>, dist: map<TxId, nat>, out: seq<Arc>, k: nat, node: TxId, v: TxId, d: nat)
    requires k <= |out| && forall j :: 0 <= j < k && out[j] in open ==> Relaxed(out[j], dist)
    requires forall a :: a in out ==> a.tail == node
    requires v !in dist && v != node
    ensures forall j :: 0 <= j < k && out[j] in open ==> Relaxed(out[j], dist[v := d])
  {
    forall j | 0 <= j < k && out[j] in open
      ensures Relaxed(out[j], dist[v := d])
    {
      assert Relaxed(out[j], dist);
      assert out[j] in out;
    }
  }

  /** Expanding one transaction: unseen heads of its open links join the queue a step farther. */
  method Sweep(ghost open: set<Arc>, out: seq<Arc>, origin: Origin, seeds: set<Outpoint>, ghost starts: set<TxId>,
      limit: nat, dist0: map<TxId, nat>, node: TxId, queue0: seq<TxId>)
      returns (dist: map<TxId, nat>, queue: seq<TxId>)
    requires Sweeping(open, starts, limit, dist0, node, queue0)
    requires forall a :: a in out ==> a.tail == node && (a in open <==> Open(a, origin, seeds))
    ensures Sweeping(open, starts, limit, dist, node, queue)
    ensures forall j :: 0 <= j < |out| && out[j] in open ==> Relaxed(out[j], dist)
    ensures dist0.Keys <= dist.Keys <= dist0.Keys + (set a | a in open :: a.head)
    ensures dist.Keys == dist0.Keys ==> queue == queue0
  {
    dist, queue := dist0, queue0;
    ghost var heads := set a | a in open :: a.head;
    for k := 0 to |out|
      invariant Sweeping(open, starts, limit, dist, node, queue)
      invariant forall j :: 0 <= j < k && out[j] in open ==> Relaxed(out[j], dist)
      invariant dist0.Keys <= dist.Keys <= dist0.Keys + heads
      invariant dist.Keys == dist0.Keys ==> queue == queue0
    {
      var a := out[k];
      assert a in out;
      if !(origin.From? && node == origin.source && a.key !in seeds) {
        if a.head !in dist {
          Discover(open, starts, limit, dist, node, queue, a);
          RelaxedGrow(open, dist, out, k, node, a.head, dist[node] + 1);
          assert a.head in heads;
          dist := dist[a.head := dist[node] + 1];
          queue := queue + [a.head];
        } else {
          assert ([node] + queue)[0] == node;
        }
      }
    }
  }

  /** What the queue loop keeps. */
  ghost predicate Exploring(open: set<Arc>, starts: set<TxId>, limit: nat, dist: map<TxId, nat>, queue: seq<TxId>) {
    && Witnessed(open, starts, limit, dist)
    && Layered(dist, queue)
    && Expanded(open, limit, dist, queue)
    && Distinct(queue)
    && (forall x :: x in starts ==> x in dist && dist[x] == 0)
  }

  lemma LayeredDrop(dist: map<TxId, nat>, queue: seq<TxId>)
    requires queue != [] && Layered(dist, queue)
    ensures Layered(dist, queue[1..])
  {
    var rest := queue[1..];
    forall i | 0 <= i < |rest|
      ensures rest[i] == queue[i + 1]
    {
    }
    if rest != [] {
      assert dist[queue[0]] <= dist[queue[1]];
    }
  }

  lemma ExpandedDrop(arcs: set<Arc>, limit: nat, dist: map<TxId, nat>, node: TxId, queue: seq<TxId>)
    requires Expanded(arcs, limit, dist, [node] + queue)
    requires forall a :: a in arcs && a.tail == node && node in dist && dist[node] < limit ==> Relaxed(a, dist)
    ensures Expanded(arcs, limit, dist, queue)
  {
    forall a | a in arcs && a.tail in dist && a.tail !in queue && dist[a.tail] < limit
      ensures Relaxed(a, dist)
    {
      if a.tail != node {
        assert a.tail !in [node] + queue;
      }
    }
  }

  lemma LeaveQueue(open: set<Arc>, starts: set<TxId>, limit: nat, dist: map<TxId, nat>, node: TxId, queue: seq<TxId>)
    requires Witnessed(open, starts, limit, dist) && Distinct(queue)
    requires Layered(dist, [node] + queue) && Expanded(open, limit, dist, [node] + queue)
    requires forall x :: x in starts ==> x in dist && dist[x] == 0
    requires forall a :: a in open && a.tail == node && node in dist && dist[node] < limit ==> Relaxed(a, dist)
    ensures Exploring(open, starts, limit, dist, queue)
  {
    LayeredDrop(dist, [node] + queue);
    assert ([node] + queue)[1..] == queue;
    ExpandedDrop(open, limit, dist, node, queue);
  }

  /** One turn of the queue loop. */
  method Expand(ghost open: set<Arc>, out: seq<Arc>, origin: Origin, seeds: set<Outpoint>, ghost starts: set<TxId>,
      limit: nat, dist0: map<TxId, nat>, queue0: seq<TxId>) returns (dist: map<TxId, nat>, queue: seq<TxId>)
    requires queue0 != [] && Exploring(open, starts, limit, dist0, queue0)
    requires forall a :: a in out ==> a.tail == queue0[0] && (a in open <==> Open(a, origin, seeds))
    requires forall a :: a in open && a.tail == queue0[0] ==> a in out
    ensures Exploring(open, starts, limit, dist, queue)
    ensures dist0.Keys <= dist.Keys <= dist0.Keys + (set a | a in open :: a.head)
    ensures dist.Keys == dist0.Keys ==> queue == queue0[1..]
  {
    var node := queue0[0];
    dist, queue := dist0, queue0[1..];
    assert [node] + queue == queue0;
    assert node in queue0;
    if dist[node] < limit {
      dist, queue := Sweep(open, out, origin, seeds, starts, limit, dist, node, queue);
      forall a | a in open && a.tail == node
        ensures Relaxed(a, dist)
      {
        var j :| 0 <= j < |out| && out[j] == a;
      }
    }
    LeaveQueue(open, starts, limit, dist, node, queue);
  }

  /** The saved adjacency: a transaction without links may be missing. */
  function Out(adjacency: map<TxId, seq<Arc>>, v: TxId): seq<Arc> {
    if v in adjacency then adjacency[v] else []
  }

  ghost predicate Lists(adjacency: map<TxId, seq<Arc>>, arcs: set<Arc>) {
    forall v, a :: a in Out(adjacency, v) <==> a in arcs && a.tail == v
  }

  method Explore(ghost arcs: set<Arc>, adjacency: map<TxId, seq<Arc>>, starts: seq<TxId>, origin: Origin,
      seeds: set<Outpoint>, limit: nat) returns (dist: map<TxId, nat>)
    requires Lists(adjacency, arcs) && Distinct(starts)
    ensures Nearest(OpenArcs(arcs, origin, seeds), Elems(starts), limit, dist)
  {
    ghost var open := OpenArcs(arcs, origin, seeds);
    dist := map v | v in Elems(starts) :: 0;
    var queue := starts;
    ghost var universe := Elems(starts) + (set a | a in open :: a.head);
    while queue != []
      invariant Exploring(open, Elems(starts), limit, dist, queue)
      invariant dist.Keys <= universe
      decreases |universe - dist.Keys|, |queue|
    {
      ghost var before := dist.Keys;
      ghost var length := |queue|;
      dist, queue := Expand(open, Out(adjacency, queue[0]), origin, seeds, Elems(starts), limit, dist, queue);
      if dist.Keys != before {
        Shrinks(universe, before, dist.Keys);
      }
    }
    QueueDone(open, Elems(starts), limit, dist);
  }

  lemma Shrinks(universe: set<TxId>, small: set<TxId>, big: set<TxId>)
    requires small < big <= universe
    ensures |universe - big| < |universe - small|
  {
    if |big| <= |small| {
      SubsetSize(small, big);
      SameSize(small, big);
    }
    var x := Missing(small, big);
    assert x in universe - small;
    SubsetSize(universe - big, universe - small - {x});
  }
}
