/** Starter-to-starter connections: two bounded passes per starter keep exactly
the spends on some qualifying path, without enumerating paths. */
module Connections {
  import opened Options
  import opened Sequences
  import opened Sets
  import opened Walks
  import opened Topology
  import opened Distances
  import opened SavedEvidence

  /** Which spends are searched and how far: the traced selection, all saved
  spends within a hop limit, or all saved spends without a limit. */
  datatype Scope = Traced | HopLimited | AllSaved

  datatype Reason = BadHops | FewStarters | BadEvidence | CyclicSpends

  datatype Outcome =
    | Refused(reason: Reason)
    | Connected(outpoints: set<Outpoint>, hops: map<(TxId, TxId), nat>)

  const MAX_HOPS := 2147483647

  /** A path from `root` to a different starter that begins with a selected seed output. */
  ghost predicate StarterPath(arcs: set<Arc>, seeds: set<Outpoint>, roots: set<TxId>, root: TxId, target: TxId, p: seq<Arc>) {
    target in roots && target != root && Walk(arcs, root, p, target) && p[0].key in seeds
  }

  predicate Fits(limit: Option<nat>, n: nat) {
    limit.Some? ==> n <= limit.value
  }

  /** The link lies on some qualifying path of its starter. */
  ghost predicate OnStarterPath(arcs: set<Arc>, seeds: set<Outpoint>, roots: set<TxId>, root: TxId, limit: Option<nat>, a: Arc) {
    exists target, p :: StarterPath(arcs, seeds, roots, root, target, p) && Fits(limit, |p|) && a in p
  }

  /** `n` is the length of a shortest qualifying path to `target`. */
  ghost predicate ShortestTo(arcs: set<Arc>, seeds: set<Outpoint>, roots: set<TxId>, root: TxId, target: TxId, n: nat) {
    && (exists p :: StarterPath(arcs, seeds, roots, root, target, p) && |p| == n)
    && (forall p :: StarterPath(arcs, seeds, roots, root, target, p) ==> n <= |p|)
  }

  /** Each link is named by its outpoint. */
  ghost predicate Keyed(arcs: set<Arc>) {
    forall a, b :: a in arcs && b in arcs && a.key == b.key ==> a == b
  }

  /** In an acyclic graph only the first link of a walk can leave its start. */
  lemma SeededIsOpen(arcs: set<Arc>, seeds: set<Outpoint>, root: TxId, p: seq<Arc>, v: TxId)
    requires Acyclic(arcs) && Walk(arcs, root, p, v) && (p != [] ==> p[0].key in seeds)
    ensures Walk(OpenArcs(arcs, From(root), seeds), root, p, v)
  {
    forall i | 0 <= i < |p|
      ensures p[i] in OpenArcs(arcs, From(root), seeds)
    {
      if i > 0 {
        assert p[i - 1].head == p[i].tail;
        VisitsDistinct(arcs, root, p, v, 0, i);
      }
    }
  }

  lemma OpenIsSeeded(arcs: set<Arc>, seeds: set<Outpoint>, root: TxId, p: seq<Arc>, v: TxId)
    requires Walk(OpenArcs(arcs, From(root), seeds), root, p, v)
    ensures Walk(arcs, root, p, v) && (p != [] ==> p[0].key in seeds)
  {
    WalkMono(OpenArcs(arcs, From(root), seeds), arcs, root, p, v);
  }

  /** The first pass finds exactly the starters that qualifying paths reach, at their shortest distance. */
  lemma DownstreamTargets(arcs: set<Arc>, seeds: set<Outpoint>, roots: set<TxId>, root: TxId, limit: nat,
      down: map<TxId, nat>, target: TxId)
    requires Acyclic(arcs) && Nearest(OpenArcs(arcs, From(root), seeds), {root}, limit, down)
    requires target in roots && target != root
    ensures target in down <==> exists p :: StarterPath(arcs, seeds, roots, root, target, p) && |p| <= limit
    ensures target in down ==> ShortestTo(arcs, seeds, roots, root, target, down[target])
  {
    var open := OpenArcs(arcs, From(root), seeds);
    if target in down {
      var p :| |p| == down[target] && Reaches(open, {root}, p, target);
      OpenIsSeeded(arcs, seeds, root, p, target);
      assert StarterPath(arcs, seeds, roots, root, target, p);
    }
    forall p | StarterPath(arcs, seeds, roots, root, target, p)
      ensures |p| <= limit ==> target in down
      ensures target in down ==> down[target] <= |p|
    {
      SeededIsOpen(arcs, seeds, root, p, target);
      assert Reaches(open, {root}, p, target);
    }
  }

  /** The second test of the source: reachable on both sides, and short enough together. */
  predicate Keeps(a: Arc, root: TxId, seeds: set<Outpoint>, limit: nat, down: map<TxId, nat>, up: map<TxId, nat>) {
    && !(a.tail == root && a.key !in seeds)
    && a.tail in down && a.head in up
    && down[a.tail] + 1 + up[a.head] <= limit
  }

  ghost predicate TargetsOf(targets: set<TxId>, roots: set<TxId>, root: TxId, down: map<TxId, nat>) {
    forall t :: t in targets <==> t in roots && t != root && t in down
  }

  /** Splicing a way in and a way out around a link is a genuine qualifying path. */
  lemma Splice(arcs: set<Arc>, seeds: set<Outpoint>, roots: set<TxId>, root: TxId, p: seq<Arc>, a: Arc,
      q: seq<Arc>, target: TxId) returns (path: seq<Arc>)
    requires target in roots && target != root && a in arcs && (a.tail == root ==> a.key in seeds)
    requires Walk(arcs, root, p, a.tail) && (p != [] ==> p[0].key in seeds)
    requires Walk(arcs, a.head, q, target)
    ensures StarterPath(arcs, seeds, roots, root, target, path) && a in path && |path| == |p| + 1 + |q|
  {
    WalkJoin(arcs, root, p, a.tail, [a], a.head);
    WalkJoin(arcs, root, p + [a], a.head, q, target);
    path := p + [a] + q;
    assert path[0] == if p == [] then a else p[0];
    assert path[|p|] == a;
  }

  lemma WayOut(arcs: set<Arc>, targets: set<TxId>, limit: nat, up: map<TxId, nat>, v: TxId)
      returns (target: TxId, q: seq<Arc>)
    requires Nearest(ReverseAll(arcs), targets, limit, up) && v in up
    ensures target in targets && Walk(arcs, v, q, target) && |q| == up[v]
  {
    var r :| |r| == up[v] && Reaches(ReverseAll(arcs), targets, r, v);
    target :| target in targets && Walk(ReverseAll(arcs), target, r, v);
    WalkReverse(ReverseAll(arcs), target, r, v);
    ReverseReverse(arcs);
    q := ReverseWalk(r);
  }

  lemma KeptIsOnPath(arcs: set<Arc>, seeds: set<Outpoint>, roots: set<TxId>, root: TxId, limit: nat,
      down: map<TxId, nat>, targets: set<TxId>, up: map<TxId, nat>, a: Arc)
    requires Nearest(OpenArcs(arcs, From(root), seeds), {root}, limit, down) && TargetsOf(targets, roots, root, down)
    requires Nearest(ReverseAll(arcs), targets, limit, up)
    requires a in arcs && Keeps(a, root, seeds, limit, down, up)
    ensures OnStarterPath(arcs, seeds, roots, root, Some(limit), a)
  {
    var p :| |p| == down[a.tail] && Reaches(OpenArcs(arcs, From(root), seeds), {root}, p, a.tail);
    OpenIsSeeded(arcs, seeds, root, p, a.tail);
    var target, q := WayOut(arcs, targets, limit, up, a.head);
    var path := Splice(arcs, seeds, roots, root, p, a, q, target);
  }

  /** Neither pass loses a link of a qualifying path, whether or not the path is shortest. */
  lemma OnPathIsKept(arcs: set<Arc>, seeds: set<Outpoint>, roots: set<TxId>, root: TxId, limit: nat,
      down: map<TxId, nat>, targets: set<TxId>, up: map<TxId, nat>, target: TxId, p: seq<Arc>, i: nat)
    requires Acyclic(arcs)
    requires Nearest(OpenArcs(arcs, From(root), seeds), {root}, limit, down) && TargetsOf(targets, roots, root, down)
    requires Nearest(ReverseAll(arcs), targets, limit, up)
    requires StarterPath(arcs, seeds, roots, root, target, p) && |p| <= limit && i < |p|
    ensures Keeps(p[i], root, seeds, limit, down, up)
  {
    var open := OpenArcs(arcs, From(root), seeds);
    var a := p[i];
    SeededIsOpen(arcs, seeds, root, p, target);
    assert Reaches(open, {root}, p, target);
    WalkPrefix(open, root, p, target, i);
    assert Visit(root, p, i) == a.tail;
    assert Reaches(open, {root}, p[..i], a.tail);
    WalkPrefix(arcs, root, p, target, i + 1);
    var rest := p[i + 1..];
    WalkReverse(arcs, a.head, rest, target);
    assert Reaches(ReverseAll(arcs), targets, ReverseWalk(rest), a.head);
    if a.tail == root && i > 0 {
      VisitsDistinct(arcs, root, p, target, 0, i);
    }
  }

  /** The distance test keeps a link exactly when the link is on a qualifying path. */
  lemma KeepsExactly(arcs: set<Arc>, seeds: set<Outpoint>, roots: set<TxId>, root: TxId, limit: nat,
      down: map<TxId, nat>, targets: set<TxId>, up: map<TxId, nat>, a: Arc)
    requires Acyclic(arcs) && a in arcs
    requires Nearest(OpenArcs(arcs, From(root), seeds), {root}, limit, down) && TargetsOf(targets, roots, root, down)
    requires Nearest(ReverseAll(arcs), targets, limit, up)
    ensures Keeps(a, root, seeds, limit, down, up) <==> OnStarterPath(arcs, seeds, roots, root, Some(limit), a)
  {
    if Keeps(a, root, seeds, limit, down, up) {
      KeptIsOnPath(arcs, seeds, roots, root, limit, down, targets, up, a);
    }
    if OnStarterPath(arcs, seeds, roots, root, Some(limit), a) {
      var target, p :| StarterPath(arcs, seeds, roots, root, target, p) && Fits(Some(limit), |p|) && a in p;
      var i :| 0 <= i < |p| && p[i] == a;
      OnPathIsKept(arcs, seeds, roots, root, limit, down, targets, up, target, p, i);
    }
  }

  /** For N saved transactions the bound N - 1 hides no path. */
  lemma BoundLosesNothing(arcs: set<Arc>, vertices: set<TxId>, seeds: set<Outpoint>, roots: set<TxId>, root: TxId, a: Arc)
    requires Acyclic(arcs) && Within(arcs, vertices) && |vertices| > 0
    ensures OnStarterPath(arcs, seeds, roots, root, Some(|vertices| - 1), a) <==> OnStarterPath(arcs, seeds, roots, root, None, a)
  {
    forall target, p | StarterPath(arcs, seeds, roots, root, target, p)
      ensures |p| <= |vertices| - 1
    {
      assert p[0] in arcs;
      WalkBound(arcs, vertices, root, p, target);
    }
  }

  // ---------------------------------------------------------------------------
  // The search itself
  // ---------------------------------------------------------------------------

  function ArcOf(key: Outpoint, link: Link): Arc {
    Arc(key.txid, key, link.child)
  }

  /** A link that the saved transactions prove, of a spendable output. */
  predicate LinkProven(state: State, key: Outpoint)
    requires key in state.links
  {
    && Recorded(state, key)
    && key.txid != state.links[key].child
    && 0 <= key.index < |state.transactions[key.txid].outputs|
    && state.transactions[key.txid].outputs[key.index].kind == Spendable
  }

  ghost predicate AllProven(state: State) {
    forall key :: key in state.links ==> LinkProven(state, key)
  }

  function SpendArcs(state: State): set<Arc> {
    set key | key in state.links :: ArcOf(key, state.links[key])
  }

  /** Outside the saved scopes a stop rule or an unconfirmed side hides a link. */
  predicate Eligible(scope: Scope, hidden: set<Outpoint>, a: Arc) {
    scope == Traced ==> a.key !in hidden
  }

  function Searched(state: State, scope: Scope, hidden: set<Outpoint>): set<Arc> {
    set a | a in SpendArcs(state) && Eligible(scope, hidden, a)
  }

  function Starters(seeds: set<Outpoint>): set<TxId> {
    set seed | seed in seeds :: seed.txid
  }

  /** Some saved link fails one of the source's checks. */
  method VerifyLinks(state: State) returns (r: Option<seq<Arc>>)
    requires Wellformed(state)
    ensures r.Some? <==> AllProven(state)
    ensures r.Some? ==> Distinct(r.value) && Elems(r.value) == SpendArcs(state) && Within(SpendArcs(state), Elems(state.order))
  {
    var todo := state.links.Keys;
    var verified: seq<Arc> := [];
    while todo != {}
      invariant todo <= state.links.Keys
      invariant forall key :: key in state.links && key !in todo ==> LinkProven(state, key) && ArcOf(key, state.links[key]) in verified
      invariant forall i :: 0 <= i < |verified| ==>
        (verified[i].key in state.links && verified[i].key !in todo
          && verified[i] == ArcOf(verified[i].key, state.links[verified[i].key]))
      invariant Distinct(verified)
      decreases todo
    {
      var key := Pick(todo);
      if !LinkProven(state, key) {
        return None;
      }
      verified := verified + [ArcOf(key, state.links[key])];
      todo := todo - {key};
    }
    forall a
      ensures a in verified <==> a in SpendArcs(state)
    {
    }
    forall a | a in SpendArcs(state)
      ensures a.tail in Elems(state.order) && a.head in Elems(state.order)
    {
      assert LinkProven(state, a.key);
    }
    return Some(verified);
  }

  /** The two adjacency tables over the eligible links. */
  method Adjacency(verified: seq<Arc>, scope: Scope, hidden: set<Outpoint>, ghost arcs: set<Arc>)
      returns (eligible: seq<Arc>, forward: map<TxId, seq<Arc>>, backward: map<TxId, seq<Arc>>)
    requires forall a :: a in arcs <==> a in verified && Eligible(scope, hidden, a)
    ensures forall a :: a in eligible <==> a in arcs
    ensures Lists(forward, arcs) && Lists(backward, ReverseAll(arcs))
  {
    eligible, forward, backward := [], map[], map[];
    for i := 0 to |verified|
      invariant forall a :: a in eligible <==> a in verified[..i] && Eligible(scope, hidden, a)
      invariant Lists(forward, Elems(eligible)) && Lists(backward, ReverseAll(Elems(eligible)))
    {
      var a := verified[i];
      assert verified[..i + 1] == verified[..i] + [a];
      if Eligible(scope, hidden, a) {
        ListsAdd(forward, Elems(eligible), a);
        ListsAdd(backward, ReverseAll(Elems(eligible)), Reverse(a));
        ReverseAdd(eligible, a);
        eligible := eligible + [a];
        forward := forward[a.tail := Out(forward, a.tail) + [a]];
        backward := backward[a.head := Out(backward, a.head) + [Reverse(a)]];
      }
    }
    assert verified[..|verified|] == verified;
    assert Elems(eligible) == arcs;
  }

  lemma ListsAdd(adjacency: map<TxId, seq<Arc>>, arcs: set<Arc>, a: Arc)
    requires Lists(adjacency, arcs)
    ensures Lists(adjacency[a.tail := Out(adjacency, a.tail) + [a]], arcs + {a})
  {
    var more := adjacency[a.tail := Out(adjacency, a.tail) + [a]];
    forall v, b
      ensures b in Out(more, v) <==> b in arcs + {a} && b.tail == v
    {
      assert b in Out(adjacency, v) <==> b in arcs && b.tail == v;
    }
  }

  lemma ReverseAdd(eligible: seq<Arc>, a: Arc)
    ensures Elems(eligible + [a]) == Elems(eligible) + {a}
    ensures ReverseAll(Elems(eligible + [a])) == ReverseAll(Elems(eligible)) + {Reverse(a)}
  {
    assert Elems(eligible + [a]) == Elems(eligible) + {a};
    assert a in Elems(eligible) + {a};
    forall b | b in ReverseAll(Elems(eligible)) + {Reverse(a)}
      ensures b in ReverseAll(Elems(eligible) + {a})
    {
      if b != Reverse(a) {
        var c :| c in Elems(eligible) && b == Reverse(c);
        assert c in Elems(eligible) + {a};
      }
    }
  }

  method ReachedStarters(roots: seq<TxId>, root: TxId, down: map<TxId, nat>) returns (targets: seq<TxId>)
    requires Distinct(roots)
    ensures Distinct(targets) && TargetsOf(Elems(targets), Elems(roots), root, down)
  {
    targets := [];
    for i := 0 to |roots|
      invariant Distinct(targets)
      invariant forall t :: t in targets <==> t in roots[..i] && t != root && t in down
    {
      assert roots[..i + 1] == roots[..i] + [roots[i]];
      assert roots[i] !in roots[..i];
      if roots[i] != root && roots[i] in down {
        targets := targets + [roots[i]];
      }
    }
    assert roots[..|roots|] == roots;
  }

  /** The kept outpoints are those of links passing the two-sided distance test. */
  ghost predicate KeptBy(kept: set<Outpoint>, eligible: seq<Arc>, n: nat, root: TxId, seeds: set<Outpoint>, limit: nat,
      down: map<TxId, nat>, up: map<TxId, nat>)
    requires n <= |eligible|
  {
    forall key :: key in kept <==>
      exists j :: 0 <= j < n && eligible[j].key == key && Keeps(eligible[j], root, seeds, limit, down, up)
  }

  method KeepLinks(eligible: seq<Arc>, root: TxId, seeds: set<Outpoint>, limit: nat, down: map<TxId, nat>, up: map<TxId, nat>)
      returns (kept: set<Outpoint>)
    ensures KeptBy(kept, eligible, |eligible|, root, seeds, limit, down, up)
  {
    kept := {};
    for i := 0 to |eligible|
      invariant KeptBy(kept, eligible, i, root, seeds, limit, down, up)
    {
      if Keeps(eligible[i], root, seeds, limit, down, up) {
        kept := kept + {eligible[i].key};
      }
    }
  }

  /** What one starter contributes: exactly the links on its qualifying paths. */
  ghost predicate KeptExactly(kept: set<Outpoint>, arcs: set<Arc>, seeds: set<Outpoint>, roots: set<TxId>, root: TxId, limit: nat) {
    && (forall a :: a in arcs ==> (a.key in kept <==> OnStarterPath(arcs, seeds, roots, root, Some(limit), a)))
    && (forall key :: key in kept ==> exists a :: a in arcs && a.key == key)
  }

  /** One starter: the links it keeps and the starters it reaches. */
  method FromStarter(root: TxId, roots: seq<TxId>, seeds: set<Outpoint>, limit: nat, ghost arcs: set<Arc>,
      eligible: seq<Arc>, forward: map<TxId, seq<Arc>>, backward: map<TxId, seq<Arc>>)
      returns (kept: set<Outpoint>, down: map<TxId, nat>, targets: seq<TxId>)
    requires Acyclic(arcs) && Keyed(arcs) && Distinct(roots)
    requires forall a :: a in eligible <==> a in arcs
    requires Lists(forward, arcs) && Lists(backward, ReverseAll(arcs))
    ensures KeptExactly(kept, arcs, seeds, Elems(roots), root, limit)
    ensures Nearest(OpenArcs(arcs, From(root), seeds), {root}, limit, down)
    ensures Distinct(targets) && TargetsOf(Elems(targets), Elems(roots), root, down)
  {
    down := Explore(arcs, forward, [root], From(root), seeds, limit);
    assert Elems([root]) == {root};
    targets := ReachedStarters(roots, root, down);
    kept := {};
    if targets == [] {
      NothingReached(arcs, seeds, Elems(roots), root, limit, down);
    } else {
      var up := Explore(ReverseAll(arcs), backward, targets, Anywhere, seeds, limit);
      assert OpenArcs(ReverseAll(arcs), Anywhere, seeds) == ReverseAll(arcs);
      kept := KeepLinks(eligible, root, seeds, limit, down, up);
      KeptIsExact(arcs, eligible, kept, root, Elems(roots), seeds, limit, down, Elems(targets), up);
    }
  }

  lemma KeptIsExact(arcs: set<Arc>, eligible: seq<Arc>, kept: set<Outpoint>, root: TxId, roots: set<TxId>,
      seeds: set<Outpoint>, limit: nat, down: map<TxId, nat>, targets: set<TxId>, up: map<TxId, nat>)
    requires Acyclic(arcs) && Keyed(arcs) && forall b :: b in eligible <==> b in arcs
    requires Nearest(OpenArcs(arcs, From(root), seeds), {root}, limit, down) && TargetsOf(targets, roots, root, down)
    requires Nearest(ReverseAll(arcs), targets, limit, up)
    requires KeptBy(kept, eligible, |eligible|, root, seeds, limit, down, up)
    ensures KeptExactly(kept, arcs, seeds, roots, root, limit)
  {
    forall a | a in arcs
      ensures a.key in kept <==> OnStarterPath(arcs, seeds, roots, root, Some(limit), a)
    {
      KeepsExactly(arcs, seeds, roots, root, limit, down, targets, up, a);
      KeptByKey(arcs, eligible, kept, root, seeds, limit, down, up, a);
    }
    forall key | key in kept
      ensures exists a :: a in arcs && a.key == key
    {
      var j :| 0 <= j < |eligible| && eligible[j].key == key;
      assert eligible[j] in eligible;
    }
  }

  lemma KeptByKey(arcs: set<Arc>, eligible: seq<Arc>, kept: set<Outpoint>, root: TxId, seeds: set<Outpoint>, limit: nat,
      down: map<TxId, nat>, up: map<TxId, nat>, a: Arc)
    requires Keyed(arcs) && a in arcs && forall b :: b in eligible <==> b in arcs
    requires KeptBy(kept, eligible, |eligible|, root, seeds, limit, down, up)
    ensures a.key in kept <==> Keeps(a, root, seeds, limit, down, up)
  {
    assert a in eligible;
    var j :| 0 <= j < |eligible| && eligible[j] == a;
    if a.key in kept {
      var k :| 0 <= k < |eligible| && eligible[k].key == a.key && Keeps(eligible[k], root, seeds, limit, down, up);
      assert eligible[k] in eligible;
    }
  }

  lemma NothingReached(arcs: set<Arc>, seeds: set<Outpoint>, roots: set<TxId>, root: TxId, limit: nat, down: map<TxId, nat>)
    requires Acyclic(arcs) && Nearest(OpenArcs(arcs, From(root), seeds), {root}, limit, down)
    requires TargetsOf({}, roots, root, down)
    ensures forall a :: !OnStarterPath(arcs, seeds, roots, root, Some(limit), a)
  {
    forall a | OnStarterPath(arcs, seeds, roots, root, Some(limit), a)
      ensures false
    {
      var target, p :| StarterPath(arcs, seeds, roots, root, target, p) && Fits(Some(limit), |p|) && a in p;
      DownstreamTargets(arcs, seeds, roots, root, limit, down, target);
    }
  }

  // ---------------------------------------------------------------------------
  // All starters
  // ---------------------------------------------------------------------------

  /** The starters in some order; the source sorts them, which only orders its output. */
  method ListStarters(seeds: set<Outpoint>) returns (roots: seq<TxId>)
    ensures Distinct(roots) && Elems(roots) == Starters(seeds)
  {
    roots := [];
    var todo := Starters(seeds);
    while todo != {}
      invariant Distinct(roots)
      invariant forall r :: r in Starters(seeds) <==> r in roots || r in todo
      invariant forall r :: r in roots ==> r !in todo
      decreases todo
    {
      var r := Pick(todo);
      roots := roots + [r];
      todo := todo - {r};
    }
    forall r
      ensures r in Elems(roots) <==> r in Starters(seeds)
    {
    }
  }

  /** The kept outpoints, over every starter. */
  ghost predicate Retains(outpoints: set<Outpoint>, arcs: set<Arc>, seeds: set<Outpoint>, roots: set<TxId>, limit: Option<nat>) {
    && (forall key :: key in outpoints ==> exists a :: a in arcs && a.key == key)
    && (forall a :: a in arcs ==>
          (a.key in outpoints <==> exists root :: root in roots && OnStarterPath(arcs, seeds, roots, root, limit, a)))
  }

  /** A connected pair of starters carries the length of its shortest qualifying path. */
  ghost predicate Paired(hops: map<(TxId, TxId), nat>, arcs: set<Arc>, seeds: set<Outpoint>, roots: set<TxId>, limit: Option<nat>) {
    && (forall pair :: pair in hops ==> pair.0 in roots && ShortestTo(arcs, seeds, roots, pair.0, pair.1, hops[pair]))
    && (forall root, target, p :: root in roots && StarterPath(arcs, seeds, roots, root, target, p) && Fits(limit, |p|)
          ==> (root, target) in hops)
  }

  /** `outpoints` collects the kept sets of the first starters. */
  ghost predicate Union(outpoints: set<Outpoint>, arcs: set<Arc>, seeds: set<Outpoint>, roots: seq<TxId>, n: nat, limit: nat)
    requires n <= |roots|
  {
    && (forall key :: key in outpoints ==> exists a :: a in arcs && a.key == key)
    && (forall a :: a in arcs ==> (a.key in outpoints <==>
          exists i :: 0 <= i < n && OnStarterPath(arcs, seeds, Elems(roots), roots[i], Some(limit), a)))
  }

  lemma UnionStep(outpoints: set<Outpoint>, kept: set<Outpoint>, arcs: set<Arc>, seeds: set<Outpoint>, roots: seq<TxId>, n: nat, limit: nat)
    requires n < |roots| && Union(outpoints, arcs, seeds, roots, n, limit)
    requires KeptExactly(kept, arcs, seeds, Elems(roots), roots[n], limit)
    ensures Union(outpoints + kept, arcs, seeds, roots, n + 1, limit)
  {
    forall a | a in arcs
      ensures a.key in outpoints + kept <==>
        exists i :: 0 <= i < n + 1 && OnStarterPath(arcs, seeds, Elems(roots), roots[i], Some(limit), a)
    {
      if a.key in outpoints {
        var i :| 0 <= i < n && OnStarterPath(arcs, seeds, Elems(roots), roots[i], Some(limit), a);
        assert 0 <= i < n + 1;
      }
    }
  }

  /** The pairs of the first starters are recorded, each with its first-pass distance. */
  ghost predicate PairsOf(hops: map<(TxId, TxId), nat>, arcs: set<Arc>, seeds: set<Outpoint>, roots: seq<TxId>, n: nat, limit: nat)
    requires n <= |roots|
  {
    && (forall pair :: pair in hops ==> pair.0 in roots[..n] && ShortestTo(arcs, seeds, Elems(roots), pair.0, pair.1, hops[pair]))
    && (forall i, target, p :: 0 <= i < n && StarterPath(arcs, seeds, Elems(roots), roots[i], target, p) && |p| <= limit
          ==> (roots[i], target) in hops)
  }

  function AddPairs(hops: map<(TxId, TxId), nat>, root: TxId, targets: set<TxId>, down: map<TxId, nat>): map<(TxId, TxId), nat>
    requires forall t :: t in targets ==> t in down
  {
    hops + map t | t in targets :: (root, t) := down[t]
  }

  lemma PairsStep(hops: map<(TxId, TxId), nat>, arcs: set<Arc>, seeds: set<Outpoint>, roots: seq<TxId>, n: nat, limit: nat,
      down: map<TxId, nat>, targets: set<TxId>)
    requires n < |roots| && PairsOf(hops, arcs, seeds, roots, n, limit) && Acyclic(arcs)
    requires Nearest(OpenArcs(arcs, From(roots[n]), seeds), {roots[n]}, limit, down)
    requires TargetsOf(targets, Elems(roots), roots[n], down)
    ensures PairsOf(AddPairs(hops, roots[n], targets, down), arcs, seeds, roots, n + 1, limit)
  {
    var root, more := roots[n], AddPairs(hops, roots[n], targets, down);
    assert roots[..n + 1] == roots[..n] + [root];
    forall pair | pair in more
      ensures pair.0 in roots[..n + 1] && ShortestTo(arcs, seeds, Elems(roots), pair.0, pair.1, more[pair])
    {
      if pair.0 == root && pair.1 in targets {
        DownstreamTargets(arcs, seeds, Elems(roots), root, limit, down, pair.1);
        assert more[pair] == down[pair.1];
      } else {
        assert pair in hops && more[pair] == hops[pair];
      }
    }
    forall i, target, p | 0 <= i < n + 1 && StarterPath(arcs, seeds, Elems(roots), roots[i], target, p) && |p| <= limit
      ensures (roots[i], target) in more
    {
      if i == n {
        DownstreamTargets(arcs, seeds, Elems(roots), root, limit, down, target);
        assert (root, target) in more;
      } else {
        assert (roots[i], target) in hops;
      }
    }
  }

  method Collect(roots: seq<TxId>, seeds: set<Outpoint>, limit: nat, ghost arcs: set<Arc>,
      eligible: seq<Arc>, forward: map<TxId, seq<Arc>>, backward: map<TxId, seq<Arc>>)
      returns (outpoints: set<Outpoint>, hops: map<(TxId, TxId), nat>)
    requires Acyclic(arcs) && Keyed(arcs) && Distinct(roots)
    requires forall a :: a in eligible <==> a in arcs
    requires Lists(forward, arcs) && Lists(backward, ReverseAll(arcs))
    ensures Retains(outpoints, arcs, seeds, Elems(roots), Some(limit))
    ensures Paired(hops, arcs, seeds, Elems(roots), Some(limit))
  {
    outpoints, hops := {}, map[];
    for n := 0 to |roots|
      invariant Union(outpoints, arcs, seeds, roots, n, limit)
      invariant PairsOf(hops, arcs, seeds, roots, n, limit)
    {
      var kept, down, targets := FromStarter(roots[n], roots, seeds, limit, arcs, eligible, forward, backward);
      UnionStep(outpoints, kept, arcs, seeds, roots, n, limit);
      PairsStep(hops, arcs, seeds, roots, n, limit, down, Elems(targets));
      outpoints := outpoints + kept;
      hops := AddPairs(hops, roots[n], Elems(targets), down);
    }
    CollectDone(outpoints, hops, arcs, seeds, roots, limit);
  }

  lemma CollectDone(outpoints: set<Outpoint>, hops: map<(TxId, TxId), nat>, arcs: set<Arc>, seeds: set<Outpoint>, roots: seq<TxId>, limit: nat)
    requires Union(outpoints, arcs, seeds, roots, |roots|, limit) && PairsOf(hops, arcs, seeds, roots, |roots|, limit)
    ensures Retains(outpoints, arcs, seeds, Elems(roots), Some(limit)) && Paired(hops, arcs, seeds, Elems(roots), Some(limit))
  {
    assert roots[..|roots|] == roots;
    forall a | a in arcs
      ensures a.key in outpoints <==>
        exists root :: root in Elems(roots) && OnStarterPath(arcs, seeds, Elems(roots), root, Some(limit), a)
    {
      if root :| root in Elems(roots) && OnStarterPath(arcs, seeds, Elems(roots), root, Some(limit), a) {
        var i :| 0 <= i < |roots| && roots[i] == root;
        assert OnStarterPath(arcs, seeds, Elems(roots), roots[i], Some(limit), a);
      }
      if a.key in outpoints {
        var i :| 0 <= i < |roots| && OnStarterPath(arcs, seeds, Elems(roots), roots[i], Some(limit), a);
        assert roots[i] in Elems(roots);
      }
    }
    forall root, target, p | root in Elems(roots) && StarterPath(arcs, seeds, Elems(roots), root, target, p) && Fits(Some(limit), |p|)
      ensures (root, target) in hops
    {
      var i :| 0 <= i < |roots| && roots[i] == root;
    }
  }

  lemma SpendArcsKeyed(state: State)
    ensures Keyed(SpendArcs(state))
  {
  }

  /** With the bound N - 1 the retained set and the pairs are those of the unbounded search. */
  lemma UnboundedSearch(outpoints: set<Outpoint>, hops: map<(TxId, TxId), nat>, arcs: set<Arc>, vertices: set<TxId>,
      seeds: set<Outpoint>, roots: set<TxId>)
    requires Acyclic(arcs) && Within(arcs, vertices)
    requires var bound := if |vertices| == 0 then 0 else |vertices| - 1;
      Retains(outpoints, arcs, seeds, roots, Some(bound)) && Paired(hops, arcs, seeds, roots, Some(bound))
    ensures Retains(outpoints, arcs, seeds, roots, None) && Paired(hops, arcs, seeds, roots, None)
  {
    var bound := if |vertices| == 0 then 0 else |vertices| - 1;
    forall a, root | a in arcs
      ensures OnStarterPath(arcs, seeds, roots, root, Some(bound), a) <==> OnStarterPath(arcs, seeds, roots, root, None, a)
    {
      assert a.tail in vertices;
      BoundLosesNothing(arcs, vertices, seeds, roots, root, a);
    }
    forall a | a in arcs
      ensures a.key in outpoints <==> exists root :: root in roots && OnStarterPath(arcs, seeds, roots, root, None, a)
    {
      if root :| root in roots && OnStarterPath(arcs, seeds, roots, root, None, a) {
        assert OnStarterPath(arcs, seeds, roots, root, Some(bound), a);
      }
      if a.key in outpoints {
        var root :| root in roots && OnStarterPath(arcs, seeds, roots, root, Some(bound), a);
        assert OnStarterPath(arcs, seeds, roots, root, None, a);
      }
    }
    forall root, target, p | root in roots && StarterPath(arcs, seeds, roots, root, target, p)
      ensures (root, target) in hops
    {
      assert p[0] in arcs;
      WalkBound(arcs, vertices, root, p, target);
      assert Fits(Some(bound), |p|);
    }
  }

  predicate HopsAccepted(scope: Scope, maxHops: Option<int>) {
    match maxHops
    case Some(h) => 0 <= h <= MAX_HOPS
    case None => scope == AllSaved
  }

  /** The limit that the scope puts on a path: none when all saved spends are searched. */
  function PathLimit(scope: Scope, maxHops: Option<int>): Option<nat>
    requires HopsAccepted(scope, maxHops)
  {
    if scope == AllSaved then None else Some(maxHops.value as nat)
  }

  /** A traced search keeps no hidden outpoint; the saved scopes search every spend, hidden or not. */
  ghost predicate OnlyWhereHidden(state: State, scope: Scope, hidden: set<Outpoint>, outpoints: set<Outpoint>) {
    if scope == Traced then outpoints !! hidden && (forall a :: a in Searched(state, scope, hidden) <==> a in SpendArcs(state) && a.key !in hidden)
    else Searched(state, scope, hidden) == SpendArcs(state)
  }

  lemma HiddenStaysOut(state: State, scope: Scope, hidden: set<Outpoint>, outpoints: set<Outpoint>, roots: seq<TxId>, maxHops: Option<int>)
    requires HopsAccepted(scope, maxHops)
    requires Retains(outpoints, Searched(state, scope, hidden), state.seeds, Elems(roots), PathLimit(scope, maxHops))
    ensures OnlyWhereHidden(state, scope, hidden, outpoints)
  {
    if scope == Traced {
      forall key | key in outpoints
        ensures key !in hidden
      {
        var a :| a in Searched(state, scope, hidden) && a.key == key;
      }
    }
  }

  /** Selects the connecting outpoints of a run whose evidence has been completed if the scope asks for it. */
  method Search(state: State, scope: Scope, maxHops: Option<int>, hidden: set<Outpoint>) returns (r: Outcome)
    requires Wellformed(state)
    ensures r == Refused(BadHops) <==> !HopsAccepted(scope, maxHops)
    ensures r == Refused(FewStarters) <==> HopsAccepted(scope, maxHops) && |Starters(state.seeds)| < 2
    ensures r == Refused(BadEvidence) <==>
      HopsAccepted(scope, maxHops) && |Starters(state.seeds)| >= 2 && !AllProven(state)
    ensures r == Refused(CyclicSpends) <==>
      HopsAccepted(scope, maxHops) && |Starters(state.seeds)| >= 2 && AllProven(state) && !Acyclic(SpendArcs(state))
    ensures r.Connected? ==>
      && HopsAccepted(scope, maxHops)
      && Retains(r.outpoints, Searched(state, scope, hidden), state.seeds, Starters(state.seeds), PathLimit(scope, maxHops))
      && Paired(r.hops, Searched(state, scope, hidden), state.seeds, Starters(state.seeds), PathLimit(scope, maxHops))
    ensures r.Connected? ==> OnlyWhereHidden(state, scope, hidden, r.outpoints)
  {
    if !HopsAccepted(scope, maxHops) {
      return Refused(BadHops);
    }
    var roots := ListStarters(state.seeds);
    DistinctSize(roots);
    if |roots| < 2 {
      return Refused(FewStarters);
    }
    var verified := VerifyLinks(state);
    if verified.None? {
      return Refused(BadEvidence);
    }
    var topology := Sort(state.order, verified.value);
    if |topology| != |state.order| {
      return Refused(CyclicSpends);
    }
    ghost var arcs := Searched(state, scope, hidden);
    AcyclicMono(arcs, SpendArcs(state));
    SpendArcsKeyed(state);
    var limit: nat := if scope == AllSaved then (if |state.order| == 0 then 0 else |state.order| - 1) else maxHops.value;
    var eligible, forward, backward := Adjacency(verified.value, scope, hidden, arcs);
    var outpoints, hops := Collect(roots, state.seeds, limit, arcs, eligible, forward, backward);
    if scope == AllSaved {
      DistinctSize(state.order);
      UnboundedSearch(outpoints, hops, arcs, Elems(state.order), state.seeds, Elems(roots));
    }
    HiddenStaysOut(state, scope, hidden, outpoints, roots, maxHops);
    return Connected(outpoints, hops);
  }

  /** After completion the searched links are all the saved spends, and only those. */
  lemma CompletedSpends(state: State, a: Arc)
    requires Complete(state.transactions, state.links)
    ensures a in SpendArcs(state) <==>
      a.tail == a.key.txid && exists vin :: Spends(state.transactions, a.key, Link(a.head, vin))
  {
    if a in SpendArcs(state) {
      assert a.key in state.links;
      assert Spends(state.transactions, a.key, Link(a.head, state.links[a.key].vin));
    }
    if a.tail == a.key.txid {
      forall vin | Spends(state.transactions, a.key, Link(a.head, vin))
        ensures a in SpendArcs(state)
      {
        assert a.key in state.links && a == ArcOf(a.key, state.links[a.key]);
      }
    }
  }

  /** The saved scopes need consistent evidence to complete. */
  ghost predicate Admitted(state: State, scope: Scope) {
    scope == Traced || Consistent(state)
  }

  /** The public entry point: saved scopes search the completed evidence, the traced scope the run as it is. */
  method ConnectingOutpoints(state: State, scope: Scope, maxHops: Option<int>, hidden: set<Outpoint>)
      returns (r: Outcome, ghost evidence: State)
    requires Wellformed(state)
    ensures scope == Traced ==> evidence == state
    ensures evidence.seeds == state.seeds && evidence.transactions == state.transactions
    ensures scope != Traced && Consistent(state) ==>
      Complete(state.transactions, evidence.links) && Sublinks(state.links, evidence.links) && Extends(state.outputs, evidence.outputs)
    ensures r == Refused(BadHops) <==> Admitted(state, scope) && !HopsAccepted(scope, maxHops)
    ensures r == Refused(FewStarters) <==>
      Admitted(state, scope) && HopsAccepted(scope, maxHops) && |Starters(state.seeds)| < 2
    ensures r == Refused(BadEvidence) <==>
      !Admitted(state, scope) || (HopsAccepted(scope, maxHops) && |Starters(state.seeds)| >= 2 && !AllProven(evidence))
    ensures r == Refused(CyclicSpends) <==>
      Admitted(state, scope) && HopsAccepted(scope, maxHops) && |Starters(state.seeds)| >= 2 && AllProven(evidence) && !Acyclic(SpendArcs(evidence))
    ensures r.Connected? ==>
      && HopsAccepted(scope, maxHops) && Acyclic(SpendArcs(evidence))
      && Retains(r.outpoints, Searched(evidence, scope, hidden), state.seeds, Starters(state.seeds), PathLimit(scope, maxHops))
      && Paired(r.hops, Searched(evidence, scope, hidden), state.seeds, Starters(state.seeds), PathLimit(scope, maxHops))
    ensures r.Connected? ==> OnlyWhereHidden(evidence, scope, hidden, r.outpoints)
  {
    var searched := state;
    evidence := state;
    if scope != Traced {
      var completed := CompleteEvidence(state);
      if completed.None? {
        return Refused(BadEvidence), evidence;
      }
      searched := completed.value;
      evidence := searched;
    }
    r := Search(searched, scope, maxHops, hidden);
  }
}
