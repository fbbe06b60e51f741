/** Distances that restart at a named group, computed once in topological order.

An arrival counts the spends since the last output paid to the named group,
over all seed-started paths, without enumerating them. */
module GroupHops {
  import opened Options
  import opened Sequences
  import opened Walks
  import opened Topology
  import opened SavedEvidence
  import opened Connections

  /** Spending this output restarts the count. */
  predicate Restarts(txs: map<TxId, Tx>, key: Outpoint) {
    && key.txid in txs && 0 <= key.index < |txs[key.txid].outputs|
    && var output := txs[key.txid].outputs[key.index];
       output.kind == Spendable && output.named
  }

  predicate Displayed(txs: map<TxId, Tx>, key: Outpoint) {
    key.txid in txs && 0 <= key.index < |txs[key.txid].outputs| && txs[key.txid].outputs[key.index].kind != Fee
  }

  ghost predicate SeedPath(arcs: set<Arc>, seeds: set<Outpoint>, root: TxId, p: seq<Arc>, v: TxId) {
    p != [] && Walk(arcs, root, p, v) && p[0].key in seeds
  }

  /** `i` is where the counted part of the path begins: its last restarting spend after the first, or its start. */
  ghost predicate LastRestart(txs: map<TxId, Tx>, p: seq<Arc>, i: nat) {
    && i < |p|
    && (i == 0 || Restarts(txs, p[i].key))
    && (forall j :: i < j < |p| ==> !Restarts(txs, p[j].key))
  }

  /** `n` spends lie on the path from its last restart to its end. */
  ghost predicate HopsSince(txs: map<TxId, Tx>, p: seq<Arc>, n: nat) {
    exists i :: LastRestart(txs, p, i) && n == |p| - i
  }

  /** The count a link carries forward from a transaction reached after `n` spends. */
  function Carried(txs: map<TxId, Tx>, key: Outpoint, n: nat): nat {
    if Restarts(txs, key) then 0 else n
  }

  lemma HopsSinceStep(txs: map<TxId, Tx>, p: seq<Arc>, a: Arc, n: nat)
    requires HopsSince(txs, p, n)
    ensures HopsSince(txs, p + [a], Carried(txs, a.key, n) + 1)
  {
    var i :| LastRestart(txs, p, i) && n == |p| - i;
    var q := p + [a];
    assert q[|p|] == a;
    if Restarts(txs, a.key) {
      assert LastRestart(txs, q, |p|);
    } else {
      assert LastRestart(txs, q, i);
    }
  }

  lemma HopsSinceOnly(txs: map<TxId, Tx>, p: seq<Arc>, m: nat, n: nat)
    requires HopsSince(txs, p, m) && HopsSince(txs, p, n)
    ensures m == n
  {
    var i :| LastRestart(txs, p, i) && m == |p| - i;
    var j :| LastRestart(txs, p, j) && n == |p| - j;
  }

  /** Every nonempty path has a count, and the count grows along it by `Carried`. */
  lemma {:induction false} HopsSinceExists(txs: map<TxId, Tx>, p: seq<Arc>) returns (n: nat, before: nat)
    requires p != []
    ensures HopsSince(txs, p, n)
    ensures |p| > 1 ==> HopsSince(txs, p[..|p| - 1], before) && n == Carried(txs, p[|p| - 1].key, before) + 1
    decreases |p|
  {
    if |p| == 1 {
      n, before := 1, 0;
      assert LastRestart(txs, p, 0);
    } else {
      var front, a := p[..|p| - 1], p[|p| - 1];
      var earlier;
      before, earlier := HopsSinceExists(txs, front);
      HopsSinceStep(txs, front, a, before);
      assert front + [a] == p;
      n := Carried(txs, a.key, before) + 1;
    }
  }

  /** `v` is reached by a seed-started path of `k` links counting `n`, told link by link. */
  ghost predicate Arrives(arcs: set<Arc>, txs: map<TxId, Tx>, seeds: set<Outpoint>, root: TxId, v: TxId, n: nat, k: nat)
    decreases k
  {
    if k == 0 then
      n == 1 && exists a :: a in arcs && a.head == v && a.tail == root && a.key in seeds
    else
      exists a, m :: a in arcs && a.head == v && Arrives(arcs, txs, seeds, root, a.tail, m, k - 1) && n == Carried(txs, a.key, m) + 1
  }

  lemma {:induction false} ArrivesByPath(arcs: set<Arc>, txs: map<TxId, Tx>, seeds: set<Outpoint>, root: TxId, v: TxId, n: nat, k: nat)
      returns (p: seq<Arc>)
    requires Arrives(arcs, txs, seeds, root, v, n, k)
    ensures SeedPath(arcs, seeds, root, p, v) && HopsSince(txs, p, n)
    decreases k
  {
    if k == 0 {
      var a :| a in arcs && a.head == v && a.tail == root && a.key in seeds;
      p := [a];
      assert LastRestart(txs, p, 0);
    } else {
      var a, m :| a in arcs && a.head == v && Arrives(arcs, txs, seeds, root, a.tail, m, k - 1) && n == Carried(txs, a.key, m) + 1;
      var q := ArrivesByPath(arcs, txs, seeds, root, a.tail, m, k - 1);
      WalkJoin(arcs, root, q, a.tail, [a], v);
      HopsSinceStep(txs, q, a, m);
      p := q + [a];
    }
  }

  /** Each recorded arrival is the count of some path. */
  ghost predicate Grounded(arcs: set<Arc>, txs: map<TxId, Tx>, seeds: set<Outpoint>, root: TxId, arrivals: map<TxId, nat>) {
    forall v :: v in arrivals ==> exists k: nat :: Arrives(arcs, txs, seeds, root, v, arrivals[v], k)
  }

  /** A link has been taken into account. */
  ghost predicate Settled(txs: map<TxId, Tx>, seeds: set<Outpoint>, root: TxId, arrivals: map<TxId, nat>, a: Arc) {
    && (a.tail == root && a.key in seeds ==> a.head in arrivals && arrivals[a.head] <= 1)
    && (a.tail in arrivals ==> a.head in arrivals && arrivals[a.head] <= Carried(txs, a.key, arrivals[a.tail]) + 1)
  }

  ghost predicate Attained(arcs: set<Arc>, txs: map<TxId, Tx>, seeds: set<Outpoint>, root: TxId, v: TxId, n: nat) {
    exists p :: SeedPath(arcs, seeds, root, p, v) && HopsSince(txs, p, n)
  }

  /** `arrivals` holds exactly the transactions that seed-started paths reach, each with the least count of such a path. */
  ghost predicate Minimal(arcs: set<Arc>, txs: map<TxId, Tx>, seeds: set<Outpoint>, root: TxId, arrivals: map<TxId, nat>) {
    && (forall v :: v in arrivals ==> Attained(arcs, txs, seeds, root, v, arrivals[v]))
    && (forall v, n :: Attained(arcs, txs, seeds, root, v, n) ==> v in arrivals && arrivals[v] <= n)
  }

  /** Once every link is settled no path can undercut an arrival: a smaller count never comes from a larger one. */
  lemma {:induction false} NoShorterPath(arcs: set<Arc>, txs: map<TxId, Tx>, seeds: set<Outpoint>, root: TxId,
      arrivals: map<TxId, nat>, p: seq<Arc>, v: TxId, n: nat)
    requires forall a :: a in arcs ==> Settled(txs, seeds, root, arrivals, a)
    requires SeedPath(arcs, seeds, root, p, v) && HopsSince(txs, p, n)
    ensures v in arrivals && arrivals[v] <= n
    decreases |p|
  {
    var count, m := HopsSinceExists(txs, p);
    HopsSinceOnly(txs, p, n, count);
    var a := p[|p| - 1];
    assert Settled(txs, seeds, root, arrivals, a);
    if |p| > 1 {
      WalkPrefix(arcs, root, p, v, |p| - 1);
      NoShorterPath(arcs, txs, seeds, root, arrivals, p[..|p| - 1], a.tail, m);
    }
  }

  lemma GroundedPath(arcs: set<Arc>, txs: map<TxId, Tx>, seeds: set<Outpoint>, root: TxId, arrivals: map<TxId, nat>, v: TxId)
      returns (p: seq<Arc>)
    requires Grounded(arcs, txs, seeds, root, arrivals) && v in arrivals
    ensures SeedPath(arcs, seeds, root, p, v) && HopsSince(txs, p, arrivals[v])
  {
    var k: nat :| Arrives(arcs, txs, seeds, root, v, arrivals[v], k);
    p := ArrivesByPath(arcs, txs, seeds, root, v, arrivals[v], k);
  }

  lemma SettledIsMinimal(arcs: set<Arc>, txs: map<TxId, Tx>, seeds: set<Outpoint>, root: TxId, arrivals: map<TxId, nat>)
    requires forall a :: a in arcs ==> Settled(txs, seeds, root, arrivals, a)
    requires Grounded(arcs, txs, seeds, root, arrivals)
    ensures Minimal(arcs, txs, seeds, root, arrivals)
  {
    forall v | v in arrivals
      ensures Attained(arcs, txs, seeds, root, v, arrivals[v])
    {
      var p := GroundedPath(arcs, txs, seeds, root, arrivals, v);
    }
    forall v, n | Attained(arcs, txs, seeds, root, v, n)
      ensures v in arrivals && arrivals[v] <= n
    {
      var p :| SeedPath(arcs, seeds, root, p, v) && HopsSince(txs, p, n);
      NoShorterPath(arcs, txs, seeds, root, arrivals, p, v, n);
    }
  }

  /** The starter itself is never arrived at: that path would be a cycle. */
  lemma NeverArrivesHome(arcs: set<Arc>, txs: map<TxId, Tx>, seeds: set<Outpoint>, root: TxId, arrivals: map<TxId, nat>)
    requires Acyclic(arcs) && Grounded(arcs, txs, seeds, root, arrivals)
    ensures root !in arrivals
  {
    if root in arrivals {
      var p := GroundedPath(arcs, txs, seeds, root, arrivals, root);
    }
  }

  /** Output distances: zero for the starter's seeds, and carried arrivals for transactions passed so far. */
  ghost predicate Depths(txs: map<TxId, Tx>, seeds: set<Outpoint>, root: TxId, arrivals: map<TxId, nat>,
      done: seq<TxId>, depths: map<Outpoint, nat>)
  {
    && (forall key :: key in depths ==>
          (key.txid == root && key in seeds && depths[key] == 0)
          || (key.txid != root && key.txid in done && key.txid in arrivals && depths[key] == Carried(txs, key, arrivals[key.txid])))
    && (forall key :: key in seeds && key.txid == root ==> key in depths)
    && (forall key: Outpoint :: key.txid in done && key.txid in arrivals && Displayed(txs, key) ==> key in depths)
  }

  method Outputs(txs: map<TxId, Tx>, seeds: set<Outpoint>, root: TxId, arrivals: map<TxId, nat>, ghost done: seq<TxId>,
      parent: TxId, depths0: map<Outpoint, nat>) returns (depths: map<Outpoint, nat>)
    requires Depths(txs, seeds, root, arrivals, done, depths0) && root !in arrivals && parent in txs
    ensures Depths(txs, seeds, root, arrivals, done + [parent], depths)
  {
    depths := depths0;
    if parent in arrivals {
      var outputs := txs[parent].outputs;
      for index := 0 to |outputs|
        invariant forall key :: key in depths0 ==> key in depths
        invariant forall key :: key in depths && key.txid != parent ==> key in depths0 && depths[key] == depths0[key]
        invariant forall key :: key in depths && key.txid == parent ==> depths[key] == Carried(txs, key, arrivals[parent])
        invariant forall i :: 0 <= i < index && outputs[i].kind != Fee ==> Outpoint(parent, i) in depths
      {
        if outputs[index].kind != Fee {
          var named := outputs[index].kind == Spendable && outputs[index].named;
          depths := depths[Outpoint(parent, index) := if named then 0 else arrivals[parent]];
        }
      }
      forall key: Outpoint | key.txid in done + [parent] && key.txid in arrivals && Displayed(txs, key)
        ensures key in depths
      {
        if key.txid == parent {
          assert key == Outpoint(parent, key.index);
        }
      }
    }
  }

  function Lower(arrivals: map<TxId, nat>, v: TxId, n: nat): map<TxId, nat> {
    arrivals[v := if v in arrivals && arrivals[v] <= n then arrivals[v] else n]
  }

  /** The links followed: all of them, or only those kept under the hop limit. */
  predicate Followed(kept: Option<set<Outpoint>>, a: Arc) {
    kept.Some? ==> a.key in kept.value
  }

  /** What the links out of `parent` leave intact: no arrival of a listed transaction changes. */
  ghost predicate Agree(done: seq<TxId>, before: map<TxId, nat>, after: map<TxId, nat>) {
    forall v :: v in done ==> (v in before <==> v in after) && (v in before ==> before[v] == after[v])
  }

  lemma GroundedLower(arcs: set<Arc>, txs: map<TxId, Tx>, seeds: set<Outpoint>, root: TxId, arrivals: map<TxId, nat>, a: Arc, n: nat)
    requires Grounded(arcs, txs, seeds, root, arrivals) && a in arcs
    requires (a.tail == root && a.key in seeds && n == 1) || (a.tail in arrivals && n == Carried(txs, a.key, arrivals[a.tail]) + 1)
    ensures Grounded(arcs, txs, seeds, root, Lower(arrivals, a.head, n))
  {
    var k: nat;
    if a.tail == root && a.key in seeds && n == 1 {
      k := 0;
    } else {
      var j: nat :| Arrives(arcs, txs, seeds, root, a.tail, arrivals[a.tail], j);
      k := j + 1;
    }
    assert Arrives(arcs, txs, seeds, root, a.head, n, k);
  }

  ghost predicate AllSettled(links: set<Arc>, txs: map<TxId, Tx>, seeds: set<Outpoint>, root: TxId, arrivals: map<TxId, nat>) {
    forall a :: a in links ==> Settled(txs, seeds, root, arrivals, a)
  }

  /** Lowering the arrival of a transaction unsettles no link that it does not fund. */
  lemma SettledLower(links: set<Arc>, txs: map<TxId, Tx>, seeds: set<Outpoint>, root: TxId, arrivals: map<TxId, nat>, v: TxId, n: nat)
    requires AllSettled(links, txs, seeds, root, arrivals) && forall a :: a in links ==> a.tail != v
    ensures AllSettled(links, txs, seeds, root, Lower(arrivals, v, n))
  {
    forall a | a in links
      ensures Settled(txs, seeds, root, Lower(arrivals, v, n), a)
    {
      assert Settled(txs, seeds, root, arrivals, a);
    }
  }

  /** `a` can be followed exactly when its outpoint already has a distance. */
  lemma FollowedDepth(txs: map<TxId, Tx>, seeds: set<Outpoint>, root: TxId, arrivals: map<TxId, nat>,
      done: seq<TxId>, depths: map<Outpoint, nat>, a: Arc)
    requires Depths(txs, seeds, root, arrivals, done, depths) && root !in arrivals && a.tail in done
    requires a.key.txid == a.tail && Displayed(txs, a.key)
    ensures a.key in depths <==> (a.tail == root && a.key in seeds) || a.tail in arrivals
    ensures a.key in depths ==> depths[a.key] == if a.tail == root then 0 else Carried(txs, a.key, arrivals[a.tail])
  {
  }

  ghost predicate NamedBySource(arcs: set<Arc>, txs: map<TxId, Tx>) {
    forall a :: a in arcs ==> a.key.txid == a.tail && Displayed(txs, a.key)
  }

  /** The links whose funding transaction has been passed. */
  function LinksFrom(arcs: set<Arc>, done: seq<TxId>): set<Arc> {
    set a | a in arcs && a.tail in done
  }

  /** One link out of `parent`: taken when its outpoint has a distance, and settled either way. */
  lemma FollowStep(arcs: set<Arc>, settled: set<Arc>, txs: map<TxId, Tx>, seeds: set<Outpoint>, root: TxId,
      kept: Option<set<Outpoint>>, done: seq<TxId>, parent: TxId, depths: map<Outpoint, nat>,
      arrivals0: map<TxId, nat>, arrivals: map<TxId, nat>, a: Arc)
    requires NamedBySource(arcs, txs) && Grounded(arcs, txs, seeds, root, arrivals) && root !in arrivals0
    requires parent in done && Depths(txs, seeds, root, arrivals0, done, depths) && Agree(done, arrivals0, arrivals)
    requires AllSettled(settled, txs, seeds, root, arrivals) && forall b :: b in settled ==> b.tail in done
    requires a.tail == parent && a.head !in done && (Followed(kept, a) <==> a in arcs)
    ensures var next := if a.key in depths && Followed(kept, a) then Lower(arrivals, a.head, depths[a.key] + 1) else arrivals;
      && Grounded(arcs, txs, seeds, root, next) && Agree(done, arrivals0, next)
      && AllSettled(settled + (if a in arcs then {a} else {}), txs, seeds, root, next)
  {
    if a in arcs {
      FollowedDepth(txs, seeds, root, arrivals0, done, depths, a);
      if a.key in depths {
        GroundedLower(arcs, txs, seeds, root, arrivals, a, depths[a.key] + 1);
        SettledLower(settled, txs, seeds, root, arrivals, a.head, depths[a.key] + 1);
      }
    }
  }

  /** Follows the links out of `parent`, whose own arrival and outputs are final. */
  method Follow(ghost arcs: set<Arc>, txs: map<TxId, Tx>, seeds: set<Outpoint>, root: TxId, kept: Option<set<Outpoint>>,
      out: seq<Arc>, ghost done: seq<TxId>, parent: TxId, depths: map<Outpoint, nat>, arrivals0: map<TxId, nat>)
      returns (arrivals: map<TxId, nat>)
    requires NamedBySource(arcs, txs) && Grounded(arcs, txs, seeds, root, arrivals0) && root !in arrivals0
    requires AllSettled(LinksFrom(arcs, done), txs, seeds, root, arrivals0)
    requires parent in done + [parent] && Depths(txs, seeds, root, arrivals0, done + [parent], depths)
    requires forall a :: a in arcs && a.tail == parent ==> a in out
    requires forall a :: a in out ==> a.tail == parent && a.head !in done + [parent] && (Followed(kept, a) <==> a in arcs)
    ensures Grounded(arcs, txs, seeds, root, arrivals)
    ensures AllSettled(LinksFrom(arcs, done + [parent]), txs, seeds, root, arrivals)
    ensures Agree(done + [parent], arrivals0, arrivals)
  {
    arrivals := arrivals0;
    ghost var settled := LinksFrom(arcs, done);
    for k := 0 to |out|
      invariant Grounded(arcs, txs, seeds, root, arrivals)
      invariant AllSettled(settled, txs, seeds, root, arrivals)
      invariant Agree(done + [parent], arrivals0, arrivals)
      invariant forall a :: a in settled ==> a.tail in done + [parent]
      invariant forall j :: 0 <= j < k && out[j] in arcs ==> out[j] in settled
      invariant LinksFrom(arcs, done) <= settled
    {
      var a := out[k];
      assert a in out;
      FollowStep(arcs, settled, txs, seeds, root, kept, done + [parent], parent, depths, arrivals0, arrivals, a);
      settled := settled + (if a in arcs then {a} else {});
      if a.key in depths && Followed(kept, a) {
        arrivals := Lower(arrivals, a.head, depths[a.key] + 1);
      }
    }
    forall a | a in LinksFrom(arcs, done + [parent])
      ensures a in settled
    {
      if a.tail == parent {
        assert a in out;
        var j :| 0 <= j < |out| && out[j] == a;
      }
    }
  }

  /** Arrivals and output distances of one starter, in one pass over the parents-first listing. */
  method GroupArrivals(topology: seq<TxId>, txs: map<TxId, Tx>, seeds: set<Outpoint>, root: TxId,
      kept: Option<set<Outpoint>>, forward: map<TxId, seq<Arc>>, ghost links: set<Arc>, ghost arcs: set<Arc>)
      returns (arrivals: map<TxId, nat>, depths: map<Outpoint, nat>)
    requires Distinct(topology) && ParentsFirst(links, topology) && Elems(topology) == txs.Keys == forward.Keys
    requires Within(links, Elems(topology)) && NamedBySource(links, txs) && Acyclic(links)
    requires forall v, a :: v in forward ==> (a in forward[v] <==> a in links && a.tail == v)
    requires forall a :: a in arcs <==> a in links && Followed(kept, a)
    ensures Minimal(arcs, txs, seeds, root, arrivals)
    ensures Depths(txs, seeds, root, arrivals, topology, depths)
  {
    AcyclicMono(arcs, links);
    arrivals := map[];
    depths := map key | key in seeds && key.txid == root :: 0;
    for i := 0 to |topology|
      invariant Grounded(arcs, txs, seeds, root, arrivals)
      invariant AllSettled(LinksFrom(arcs, topology[..i]), txs, seeds, root, arrivals)
      invariant Depths(txs, seeds, root, arrivals, topology[..i], depths)
    {
      var parent := topology[i];
      assert parent in Elems(topology);
      assert topology[..i + 1] == topology[..i] + [parent];
      NeverArrivesHome(arcs, txs, seeds, root, arrivals);
      depths := Outputs(txs, seeds, root, arrivals, topology[..i], parent, depths);
      forall a | a in forward[parent]
        ensures a.tail == parent && a.head !in topology[..i + 1]
      {
        LaterHead(links, topology, i, a);
      }
      var following := Follow(arcs, txs, seeds, root, kept, forward[parent], topology[..i], parent, depths, arrivals);
      DepthsAgree(txs, seeds, root, arrivals, following, topology[..i + 1], depths);
      arrivals := following;
    }
    assert topology[..|topology|] == topology;
    forall a | a in arcs
      ensures a in LinksFrom(arcs, topology)
    {
      assert a in links && a.tail in Elems(topology);
    }
    SettledIsMinimal(arcs, txs, seeds, root, arrivals);
  }

  lemma LaterHead(links: set<Arc>, topology: seq<TxId>, i: nat, a: Arc)
    requires Distinct(topology) && ParentsFirst(links, topology) && i < |topology|
    requires a in links && a.tail == topology[i]
    ensures a.head !in topology[..i + 1]
  {
    forall j | 0 <= j < i + 1
      ensures topology[j] != a.head
    {
      assert forall m :: 0 <= m < j ==> topology[m] != a.tail;
    }
  }

  lemma DepthsAgree(txs: map<TxId, Tx>, seeds: set<Outpoint>, root: TxId, before: map<TxId, nat>, after: map<TxId, nat>,
      done: seq<TxId>, depths: map<Outpoint, nat>)
    requires Depths(txs, seeds, root, before, done, depths) && Agree(done, before, after)
    ensures Depths(txs, seeds, root, after, done, depths)
  {
  }

  /** Every link of a kept path is itself followed, so the pass arrives at each vertex of the path. */
  lemma ArrivesAlong(links: set<Arc>, arcs: set<Arc>, txs: map<TxId, Tx>, seeds: set<Outpoint>, roots: set<TxId>, root: TxId,
      limit: nat, kept: Option<set<Outpoint>>, arrivals: map<TxId, nat>, target: TxId, p: seq<Arc>, i: nat)
    requires StarterPath(links, seeds, roots, root, target, p) && |p| <= limit && 0 < i <= |p|
    requires kept.Some? ==> KeptExactly(kept.value, links, seeds, roots, root, limit)
    requires forall a :: a in arcs <==> a in links && Followed(kept, a)
    requires Minimal(arcs, txs, seeds, root, arrivals)
    ensures Visit(root, p, i) in arrivals
  {
    forall j | 0 <= j < |p|
      ensures p[j] in arcs
    {
      assert p[j] in p && p[j] in links;
      assert OnStarterPath(links, seeds, roots, root, Some(limit), p[j]);
    }
    assert Walk(arcs, root, p, target);
    WalkPrefix(arcs, root, p, target, i);
    var n, _ := HopsSinceExists(txs, p[..i]);
    assert SeedPath(arcs, seeds, root, p[..i], Visit(root, p, i));
    assert Attained(arcs, txs, seeds, root, Visit(root, p, i), n);
  }

  /** The lookups after the pass cannot fail: every kept outpoint has a distance, and every target an arrival. */
  lemma NoMissingDistance(links: set<Arc>, arcs: set<Arc>, txs: map<TxId, Tx>, seeds: set<Outpoint>, roots: set<TxId>, root: TxId,
      limit: nat, kept: set<Outpoint>, allSaved: bool, topology: seq<TxId>, arrivals: map<TxId, nat>, depths: map<Outpoint, nat>)
    requires KeptExactly(kept, links, seeds, roots, root, limit) && Keyed(links)
    requires NamedBySource(links, txs) && Within(links, Elems(topology))
    requires forall a :: a in arcs <==> a in links && Followed(if allSaved then None else Some(kept), a)
    requires Minimal(arcs, txs, seeds, root, arrivals) && Depths(txs, seeds, root, arrivals, topology, depths)
    ensures forall key :: key in kept ==> key in depths
    ensures forall target, p :: StarterPath(links, seeds, roots, root, target, p) && |p| <= limit ==>
      target in arrivals && forall index :: Displayed(txs, Outpoint(target, index)) ==> Outpoint(target, index) in depths
  {
    var followed := if allSaved then None else Some(kept);
    forall key | key in kept
      ensures key in depths
    {
      var a :| a in links && a.key == key;
      var target, p: seq<Arc> :| StarterPath(links, seeds, roots, root, target, p) && Fits(Some(limit), |p|) && a in p;
      var i :| 0 <= i < |p| && p[i] == a;
      if i > 0 {
        ArrivesAlong(links, arcs, txs, seeds, roots, root, limit, followed, arrivals, target, p, i);
        assert p[i - 1].head == p[i].tail;
        assert a.tail in Elems(topology);
      }
    }
    forall target, p | StarterPath(links, seeds, roots, root, target, p) && |p| <= limit
      ensures target in arrivals && forall index :: Displayed(txs, Outpoint(target, index)) ==> Outpoint(target, index) in depths
    {
      ArrivesAlong(links, arcs, txs, seeds, roots, root, limit, followed, arrivals, target, p, |p|);
      assert p[|p| - 1] in links;
      assert target in Elems(topology);
    }
  }
}
