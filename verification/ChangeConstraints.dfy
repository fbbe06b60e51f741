/** Finding the proposals that cannot be honoured, as the source computes them. */
module ChangeConstraints {
  import opened Measures
  import opened Sets
  import opened Groups
  import opened RowOrder
  import opened ChangeRows

  // ---------------------------------------------------------------------------
  // Rows and blocks
  // ---------------------------------------------------------------------------

  function PairsFrom(source: Name, keys: seq<Name>): set<Pair> {
    set k | k in keys :: (source, k)
  }

  function RowPairs(proposals: seq<Proposal>): set<Pair> {
    if proposals == [] then {}
    else
      var last := proposals[|proposals| - 1];
      RowPairs(proposals[..|proposals| - 1]) + PairsFrom(last.source, last.row)
  }

  function BlockPairs(proposals: seq<Proposal>): set<Pair> {
    if proposals == [] then {}
    else
      var last := proposals[|proposals| - 1];
      BlockPairs(proposals[..|proposals| - 1]) + PairsFrom(last.source, last.row) + PairsFrom(last.source, last.below)
  }

  lemma {:induction false} PairsMean(proposals: seq<Proposal>, pair: Pair)
    ensures pair in RowPairs(proposals) <==> exists p :: p in proposals && pair.0 == p.source && pair.1 in p.row
    ensures pair in BlockPairs(proposals) <==> exists p :: p in proposals && pair.0 == p.source && (pair.1 in p.row || pair.1 in p.below)
    decreases |proposals|
  {
    if proposals != [] {
      var front, last := proposals[..|proposals| - 1], proposals[|proposals| - 1];
      PairsMean(front, pair);
      assert forall p :: p in proposals <==> p in front || p == last;
    }
  }

  lemma FinestRows(proposals: seq<Proposal>, roots: Parents)
    requires Finest(roots, RowPairs(proposals))
    requires forall p :: p in proposals ==> p.source in roots
    ensures RowsOf(proposals, roots)
  {
    forall p, k | p in proposals && k in p.row
      ensures k in roots && roots[k] == roots[p.source]
    {
      PairsMean(proposals, (p.source, k));
      assert (p.source, k) in RowPairs(proposals);
    }
    forall part | forall p :: p in proposals ==> RowRespected(part, p)
      ensures Together(roots, part)
    {
      forall pair: Pair | pair in RowPairs(proposals)
        ensures pair.0 in part <==> pair.1 in part
      {
        PairsMean(proposals, pair);
        var p :| p in proposals && pair.0 == p.source && pair.1 in p.row;
        assert RowRespected(part, p);
      }
      assert Saturated(part, RowPairs(proposals));
    }
  }

  lemma FinestBlocks(proposals: seq<Proposal>, roots: Parents)
    requires Finest(roots, BlockPairs(proposals))
    requires forall p :: p in proposals ==> p.source in roots
    ensures BlocksOf(proposals, roots)
  {
    forall p, k | p in proposals && (k in p.row || k in p.below)
      ensures k in roots && roots[k] == roots[p.source]
    {
      PairsMean(proposals, (p.source, k));
      assert (p.source, k) in BlockPairs(proposals);
    }
    forall part | forall p :: p in proposals ==> RowRespected(part, p) && BelowRespected(part, p)
      ensures Together(roots, part)
    {
      forall pair: Pair | pair in BlockPairs(proposals)
        ensures pair.0 in part <==> pair.1 in part
      {
        PairsMean(proposals, pair);
        var p :| p in proposals && pair.0 == p.source && (pair.1 in p.row || pair.1 in p.below);
        assert RowRespected(part, p) && BelowRespected(part, p);
      }
      assert Saturated(part, BlockPairs(proposals));
    }
  }

  lemma ValidRooted(main: Main, parent: Parents, roots: Parents)
    requires Ends(parent, roots) && forall k :: k in roots <==> k in main
    ensures Rooted(main, roots)
  {
    forall k | k in main
      ensures RootKnown(main, roots, k)
    {
      assert Chained(parent, roots, k);
    }
  }

  method JoinAll(group: Grouping, source: Name, keys: seq<Name>)
    requires group.Valid() && source in group.roots && forall k :: k in keys ==> k in group.roots
    modifies group
    ensures group.Valid() && group.roots.Keys == old(group.roots.Keys)
    ensures group.joined == old(group.joined) + PairsFrom(source, keys)
  {
    for i := 0 to |keys|
      invariant group.Valid() && group.roots.Keys == old(group.roots.Keys)
      invariant group.joined == old(group.joined) + PairsFrom(source, keys[..i])
    {
      assert keys[i] in keys;
      group.Join(source, keys[i]);
      assert keys[..i + 1] == keys[..i] + [keys[i]];
    }
    assert keys[..|keys|] == keys;
  }

  method GroupProposals(main: Main, proposals: seq<Proposal>) returns (rows: Grouping, blocks: Grouping)
    requires Drawn(main, proposals)
    ensures fresh(rows) && fresh(blocks) && rows != blocks && rows.Valid() && blocks.Valid()
    ensures rows.roots.Keys == main.Keys && blocks.roots.Keys == main.Keys
    ensures Grouped(main, proposals, rows.roots, blocks.roots)
  {
    rows := new Grouping(main.Keys);
    blocks := new Grouping(main.Keys);
    for i := 0 to |proposals|
      invariant fresh(rows) && fresh(blocks) && rows != blocks && rows.Valid() && blocks.Valid()
      invariant rows.roots.Keys == main.Keys && blocks.roots.Keys == main.Keys
      invariant rows.joined == RowPairs(proposals[..i]) && blocks.joined == BlockPairs(proposals[..i])
    {
      var p := proposals[i];
      assert p in proposals;
      JoinAll(rows, p.source, p.row);
      JoinAll(blocks, p.source, p.row);
      JoinAll(blocks, p.source, p.below);
      assert proposals[..i + 1][..i] == proposals[..i];
    }
    assert proposals[..|proposals|] == proposals;
    FinestRows(proposals, rows.roots);
    FinestBlocks(proposals, blocks.roots);
    ValidRooted(main, rows.parent, rows.roots);
    ValidRooted(main, blocks.parent, blocks.roots);
  }

  // ---------------------------------------------------------------------------
  // Collisions within a row
  // ---------------------------------------------------------------------------

  function RightEnd(main: Main, k: Name): real
    requires k in main
  {
    main[k].x + main[k].width / 2.0
  }

  ghost predicate LeftToRight(main: Main, ordered: seq<Name>) {
    && (forall i :: 0 <= i < |ordered| ==> ordered[i] in main)
    && (forall i, j :: 0 <= i < j < |ordered| && ordered[i] in main && ordered[j] in main ==> Before(main, ordered[i], ordered[j]))
  }

  /** The leftmost of some objects. */
  method Leftmost(main: Main, keys: set<Name>) returns (first: Name)
    requires keys != {} && keys <= main.Keys
    ensures first in keys && forall k :: k in keys && k != first ==> Before(main, first, k)
  {
    first := Pick(keys);
    var todo := keys - {first};
    while todo != {}
      invariant todo <= keys && first in keys && first !in todo
      invariant forall k :: k in keys && k !in todo && k != first ==> Before(main, first, k)
      decreases todo
    {
      var k := Pick(todo);
      if Before(main, k, first) {
        first := k;
      } else {
        assert k != first && k == Name(k.rank) && first == Name(first.rank);
      }
      todo := todo - {k};
    }
  }

  method SortRow(main: Main, keys: set<Name>) returns (ordered: seq<Name>)
    requires keys <= main.Keys
    ensures LeftToRight(main, ordered) && forall k :: k in ordered <==> k in keys
  {
    ordered := [];
    var todo := keys;
    while todo != {}
      invariant todo <= keys && LeftToRight(main, ordered)
      invariant forall k :: k in ordered <==> k in keys && k !in todo
      invariant forall i, k :: 0 <= i < |ordered| && k in todo && ordered[i] in main ==> Before(main, ordered[i], k)
      decreases todo
    {
      var first := Leftmost(main, todo);
      ordered := ordered + [first];
      todo := todo - {first};
    }
  }

  ghost predicate CrowdedIn(main: Main, keys: set<Name>, k: Name) {
    k in main && exists j :: j in keys && j in main && Crowds(main, j, k)
  }

  /** Sweeps a row from the left, remembering the farthest right end so far. */
  method Crowded(main: Main, keys: set<Name>) returns (bad: set<Name>)
    requires keys <= main.Keys
    ensures forall k :: k in bad <==> k in keys && CrowdedIn(main, keys, k)
  {
    var ordered := SortRow(main, keys);
    bad := {};
    var farthest := 0.0;
    for i := 0 to |ordered|
      invariant forall k :: k in bad <==> k in ordered[..i] && CrowdedIn(main, keys, k)
      invariant forall j :: 0 <= j < i && ordered[j] in main ==> RightEnd(main, ordered[j]) <= farthest
      invariant i > 0 ==> exists j :: 0 <= j < i && ordered[j] in main && RightEnd(main, ordered[j]) == farthest
    {
      var k := ordered[i];
      assert k in ordered;
      assert ordered[..i + 1] == ordered[..i] + [k];
      var crowded := i > 0 && main[k].x - main[k].width / 2.0 < farthest + SPACING - EPSILON;
      CrowdedBySweep(main, keys, ordered, i, farthest, crowded);
      if crowded {
        bad := bad + {k};
      }
      farthest := if i == 0 || RightEnd(main, k) > farthest then RightEnd(main, k) else farthest;
    }
    assert ordered[..|ordered|] == ordered;
  }

  lemma CrowdedBySweep(main: Main, keys: set<Name>, ordered: seq<Name>, i: nat, farthest: real, crowded: bool)
    requires LeftToRight(main, ordered) && (forall k :: k in ordered <==> k in keys) && i < |ordered|
    requires forall j :: 0 <= j < i && ordered[j] in main ==> RightEnd(main, ordered[j]) <= farthest
    requires i > 0 ==> exists j :: 0 <= j < i && ordered[j] in main && RightEnd(main, ordered[j]) == farthest
    requires ordered[i] in main
    requires crowded <==> i > 0 && main[ordered[i]].x - main[ordered[i]].width / 2.0 < farthest + SPACING - EPSILON
    ensures crowded <==> CrowdedIn(main, keys, ordered[i])
  {
    var k := ordered[i];
    if crowded {
      var j :| 0 <= j < i && ordered[j] in main && RightEnd(main, ordered[j]) == farthest;
      assert ordered[j] in keys && Crowds(main, ordered[j], k);
    }
    if CrowdedIn(main, keys, k) {
      var a :| a in keys && a in main && Crowds(main, a, k);
      var j :| 0 <= j < |ordered| && ordered[j] == a;
      assert j < i;
    }
  }

  // ---------------------------------------------------------------------------
  // The order of the rows
  // ---------------------------------------------------------------------------

  /** The links recorded from the first proposals, and of the next one from its first objects below. */
  ghost predicate Recorded(proposals: seq<Proposal>, i: nat, j: nat, rows: Parents, s: Name, t: Name) {
    exists a: nat, b: nat :: (a < i || (a == i && b < j)) && LinkAt(proposals, a, b, rows, s, t)
  }

  ghost predicate LinkAt(proposals: seq<Proposal>, a: nat, b: nat, rows: Parents, s: Name, t: Name) {
    && a < |proposals| && b < |proposals[a].below|
    && proposals[a].source in rows && proposals[a].below[b] in rows
    && rows[proposals[a].source] == s && rows[proposals[a].below[b]] == t
  }

  ghost predicate Linking(vertices: set<Name>, proposals: seq<Proposal>, i: nat, j: nat, rows: Parents, following: Links, previous: Links) {
    && Mirrored(vertices, following, previous)
    && (forall s, t :: t in previous ==> (s in previous[t] <==> Recorded(proposals, i, j, rows, s, t)))
  }

  lemma LinkStep(vertices: set<Name>, proposals: seq<Proposal>, i: nat, j: nat, rows: Parents, following: Links, previous: Links, s: Name, t: Name)
    requires Linking(vertices, proposals, i, j, rows, following, previous) && s in vertices && t in vertices
    requires LinkAt(proposals, i, j, rows, s, t)
    ensures Linking(vertices, proposals, i, j + 1, rows, following[s := following[s] + {t}], previous[t := previous[t] + {s}])
  {
    var more := previous[t := previous[t] + {s}];
    forall u, v | v in more
      ensures u in more[v] <==> Recorded(proposals, i, j + 1, rows, u, v)
    {
      if Recorded(proposals, i, j + 1, rows, u, v) {
        var a: nat, b: nat :| (a < i || (a == i && b < j + 1)) && LinkAt(proposals, a, b, rows, u, v);
        if a == i && b == j {
          assert u == s && v == t;
        } else {
          assert Recorded(proposals, i, j, rows, u, v);
        }
      }
      if Recorded(proposals, i, j, rows, u, v) {
        var a: nat, b: nat :| (a < i || (a == i && b < j)) && LinkAt(proposals, a, b, rows, u, v);
        assert Recorded(proposals, i, j + 1, rows, u, v);
      }
    }
  }

  lemma LinkRow(vertices: set<Name>, proposals: seq<Proposal>, i: nat, rows: Parents, following: Links, previous: Links)
    requires i < |proposals| && Linking(vertices, proposals, i, |proposals[i].below|, rows, following, previous)
    ensures Linking(vertices, proposals, i + 1, 0, rows, following, previous)
  {
    forall s, t
      ensures Recorded(proposals, i, |proposals[i].below|, rows, s, t) <==> Recorded(proposals, i + 1, 0, rows, s, t)
    {
      if Recorded(proposals, i, |proposals[i].below|, rows, s, t) {
        var a: nat, b: nat :| (a < i || (a == i && b < |proposals[i].below|)) && LinkAt(proposals, a, b, rows, s, t);
        assert a < i + 1;
      }
      if Recorded(proposals, i + 1, 0, rows, s, t) {
        var a: nat, b: nat :| a < i + 1 && LinkAt(proposals, a, b, rows, s, t);
        assert a < i || (a == i && b < |proposals[i].below|);
      }
    }
  }

  lemma LinksDone(main: Main, vertices: set<Name>, proposals: seq<Proposal>, rows: Parents, following: Links, previous: Links)
    requires Linking(vertices, proposals, |proposals|, 0, rows, following, previous)
    requires forall t :: t in vertices <==> t in main && t in rows && rows[t] == t
    ensures OrderOf(main, proposals, rows, previous)
  {
    forall s, t
      ensures Recorded(proposals, |proposals|, 0, rows, s, t) <==> Precedes(proposals, rows, s, t)
    {
      if Recorded(proposals, |proposals|, 0, rows, s, t) {
        var a: nat, b: nat :| a < |proposals| && LinkAt(proposals, a, b, rows, s, t);
        assert proposals[a] in proposals && proposals[a].below[b] in proposals[a].below;
      }
      if Precedes(proposals, rows, s, t) {
        var p, k :| p in proposals && k in p.below && p.source in rows && k in rows && rows[p.source] == s && rows[k] == t;
        var a :| 0 <= a < |proposals| && proposals[a] == p;
        var b :| 0 <= b < |p.below| && p.below[b] == k;
        assert LinkAt(proposals, a, b, rows, s, t);
      }
    }
  }

  method OrderRows(main: Main, proposals: seq<Proposal>, rows: Grouping, vertices: set<Name>) returns (following: Links, previous: Links)
    requires rows.Valid() && Drawn(main, proposals) && rows.roots.Keys == main.Keys && Rooted(main, rows.roots)
    requires forall t :: t in vertices <==> t in main && t in rows.roots && rows.roots[t] == t
    modifies rows`parent
    ensures rows.Valid()
    ensures Mirrored(vertices, following, previous) && OrderOf(main, proposals, rows.roots, previous)
  {
    following := map t | t in vertices :: {};
    previous := map t | t in vertices :: {};
    for i := 0 to |proposals|
      invariant rows.Valid() && Linking(vertices, proposals, i, 0, rows.roots, following, previous)
    {
      assert proposals[i] in proposals;
      var source := rows.Find(proposals[i].source);
      for j := 0 to |proposals[i].below|
        invariant rows.Valid() && Linking(vertices, proposals, i, j, rows.roots, following, previous)
      {
        assert proposals[i].below[j] in proposals[i].below;
        var target := rows.Find(proposals[i].below[j]);
        LinkStep(vertices, proposals, i, j, rows.roots, following, previous, source, target);
        following := following[source := following[source] + {target}];
        previous := previous[target := previous[target] + {source}];
      }
      LinkRow(vertices, proposals, i, rows.roots, following, previous);
    }
    LinksDone(main, vertices, proposals, rows.roots, following, previous);
  }

  // ---------------------------------------------------------------------------
  // Rejection
  // ---------------------------------------------------------------------------

  /** Blocks holding a colliding object of some row. */
  method CollidingBlocks(main: Main, members: map<Name, set<Name>>, blocks: Grouping, ghost rows: Parents) returns (bad: set<Name>)
    requires blocks.Valid() && blocks.roots.Keys == main.Keys && rows.Keys == main.Keys
    requires forall r :: r in members <==> exists k :: k in rows && rows[k] == r
    requires forall r :: r in members ==> members[r] == Members(rows, r)
    modifies blocks`parent
    ensures blocks.Valid()
    ensures forall b :: b in bad <==> exists k :: k in main && k in blocks.roots && blocks.roots[k] == b && Collides(main, rows, k)
  {
    bad := {};
    var todo := members.Keys;
    while todo != {}
      invariant blocks.Valid() && forall r :: r in todo ==> r in members
      invariant forall b :: b in bad <==>
        exists k :: k in main && k in rows && rows[k] !in todo && k in blocks.roots && blocks.roots[k] == b && Collides(main, rows, k)
      decreases todo
    {
      var r := Pick(todo);
      var crowded := Crowded(main, members[r]);
      CrowdedCollide(main, rows, r);
      var found := FindAll(blocks, crowded);
      BlocksStep(main, rows, blocks.roots, todo, r, bad, crowded, found);
      bad := bad + found;
      todo := todo - {r};
    }
  }

  method FindAll(group: Grouping, keys: set<Name>) returns (roots: set<Name>)
    requires group.Valid() && forall k :: k in keys ==> k in group.roots
    modifies group`parent
    ensures group.Valid()
    ensures forall r :: r in roots <==> exists k :: k in keys && k in group.roots && group.roots[k] == r
  {
    roots := {};
    var todo := keys;
    while todo != {}
      invariant group.Valid() && todo <= keys
      invariant forall r :: r in roots <==> exists k :: k in keys && k !in todo && k in group.roots && group.roots[k] == r
      decreases todo
    {
      var k := Pick(todo);
      var r := group.Find(k);
      roots := roots + {r};
      todo := todo - {k};
    }
  }

  lemma CrowdedCollide(main: Main, rows: Parents, r: Name)
    ensures forall k :: k in Members(rows, r) ==> (CrowdedIn(main, Members(rows, r), k) <==> Collides(main, rows, k))
  {
    forall k | k in Members(rows, r)
      ensures CrowdedIn(main, Members(rows, r), k) <==> Collides(main, rows, k)
    {
      if CrowdedIn(main, Members(rows, r), k) {
        var j :| j in Members(rows, r) && j in main && Crowds(main, j, k);
      }
      if Collides(main, rows, k) {
        var j :| j in main && j in rows && rows[j] == rows[k] && Crowds(main, j, k);
        assert j in Members(rows, r);
      }
    }
  }

  lemma BlocksStep(main: Main, rows: Parents, blocks: Parents, todo: set<Name>, r: Name, bad: set<Name>, crowded: set<Name>, found: set<Name>)
    requires rows.Keys == main.Keys && blocks.Keys == main.Keys && r in todo
    requires forall k :: k in crowded <==> k in Members(rows, r) && Collides(main, rows, k)
    requires forall b :: b in found <==> exists k :: k in crowded && k in blocks && blocks[k] == b
    requires forall b :: b in bad <==>
      exists k :: k in main && k in rows && rows[k] !in todo && k in blocks && blocks[k] == b && Collides(main, rows, k)
    ensures forall b :: b in bad + found <==>
      exists k :: k in main && k in rows && rows[k] !in todo - {r} && k in blocks && blocks[k] == b && Collides(main, rows, k)
  {
    forall b
      ensures b in bad + found <==>
        exists k :: k in main && k in rows && rows[k] !in todo - {r} && k in blocks && blocks[k] == b && Collides(main, rows, k)
    {
      if b in found {
        var k :| k in crowded && k in blocks && blocks[k] == b;
        assert k in main && rows[k] !in todo - {r};
      }
      if k :| k in main && k in rows && rows[k] !in todo - {r} && k in blocks && blocks[k] == b && Collides(main, rows, k) {
        if rows[k] == r {
          assert k in crowded;
        }
      }
    }
  }
}
