/** Which change rows a layout can honour.

Proposals join objects into rows, and put other objects below them. A
connected block of proposals is rejected whole when two objects of one row
collide or when its rows wait for each other. One such pass is proved to be
enough: whatever is kept is free of both. */
module ChangeRows {
  import opened Groups
  import opened Measures
  import opened RowOrder

  const SPACING := 80.0

  datatype Node = Node(x: real, y: real, width: real, height: real, column: int, transaction: bool)

  type Main = map<Name, Node>

  datatype Proposal = Proposal(source: Name, row: seq<Name>, below: seq<Name>)

  ghost predicate Drawn(main: Main, proposals: seq<Proposal>) {
    forall p :: p in proposals ==>
      p.source in main && (forall k :: k in p.row ==> k in main) && (forall k :: k in p.below ==> k in main)
  }

  // ---------------------------------------------------------------------------
  // Rows, blocks, and what is wrong with them
  // ---------------------------------------------------------------------------

  /** The proposal's row is within one group. */
  ghost predicate RowTogether(roots: Parents, p: Proposal) {
    p.source in roots && forall k :: k in p.row ==> k in roots && roots[k] == roots[p.source]
  }

  ghost predicate BelowTogether(roots: Parents, p: Proposal) {
    p.source in roots && forall k :: k in p.below ==> k in roots && roots[k] == roots[p.source]
  }

  /** `part` separates no proposal's row, and for blocks nothing below it either. */
  ghost predicate RowRespected(part: set<Name>, p: Proposal) {
    forall k :: k in p.row ==> (k in part <==> p.source in part)
  }

  ghost predicate BelowRespected(part: set<Name>, p: Proposal) {
    forall k :: k in p.below ==> (k in part <==> p.source in part)
  }

  /** The finest groups that keep every proposed row together. */
  ghost predicate RowsOf(proposals: seq<Proposal>, rows: Parents) {
    && (forall p :: p in proposals ==> RowTogether(rows, p))
    && (forall part :: (forall p :: p in proposals ==> RowRespected(part, p)) ==> Together(rows, part))
  }

  /** The finest groups that keep every proposal together with all it places. */
  ghost predicate BlocksOf(proposals: seq<Proposal>, blocks: Parents) {
    && (forall p :: p in proposals ==> RowTogether(blocks, p) && BelowTogether(blocks, p))
    && (forall part :: (forall p :: p in proposals ==> RowRespected(part, p) && BelowRespected(part, p)) ==> Together(blocks, part))
  }

  /** Roots are keys of their own group. */
  ghost predicate RootKnown(main: Main, roots: Parents, k: Name) {
    k in roots && roots[k] in main && roots[k] in roots && roots[roots[k]] == roots[k]
  }

  ghost predicate Rooted(main: Main, roots: Parents) {
    && (forall k :: k in roots <==> k in main)
    && (forall k {:trigger RootKnown(main, roots, k)} :: k in main ==> RootKnown(main, roots, k))
  }

  /** The rows and blocks that a list of proposals makes. */
  ghost predicate Grouped(main: Main, proposals: seq<Proposal>, rows: Parents, blocks: Parents) {
    Rooted(main, rows) && Rooted(main, blocks) && RowsOf(proposals, rows) && BlocksOf(proposals, blocks)
  }

  predicate Before(main: Main, j: Name, k: Name)
    requires j in main && k in main
  {
    main[j].x < main[k].x || (main[j].x == main[k].x && j.rank < k.rank)
  }

  /** `k` starts too soon after an earlier object of its row. */
  ghost predicate Collides(main: Main, rows: Parents, k: Name) {
    k in main && k in rows && exists j :: j in main && j in rows && rows[j] == rows[k] && Crowds(main, j, k)
  }

  predicate Crowds(main: Main, j: Name, k: Name)
    requires j in main && k in main
  {
    Before(main, j, k) && main[k].x - main[k].width / 2.0 < main[j].x + main[j].width / 2.0 + SPACING - EPSILON
  }

  /** Row `s` must come before row `t`. */
  ghost predicate Precedes(proposals: seq<Proposal>, rows: Parents, s: Name, t: Name) {
    exists p, k :: p in proposals && k in p.below && p.source in rows && k in rows && rows[p.source] == s && rows[k] == t
  }

  ghost predicate OrderOf(main: Main, proposals: seq<Proposal>, rows: Parents, previous: Links) {
    && (forall t :: t in previous <==> t in main && t in rows && rows[t] == t)
    && (forall s, t :: t in previous ==> (s in previous[t] <==> Precedes(proposals, rows, s, t)))
  }

  /** A block is bad when one of its rows collides or waits for itself. */
  ghost predicate Bad(main: Main, rows: Parents, blocks: Parents, previous: Links, b: Name) {
    || (exists k :: k in main && k in blocks && blocks[k] == b && Collides(main, rows, k))
    || (exists t :: t in previous && t in blocks && blocks[t] == b && Trapped(previous, t))
  }

  // ---------------------------------------------------------------------------
  // One pass is enough
  // ---------------------------------------------------------------------------

  ghost predicate Among(kept: seq<Proposal>, proposals: seq<Proposal>) {
    forall p :: p in kept ==> p in proposals
  }

  /** Every kept proposal lies in a block that is not bad. */
  ghost predicate KeptGood(main: Main, kept: seq<Proposal>, rows: Parents, blocks: Parents, previous: Links) {
    forall p :: p in kept ==> p.source in blocks && !Bad(main, rows, blocks, previous, blocks[p.source])
  }

  /** Groups that keep the same rows together are at least as coarse. */
  lemma Coarser(kept: seq<Proposal>, rows2: Parents, coarse: Parents, x: Name, y: Name)
    requires forall part :: (forall p :: p in kept ==> RowRespected(part, p)) ==> Together(rows2, part)
    requires forall p :: p in kept ==> RowTogether(coarse, p)
    requires x in rows2 && y in rows2 && rows2[x] == rows2[y] && x in coarse
    ensures y in coarse && coarse[x] == coarse[y]
  {
    var part := set k | k in coarse && coarse[k] == coarse[x];
    forall p | p in kept
      ensures RowRespected(part, p)
    {
      assert RowTogether(coarse, p);
    }
    assert Together(rows2, part);
  }

  /** Objects of one kept row were in one row, and in one block, before. */
  lemma SameBefore(main: Main, proposals: seq<Proposal>, kept: seq<Proposal>, rows: Parents, blocks: Parents,
      rows2: Parents, x: Name, y: Name)
    requires Grouped(main, proposals, rows, blocks) && RowsOf(kept, rows2) && Among(kept, proposals)
    requires x in main && x in rows2 && y in rows2 && rows2[x] == rows2[y]
    ensures x in rows && y in rows && rows[x] == rows[y]
    ensures x in blocks && y in blocks && blocks[x] == blocks[y]
  {
    forall p | p in kept
      ensures RowTogether(rows, p) && RowTogether(blocks, p)
    {
      assert p in proposals;
    }
    Coarser(kept, rows2, rows, x, y);
    Coarser(kept, rows2, blocks, x, y);
  }

  lemma AloneInRow(kept: seq<Proposal>, rows2: Parents, x: Name, y: Name)
    requires RowsOf(kept, rows2) && forall q :: q in kept ==> RowRespected({x}, q)
    requires x in rows2 && y in rows2 && rows2[x] == rows2[y]
    ensures x == y
  {
    assert Together(rows2, {x});
  }

  /** Two different objects share a kept row only in the block of some kept proposal. */
  lemma SharedRowIsKept(proposals: seq<Proposal>, kept: seq<Proposal>, blocks: Parents, rows2: Parents, x: Name, y: Name)
      returns (p: Proposal)
    requires BlocksOf(proposals, blocks) && RowsOf(kept, rows2) && Among(kept, proposals)
    requires x in rows2 && y in rows2 && rows2[x] == rows2[y] && x != y && x in blocks
    ensures p in kept && p.source in blocks && blocks[p.source] == blocks[x]
  {
    if forall q :: q in kept ==> q.source in blocks && blocks[q.source] != blocks[x] {
      // No kept proposal then joins x to anything: {x} separates no kept row.
      forall q | q in kept
        ensures RowRespected({x}, q)
      {
        assert q in proposals;
        assert RowTogether(blocks, q);
      }
      AloneInRow(kept, rows2, x, y);
    }
    assert exists q :: q in kept && !(q.source in blocks && blocks[q.source] != blocks[x]);
    p :| p in kept && !(p.source in blocks && blocks[p.source] != blocks[x]);
    assert p in proposals;
    assert RowTogether(blocks, p);
  }

  /** Keeping only good blocks leaves no colliding row. */
  lemma NoneCollides(main: Main, proposals: seq<Proposal>, kept: seq<Proposal>, rows: Parents, blocks: Parents, previous: Links,
      rows2: Parents, k: Name)
    requires Grouped(main, proposals, rows, blocks) && Rooted(main, rows2) && RowsOf(kept, rows2)
    requires Among(kept, proposals) && Drawn(main, proposals)
    requires KeptGood(main, kept, rows, blocks, previous)
    ensures !Collides(main, rows2, k)
  {
    if Collides(main, rows2, k) {
      var j :| j in main && j in rows2 && rows2[j] == rows2[k] && Crowds(main, j, k);
      SameBefore(main, proposals, kept, rows, blocks, rows2, j, k);
      var p := SharedRowIsKept(proposals, kept, blocks, rows2, k, j);
      assert Collides(main, rows, k);
      assert Bad(main, rows, blocks, previous, blocks[p.source]);
    }
  }

  /** A row and its root lie in one block. */
  lemma RootSharesBlock(main: Main, proposals: seq<Proposal>, rows: Parents, blocks: Parents, x: Name)
    requires Grouped(main, proposals, rows, blocks) && x in main
    ensures x in rows && rows[x] in blocks && x in blocks && blocks[rows[x]] == blocks[x]
  {
    assert RootKnown(main, rows, x);
    SameBefore(main, proposals, proposals, rows, blocks, rows, x, rows[x]);
  }

  /** In the first order, the rows of a kept proposal are untrapped, and ordered the same way. */
  lemma FreeRow(main: Main, proposals: seq<Proposal>, kept: seq<Proposal>, rows: Parents, blocks: Parents, previous: Links,
      rows2: Parents, p: Proposal, k: Name, r: Name)
    requires Grouped(main, proposals, rows, blocks) && Rooted(main, rows2) && RowsOf(kept, rows2)
    requires Among(kept, proposals) && Drawn(main, proposals) && KeptGood(main, kept, rows, blocks, previous)
    requires OrderOf(main, proposals, rows, previous)
    requires p in kept && (k == p.source || k in p.below) && k in rows2 && rows2[k] == r
    ensures k in rows && r in rows && rows[r] == rows[k] && rows[r] in previous && !Trapped(previous, rows[r])
  {
    assert p in proposals && BelowTogether(blocks, p);
    assert RootKnown(main, rows2, k);
    SameBefore(main, proposals, kept, rows, blocks, rows2, k, r);
    RootSharesBlock(main, proposals, rows, blocks, r);
    assert RootKnown(main, rows, r);
    assert !Bad(main, rows, blocks, previous, blocks[p.source]);
  }

  /** Keeping only good blocks leaves no row waiting for itself: the first pass ranks the kept rows. */
  lemma {:induction false} NoneWaits(main: Main, proposals: seq<Proposal>, kept: seq<Proposal>, rows: Parents, blocks: Parents,
      previous: Links, done: set<Name>, time: map<Name, nat>, rows2: Parents, previous2: Links,
      stuck: set<Name>, t: Name, n: nat)
    requires Grouped(main, proposals, rows, blocks) && Rooted(main, rows2) && RowsOf(kept, rows2)
    requires Among(kept, proposals) && Drawn(main, proposals) && KeptGood(main, kept, rows, blocks, previous)
    requires OrderOf(main, proposals, rows, previous) && OrderOf(main, kept, rows2, previous2)
    requires Drained(previous, done, time) && forall u :: u in previous && !Trapped(previous, u) ==> u in done
    requires SelfWaiting(previous2, stuck) && t in stuck
    ensures t in rows && rows[t] in time && time[rows[t]] > n
    decreases n
  {
    assert Waits(previous2, stuck, t);
    var s :| s in previous2[t] && s in stuck;
    var p, k :| p in kept && k in p.below && p.source in rows2 && k in rows2 && rows2[p.source] == s && rows2[k] == t;
    FreeRow(main, proposals, kept, rows, blocks, previous, rows2, p, k, t);
    FreeRow(main, proposals, kept, rows, blocks, previous, rows2, p, p.source, s);
    assert p in proposals;
    assert Precedes(proposals, rows, rows[s], rows[t]);
    assert rows[s] in previous[rows[t]] && rows[t] in done;
    if n > 0 {
      NoneWaits(main, proposals, kept, rows, blocks, previous, done, time, rows2, previous2, stuck, s, n - 1);
    }
  }

  lemma NoneTrapped(main: Main, proposals: seq<Proposal>, kept: seq<Proposal>, rows: Parents, blocks: Parents,
      previous: Links, done: set<Name>, time: map<Name, nat>, rows2: Parents, previous2: Links, t: Name)
    requires Grouped(main, proposals, rows, blocks) && Rooted(main, rows2) && RowsOf(kept, rows2)
    requires Among(kept, proposals) && Drawn(main, proposals) && KeptGood(main, kept, rows, blocks, previous)
    requires OrderOf(main, proposals, rows, previous) && OrderOf(main, kept, rows2, previous2)
    requires Drained(previous, done, time) && forall u :: u in previous && !Trapped(previous, u) ==> u in done
    ensures !Trapped(previous2, t)
  {
    if stuck: set<Name> :| t in stuck && SelfWaiting(previous2, stuck) {
      NoneWaits(main, proposals, kept, rows, blocks, previous, done, time, rows2, previous2, stuck, t, 0);
      NoneWaits(main, proposals, kept, rows, blocks, previous, done, time, rows2, previous2, stuck, t, time[rows[t]]);
    }
  }

  /** One-shot rejection is complete: for any proposals left in good blocks, a second pass finds nothing bad. */
  lemma SecondPassRejectsNothing(main: Main, proposals: seq<Proposal>, kept: seq<Proposal>, rows: Parents, blocks: Parents,
      previous: Links, done: set<Name>, time: map<Name, nat>, rows2: Parents, previous2: Links)
    requires Grouped(main, proposals, rows, blocks) && Rooted(main, rows2) && RowsOf(kept, rows2)
    requires Among(kept, proposals) && Drawn(main, proposals) && KeptGood(main, kept, rows, blocks, previous)
    requires OrderOf(main, proposals, rows, previous) && OrderOf(main, kept, rows2, previous2)
    requires Drained(previous, done, time) && forall u :: u in previous && !Trapped(previous, u) ==> u in done
    ensures forall k :: !Collides(main, rows2, k)
    ensures forall t :: !Trapped(previous2, t)
  {
    forall k
      ensures !Collides(main, rows2, k)
    {
      NoneCollides(main, proposals, kept, rows, blocks, previous, rows2, k);
    }
    forall t
      ensures !Trapped(previous2, t)
    {
      NoneTrapped(main, proposals, kept, rows, blocks, previous, done, time, rows2, previous2, t);
    }
  }
}
