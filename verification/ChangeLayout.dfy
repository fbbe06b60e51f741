/** Applying the change rows to a drawing: reject, pack, then move components apart. */
module ChangeLayout {
  import opened Sets
  import opened Groups
  import opened RowOrder
  import opened HorizontalFloor
  import opened ChangeRows
  import opened ChangeConstraints
  import opened RowPacking

  // ---------------------------------------------------------------------------
  // The shape of a row
  // ---------------------------------------------------------------------------

  function LeftEnd(main: Main, k: Name): real
    requires k in main
  {
    main[k].x - main[k].width / 2.0
  }

  function Top(main: Main, k: Name): real
    requires k in main
  {
    main[k].y - main[k].height / 2.0
  }

  function Foot(main: Main, k: Name): real
    requires k in main
  {
    main[k].y + main[k].height / 2.0
  }

  ghost predicate Sized(main: Main) {
    forall k :: k in main ==> main[k].width >= 0.0 && main[k].height >= 0.0
  }

  /** The reserve of a row: the reach of its members and half the spacing on either side. */
  ghost predicate SpanOf(main: Main, keys: set<Name>, span: Span) {
    && (forall k :: k in keys && k in main ==> span.left <= LeftEnd(main, k) - SPACING / 2.0 && RightEnd(main, k) + SPACING / 2.0 <= span.right)
    && (exists k :: k in keys && k in main && span.left == LeftEnd(main, k) - SPACING / 2.0)
    && (exists k :: k in keys && k in main && span.right == RightEnd(main, k) + SPACING / 2.0)
  }

  ghost predicate HeightOf(main: Main, keys: set<Name>, height: real) {
    && (forall k :: k in keys && k in main ==> main[k].height <= height)
    && (exists k :: k in keys && k in main && main[k].height == height)
  }

  /** Transactions come first, then lesser columns, then lesser keys. */
  predicate AnchorBefore(main: Main, j: Name, k: Name)
    requires j in main && k in main
  {
    if main[j].transaction != main[k].transaction then main[j].transaction
    else main[j].column < main[k].column || (main[j].column == main[k].column && j.rank <= k.rank)
  }

  /** The member whose place the row wishes for. */
  ghost predicate Anchors(main: Main, keys: set<Name>, anchor: Name) {
    anchor in keys && anchor in main && forall k :: k in keys && k in main ==> AnchorBefore(main, anchor, k)
  }

  ghost predicate ShapeOf(main: Main, keys: set<Name>, row: Row) {
    && SpanOf(main, keys, row.span)
    && HeightOf(main, keys, row.height)
    && (exists anchor :: anchor in main && Anchors(main, keys, anchor) && row.desired == main[anchor].y)
  }

  method Shape(main: Main, keys: set<Name>) returns (row: Row)
    requires Sized(main) && keys != {} && forall k :: k in keys ==> k in main
    ensures ShapeOf(main, keys, row) && row.span.left < row.span.right
  {
    var first := Pick(keys);
    var anchor, left, right, height := first, LeftEnd(main, first), RightEnd(main, first), main[first].height;
    var todo := keys - {first};
    while todo != {}
      invariant todo <= keys && anchor in keys && anchor !in todo
      invariant forall k :: k in keys && k !in todo && k in main ==>
        AnchorBefore(main, anchor, k) && left <= LeftEnd(main, k) && RightEnd(main, k) <= right && main[k].height <= height
      invariant exists k :: k in keys && k in main && left == LeftEnd(main, k)
      invariant exists k :: k in keys && k in main && right == RightEnd(main, k)
      invariant exists k :: k in keys && k in main && main[k].height == height
      decreases todo
    {
      var k := Pick(todo);
      if !AnchorBefore(main, anchor, k) {
        anchor := k;
      }
      left := if LeftEnd(main, k) < left then LeftEnd(main, k) else left;
      right := if RightEnd(main, k) > right then RightEnd(main, k) else right;
      height := if main[k].height > height then main[k].height else height;
      todo := todo - {k};
    }
    row := Row(main[anchor].y, height, Span(left - SPACING / 2.0, right + SPACING / 2.0));
    assert LeftEnd(main, first) <= RightEnd(main, first);
    var a :| a in keys && a in main && left == LeftEnd(main, a);
    var b :| b in keys && b in main && right == RightEnd(main, b);
    assert row.span.left == LeftEnd(main, a) - SPACING / 2.0 && row.span.right == RightEnd(main, b) + SPACING / 2.0;
    assert Anchors(main, keys, anchor);
  }

  method Shapes(main: Main, members: map<Name, set<Name>>, roots: set<Name>) returns (rows: Rows)
    requires Sized(main) && forall r :: r in roots ==> r in members && members[r] != {}
    requires forall r, k :: r in roots && r in members && k in members[r] ==> k in main
    ensures rows.Keys == roots && Spanned(rows)
    ensures forall r :: r in rows && r in members ==> ShapeOf(main, members[r], rows[r])
  {
    rows := map[];
    var todo := roots;
    while todo != {}
      invariant todo <= roots && Spanned(rows)
      invariant forall r :: r in rows <==> r in roots && r !in todo
      invariant forall r :: r in rows && r in members ==> ShapeOf(main, members[r], rows[r])
      decreases todo
    {
      var r := Pick(todo);
      var row := Shape(main, members[r]);
      rows := rows[r := row];
      todo := todo - {r};
    }
  }

  // ---------------------------------------------------------------------------
  // The constraint pass
  // ---------------------------------------------------------------------------

  ghost predicate MembersOf(rows: Parents, members: map<Name, set<Name>>) {
    && (forall r :: r in members <==> exists k :: k in rows && rows[k] == r)
    && (forall r :: r in members ==> members[r] == Members(rows, r))
  }

  /** What a pass leaves behind for the packer. */
  datatype Pass = Pass(members: map<Name, set<Name>>, following: Links, previous: Links, kept: seq<Proposal>)

  ghost predicate PassOf(main: Main, proposals: seq<Proposal>, rows: Parents, blocks: Parents, pass: Pass) {
    && Grouped(main, proposals, rows, blocks)
    && MembersOf(rows, pass.members)
    && Mirrored(pass.members.Keys, pass.following, pass.previous)
    && OrderOf(main, proposals, rows, pass.previous)
    && (forall p :: p in pass.kept <==>
          p in proposals && p.source in blocks && !Bad(main, rows, blocks, pass.previous, blocks[p.source]))
  }

  method Constraints(main: Main, proposals: seq<Proposal>)
      returns (pass: Pass, ghost rows: Parents, ghost blocks: Parents, ghost done: set<Name>, ghost time: map<Name, nat>)
    requires Drawn(main, proposals)
    ensures PassOf(main, proposals, rows, blocks, pass)
    ensures Drained(pass.previous, done, time) && forall u :: u in pass.previous && !Trapped(pass.previous, u) ==> u in done
  {
    var rowGroups, blockGroups := GroupProposals(main, proposals);
    rows, blocks := rowGroups.roots, blockGroups.roots;
    var members := rowGroups.Collect();
    RootsAreMembers(main, rows, members);
    var following, previous := OrderRows(main, proposals, rowGroups, members.Keys);
    var colliding := CollidingBlocks(main, members, blockGroups, rows);
    var drained;
    drained, time := Drain(members.Keys, following, previous);
    done := drained;
    MembersKnown(main, rows, members);
    var waiting := FindAll(blockGroups, members.Keys - drained);
    BadBlocks(main, rows, blocks, members, previous, drained, colliding, waiting);
    var kept := KeepGood(main, proposals, blockGroups, colliding + waiting);
    pass := Pass(members, following, previous, kept);
  }

  lemma RootsAreMembers(main: Main, rows: Parents, members: map<Name, set<Name>>)
    requires Rooted(main, rows) && MembersOf(rows, members)
    ensures forall t :: t in members <==> t in main && t in rows && rows[t] == t
  {
    forall t
      ensures t in members <==> t in main && t in rows && rows[t] == t
    {
      if t in members {
        var k :| k in rows && rows[k] == t;
        assert RootKnown(main, rows, k);
      }
    }
  }

  lemma MembersKnown(main: Main, rows: Parents, members: map<Name, set<Name>>)
    requires Rooted(main, rows) && MembersOf(rows, members)
    ensures forall t :: t in members ==> t in main && members[t] != {} && forall k :: k in members[t] ==> k in main
  {
    forall t | t in members
      ensures t in main && members[t] != {} && forall k :: k in members[t] ==> k in main
    {
      var k :| k in rows && rows[k] == t;
      assert RootKnown(main, rows, k);
      assert k in Members(rows, t);
    }
  }

  lemma BadBlocks(main: Main, rows: Parents, blocks: Parents, members: map<Name, set<Name>>, previous: Links, drained: set<Name>,
      colliding: set<Name>, waiting: set<Name>)
    requires forall t :: t in previous <==> t in members
    requires forall t :: t in members ==> (t !in drained <==> Trapped(previous, t))
    requires forall b :: b in colliding <==> exists k :: k in main && k in blocks && blocks[k] == b && Collides(main, rows, k)
    requires forall b :: b in waiting <==> exists t :: t in members.Keys - drained && t in blocks && blocks[t] == b
    ensures forall b :: b in colliding + waiting <==> Bad(main, rows, blocks, previous, b)
  {
    forall b
      ensures b in waiting <==> exists t :: t in previous && t in blocks && blocks[t] == b && Trapped(previous, t)
    {
      if b in waiting {
        var t :| t in members.Keys - drained && t in blocks && blocks[t] == b;
      }
      if t :| t in previous && t in blocks && blocks[t] == b && Trapped(previous, t) {
        assert t in members.Keys - drained;
      }
    }
  }

  /** The proposals whose block is not bad, in their order. */
  method KeepGood(main: Main, proposals: seq<Proposal>, blocks: Grouping, bad: set<Name>) returns (kept: seq<Proposal>)
    requires blocks.Valid() && blocks.roots.Keys == main.Keys && Drawn(main, proposals)
    modifies blocks`parent
    ensures blocks.Valid()
    ensures forall p :: p in kept <==> p in proposals && p.source in blocks.roots && blocks.roots[p.source] !in bad
  {
    kept := [];
    for i := 0 to |proposals|
      invariant blocks.Valid()
      invariant forall p :: p in kept <==> p in proposals[..i] && p.source in blocks.roots && blocks.roots[p.source] !in bad
    {
      assert proposals[i] in proposals;
      assert proposals[..i + 1] == proposals[..i] + [proposals[i]];
      var block := blocks.Find(proposals[i].source);
      if block !in bad {
        kept := kept + [proposals[i]];
      }
    }
    assert proposals[..|proposals|] == proposals;
  }
}
