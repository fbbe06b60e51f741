/** Carrying out the kept change rows: pack each affected component, then move components apart. */
module ChangePlacement {
  import opened Sets
  import opened Groups
  import opened RowOrder
  import opened ChangeRows
  import opened RowPacking
  import opened ChangeLayout

  // ---------------------------------------------------------------------------
  // Components
  // ---------------------------------------------------------------------------

  /** Proposals place objects of one component only: they follow edges, which `components` joins. */
  ghost predicate Local(home: Parents, proposals: seq<Proposal>) {
    forall p :: p in proposals ==> RowTogether(home, p) && BelowTogether(home, p)
  }

  /** A row stays within one component. */
  lemma RowsAreLocal(kept: seq<Proposal>, rows: Parents, home: Parents, x: Name, y: Name)
    requires RowsOf(kept, rows) && Local(home, kept) && x in rows && y in rows && rows[x] == rows[y] && x in home
    ensures y in home && home[x] == home[y]
  {
    Coarser(kept, rows, home, x, y);
  }

  /** The order of the rows stays within one component. */
  lemma OrderIsLocal(main: Main, kept: seq<Proposal>, rows: Parents, home: Parents, previous: Links, s: Name, t: Name)
    requires Rooted(main, rows) && RowsOf(kept, rows) && Local(home, kept) && Drawn(main, kept) && home.Keys == main.Keys
    requires OrderOf(main, kept, rows, previous) && t in previous && s in previous[t]
    ensures s in home && t in home && home[s] == home[t]
  {
    var p, k :| p in kept && k in p.below && p.source in rows && k in rows && rows[p.source] == s && rows[k] == t;
    assert RootKnown(main, rows, p.source) && RootKnown(main, rows, k);
    RowsAreLocal(kept, rows, home, p.source, s);
    RowsAreLocal(kept, rows, home, k, t);
    assert RowTogether(home, p) && BelowTogether(home, p);
  }

  /** What the second pass found, and that it found nothing to reject. */
  ghost predicate Settles(main: Main, kept: seq<Proposal>, rows: Parents, home: Parents, pass: Pass) {
    && Rooted(main, rows) && RowsOf(kept, rows) && MembersOf(rows, pass.members)
    && Mirrored(pass.members.Keys, pass.following, pass.previous)
    && OrderOf(main, kept, rows, pass.previous)
    && (forall t :: !Trapped(pass.previous, t))
    && Drawn(main, kept) && Local(home, kept) && home.Keys == main.Keys
  }

  // ---------------------------------------------------------------------------
  // Packing one component
  // ---------------------------------------------------------------------------

  datatype Pack = Pack(rows: Rows, placed: map<Name, real>, order: seq<Name>)

  function RootsIn(members: map<Name, set<Name>>, home: Parents, c: Name): set<Name> {
    set r | r in members && r in home && home[r] == c
  }

  function Restrict(links: Links, roots: set<Name>): Links {
    map r | r in links && r in roots :: links[r]
  }

  /** All rows of the component are shaped and placed, spaced, in order, and no lower than they must be. */
  ghost predicate PackOf(main: Main, pass: Pass, home: Parents, c: Name, pack: Pack) {
    && (forall r :: r in pack.rows <==> r in pass.members && r in home && home[r] == c)
    && (forall r :: r in pack.placed <==> r in pack.rows)
    && (forall r :: r in pack.rows && r in pass.members ==> ShapeOf(main, pass.members[r], pack.rows[r]))
    && Packed(pack.rows, Restrict(pass.previous, pack.rows.Keys), pack.placed)
    && Settled(pack.rows, Restrict(pass.previous, pack.rows.Keys), pack.placed)
    && FellInOrder(pack.rows, Restrict(pass.previous, pack.rows.Keys), pack.placed, pack.order)
  }

  ghost predicate LinksLocal(home: Parents, previous: Links) {
    forall s, t :: t in previous && s in previous[t] ==> s in home && t in home && home[s] == home[t]
  }

  lemma LinksAreLocal(main: Main, kept: seq<Proposal>, rows: Parents, home: Parents, pass: Pass)
    requires Settles(main, kept, rows, home, pass)
    ensures LinksLocal(home, pass.previous)
  {
    forall s, t | t in pass.previous && s in pass.previous[t]
      ensures s in home && t in home && home[s] == home[t]
    {
      OrderIsLocal(main, kept, rows, home, pass.previous, s, t);
    }
  }

  lemma RestrictMirrored(vertices: set<Name>, following: Links, previous: Links, roots: set<Name>)
    requires Mirrored(vertices, following, previous) && roots <= vertices
    requires forall s, t :: t in previous && s in previous[t] ==> (s in roots <==> t in roots)
    ensures Mirrored(roots, Restrict(following, roots), Restrict(previous, roots))
  {
    var ahead, behind := Restrict(following, roots), Restrict(previous, roots);
    forall s, t | t in roots && s in behind[t]
      ensures s in roots && t in ahead[s]
    {
      assert s in previous[t];
    }
    forall s, t | s in roots && t in ahead[s]
      ensures t in roots && s in behind[t]
    {
      assert s in previous[t];
    }
  }

  lemma RootsInMirrored(members: map<Name, set<Name>>, home: Parents, following: Links, previous: Links, c: Name)
    requires Mirrored(members.Keys, following, previous) && LinksLocal(home, previous)
    ensures var roots := RootsIn(members, home, c);
      Mirrored(roots, Restrict(following, roots), Restrict(previous, roots))
  {
    RestrictMirrored(members.Keys, following, previous, RootsIn(members, home, c));
  }

  lemma WaitsAnyway(previous: Links, roots: set<Name>, stuck: set<Name>)
    requires SelfWaiting(Restrict(previous, roots), stuck)
    ensures SelfWaiting(previous, stuck)
  {
    forall u | u in stuck
      ensures Waits(previous, stuck, u)
    {
      assert Waits(Restrict(previous, roots), stuck, u);
    }
  }

  lemma RestrictFree(previous: Links, roots: set<Name>, t: Name)
    requires forall u :: !Trapped(previous, u)
    ensures !Trapped(Restrict(previous, roots), t)
  {
    assert !Trapped(previous, t);
    if stuck: set<Name> :| t in stuck && SelfWaiting(Restrict(previous, roots), stuck) {
      WaitsAnyway(previous, roots, stuck);
    }
  }

  method PackComponent(main: Main, ghost kept: seq<Proposal>, ghost rows: Parents, home: Parents, pass: Pass, c: Name) returns (pack: Pack)
    requires Settles(main, kept, rows, home, pass) && Sized(main)
    ensures PackOf(main, pass, home, c, pack)
  {
    var roots := RootsIn(pass.members, home, c);
    MembersKnown(main, rows, pass.members);
    var shapes := Shapes(main, pass.members, roots);
    LinksAreLocal(main, kept, rows, home, pass);
    RootsInMirrored(pass.members, home, pass.following, pass.previous, c);
    var placed, order := PlaceRows(shapes, Restrict(pass.following, roots), Restrict(pass.previous, roots));
    forall r | r in roots
      ensures r in placed
    {
      RestrictFree(pass.previous, roots, r);
    }
    pack := Pack(shapes, placed, order);
  }

  // ---------------------------------------------------------------------------
  // Writing the rows into the drawing
  // ---------------------------------------------------------------------------

  type Packs = map<Name, Pack>

  /** Where the packing puts an object; objects outside the affected components keep their place. */
  function PackedY(main: Main, rows: Parents, home: Parents, packs: Packs, k: Name): real
    requires k in main
  {
    if k in home && home[k] in packs && k in rows && rows[k] in packs[home[k]].placed
    then packs[home[k]].placed[rows[k]] else main[k].y
  }

  ghost predicate PackedDrawing(main: Main, rows: Parents, home: Parents, packs: Packs, after: Main) {
    && (forall k :: k in after <==> k in main)
    && (forall k :: k in main && k in after ==> after[k] == main[k].(y := PackedY(main, rows, home, packs, k)))
  }

  method SetRow(main: Main, keys: set<Name>, y: real) returns (after: Main)
    requires forall k :: k in keys ==> k in main
    ensures forall k :: k in after <==> k in main
    ensures forall k :: k in main && k in after ==> after[k] == if k in keys then main[k].(y := y) else main[k]
  {
    after := main;
    var todo := keys;
    while todo != {}
      invariant todo <= keys && forall k :: k in after <==> k in main
      invariant forall k :: k in main && k in after ==> after[k] == if k in keys && k !in todo then main[k].(y := y) else main[k]
      decreases todo
    {
      var k := Pick(todo);
      after := after[k := after[k].(y := y)];
      todo := todo - {k};
    }
  }

  method SetRows(main: Main, members: map<Name, set<Name>>, ghost rows: Parents, placed: map<Name, real>) returns (after: Main)
    requires Rooted(main, rows) && MembersOf(rows, members) && forall r :: r in placed ==> r in members
    ensures forall k :: k in after <==> k in main
    ensures forall k :: k in main && k in after && k in rows ==>
      after[k] == if rows[k] in placed then main[k].(y := placed[rows[k]]) else main[k]
  {
    after := main;
    var todo := placed.Keys;
    while todo != {}
      invariant todo <= placed.Keys && forall k :: k in after <==> k in main
      invariant forall k :: k in main && k in after && k in rows ==>
        after[k] == if rows[k] in placed && rows[k] !in todo then main[k].(y := placed[rows[k]]) else main[k]
      decreases todo
    {
      var r := Pick(todo);
      after := SetRow(after, members[r], placed[r]);
      todo := todo - {r};
    }
  }

  ghost predicate PacksOf(main: Main, pass: Pass, home: Parents, packs: Packs) {
    forall c :: c in packs ==> PackOf(main, pass, home, c, packs[c])
  }

  ghost predicate AtHome(rows: Parents, home: Parents, k: Name) {
    k in rows && k in home && rows[k] in home && home[rows[k]] == home[k]
  }

  lemma RowAtHome(main: Main, kept: seq<Proposal>, rows: Parents, home: Parents, pass: Pass, k: Name)
    requires Settles(main, kept, rows, home, pass) && k in main
    ensures AtHome(rows, home, k) && rows[k] in pass.members
  {
    assert RootKnown(main, rows, k);
    RowsAreLocal(kept, rows, home, k, rows[k]);
  }

  ghost predicate Household(main: Main, rows: Parents, home: Parents, members: map<Name, set<Name>>) {
    forall k {:trigger AtHome(rows, home, k)} :: k in main ==> AtHome(rows, home, k) && rows[k] in members
  }

  lemma AllAtHome(main: Main, kept: seq<Proposal>, rows: Parents, home: Parents, pass: Pass)
    requires Settles(main, kept, rows, home, pass)
    ensures Household(main, rows, home, pass.members)
  {
    forall k | k in main
      ensures AtHome(rows, home, k) && rows[k] in pass.members
    {
      RowAtHome(main, kept, rows, home, pass, k);
    }
  }

  ghost predicate PlacedAre(members: map<Name, set<Name>>, home: Parents, c: Name, placed: map<Name, real>) {
    forall r :: r in placed <==> r in members && r in home && home[r] == c
  }

  lemma DrawingStep(main: Main, rows: Parents, home: Parents, members: map<Name, set<Name>>, packs: Packs, c: Name, pack: Pack,
      before: Main, after: Main)
    requires Household(main, rows, home, members) && PackedDrawing(main, rows, home, packs, before) && c !in packs
    requires PlacedAre(members, home, c, pack.placed)
    requires forall k :: k in after <==> k in before
    requires forall k :: k in before && k in after && k in rows ==>
      after[k] == if rows[k] in pack.placed then before[k].(y := pack.placed[rows[k]]) else before[k]
    ensures PackedDrawing(main, rows, home, packs[c := pack], after)
  {
    forall k | k in main && k in after
      ensures after[k] == main[k].(y := PackedY(main, rows, home, packs[c := pack], k))
    {
      assert AtHome(rows, home, k);
    }
  }

  lemma PackPlaces(main: Main, pass: Pass, home: Parents, c: Name, pack: Pack)
    requires PackOf(main, pass, home, c, pack)
    ensures PlacedAre(pass.members, home, c, pack.placed)
  {
  }

  method DrawPack(ghost main: Main, before: Main, ghost rows: Parents, ghost home: Parents, pass: Pass, ghost c: Name, pack: Pack) returns (after: Main)
    requires Rooted(main, rows) && MembersOf(rows, pass.members) && PackOf(main, pass, home, c, pack)
    requires forall k :: k in before <==> k in main
    ensures forall k :: k in after <==> k in before
    ensures forall k :: k in before && k in after && k in rows ==>
      after[k] == if rows[k] in pack.placed then before[k].(y := pack.placed[rows[k]]) else before[k]
  {
    SameRooted(main, before, rows);
    after := SetRows(before, pass.members, rows, pack.placed);
  }

  lemma SameRooted(main: Main, before: Main, rows: Parents)
    requires Rooted(main, rows) && forall k :: k in before <==> k in main
    ensures Rooted(before, rows)
  {
    forall k | k in before
      ensures RootKnown(before, rows, k)
    {
      assert RootKnown(main, rows, k);
    }
  }

  /** Packs one more component and writes its rows into the drawing. */
  method PackNext(main: Main, ghost kept: seq<Proposal>, ghost rows: Parents, home: Parents, pass: Pass, ghost packs: Packs,
      before: Main, c: Name) returns (pack: Pack, after: Main)
    requires Settles(main, kept, rows, home, pass) && Sized(main)
    requires PackedDrawing(main, rows, home, packs, before) && c !in packs
    ensures PackOf(main, pass, home, c, pack) && PackedDrawing(main, rows, home, packs[c := pack], after)
  {
    pack := PackComponent(main, kept, rows, home, pass, c);
    after := DrawPack(main, before, rows, home, pass, c, pack);
    AllAtHome(main, kept, rows, home, pass);
    PackPlaces(main, pass, home, c, pack);
    DrawingStep(main, rows, home, pass.members, packs, c, pack, before, after);
  }

  /** Packs the rows of every component that a kept proposal touches. */
  method PackRows(main: Main, kept: seq<Proposal>, ghost rows: Parents, home: Parents, pass: Pass) returns (packs: Packs, after: Main)
    requires Settles(main, kept, rows, home, pass) && Sized(main)
    ensures forall c :: c in packs <==> exists p :: p in kept && p.source in home && home[p.source] == c
    ensures PacksOf(main, pass, home, packs) && PackedDrawing(main, rows, home, packs, after)
  {
    var affected := set p | p in kept && p.source in home :: home[p.source];
    packs, after := map[], main;
    var todo := affected;
    while todo != {}
      invariant todo <= affected && forall c :: c in packs <==> c in affected && c !in todo
      invariant PacksOf(main, pass, home, packs) && PackedDrawing(main, rows, home, packs, after)
      decreases todo
    {
      var c := Pick(todo);
      var pack;
      pack, after := PackNext(main, kept, rows, home, pass, packs, after, c);
      packs := packs[c := pack];
      todo := todo - {c};
    }
  }
}
