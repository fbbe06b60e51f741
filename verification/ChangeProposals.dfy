/** Turning designated change outputs into proposals, and applying them to a graph. */
module ChangeProposals {
  import opened Measures
  import opened Options
  import opened Sets
  import opened Groups
  import opened HorizontalFloor
  import opened ChangeRows
  import opened ChangeConstraints
  import opened ChangeLayout
  import opened ChangePlacement
  import opened ChangeDrawing

  datatype EdgeId = EdgeId(id: nat)
  datatype Outpoint = Outpoint(id: nat)

  /** `output` marks an edge from a transaction to what it pays. */
  datatype Link = Link(id: EdgeId, source: Name, target: Name, outpoint: Option<Outpoint>, output: bool)

  datatype Entry = Entry(edge: EdgeId, outpoint: Outpoint)

  // ---------------------------------------------------------------------------
  // What the edges say
  // ---------------------------------------------------------------------------

  ghost predicate DistinctEdges(links: seq<Link>) {
    forall l, m :: l in links && m in links && l.id == m.id ==> l == m
  }

  function Touching(links: seq<Link>, k: Name): set<Option<Outpoint>> {
    set l | l in links && (l.source == k || l.target == k) :: l.outpoint
  }

  /** The edges by which transactions spend one output of an address. */
  function Spenders(main: Main, links: seq<Link>, address: Name, outpoint: Outpoint): set<Link> {
    set l | l in links && l.source == address && l.outpoint == Some(outpoint) && l.target in main && main[l.target].transaction
  }

  function OtherOutputs(main: Main, links: seq<Link>, edge: Link): set<Name> {
    set l | l in links && l.output && l.source == edge.source && l.id != edge.id && l.target in main :: l.target
  }

  predicate ForwardSpace(main: Main, a: Name, b: Name)
    requires a in main && b in main
  {
    LeftEnd(main, b) >= RightEnd(main, a) + SPACING - EPSILON
  }

  /** The designated edge can be given a row. */
  ghost predicate Usable(main: Main, links: seq<Link>, entry: Entry, edge: Link) {
    && edge in links && edge.id == entry.edge && edge.source in main && edge.target in main
    && Touching(links, edge.target) == {Some(entry.outpoint)}
    && ForwardSpace(main, edge.source, edge.target)
  }

  /** The proposal an edge makes: itself and its only spender in one row, the transaction's other outputs below. */
  ghost predicate ProposalOf(main: Main, links: seq<Link>, entry: Entry, edge: Link, p: Proposal) {
    && Usable(main, links, entry, edge) && p.source == edge.source
    && (forall k :: k in p.below <==> k in OtherOutputs(main, links, edge))
    && |p.row| >= 2 && p.row[0] == edge.source && p.row[1] == edge.target
    && (|p.row| == 2 || exists l :: Continues(main, links, entry, edge, l) && p.row == [edge.source, edge.target, l.target])
    && (|p.row| == 2 ==> forall l :: !Continues(main, links, entry, edge, l))
  }

  /** The one edge that spends the designated output, with room for its transaction. */
  ghost predicate Continues(main: Main, links: seq<Link>, entry: Entry, edge: Link, l: Link)
  {
    Spenders(main, links, edge.target, entry.outpoint) == {l} && edge.target in main && l.target in main && ForwardSpace(main, edge.target, l.target)
  }

  // ---------------------------------------------------------------------------
  // Components
  // ---------------------------------------------------------------------------

  ghost predicate Connected(home: Parents, main: Main, links: seq<Link>) {
    forall l :: l in links && l.source in main && l.target in main ==>
      l.source in home && l.target in home && home[l.source] == home[l.target]
  }

  function LinkPairs(main: Main, links: seq<Link>): set<Pair> {
    set l | l in links && l.source in main && l.target in main :: (l.source, l.target)
  }

  /** The finest groups that keep the ends of every edge together. */
  method Components(main: Main, links: seq<Link>) returns (components: Grouping)
    ensures fresh(components) && components.Valid() && components.roots.Keys == main.Keys
    ensures components.joined == LinkPairs(main, links)
    ensures Connected(components.roots, main, links)
  {
    components := new Grouping(main.Keys);
    for i := 0 to |links|
      invariant fresh(components) && components.Valid() && components.roots.Keys == main.Keys
      invariant components.joined == LinkPairs(main, links[..i])
    {
      var l := links[i];
      PairsNext(main, links, i);
      if l.source in main && l.target in main {
        components.Join(l.source, l.target);
      }
    }
    assert links[..|links|] == links;
    JoinedConnected(components.roots, main, links, components.joined);
  }

  lemma PairsNext(main: Main, links: seq<Link>, i: nat)
    requires i < |links|
    ensures LinkPairs(main, links[..i + 1]) ==
      LinkPairs(main, links[..i]) + (if links[i].source in main && links[i].target in main then {(links[i].source, links[i].target)} else {})
  {
    assert forall l :: l in links[..i + 1] <==> l in links[..i] || l == links[i];
  }

  lemma JoinedConnected(home: Parents, main: Main, links: seq<Link>, pairs: set<Pair>)
    requires Finest(home, pairs) && pairs == LinkPairs(main, links)
    ensures Connected(home, main, links)
  {
    forall l | l in links && l.source in main && l.target in main
      ensures l.source in home && l.target in home && home[l.source] == home[l.target]
    {
      var pair := (l.source, l.target);
      assert pair in pairs;
    }
  }

  /** A proposal follows edges, so it stays within one component. */
  lemma ProposalIsLocal(main: Main, links: seq<Link>, home: Parents, entry: Entry, edge: Link, p: Proposal)
    requires ProposalOf(main, links, entry, edge, p) && Connected(home, main, links)
    ensures p.source in main && (forall k :: k in p.row ==> k in main) && (forall k :: k in p.below ==> k in main)
    ensures RowTogether(home, p) && BelowTogether(home, p)
  {
    forall k | k in p.row
      ensures k in main && k in home && home[k] == home[edge.source]
    {
      if k != edge.source && k != edge.target {
        var l :| Continues(main, links, entry, edge, l) && p.row == [edge.source, edge.target, l.target];
        assert l in Spenders(main, links, edge.target, entry.outpoint);
      }
    }
    forall k | k in p.below
      ensures k in main && k in home && home[k] == home[edge.source]
    {
      var l :| l in links && l.output && l.source == edge.source && l.id != edge.id && l.target in main && l.target == k;
    }
  }

  // ---------------------------------------------------------------------------
  // Proposing
  // ---------------------------------------------------------------------------

  method FindEdge(links: seq<Link>, id: EdgeId) returns (edge: Option<Link>)
    ensures edge.Some? <==> exists l :: l in links && l.id == id
    ensures edge.Some? ==> edge.value in links && edge.value.id == id
  {
    for i := 0 to |links|
      invariant forall l :: l in links[..i] ==> l.id != id
    {
      if links[i].id == id {
        return Some(links[i]);
      }
      assert links[..i + 1] == links[..i] + [links[i]];
    }
    assert links[..|links|] == links;
    return None;
  }

  method ListOf(keys: set<Name>) returns (list: seq<Name>)
    ensures forall k :: k in list <==> k in keys
  {
    list := [];
    var todo := keys;
    while todo != {}
      invariant todo <= keys && forall k :: k in list <==> k in keys && k !in todo
      decreases todo
    {
      var k := Pick(todo);
      list := list + [k];
      todo := todo - {k};
    }
  }

  /** One designation: a proposal, or none when its edge cannot be given a row. */
  method Propose(main: Main, links: seq<Link>, entry: Entry) returns (proposal: Option<Proposal>)
    requires DistinctEdges(links)
    ensures proposal.Some? <==> exists edge :: Usable(main, links, entry, edge)
    ensures proposal.Some? ==> exists edge :: ProposalOf(main, links, entry, edge, proposal.value)
  {
    var found := FindEdge(links, entry.edge);
    if found.None? || found.value.source !in main || found.value.target !in main {
      return None;
    }
    var edge := found.value;
    if Touching(links, edge.target) != {Some(entry.outpoint)} {
      return None;
    }
    if LeftEnd(main, edge.target) < RightEnd(main, edge.source) + SPACING - EPSILON {
      return None;
    }
    assert Usable(main, links, entry, edge);
    var row := RowFor(main, links, entry, edge);
    var below := ListOf(OtherOutputs(main, links, edge));
    proposal := Some(Proposal(edge.source, row, below));
    assert ProposalOf(main, links, entry, edge, proposal.value);
  }

  method RowFor(main: Main, links: seq<Link>, entry: Entry, edge: Link) returns (row: seq<Name>)
    requires Usable(main, links, entry, edge)
    ensures |row| >= 2 && row[0] == edge.source && row[1] == edge.target
    ensures |row| == 2 || exists l :: Continues(main, links, entry, edge, l) && row == [edge.source, edge.target, l.target]
    ensures |row| == 2 ==> forall l :: !Continues(main, links, entry, edge, l)
  {
    row := [edge.source, edge.target];
    var spenders := Spenders(main, links, edge.target, entry.outpoint);
    if |spenders| == 1 {
      var l := Pick(spenders);
      OnlyOne(spenders, l);
      if LeftEnd(main, l.target) >= RightEnd(main, edge.target) + SPACING - EPSILON {
        row := row + [l.target];
        assert Continues(main, links, entry, edge, l);
      }
    }
  }

  lemma OnlyOne<T>(s: set<T>, x: T)
    requires |s| == 1 && x in s
    ensures s == {x}
  {
    assert |s - {x}| == 0;
  }

  ghost predicate FromEntries(main: Main, links: seq<Link>, entries: seq<Entry>, proposals: seq<Proposal>) {
    && (forall p :: p in proposals ==> Designated(main, links, entries, p))
    && (forall entry, edge :: entry in entries && Usable(main, links, entry, edge) ==> Proposed(main, links, entry, edge, proposals))
  }

  ghost predicate Designated(main: Main, links: seq<Link>, entries: seq<Entry>, p: Proposal) {
    exists entry, edge :: entry in entries && ProposalOf(main, links, entry, edge, p)
  }

  ghost predicate Proposed(main: Main, links: seq<Link>, entry: Entry, edge: Link, proposals: seq<Proposal>) {
    exists p :: p in proposals && ProposalOf(main, links, entry, edge, p)
  }

  /** The proposals of all designations that can be given a row. */
  method ProposeAll(main: Main, links: seq<Link>, entries: seq<Entry>) returns (proposals: seq<Proposal>)
    requires DistinctEdges(links)
    ensures FromEntries(main, links, entries, proposals)
  {
    proposals := [];
    for i := 0 to |entries|
      invariant FromEntries(main, links, entries[..i], proposals)
    {
      var proposal := Propose(main, links, entries[i]);
      NextEntry(main, links, entries, i, proposals, proposal);
      proposals := if proposal.Some? then proposals + [proposal.value] else proposals;
    }
    assert entries[..|entries|] == entries;
  }

  /** A usable edge is the only one for its designation. */
  lemma SameEdge(main: Main, links: seq<Link>, entry: Entry, a: Link, b: Link)
    requires DistinctEdges(links)
    requires Usable(main, links, entry, a) && Usable(main, links, entry, b)
    ensures a == b
  {
  }

  lemma StillDesignated(main: Main, links: seq<Link>, entries: seq<Entry>, more: seq<Entry>, p: Proposal)
    requires Designated(main, links, entries, p) && forall entry :: entry in entries ==> entry in more
    ensures Designated(main, links, more, p)
  {
    var entry, edge :| entry in entries && ProposalOf(main, links, entry, edge, p);
    assert entry in more;
  }

  lemma StillProposed(main: Main, links: seq<Link>, entry: Entry, edge: Link, proposals: seq<Proposal>, more: seq<Proposal>)
    requires Proposed(main, links, entry, edge, proposals) && forall p :: p in proposals ==> p in more
    ensures Proposed(main, links, entry, edge, more)
  {
    var p :| p in proposals && ProposalOf(main, links, entry, edge, p);
    assert p in more;
  }

  lemma NowProposed(main: Main, links: seq<Link>, entries: seq<Entry>, entry: Entry, own: Link, proposals: seq<Proposal>, p: Proposal)
    requires ProposalOf(main, links, entry, own, p) && entry in entries && p in proposals && DistinctEdges(links)
    ensures Designated(main, links, entries, p)
    ensures forall edge :: Usable(main, links, entry, edge) ==> Proposed(main, links, entry, edge, proposals)
  {
    forall edge | Usable(main, links, entry, edge)
      ensures Proposed(main, links, entry, edge, proposals)
    {
      SameEdge(main, links, entry, edge, own);
    }
  }

  lemma GrowEntries(main: Main, links: seq<Link>, entries: seq<Entry>, entry: Entry, proposals: seq<Proposal>, more: seq<Proposal>)
    requires FromEntries(main, links, entries, proposals) && forall p :: p in proposals ==> p in more
    requires forall p :: p in more && p !in proposals ==> Designated(main, links, entries + [entry], p)
    requires forall edge :: Usable(main, links, entry, edge) ==> Proposed(main, links, entry, edge, more)
    ensures FromEntries(main, links, entries + [entry], more)
  {
    forall p | p in more
      ensures Designated(main, links, entries + [entry], p)
    {
      if p in proposals {
        StillDesignated(main, links, entries, entries + [entry], p);
      }
    }
    forall e, edge | e in entries + [entry] && Usable(main, links, e, edge)
      ensures Proposed(main, links, e, edge, more)
    {
      if e != entry {
        StillProposed(main, links, e, edge, proposals, more);
      }
    }
  }

  lemma NextEntry(main: Main, links: seq<Link>, entries: seq<Entry>, i: nat, proposals: seq<Proposal>, proposal: Option<Proposal>)
    requires DistinctEdges(links) && i < |entries| && FromEntries(main, links, entries[..i], proposals)
    requires proposal.Some? <==> exists edge :: Usable(main, links, entries[i], edge)
    requires proposal.Some? ==> exists edge :: ProposalOf(main, links, entries[i], edge, proposal.value)
    ensures FromEntries(main, links, entries[..i + 1], if proposal.Some? then proposals + [proposal.value] else proposals)
  {
    assert entries[..i + 1] == entries[..i] + [entries[i]];
    var after := if proposal.Some? then proposals + [proposal.value] else proposals;
    if proposal.Some? {
      var own :| ProposalOf(main, links, entries[i], own, proposal.value);
      NowProposed(main, links, entries[..i] + [entries[i]], entries[i], own, after, proposal.value);
    }
    GrowEntries(main, links, entries[..i], entries[i], proposals, after);
  }

  lemma DesignatedIsLocal(main: Main, links: seq<Link>, home: Parents, entries: seq<Entry>, p: Proposal)
    requires Designated(main, links, entries, p) && Connected(home, main, links)
    ensures p.source in main && (forall k :: k in p.row ==> k in main) && (forall k :: k in p.below ==> k in main)
    ensures RowTogether(home, p) && BelowTogether(home, p)
  {
    var entry, edge :| entry in entries && ProposalOf(main, links, entry, edge, p);
    ProposalIsLocal(main, links, home, entry, edge, p);
  }

  lemma AllLocal(main: Main, links: seq<Link>, home: Parents, entries: seq<Entry>, proposals: seq<Proposal>)
    requires FromEntries(main, links, entries, proposals) && Connected(home, main, links)
    ensures Drawn(main, proposals) && Local(home, proposals)
  {
    forall p | p in proposals
      ensures p.source in main && (forall k :: k in p.row ==> k in main) && (forall k :: k in p.below ==> k in main)
      ensures RowTogether(home, p) && BelowTogether(home, p)
    {
      DesignatedIsLocal(main, links, home, entries, p);
    }
  }

  /** What a change layout ends with: the proposals made, the components, the grounds of the judgement and the layout. */
  datatype Account = Account(proposals: seq<Proposal>, home: Parents, grounds: Grounds, layout: Layout)

  /** Exactly the good proposals are kept, and the drawing keeps its promises to them; with none kept it is the original. */
  ghost predicate Accounted(main: Main, kept: seq<Proposal>, after: Main, account: Account) {
    && KeptBy(main, account.proposals, kept, account.grounds.rows, account.grounds.blocks, account.grounds.previous)
    && (kept == [] ==> after == main)
    && (kept != [] ==>
          LaidOut(main, kept, account.home, account.layout, after) && Finished(main, kept, account.layout.rows, account.home, after))
  }

  /** Applies proposals that stay within the given components. */
  method ApplyProposals(main: Main, proposals: seq<Proposal>, components: Grouping) returns (kept: seq<Proposal>, after: Main, ghost account: Account)
    requires Drawn(main, proposals) && Sized(main)
    requires components.Valid() && components.roots.Keys == main.Keys && Local(components.roots, proposals)
    modifies components`parent
    ensures Accounted(main, kept, after, account) && account.proposals == proposals && account.home == components.roots
  {
    ghost var grounds, layout;
    kept, after, grounds, layout := Apply(main, proposals, components);
    account := Account(proposals, components.roots, grounds, layout);
  }

  lemma FinestOfComponents(components: Grouping, pairs: set<Pair>)
    requires components.Valid() && components.joined == pairs
    ensures Finest(components.roots, pairs)
  {
  }

  /** Over the finest components of the edges, the drawing honours all that was kept. */
  ghost predicate WellDrawn(main: Main, links: seq<Link>, kept: seq<Proposal>, after: Main) {
    exists rows: Parents, home: Parents :: home.Keys == main.Keys && Finest(home, LinkPairs(main, links)) && Finished(main, kept, rows, home, after)
  }

  /** Applies designated change outputs to the objects of a graph other than fees. */
  method ApplyChangeLayout(main: Main, links: seq<Link>, entries: seq<Entry>)
      returns (kept: seq<Proposal>, after: Main, ghost account: Account)
    requires Sized(main) && DistinctEdges(links)
    ensures FromEntries(main, links, entries, account.proposals)
    ensures account.home.Keys == main.Keys && Finest(account.home, LinkPairs(main, links))
    ensures Accounted(main, kept, after, account)
    ensures if kept == [] then after == main else WellDrawn(main, links, kept, after)
  {
    var components := Components(main, links);
    var proposals := ProposeAll(main, links, entries);
    AllLocal(main, links, components.roots, entries, proposals);
    FinestOfComponents(components, LinkPairs(main, links));
    kept, after, account := ApplyProposals(main, proposals, components);
  }
}
