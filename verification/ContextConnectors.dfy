/** Drawing bundled connectors in place of the edges they stand for, and putting the edges back.

The drawn graph is a projection that keeps the graph it came from at hand. */
module ContextConnectors {
  import opened Options
  import opened ContextSummaries
  import opened Sequences

  /** `place` and `drawing` stand for everything a layout may change. */
  datatype Node = Node(core: NodeCore, place: nat)
  datatype Edge = Edge(core: Core, drawing: nat)

  datatype Connectors = Connectors(version: nat, summaries: seq<Edge>)

  datatype Graph = Graph(nodes: seq<Node>, edges: seq<Edge>, settings: Settings, connectors: Option<Connectors>, frames: Option<nat>)

  /** A graph as it is saved, or a projection of one made for drawing. */
  datatype Shown = Saved(graph: Graph) | Projection(graph: Graph, canonical: Graph)

  function NodeCores(nodes: seq<Node>): (cores: seq<NodeCore>)
    ensures |cores| == |nodes| && forall i :: 0 <= i < |nodes| ==> cores[i] == nodes[i].core
  {
    seq(|nodes|, i requires 0 <= i < |nodes| => nodes[i].core)
  }

  function Cores(edges: seq<Edge>): (cores: seq<Core>)
    ensures |cores| == |edges| && forall i :: 0 <= i < |edges| ==> cores[i] == edges[i].core
  {
    seq(|edges|, i requires 0 <= i < |edges| => edges[i].core)
  }

  function EvidenceOf(g: Graph): Evidence {
    Evidence(NodeCores(g.nodes), Cores(g.edges), g.settings)
  }

  /** The saved summaries, if the evidence itself yields the very same ones. */
  function Validated(g: Graph): Result<seq<Edge>> {
    if g.connectors.None? then Ok([])
    else
      match Derived(EvidenceOf(g), g.connectors.value.version)
      case Error => Error
      case Ok(expected) => if Cores(g.connectors.value.summaries) == expected then Ok(g.connectors.value.summaries) else Error
  }

  function MembersOf(s: Edge): seq<Id> {
    if s.core.details.summary.Some? then s.core.details.summary.value.members else []
  }

  function Hidden(summaries: seq<Edge>): set<Id> {
    set s, m | s in summaries && m in MembersOf(s) :: m
  }

  function Visible(edges: seq<Edge>, hidden: set<Id>): seq<Edge> {
    if edges == [] then []
    else
      var last := edges[|edges| - 1];
      Visible(edges[..|edges| - 1], hidden) + (if last.core.id in hidden then [] else [last])
  }

  /** What is drawn: the edges that no summary stands for, then the summaries. */
  function Drawn(edges: seq<Edge>, summaries: seq<Edge>): seq<Edge> {
    Visible(edges, Hidden(summaries)) + summaries
  }

  /** The projection for drawing; the activity frames are worked out elsewhere and given as `frames`. */
  function Display(shown: Shown, frames: nat): Result<Shown> {
    match shown
    case Projection(_, _) => Ok(shown)
    case Saved(g) =>
      match Validated(g)
      case Error => Error
      case Ok(summaries) =>
        if summaries == [] then Ok(shown)
        else Ok(Projection(g.(edges := Drawn(g.edges, summaries), frames := if g.frames.Some? then Some(frames) else None), g))
  }

  function Ids(edges: seq<Edge>): seq<Id> {
    EdgeIds(Cores(edges))
  }

  function EdgeOf(edges: seq<Edge>, id: Id): (edge: Option<Edge>)
    ensures edge.Some? ==> edge.value in edges && edge.value.core.id == id
  {
    if edges == [] then None
    else if edges[|edges| - 1].core.id == id then Some(edges[|edges| - 1])
    else EdgeOf(edges[..|edges| - 1], id)
  }

  function OwnOr(drawn: seq<Edge>, e: Edge): Edge {
    var found := EdgeOf(drawn, e.core.id);
    if found.Some? then found.value else e
  }

  /** The original edges in their order, as drawn where they were drawn. */
  function Rejoined(edges: seq<Edge>, drawn: seq<Edge>): (all: seq<Edge>)
    ensures |all| == |edges| && forall i :: 0 <= i < |edges| ==> all[i] == OwnOr(drawn, edges[i])
  {
    seq(|edges|, i requires 0 <= i < |edges| => OwnOr(drawn, edges[i]))
  }

  function IdsOfNodes(nodes: seq<Node>): set<Id> {
    set n | n in nodes :: n.core.id
  }

  function IdsOfEdges(edges: seq<Edge>): set<Id> {
    set e | e in edges :: e.core.id
  }

  function Between(edges: seq<Edge>, nodes: set<Id>): seq<Edge> {
    if edges == [] then []
    else
      var last := edges[|edges| - 1];
      Between(edges[..|edges| - 1], nodes) + (if last.core.source in nodes && last.core.target in nodes then [last] else [])
  }

  /** The evidence behind what is shown, with the objects that are shown. */
  function EvidenceGraph(shown: Shown): Graph {
    match shown
    case Saved(g) => g
    case Projection(g, canonical) => g.(edges := Rejoined(Between(canonical.edges, IdsOfNodes(g.nodes)), g.edges))
  }

  /** The fields that restoring compares; the rest of an edge is taken as it comes. */
  function Compared(c: Core): Core {
    c.(change := false, rest := 0)
  }

  predicate SameInventory(display: Graph, original: Graph, expected: seq<Edge>) {
    && Inventory(NodeCores(original.nodes), Cores(expected)) && Inventory(NodeCores(display.nodes), Cores(display.edges))
    && IdsOfNodes(display.nodes) == IdsOfNodes(original.nodes)
    && IdsOfEdges(display.edges) == IdsOfEdges(expected)
    && (forall e :: e in display.edges ==> EdgeOf(expected, e.core.id).Some? && Compared(e.core) == Compared(EdgeOf(expected, e.core.id).value.core))
  }

  function Rebuilt(display: Graph, original: Graph, originals: seq<Edge>): Graph
    requires original.connectors.Some?
  {
    display.(edges := Rejoined(original.edges, display.edges),
      connectors := Some(Connectors(original.connectors.value.version, Rejoined(originals, display.edges))),
      frames := if original.frames.Some? then original.frames else display.frames)
  }

  /** Puts the original edges back into a drawn graph, if it shows exactly what the original would show. */
  function Restore(display: Graph, original: Graph): Result<Graph> {
    match Validated(original)
    case Error => Error
    case Ok(originals) =>
      if originals == [] then Ok(display)
      else if !SameInventory(display, original, Drawn(original.edges, originals)) then Error
      else
        var result := Rebuilt(display, original, originals);
        if Validated(result).Error? then Error else Ok(result)
  }

  // ---------------------------------------------------------------------------
  // The projection partitions the evidence
  // ---------------------------------------------------------------------------

  lemma {:induction false} VisibleAre(edges: seq<Edge>, hidden: set<Id>)
    ensures forall e :: e in Visible(edges, hidden) <==> e in edges && e.core.id !in hidden
    decreases |edges|
  {
    if edges != [] {
      VisibleAre(edges[..|edges| - 1], hidden);
      assert forall e :: e in edges <==> e in edges[..|edges| - 1] || e == edges[|edges| - 1];
    }
  }

  /** Of two edges drawn, the one that came first still does. */
  lemma {:induction false} VisibleInOrder(edges: seq<Edge>, hidden: set<Id>, i: nat, j: nat) returns (p: nat, q: nat)
    requires i < j < |Visible(edges, hidden)|
    ensures p < q < |edges| && edges[p] == Visible(edges, hidden)[i] && edges[q] == Visible(edges, hidden)[j]
    decreases |edges|
  {
    var n := |edges| - 1;
    var front := Visible(edges[..n], hidden);
    if j < |front| {
      p, q := VisibleInOrder(edges[..n], hidden, i, j);
    } else {
      q := n;
      VisibleAre(edges[..n], hidden);
      assert front[i] in front;
      p :| 0 <= p < n && edges[..n][p] == front[i];
    }
  }

  lemma IdHasEdge(edges: seq<Edge>, id: Id)
    ensures id in Ids(edges) <==> exists e :: e in edges && e.core.id == id
  {
    if id in Ids(edges) {
      var i :| 0 <= i < |edges| && Ids(edges)[i] == id;
      assert edges[i] in edges && edges[i].core.id == id;
    }
    if e :| e in edges && e.core.id == id {
      var i :| 0 <= i < |edges| && edges[i] == e;
      assert Ids(edges)[i] == id;
    }
  }

  lemma {:induction false} VisibleDistinct(edges: seq<Edge>, hidden: set<Id>)
    requires Distinct(Ids(edges))
    ensures Distinct(Ids(Visible(edges, hidden)))
    decreases |edges|
  {
    if edges != [] {
      var n := |edges| - 1;
      assert Ids(edges[..n]) == Ids(edges)[..n];
      VisibleDistinct(edges[..n], hidden);
      VisibleAre(edges[..n], hidden);
      IdHasEdge(Visible(edges[..n], hidden), edges[n].core.id);
      IdHasEdge(edges[..n], edges[n].core.id);
      assert edges[n].core.id !in Ids(edges)[..n];
      if edges[n].core.id !in hidden {
        assert Ids(Visible(edges, hidden)) == Ids(Visible(edges[..n], hidden)) + [edges[n].core.id];
      }
    }
  }

  /** Valid summaries are those the evidence yields, and they are sound. */
  lemma ValidatedSound(g: Graph)
    requires Validated(g).Ok? && g.connectors.Some?
    ensures Validated(g).value == g.connectors.value.summaries
    ensures SummariesSound(EvidenceOf(g), Cores(Validated(g).value)) && Inventory(NodeCores(g.nodes), Cores(g.edges))
  {
    DerivedSound(EvidenceOf(g), g.connectors.value.version);
  }

  /** Edges with one identity are one edge. */
  lemma OneEdge(edges: seq<Edge>, a: Edge, b: Edge)
    requires Distinct(Ids(edges)) && a in edges && b in edges && a.core.id == b.core.id
    ensures a == b
  {
    var i :| 0 <= i < |edges| && edges[i] == a;
    var j :| 0 <= j < |edges| && edges[j] == b;
    assert Ids(edges)[i] == Ids(edges)[j];
  }

  /** A member of a summary is an edge between the summary's ends. */
  lemma MemberRuns(g: Graph, summaries: seq<Edge>, i: nat, e: Edge)
    requires SummariesSound(EvidenceOf(g), Cores(summaries)) && Distinct(Ids(g.edges))
    requires i < |summaries| && e in g.edges && e.core.id in MembersOf(summaries[i])
    ensures EndsOf(e.core) == EndsOf(summaries[i].core)
  {
    var ev := EvidenceOf(g);
    assert SummarySound(ev, Cores(summaries)[i]);
    assert RunsBetween(ev.edges, e.core.id, summaries[i].core.source, summaries[i].core.target);
    var c :| c in ev.edges && c.id == e.core.id && c.source == summaries[i].core.source && c.target == summaries[i].core.target;
    var j :| 0 <= j < |g.edges| && Cores(g.edges)[j] == c;
    OneEdge(g.edges, e, g.edges[j]);
  }

  /** The edge belongs to this summary and to no other, and runs as the summary does. */
  ghost predicate OnlyIn(summaries: seq<Edge>, e: Edge, i: nat) {
    && i < |summaries| && e.core.id in MembersOf(summaries[i]) && EndsOf(e.core) == EndsOf(summaries[i].core)
    && forall j :: 0 <= j < |summaries| && e.core.id in MembersOf(summaries[j]) ==> j == i
  }

  /** Every edge is drawn itself, or belongs to exactly one summary, which runs between the same objects. */
  lemma EachEdgeOnce(g: Graph, e: Edge)
    requires Validated(g).Ok? && g.connectors.Some? && e in g.edges
    ensures var summaries := Validated(g).value;
      if e.core.id in Hidden(summaries) then
        e !in Visible(g.edges, Hidden(summaries))
        && exists i: nat :: OnlyIn(summaries, e, i)
      else e in Visible(g.edges, Hidden(summaries))
  {
    ValidatedSound(g);
    var summaries := Validated(g).value;
    VisibleAre(g.edges, Hidden(summaries));
    if e.core.id in Hidden(summaries) {
      var s :| s in summaries && e.core.id in MembersOf(s);
      var i :| 0 <= i < |summaries| && summaries[i] == s;
      MemberRuns(g, summaries, i, e);
      forall j | 0 <= j < |summaries| && e.core.id in MembersOf(summaries[j])
        ensures j == i
      {
        MemberRuns(g, summaries, j, e);
        assert EndsOf(Cores(summaries)[i]) == EndsOf(Cores(summaries)[j]);
      }
      assert OnlyIn(summaries, e, i);
    }
  }

  ghost predicate Joined(edges: seq<Edge>, pair: Pair) {
    exists e :: e in edges && EndsOf(e.core) == pair
  }

  /** The projection connects exactly the objects that the evidence connects. */
  lemma SameConnections(g: Graph, pair: Pair)
    requires Validated(g).Ok? && g.connectors.Some?
    ensures Joined(Drawn(g.edges, Validated(g).value), pair) <==> Joined(g.edges, pair)
  {
    ValidatedSound(g);
    var summaries := Validated(g).value;
    var drawn := Drawn(g.edges, summaries);
    VisibleAre(g.edges, Hidden(summaries));
    if Joined(g.edges, pair) {
      var e :| e in g.edges && EndsOf(e.core) == pair;
      EachEdgeOnce(g, e);
      if e.core.id in Hidden(summaries) {
        var i: nat :| OnlyIn(summaries, e, i);
        assert summaries[i] in drawn;
      } else {
        assert e in drawn;
      }
    }
    if Joined(drawn, pair) {
      var e :| e in drawn && EndsOf(e.core) == pair;
      if e !in Visible(g.edges, Hidden(summaries)) {
        SummaryJoins(g, summaries, e);
      }
    }
  }

  lemma SummaryJoins(g: Graph, summaries: seq<Edge>, s: Edge)
    requires SummariesSound(EvidenceOf(g), Cores(summaries)) && s in summaries
    ensures Joined(g.edges, EndsOf(s.core))
  {
    var i :| 0 <= i < |summaries| && summaries[i] == s;
    assert SummarySound(EvidenceOf(g), Cores(summaries)[i]);
    var m := s.core.details.summary.value.members[0];
    assert RunsBetween(Cores(g.edges), m, s.core.source, s.core.target);
    var c :| c in Cores(g.edges) && c.id == m && c.source == s.core.source && c.target == s.core.target;
    var j :| 0 <= j < |g.edges| && Cores(g.edges)[j] == c;
    assert g.edges[j] in g.edges && EndsOf(g.edges[j].core) == EndsOf(s.core);
  }

  // ---------------------------------------------------------------------------
  // The counts add up
  // ---------------------------------------------------------------------------

  function TotalCount(summaries: seq<Edge>): nat {
    if summaries == [] then 0
    else
      var last := summaries[|summaries| - 1].core.details.summary;
      TotalCount(summaries[..|summaries| - 1]) + (if last.Some? then last.value.inputCount else 0)
  }

  predicate CountsMembers(s: Edge) {
    && s.core.details.summary.Some? && s.core.details.summary.value.inputCount == |MembersOf(s)| && Distinct(MembersOf(s))
  }

  /** Each summary counts its members, all different, and shares none with another. */
  ghost predicate MembersApart(summaries: seq<Edge>) {
    && (forall i :: 0 <= i < |summaries| ==> CountsMembers(summaries[i]))
    && (forall i, j, m :: 0 <= i < |summaries| && 0 <= j < |summaries| && m in MembersOf(summaries[i]) && m in MembersOf(summaries[j]) ==> i == j)
  }

  lemma SoundIsApart(g: Graph, summaries: seq<Edge>)
    requires SummariesSound(EvidenceOf(g), Cores(summaries)) && Distinct(Ids(g.edges))
    ensures MembersApart(summaries)
    ensures forall m :: m in Hidden(summaries) ==> m in IdsOfEdges(g.edges)
  {
    forall i | 0 <= i < |summaries|
      ensures SummarySound(EvidenceOf(g), summaries[i].core)
    {
      assert SummarySound(EvidenceOf(g), Cores(summaries)[i]);
    }
    forall i, m | 0 <= i < |summaries| && m in MembersOf(summaries[i])
      ensures exists e :: e in g.edges && e.core.id == m && EndsOf(e.core) == EndsOf(summaries[i].core)
    {
      MemberEdge(g, summaries, i, m);
    }
    forall i, j, m | 0 <= i < |summaries| && 0 <= j < |summaries| && m in MembersOf(summaries[i]) && m in MembersOf(summaries[j])
      ensures i == j
    {
      var e :| e in g.edges && e.core.id == m && EndsOf(e.core) == EndsOf(summaries[i].core);
      MemberRuns(g, summaries, j, e);
      assert EndsOf(Cores(summaries)[i]) == EndsOf(Cores(summaries)[j]);
    }
  }

  lemma MemberEdge(g: Graph, summaries: seq<Edge>, i: nat, m: Id)
    requires SummariesSound(EvidenceOf(g), Cores(summaries)) && i < |summaries| && m in MembersOf(summaries[i])
    ensures exists e :: e in g.edges && e.core.id == m && EndsOf(e.core) == EndsOf(summaries[i].core)
  {
    assert SummarySound(EvidenceOf(g), Cores(summaries)[i]);
    assert RunsBetween(Cores(g.edges), m, summaries[i].core.source, summaries[i].core.target);
    var c :| c in Cores(g.edges) && c.id == m && c.source == summaries[i].core.source && c.target == summaries[i].core.target;
    var j :| 0 <= j < |g.edges| && Cores(g.edges)[j] == c;
    assert g.edges[j] in g.edges;
  }

  lemma {:induction false} DistinctSize(s: seq<Id>)
    requires Distinct(s)
    ensures |set x | x in s| == |s|
    decreases |s|
  {
    if s != [] {
      var n := |s| - 1;
      DistinctSize(s[..n]);
      assert (set x | x in s) == (set x | x in s[..n]) + {s[n]};
      assert s[n] !in s[..n];
    }
  }

  function OwnSet(s: Edge): set<Id> {
    set m | m in MembersOf(s)
  }

  lemma HiddenNext(summaries: seq<Edge>)
    requires MembersApart(summaries) && summaries != []
    ensures var front, last := summaries[..|summaries| - 1], summaries[|summaries| - 1];
      MembersApart(front) && Hidden(summaries) == Hidden(front) + OwnSet(last) && Hidden(front) !! OwnSet(last)
  {
    var n := |summaries| - 1;
    var front, last := summaries[..n], summaries[n];
    forall m | m in Hidden(front)
      ensures m !in MembersOf(last)
    {
      var s :| s in front && m in MembersOf(s);
      var i :| 0 <= i < n && front[i] == s;
      assert m in MembersOf(summaries[i]);
    }
    forall m
      ensures m in Hidden(summaries) <==> m in Hidden(front) || m in OwnSet(last)
    {
      if m in Hidden(summaries) {
        var s :| s in summaries && m in MembersOf(s);
        assert s in front || s == last;
      }
      if m in Hidden(front) {
        var s :| s in front && m in MembersOf(s);
        assert s in summaries;
      }
      if m in OwnSet(last) {
        assert last in summaries;
      }
    }
  }

  lemma {:induction false} HiddenCount(summaries: seq<Edge>)
    requires MembersApart(summaries)
    ensures |Hidden(summaries)| == TotalCount(summaries)
    decreases |summaries|
  {
    if summaries == [] {
      assert Hidden(summaries) == {};
    } else {
      var n := |summaries| - 1;
      HiddenNext(summaries);
      HiddenCount(summaries[..n]);
      DistinctSize(MembersOf(summaries[n]));
      assert CountsMembers(summaries[n]);
    }
  }

  lemma IdsNext(edges: seq<Edge>)
    requires Distinct(Ids(edges)) && edges != []
    ensures var front, id := edges[..|edges| - 1], edges[|edges| - 1].core.id;
      Distinct(Ids(front)) && id !in IdsOfEdges(front) && IdsOfEdges(edges) == IdsOfEdges(front) + {id}
  {
    var n := |edges| - 1;
    var front, id := edges[..n], edges[n].core.id;
    assert Ids(front) == Ids(edges)[..n];
    IdHasEdge(front, id);
    assert forall e :: e in edges <==> e in front || e == edges[n];
  }

  lemma {:induction false} VisibleCount(edges: seq<Edge>, hidden: set<Id>)
    requires Distinct(Ids(edges))
    ensures |Visible(edges, hidden)| + |IdsOfEdges(edges) * hidden| == |edges|
    decreases |edges|
  {
    if edges == [] {
      assert IdsOfEdges(edges) == {};
    } else {
      var n := |edges| - 1;
      IdsNext(edges);
      VisibleCount(edges[..n], hidden);
      PartOfMore(IdsOfEdges(edges[..n]), edges[n].core.id, hidden);
    }
  }

  lemma PartOfMore(ids: set<Id>, id: Id, hidden: set<Id>)
    requires id !in ids
    ensures |(ids + {id}) * hidden| == |ids * hidden| + (if id in hidden then 1 else 0)
  {
    if id in hidden {
      assert (ids + {id}) * hidden == ids * hidden + {id};
    } else {
      assert (ids + {id}) * hidden == ids * hidden;
    }
  }

  /** The edges drawn themselves and the counts on the summaries add up to all edges. */
  lemma CountsAddUp(g: Graph)
    requires Validated(g).Ok? && g.connectors.Some?
    ensures |Visible(g.edges, Hidden(Validated(g).value))| + TotalCount(Validated(g).value) == |g.edges|
  {
    ValidatedSound(g);
    var summaries := Validated(g).value;
    SoundIsApart(g, summaries);
    HiddenCount(summaries);
    VisibleCount(g.edges, Hidden(summaries));
    assert IdsOfEdges(g.edges) * Hidden(summaries) == Hidden(summaries);
  }

  // ---------------------------------------------------------------------------
  // Identities in the projection
  // ---------------------------------------------------------------------------

  lemma SummaryIdsDistinct(g: Graph, summaries: seq<Edge>)
    requires SummariesSound(EvidenceOf(g), Cores(summaries))
    ensures Distinct(Ids(summaries))
    ensures forall id :: id in Ids(summaries) ==> id !in Ids(g.edges) && id !in NodeIds(NodeCores(g.nodes))
  {
    forall i | 0 <= i < |summaries|
      ensures SummarySound(EvidenceOf(g), summaries[i].core)
    {
      assert SummarySound(EvidenceOf(g), Cores(summaries)[i]);
    }
    forall i, j | 0 <= i < j < |summaries|
      ensures Ids(summaries)[i] != Ids(summaries)[j]
    {
      assert EndsOf(Cores(summaries)[i]) != EndsOf(Cores(summaries)[j]);
      DifferentNames(NodeCores(g.nodes), summaries[i].core, summaries[j].core);
    }
  }

  lemma DifferentNames(nodes: seq<NodeCore>, a: Core, b: Core)
    requires Named(nodes, a) && Named(nodes, b) && EndsOf(a) != EndsOf(b)
    ensures a.id != b.id
  {
    if a.id.Text? && b.id.Text? {
      var s: string :| a.id == Text(PREFIX + s) && a.source == Text(GROUP + s) && a.target == Text(TX + s);
      var t: string :| b.id == Text(PREFIX + t) && b.source == Text(GROUP + t) && b.target == Text(TX + t);
      assert (PREFIX + s)[|PREFIX|..] == s && (PREFIX + t)[|PREFIX|..] == t;
    }
  }

  /** In the projection all identities are different. */
  lemma DrawnDistinct(g: Graph, summaries: seq<Edge>)
    requires SummariesSound(EvidenceOf(g), Cores(summaries)) && Inventory(NodeCores(g.nodes), Cores(g.edges))
    ensures Inventory(NodeCores(g.nodes), Cores(Drawn(g.edges, summaries)))
  {
    var visible := Visible(g.edges, Hidden(summaries));
    VisibleDistinct(g.edges, Hidden(summaries));
    VisibleAre(g.edges, Hidden(summaries));
    SummaryIdsDistinct(g, summaries);
    assert Ids(Drawn(g.edges, summaries)) == Ids(visible) + Ids(summaries);
    forall id | id in Ids(visible)
      ensures id in Ids(g.edges)
    {
      IdHasEdge(visible, id);
      IdHasEdge(g.edges, id);
    }
  }

  lemma {:induction false} EdgeOfFinds(edges: seq<Edge>, e: Edge)
    requires Distinct(Ids(edges)) && e in edges
    ensures EdgeOf(edges, e.core.id) == Some(e)
    decreases |edges|
  {
    var n := |edges| - 1;
    if edges[n].core.id == e.core.id {
      OneEdge(edges, edges[n], e);
    } else {
      assert Ids(edges[..n]) == Ids(edges)[..n];
      EdgeOfFinds(edges[..n], e);
    }
  }

  /** A hidden edge is not found among the drawn ones. */
  lemma HiddenNotDrawn(g: Graph, summaries: seq<Edge>, e: Edge)
    requires SummariesSound(EvidenceOf(g), Cores(summaries)) && e in g.edges && e.core.id in Hidden(summaries)
    ensures e.core.id !in IdsOfEdges(Drawn(g.edges, summaries))
  {
    VisibleAre(g.edges, Hidden(summaries));
    SummaryIdsDistinct(g, summaries);
    IdHasEdge(g.edges, e.core.id);
    IdHasEdge(summaries, e.core.id);
  }

  // ---------------------------------------------------------------------------
  // Reading and restoring the evidence
  // ---------------------------------------------------------------------------

  /** A drawn graph that differs from the projection in places and drawings at most. */
  ghost predicate OnlyRedrawn(display: Graph, g: Graph, summaries: seq<Edge>) {
    && NodeCores(display.nodes) == NodeCores(g.nodes) && display.settings == g.settings
    && Cores(display.edges) == Cores(Drawn(g.edges, summaries))
  }

  /** The drawn form of an edge says what the edge says. */
  lemma FoundAsDrawn(display: Graph, g: Graph, summaries: seq<Edge>, e: Edge)
    requires SummariesSound(EvidenceOf(g), Cores(summaries)) && Inventory(NodeCores(g.nodes), Cores(g.edges))
    requires OnlyRedrawn(display, g, summaries) && e in Drawn(g.edges, summaries)
    ensures EdgeOf(display.edges, e.core.id).Some? && EdgeOf(display.edges, e.core.id).value.core == e.core
  {
    DrawnDistinct(g, summaries);
    var drawn := Drawn(g.edges, summaries);
    var i :| 0 <= i < |drawn| && drawn[i] == e;
    assert Cores(display.edges)[i] == Cores(drawn)[i];
    assert Ids(display.edges) == Ids(drawn);
    EdgeOfFinds(display.edges, display.edges[i]);
  }

  lemma SameIds(a: seq<Edge>, b: seq<Edge>)
    requires Cores(a) == Cores(b)
    ensures IdsOfEdges(a) == IdsOfEdges(b)
  {
    forall id
      ensures id in IdsOfEdges(a) <==> id in IdsOfEdges(b)
    {
      IdHasEdge(a, id);
      IdHasEdge(b, id);
    }
  }

  lemma NotDrawn(edges: seq<Edge>, id: Id)
    requires id !in IdsOfEdges(edges)
    ensures EdgeOf(edges, id).None?
  {
  }

  /** Rejoining gives back every edge as far as evidence goes; hidden edges come back untouched. */
  lemma RejoinedCores(display: Graph, g: Graph, summaries: seq<Edge>)
    requires SummariesSound(EvidenceOf(g), Cores(summaries)) && Inventory(NodeCores(g.nodes), Cores(g.edges))
    requires OnlyRedrawn(display, g, summaries)
    ensures Cores(Rejoined(g.edges, display.edges)) == Cores(g.edges)
    ensures forall i :: 0 <= i < |g.edges| && g.edges[i].core.id in Hidden(summaries) ==> Rejoined(g.edges, display.edges)[i] == g.edges[i]
    ensures Cores(Rejoined(summaries, display.edges)) == Cores(summaries)
  {
    var drawn := Drawn(g.edges, summaries);
    SameIds(display.edges, drawn);
    VisibleAre(g.edges, Hidden(summaries));
    forall i | 0 <= i < |g.edges|
      ensures OwnOr(display.edges, g.edges[i]).core == g.edges[i].core
      ensures g.edges[i].core.id in Hidden(summaries) ==> OwnOr(display.edges, g.edges[i]) == g.edges[i]
    {
      var e := g.edges[i];
      if e.core.id in Hidden(summaries) {
        HiddenNotDrawn(g, summaries, e);
        NotDrawn(display.edges, e.core.id);
      } else {
        FoundAsDrawn(display, g, summaries, e);
      }
    }
    forall i | 0 <= i < |summaries|
      ensures OwnOr(display.edges, summaries[i]).core == summaries[i].core
    {
      assert summaries[i] in drawn;
      FoundAsDrawn(display, g, summaries, summaries[i]);
    }
  }

  lemma RedrawnFits(display: Graph, g: Graph, summaries: seq<Edge>)
    requires SummariesSound(EvidenceOf(g), Cores(summaries)) && Inventory(NodeCores(g.nodes), Cores(g.edges))
    requires OnlyRedrawn(display, g, summaries)
    ensures SameInventory(display, g, Drawn(g.edges, summaries))
  {
    var drawn := Drawn(g.edges, summaries);
    DrawnDistinct(g, summaries);
    SameIds(display.edges, drawn);
    SameNodeIds(display.nodes, g.nodes);
    forall e | e in display.edges
      ensures EdgeOf(drawn, e.core.id).Some? && EdgeOf(drawn, e.core.id).value.core == e.core
    {
      var i :| 0 <= i < |display.edges| && display.edges[i] == e;
      assert Cores(drawn)[i] == Cores(display.edges)[i];
      EdgeOfFinds(drawn, drawn[i]);
    }
  }

  lemma SameNodeIds(a: seq<Node>, b: seq<Node>)
    requires NodeCores(a) == NodeCores(b)
    ensures IdsOfNodes(a) == IdsOfNodes(b)
  {
    forall id
      ensures id in IdsOfNodes(a) <==> id in IdsOfNodes(b)
    {
      if id in IdsOfNodes(a) {
        var n :| n in a && n.core.id == id;
        var i :| 0 <= i < |a| && a[i] == n;
        assert NodeCores(a)[i] == NodeCores(b)[i];
        assert b[i] in b && b[i].core.id == id;
      }
      if id in IdsOfNodes(b) {
        var n :| n in b && n.core.id == id;
        var i :| 0 <= i < |b| && b[i] == n;
        assert NodeCores(a)[i] == NodeCores(b)[i];
        assert a[i] in a && a[i].core.id == id;
      }
    }
  }

  /** Whatever a layout moves or redraws, restoring gives the original edges, in their order, with all they say. */
  lemma RedrawnRestores(display: Graph, g: Graph)
    requires Validated(g).Ok? && Validated(g).value != [] && OnlyRedrawn(display, g, Validated(g).value)
    ensures Restore(display, g).Ok?
    ensures var r := Restore(display, g).value;
      && Cores(r.edges) == Cores(g.edges) && r.nodes == display.nodes && r.settings == g.settings
      && (forall i :: 0 <= i < |g.edges| && g.edges[i].core.id in Hidden(Validated(g).value) ==> r.edges[i] == g.edges[i])
      && r.connectors.Some? && r.connectors.value.version == g.connectors.value.version
      && Cores(r.connectors.value.summaries) == Cores(Validated(g).value)
  {
    ValidatedSound(g);
    var summaries := Validated(g).value;
    RedrawnFits(display, g, summaries);
    RejoinedCores(display, g, summaries);
    assert EvidenceOf(Rebuilt(display, g, summaries)) == EvidenceOf(g);
  }

  /** The projection of a graph. */
  function ProjectionOf(g: Graph, summaries: seq<Edge>, frames: nat): Graph {
    g.(edges := Drawn(g.edges, summaries), frames := if g.frames.Some? then Some(frames) else None)
  }

  lemma RejoinedExactly(g: Graph, summaries: seq<Edge>, edges: seq<Edge>)
    requires SummariesSound(EvidenceOf(g), Cores(summaries)) && Inventory(NodeCores(g.nodes), Cores(g.edges))
    requires edges == g.edges || edges == summaries
    ensures Rejoined(edges, Drawn(g.edges, summaries)) == edges
  {
    var drawn := Drawn(g.edges, summaries);
    DrawnDistinct(g, summaries);
    VisibleAre(g.edges, Hidden(summaries));
    forall i | 0 <= i < |edges|
      ensures OwnOr(drawn, edges[i]) == edges[i]
    {
      var e := edges[i];
      if edges == g.edges && e.core.id in Hidden(summaries) {
        HiddenNotDrawn(g, summaries, e);
        NotDrawn(drawn, e.core.id);
      } else {
        EdgeOfFinds(drawn, e);
      }
    }
  }

  /** Drawing a graph and restoring it untouched changes nothing at all. */
  lemma UntouchedRestores(g: Graph, frames: nat)
    requires Display(Saved(g), frames).Ok?
    ensures Restore(Display(Saved(g), frames).value.graph, g) == Ok(g)
  {
    var summaries := Validated(g).value;
    if summaries != [] {
      ValidatedSound(g);
      var display := ProjectionOf(g, summaries, frames);
      RedrawnFits(display, g, summaries);
      RejoinedExactly(g, summaries, g.edges);
      RejoinedExactly(g, summaries, summaries);
      assert Rebuilt(display, g, summaries) == g;
    }
  }

  lemma {:induction false} AllBetween(edges: seq<Edge>, nodes: set<Id>)
    requires forall e :: e in edges ==> e.core.source in nodes && e.core.target in nodes
    ensures Between(edges, nodes) == edges
    decreases |edges|
  {
    if edges != [] {
      var front, last := edges[..|edges| - 1], edges[|edges| - 1];
      AllBetween(front, nodes);
      assert last in edges && edges == front + [last];
    }
  }

  /** The evidence behind a projection is the original list of edges. */
  lemma EvidenceIsOriginal(g: Graph, frames: nat)
    requires Display(Saved(g), frames).Ok?
    requires forall e :: e in g.edges ==> e.core.source in IdsOfNodes(g.nodes) && e.core.target in IdsOfNodes(g.nodes)
    ensures EvidenceGraph(Display(Saved(g), frames).value).edges == g.edges
  {
    var summaries := Validated(g).value;
    if summaries != [] {
      ValidatedSound(g);
      AllBetween(g.edges, IdsOfNodes(g.nodes));
      RejoinedExactly(g, summaries, g.edges);
    }
  }

  /** Whatever was done to the drawing, a restored graph has the original edges, in order, with all compared fields as they were. */
  lemma RestoredEvidence(display: Graph, g: Graph, i: nat)
    requires Restore(display, g).Ok? && Validated(g).Ok? && Validated(g).value != [] && i < |g.edges|
    ensures var r := Restore(display, g).value;
      |r.edges| == |g.edges| && r.edges[i].core.id == g.edges[i].core.id && Compared(r.edges[i].core) == Compared(g.edges[i].core)
  {
    ValidatedSound(g);
    var summaries := Validated(g).value;
    var drawn := Drawn(g.edges, summaries);
    DrawnDistinct(g, summaries);
    VisibleAre(g.edges, Hidden(summaries));
    var e := g.edges[i];
    if e.core.id in Hidden(summaries) {
      HiddenNotDrawn(g, summaries, e);
      NotDrawn(display.edges, e.core.id);
    } else {
      assert e in drawn;
      EdgeOfFinds(drawn, e);
    }
  }
}
