/** Planning the conversion of a board to one circle per address.

The plan is computed from the saved mapping and the archived graph alone. It
keeps the least key of every address, retires the others, and says for each
mapped connector which circles its ends leave and reach. */
module AddressPlan {
  import opened Options
  import opened Sets

  datatype Key = Key(rank: int)
  datatype ItemId = ItemId(text: int)

  datatype Ends<+T> = Ends(source: T, target: T)

  datatype Record =
    | Shape(id: ItemId)
    | Connector(id: ItemId, ends: Ends<Key>)
    | Frame(id: ItemId)

  /** `canonical` is the shared key of the full address, or the node's own key when it has none. */
  datatype Node = AddressNode(canonical: Key) | OtherNode

  datatype Edge = Edge(ends: Ends<Key>, outpoint: int)

  /** The archived graph: drawn per output, and drawn with shared addresses. `unproven`
  collects mapped items that the per-item checks do not recognise. */
  datatype Graph = Graph(
    nodes: map<Key, Node>,
    edges: map<Key, Edge>,
    mergedEdges: map<Key, Edge>,
    fees: set<Key>,
    unproven: set<Key>)

  datatype Rewire = Rewire(logical: Ends<Key>, before: Ends<ItemId>, after: Ends<ItemId>)

  datatype Plan = Plan(
    aliases: map<Key, Key>,
    retained: map<Key, Key>,
    removed: set<Key>,
    rewires: map<Key, Rewire>)

  type Items = map<Key, Record>

  ghost predicate DistinctIds(items: Items) {
    forall j, k :: j in items && k in items && items[j].id == items[k].id ==> j == k
  }

  predicate IsCircle(items: Items, graph: Graph, key: Key) {
    key in items && items[key].Shape? && key in graph.nodes && graph.nodes[key].AddressNode?
  }

  function AliasOf(aliases: map<Key, Key>, key: Key): Key {
    if key in aliases then aliases[key] else key
  }

  /** Where the end of a converted connector is drawn: the retained circle of an address, or the item itself. */
  function Home(retained: map<Key, Key>, logical: Key): Key {
    if logical in retained then retained[logical] else logical
  }

  function Logical(aliases: map<Key, Key>, ends: Ends<Key>): Ends<Key> {
    Ends(AliasOf(aliases, ends.source), AliasOf(aliases, ends.target))
  }

  // ---------------------------------------------------------------------------
  // What a plan is
  // ---------------------------------------------------------------------------

  ghost predicate AliasesOf(items: Items, graph: Graph, aliases: map<Key, Key>) {
    && (forall k :: k in aliases <==> IsCircle(items, graph, k))
    && (forall k :: k in aliases ==> aliases[k] == graph.nodes[k].canonical)
  }

  /** One circle is retained for each address: the one with the least key. */
  ghost predicate RetainedOf(aliases: map<Key, Key>, retained: map<Key, Key>) {
    && (forall k :: k in aliases ==> aliases[k] in retained && retained[aliases[k]].rank <= k.rank)
    && (forall c :: c in retained ==> retained[c] in aliases && aliases[retained[c]] == c)
  }

  ghost predicate RemovedOf(aliases: map<Key, Key>, retained: map<Key, Key>, removed: set<Key>) {
    forall k :: k in removed <==> k in aliases && aliases[k] in retained && k != retained[aliases[k]]
  }

  /** The rewiring of one connector, when all four of its ends are mapped items. */
  predicate RewireOf(items: Items, aliases: map<Key, Key>, retained: map<Key, Key>, ends: Ends<Key>, entry: Rewire) {
    var logical := Logical(aliases, ends);
    && entry.logical == logical
    && ends.source in items && ends.target in items
    && entry.before == Ends(items[ends.source].id, items[ends.target].id)
    && Home(retained, logical.source) in items && Home(retained, logical.target) in items
    && entry.after == Ends(items[Home(retained, logical.source)].id, items[Home(retained, logical.target)].id)
  }

  ghost predicate RewiresOf(items: Items, plan: Plan) {
    && (forall k :: k in plan.rewires <==> k in items && items[k].Connector?)
    && (forall k :: k in plan.rewires ==> RewireOf(items, plan.aliases, plan.retained, items[k].ends, plan.rewires[k]))
  }

  ghost predicate IsPlan(items: Items, graph: Graph, plan: Plan) {
    && AliasesOf(items, graph, plan.aliases)
    && RetainedOf(plan.aliases, plan.retained)
    && RemovedOf(plan.aliases, plan.retained, plan.removed)
    && RewiresOf(items, plan)
  }

  // ---------------------------------------------------------------------------
  // When the source agrees to plan at all
  // ---------------------------------------------------------------------------

  ghost predicate CompleteMapping(items: Items, graph: Graph) {
    forall k :: (k in graph.nodes || k in graph.edges) && k !in graph.fees ==> k in items
  }

  predicate ItemProven(items: Items, graph: Graph, key: Key)
    requires key in items
  {
    match items[key]
    case Connector(_, ends) => key in graph.edges && graph.edges[key].ends == ends && key !in graph.unproven
    case _ => IsCircle(items, graph, key) || key !in graph.unproven
  }

  ghost predicate AllProven(items: Items, graph: Graph) {
    forall k :: k in items ==> ItemProven(items, graph, k)
  }

  /** No unrelated item already sits at an address's shared key. */
  ghost predicate KeysFree(items: Items, aliases: map<Key, Key>, retained: map<Key, Key>) {
    forall c :: c in retained && c in items ==> c in aliases && aliases[c] == c
  }

  /** The merged drawing relates the same outputs between the same addresses and transactions. */
  predicate SameRelation(items: Items, graph: Graph, aliases: map<Key, Key>, key: Key)
    requires key in items && items[key].Connector?
  {
    && key in graph.mergedEdges && key in graph.edges
    && Logical(aliases, items[key].ends) == graph.mergedEdges[key].ends
    && graph.edges[key].outpoint == graph.mergedEdges[key].outpoint
  }

  ghost predicate RelationsKept(items: Items, graph: Graph, aliases: map<Key, Key>) {
    forall k :: k in items && items[k].Connector? ==> SameRelation(items, graph, aliases, k)
  }

  ghost predicate EndsMapped(items: Items, aliases: map<Key, Key>, retained: map<Key, Key>) {
    forall k :: k in items && items[k].Connector? ==>
      exists entry :: RewireOf(items, aliases, retained, items[k].ends, entry)
  }

  ghost predicate Plannable(items: Items, graph: Graph, plan: Plan) {
    && CompleteMapping(items, graph) && AllProven(items, graph)
    && KeysFree(items, plan.aliases, plan.retained)
    && RelationsKept(items, graph, plan.aliases)
  }

  // ---------------------------------------------------------------------------
  // Computing it
  // ---------------------------------------------------------------------------

  method CheckMapping(items: Items, graph: Graph) returns (ok: bool)
    ensures ok <==> CompleteMapping(items, graph) && AllProven(items, graph)
  {
    var required := graph.nodes.Keys + graph.edges.Keys - graph.fees;
    if exists k :: k in required && k !in items {
      return false;
    }
    assert CompleteMapping(items, graph);
    var todo := items.Keys;
    while todo != {}
      invariant todo <= items.Keys
      invariant forall k :: k in items && k !in todo ==> ItemProven(items, graph, k)
      decreases todo
    {
      var k := Pick(todo);
      if !ItemProven(items, graph, k) {
        return false;
      }
      todo := todo - {k};
    }
    return true;
  }

  /** Reads the circles off the mapping, keeping for every address the least key met so far. */
  method GroupCircles(items: Items, graph: Graph) returns (aliases: map<Key, Key>, retained: map<Key, Key>)
    ensures AliasesOf(items, graph, aliases) && RetainedOf(aliases, retained)
  {
    aliases, retained := map[], map[];
    var todo := items.Keys;
    while todo != {}
      invariant todo <= items.Keys
      invariant forall k :: k in aliases <==> k !in todo && IsCircle(items, graph, k)
      invariant forall k :: k in aliases ==> aliases[k] == graph.nodes[k].canonical
      invariant RetainedOf(aliases, retained)
      decreases todo
    {
      var k := Pick(todo);
      todo := todo - {k};
      if IsCircle(items, graph, k) {
        var c := graph.nodes[k].canonical;
        GroupStep(aliases, retained, k, c);
        aliases := aliases[k := c];
        retained := retained[c := if c in retained && retained[c].rank < k.rank then retained[c] else k];
      }
    }
  }

  lemma GroupStep(aliases: map<Key, Key>, retained: map<Key, Key>, k: Key, c: Key)
    requires RetainedOf(aliases, retained) && k !in aliases
    ensures RetainedOf(aliases[k := c], retained[c := if c in retained && retained[c].rank < k.rank then retained[c] else k])
  {
    var more, kept := aliases[k := c], retained[c := if c in retained && retained[c].rank < k.rank then retained[c] else k];
    forall j | j in more
      ensures more[j] in kept && kept[more[j]].rank <= j.rank
    {
      if j != k {
        assert aliases[j] in retained && retained[aliases[j]].rank <= j.rank;
      }
    }
    forall d | d in kept
      ensures kept[d] in more && more[kept[d]] == d
    {
      if d in retained {
        assert retained[d] in aliases && aliases[retained[d]] == d;
      }
    }
  }

  method CheckKeys(items: Items, aliases: map<Key, Key>, retained: map<Key, Key>) returns (ok: bool)
    ensures ok <==> KeysFree(items, aliases, retained)
  {
    ok := forall c :: c in retained && c in items ==> c in aliases && aliases[c] == c;
  }

  method RewireAll(items: Items, graph: Graph, aliases: map<Key, Key>, retained: map<Key, Key>)
      returns (r: Option<map<Key, Rewire>>)
    ensures r.Some? <==> RelationsKept(items, graph, aliases) && EndsMapped(items, aliases, retained)
    ensures r.Some? ==> forall removed :: RewiresOf(items, Plan(aliases, retained, removed, r.value))
  {
    var rewires: map<Key, Rewire> := map[];
    var todo := set k | k in items && items[k].Connector?;
    while todo != {}
      invariant forall k :: k in todo ==> k in items && items[k].Connector?
      invariant forall k :: k in rewires <==> k in items && items[k].Connector? && k !in todo
      invariant forall k :: k in rewires ==>
        SameRelation(items, graph, aliases, k) && RewireOf(items, aliases, retained, items[k].ends, rewires[k])
      decreases todo
    {
      var k := Pick(todo);
      var ends := items[k].ends;
      var logical := Logical(aliases, ends);
      if !SameRelation(items, graph, aliases, k) {
        return None;
      }
      var source, target := Home(retained, logical.source), Home(retained, logical.target);
      if ends.source !in items || ends.target !in items || source !in items || target !in items {
        assert forall entry :: !RewireOf(items, aliases, retained, ends, entry);
        return None;
      }
      rewires := rewires[k := Rewire(logical,
        Ends(items[ends.source].id, items[ends.target].id), Ends(items[source].id, items[target].id))];
      todo := todo - {k};
    }
    forall k | k in items && items[k].Connector?
      ensures exists entry :: RewireOf(items, aliases, retained, items[k].ends, entry)
    {
      assert RewireOf(items, aliases, retained, items[k].ends, rewires[k]);
    }
    return Some(rewires);
  }

  /** A plan is offered exactly when every check passes, and it is then the one plan of this mapping. */
  method MakePlan(items: Items, graph: Graph) returns (r: Option<Plan>)
    ensures r.Some? ==> IsPlan(items, graph, r.value) && Plannable(items, graph, r.value)
    ensures forall plan :: IsPlan(items, graph, plan) && Plannable(items, graph, plan) ==> r == Some(plan)
  {
    var proven := CheckMapping(items, graph);
    if !proven {
      return None;
    }
    var aliases, retained := GroupCircles(items, graph);
    var free := CheckKeys(items, aliases, retained);
    var removed := set k | k in aliases && aliases[k] in retained && k != retained[aliases[k]];
    var rewires := RewireAll(items, graph, aliases, retained);
    forall plan | IsPlan(items, graph, plan) && Plannable(items, graph, plan)
      ensures free && rewires.Some? && plan == Plan(aliases, retained, removed, rewires.value)
    {
      SameCircles(items, graph, plan, aliases, retained, removed);
      PlanMapsEnds(items, plan);
      assert rewires.Some?;
      assert RewiresOf(items, Plan(aliases, retained, removed, rewires.value));
      SameRewires(items, aliases, retained, plan.rewires, rewires.value);
    }
    if !free || rewires.None? {
      return None;
    }
    return Some(Plan(aliases, retained, removed, rewires.value));
  }

  lemma SameAliases(items: Items, graph: Graph, one: map<Key, Key>, two: map<Key, Key>)
    requires AliasesOf(items, graph, one) && AliasesOf(items, graph, two)
    ensures one == two
  {
    SameMap(one, two);
  }

  lemma RetainedNoLater(aliases: map<Key, Key>, one: map<Key, Key>, two: map<Key, Key>)
    requires RetainedOf(aliases, one) && RetainedOf(aliases, two)
    ensures forall c :: c in one ==> c in two && two[c].rank <= one[c].rank
  {
    forall c | c in one
      ensures c in two && two[c].rank <= one[c].rank
    {
      var k := one[c];
      assert k in aliases && aliases[k] == c;
    }
  }

  lemma SameRetained(aliases: map<Key, Key>, one: map<Key, Key>, two: map<Key, Key>)
    requires RetainedOf(aliases, one) && RetainedOf(aliases, two)
    ensures one == two
  {
    RetainedNoLater(aliases, one, two);
    RetainedNoLater(aliases, two, one);
    SameMap(one, two);
  }

  lemma SameCircles(items: Items, graph: Graph, plan: Plan, aliases: map<Key, Key>, retained: map<Key, Key>, removed: set<Key>)
    requires IsPlan(items, graph, plan) && AliasesOf(items, graph, aliases) && RetainedOf(aliases, retained)
    requires RemovedOf(aliases, retained, removed)
    ensures plan.aliases == aliases && plan.retained == retained && plan.removed == removed
  {
    SameAliases(items, graph, plan.aliases, aliases);
    SameRetained(aliases, plan.retained, retained);
    SameElements(plan.removed, removed);
  }

  lemma PlanMapsEnds(items: Items, plan: Plan)
    requires RewiresOf(items, plan)
    ensures EndsMapped(items, plan.aliases, plan.retained)
  {
    forall k | k in items && items[k].Connector?
      ensures exists entry :: RewireOf(items, plan.aliases, plan.retained, items[k].ends, entry)
    {
      assert RewireOf(items, plan.aliases, plan.retained, items[k].ends, plan.rewires[k]);
    }
  }

  lemma SameRewires(items: Items, aliases: map<Key, Key>, retained: map<Key, Key>, one: map<Key, Rewire>, two: map<Key, Rewire>)
    requires RewiresOf(items, Plan(aliases, retained, {}, one)) && RewiresOf(items, Plan(aliases, retained, {}, two))
    ensures one == two
  {
    forall k | k in one
      ensures k in two && one[k] == two[k]
    {
      assert RewireOf(items, aliases, retained, items[k].ends, one[k]);
      assert RewireOf(items, aliases, retained, items[k].ends, two[k]);
    }
    SameMap(one, two);
  }

  // ---------------------------------------------------------------------------
  // Switching the mapping
  // ---------------------------------------------------------------------------

  /** The record as it is saved after the switch: a connector takes its logical ends. */
  function Moved(plan: Plan, key: Key, record: Record): Record {
    if key in plan.rewires && record.Connector? then record.(ends := plan.rewires[key].logical) else record
  }

  /** `final` holds the records that stay, each under its alias, and nothing else. */
  ghost predicate Switched(items: Items, plan: Plan, final: Items) {
    && (forall k :: k in items && k !in plan.removed ==>
          AliasOf(plan.aliases, k) in final && final[AliasOf(plan.aliases, k)] == Moved(plan, k, items[k]))
    && (forall c :: c in final ==> exists k :: k in items && k !in plan.removed && AliasOf(plan.aliases, k) == c)
  }

  /** Two records that stay never land on the same key. */
  lemma RekeyInjective(items: Items, graph: Graph, plan: Plan, j: Key, k: Key)
    requires IsPlan(items, graph, plan) && KeysFree(items, plan.aliases, plan.retained)
    requires j in items && j !in plan.removed && k in items && k !in plan.removed
    requires AliasOf(plan.aliases, j) == AliasOf(plan.aliases, k)
    ensures j == k
  {
    assert k in plan.aliases ==> plan.aliases[k] in plan.retained;
    assert j in plan.aliases ==> plan.aliases[j] in plan.retained;
  }

  lemma RemovedMapped(items: Items, graph: Graph, plan: Plan)
    requires IsPlan(items, graph, plan)
    ensures plan.removed <= items.Keys
  {
    forall k | k in plan.removed
      ensures k in items
    {
      assert k in plan.aliases;
    }
  }

  /** The state of the re-keying loop when only the records of `todo` are left to copy. */
  ghost predicate Rekeying(items: Items, plan: Plan, final: Items, todo: set<Key>) {
    && (forall k :: k in todo ==> k in items && k !in plan.removed)
    && (forall k :: k in items && k !in plan.removed && k !in todo ==>
          AliasOf(plan.aliases, k) in final && final[AliasOf(plan.aliases, k)] == Moved(plan, k, items[k]))
    && (forall c :: c in final ==> exists k :: k in items && k !in plan.removed && k !in todo && AliasOf(plan.aliases, k) == c)
  }

  /** No two records that stay share an alias. */
  ghost predicate Separate(items: Items, plan: Plan) {
    forall j, k ::
      (j in items && j !in plan.removed && k in items && k !in plan.removed
        && AliasOf(plan.aliases, j) == AliasOf(plan.aliases, k)) ==> j == k
  }

  lemma RekeyStep(items: Items, plan: Plan, final: Items, todo: set<Key>, key: Key)
    requires Separate(items, plan) && Rekeying(items, plan, final, todo) && key in todo
    ensures AliasOf(plan.aliases, key) !in final
    ensures Rekeying(items, plan, final[AliasOf(plan.aliases, key) := Moved(plan, key, items[key])], todo - {key})
  {
    var c := AliasOf(plan.aliases, key);
    assert c !in final;
    var more := final[c := Moved(plan, key, items[key])];
    forall k | k in items && k !in plan.removed && k !in todo - {key}
      ensures AliasOf(plan.aliases, k) in more && more[AliasOf(plan.aliases, k)] == Moved(plan, k, items[k])
    {
      if k != key {
        assert AliasOf(plan.aliases, k) in final;
      }
    }
  }

  /** The re-keying loop of the last step. */
  method CopyRecords(items: Items, plan: Plan, stays: set<Key>) returns (final: Items)
    requires Separate(items, plan) && forall k :: k in stays <==> k in items && k !in plan.removed
    ensures Switched(items, plan, final)
    ensures |final| == |stays|
  {
    final := map[];
    var todo := stays;
    while todo != {}
      invariant Rekeying(items, plan, final, todo)
      invariant |final| + |todo| == |stays|
      decreases todo
    {
      var k := Pick(todo);
      RekeyStep(items, plan, final, todo, k);
      final := final[AliasOf(plan.aliases, k) := Moved(plan, k, items[k])];
      todo := todo - {k};
    }
  }

  /** Exactly the retired circles disappear from the mapping. */
  method Rekey(items: Items, ghost graph: Graph, plan: Plan) returns (final: Items)
    requires IsPlan(items, graph, plan) && KeysFree(items, plan.aliases, plan.retained)
    ensures Switched(items, plan, final)
    ensures |final| == |items| - |plan.removed|
  {
    forall j, k | j in items && j !in plan.removed && k in items && k !in plan.removed
      && AliasOf(plan.aliases, j) == AliasOf(plan.aliases, k)
      ensures j == k
    {
      RekeyInjective(items, graph, plan, j, k);
    }
    final := CopyRecords(items, plan, items.Keys - plan.removed);
    RemovedMapped(items, graph, plan);
    DifferenceSize(items.Keys, plan.removed);
  }

  /** The item drawn at a logical end is not a retired circle. */
  lemma HomeStays(items: Items, graph: Graph, plan: Plan, end: Key)
    requires IsPlan(items, graph, plan) && KeysFree(items, plan.aliases, plan.retained) && end in items
    ensures var logical := AliasOf(plan.aliases, end); var home := Home(plan.retained, logical);
      home in items && home !in plan.removed && AliasOf(plan.aliases, home) == logical
  {
    var logical := AliasOf(plan.aliases, end);
    if end in plan.aliases {
      var home := plan.retained[logical];
      assert home in plan.aliases && plan.aliases[home] == logical;
    }
  }

  /** No rewired end names the remote circle of a removed key. */
  lemma RewiresAvoidRemoved(items: Items, graph: Graph, plan: Plan, key: Key, gone: Key)
    requires IsPlan(items, graph, plan) && KeysFree(items, plan.aliases, plan.retained) && DistinctIds(items)
    requires key in plan.rewires && gone in plan.removed
    ensures gone in items
    ensures plan.rewires[key].after.source != items[gone].id && plan.rewires[key].after.target != items[gone].id
  {
    RemovedMapped(items, graph, plan);
    var ends := items[key].ends;
    assert RewireOf(items, plan.aliases, plan.retained, ends, plan.rewires[key]);
    HomeStays(items, graph, plan, ends.source);
    HomeStays(items, graph, plan, ends.target);
  }

  /** Aliasing commutes with the connectors: after the switch each connector names, at both ends, the
  item under the address's shared key, and that is the remote item the connector was attached to. */
  lemma EndsCommute(items: Items, graph: Graph, plan: Plan, final: Items, key: Key)
    requires IsPlan(items, graph, plan) && KeysFree(items, plan.aliases, plan.retained) && Switched(items, plan, final)
    requires key in items && items[key].Connector?
    ensures key in final && final[key].Connector? && final[key].id == items[key].id
    ensures final[key].ends == Logical(plan.aliases, items[key].ends)
    ensures final[key].ends.source in final && final[final[key].ends.source].id == plan.rewires[key].after.source
    ensures final[key].ends.target in final && final[final[key].ends.target].id == plan.rewires[key].after.target
  {
    assert key in plan.rewires && key !in plan.aliases;
    assert key !in plan.removed;
    assert AliasOf(plan.aliases, key) == key;
    var ends := items[key].ends;
    assert RewireOf(items, plan.aliases, plan.retained, ends, plan.rewires[key]);
    HomeStays(items, graph, plan, ends.source);
    HomeStays(items, graph, plan, ends.target);
    var source, target := Home(plan.retained, AliasOf(plan.aliases, ends.source)), Home(plan.retained, AliasOf(plan.aliases, ends.target));
    assert final[AliasOf(plan.aliases, source)] == Moved(plan, source, items[source]);
    assert final[AliasOf(plan.aliases, target)] == Moved(plan, target, items[target]);
  }

  /** After the switch an address has one circle: its shared key, showing the retained remote circle. */
  lemma OneCirclePerAddress(items: Items, graph: Graph, plan: Plan, final: Items, key: Key)
    requires IsPlan(items, graph, plan) && KeysFree(items, plan.aliases, plan.retained) && Switched(items, plan, final)
    requires IsCircle(items, graph, key)
    ensures var shared := graph.nodes[key].canonical;
      shared in final && shared in plan.retained && final[shared].id == items[plan.retained[shared]].id
    ensures key in final ==> key == graph.nodes[key].canonical
  {
    assert key in plan.aliases;
    HomeStays(items, graph, plan, key);
    var home := plan.retained[plan.aliases[key]];
    assert final[AliasOf(plan.aliases, home)] == Moved(plan, home, items[home]);
    if key in final {
      var k :| k in items && k !in plan.removed && AliasOf(plan.aliases, k) == key;
      if k in plan.aliases {
        assert plan.aliases[k] in plan.retained;
      }
    }
  }
}
