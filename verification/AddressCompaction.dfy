/** Moving single addresses closer to their transactions.

Addresses move one after another, and each is held between neighbours that may
move themselves before or after. Whatever moves are accepted, every column and
every group of siblings keeps its vertical order, and every moved address keeps
its distance from the transactions it links. */
module AddressCompaction {
  import opened Measures
  import opened Options
  import opened Sequences
  import opened Sets
  import opened Groups
  import opened Boxes

  const LINKED_HORIZONTAL := 150.0

  datatype Kind = Transaction | Address | Other

  datatype Node = Node(x: real, y: real, width: real, kind: Kind, column: Option<int>)

  type Nodes = map<Name, Node>

  /** `special` marks return and fee routes. */
  datatype Edge = Edge(source: Name, target: Name, special: bool)

  // ---------------------------------------------------------------------------
  // Neighbours
  // ---------------------------------------------------------------------------

  /** The neighbours above and below in one ordered list. */
  datatype Between = Between(before: Option<Name>, after: Option<Name>)

  type Limits = map<Name, seq<Between>>

  function Neighbours(list: seq<Name>, p: nat): Between
    requires p < |list|
  {
    Between(if p > 0 then Some(list[p - 1]) else None, if p + 1 < |list| then Some(list[p + 1]) else None)
  }

  ghost predicate Bounded(limits: Limits, key: Name, between: Between) {
    key in limits && between in limits[key]
  }

  /** The neighbours of a place in one of the lists. */
  ghost predicate Listed(lists: seq<seq<Name>>, a: nat, p: nat, key: Name, between: Between) {
    a < |lists| && p < |lists[a]| && lists[a][p] == key && between == Neighbours(lists[a], p)
  }

  /** The limits of a key are its neighbours in every list that holds it, and nothing else. */
  ghost predicate LimitsOf(lists: seq<seq<Name>>, limits: Limits) {
    && (forall a: nat, p: nat, key, between :: Listed(lists, a, p, key, between) ==> Bounded(limits, key, between))
    && (forall key, between :: Bounded(limits, key, between) ==> exists a: nat, p: nat :: Listed(lists, a, p, key, between))
  }

  ghost predicate AllDistinct(lists: seq<seq<Name>>) {
    forall a :: 0 <= a < |lists| ==> Distinct(lists[a])
  }

  /** Vertical order around one key. */
  predicate HeldBy(nodes: Nodes, key: Name, between: Between) {
    key in nodes
    && (between.before.Some? ==> between.before.value in nodes && nodes[between.before.value].y <= nodes[key].y)
    && (between.after.Some? ==> between.after.value in nodes && nodes[key].y <= nodes[between.after.value].y)
  }

  ghost predicate Held(nodes: Nodes, limits: Limits) {
    forall key, between :: Bounded(limits, key, between) ==> HeldBy(nodes, key, between)
  }

  /** Neighbours see each other. */
  ghost predicate Mutual(limits: Limits) {
    forall key, between :: Bounded(limits, key, between) ==>
      && (between.before.Some? ==> between.before.value != key && SeesAfter(limits, between.before.value, key))
      && (between.after.Some? ==> between.after.value != key && SeesBefore(limits, between.after.value, key))
  }

  ghost predicate SeesAfter(limits: Limits, key: Name, after: Name) {
    exists between :: Bounded(limits, key, between) && between.after == Some(after)
  }

  ghost predicate SeesBefore(limits: Limits, key: Name, before: Name) {
    exists between :: Bounded(limits, key, between) && between.before == Some(before)
  }

  lemma LimitsAreMutual(lists: seq<seq<Name>>, limits: Limits)
    requires LimitsOf(lists, limits) && AllDistinct(lists)
    ensures Mutual(limits)
  {
    forall key, between | Bounded(limits, key, between)
      ensures between.before.Some? ==> between.before.value != key && SeesAfter(limits, between.before.value, key)
      ensures between.after.Some? ==> between.after.value != key && SeesBefore(limits, between.after.value, key)
    {
      var a: nat, p: nat :| Listed(lists, a, p, key, between);
      var list := lists[a];
      assert Distinct(list);
      if p > 0 {
        assert Listed(lists, a, p - 1, list[p - 1], Neighbours(list, p - 1));
      }
      if p + 1 < |list| {
        assert Listed(lists, a, p + 1, list[p + 1], Neighbours(list, p + 1));
      }
    }
  }

  // ---------------------------------------------------------------------------
  // One move keeps the order
  // ---------------------------------------------------------------------------

  /** The height is allowed by every pair of neighbours. */
  ghost predicate Allowed(nodes: Nodes, limits: Limits, key: Name, y: real) {
    forall between :: Bounded(limits, key, between) ==>
      && (between.before.Some? && between.before.value in nodes ==> nodes[between.before.value].y <= y)
      && (between.after.Some? && between.after.value in nodes ==> y <= nodes[between.after.value].y)
  }

  /** Moving one key to an allowed height disturbs no order, its own or its neighbours'. */
  lemma MoveKeepsHeld(nodes: Nodes, limits: Limits, key: Name, node: Node)
    requires Held(nodes, limits) && Mutual(limits) && key in nodes && Allowed(nodes, limits, key, node.y)
    ensures Held(nodes[key := node], limits)
  {
    var after := nodes[key := node];
    forall k, between | Bounded(limits, k, between)
      ensures HeldBy(after, k, between)
    {
      assert HeldBy(nodes, k, between);
      if k != key {
        if between.before == Some(key) {
          assert SeesAfter(limits, key, k);
          var own :| Bounded(limits, key, own) && own.after == Some(k);
          assert node.y <= nodes[k].y;
        }
        if between.after == Some(key) {
          assert SeesBefore(limits, key, k);
          var own :| Bounded(limits, key, own) && own.before == Some(k);
          assert nodes[k].y <= node.y;
        }
      }
    }
  }

  predicate Amid(a: real, b: real, y: real) {
    a <= y <= b || b <= y <= a
  }

  /** The allowed height that lies nearest to the wish: no allowed one lies between. */
  ghost predicate Nearest(nodes: Nodes, limits: Limits, key: Name, wish: real, y: real) {
    Allowed(nodes, limits, key, y) && forall z :: Allowed(nodes, limits, key, z) ==> Amid(wish, z, y)
  }

  function Clamped(nodes: Nodes, between: Between, y: real): real {
    var raised := if between.before.Some? && between.before.value in nodes && nodes[between.before.value].y > y
      then nodes[between.before.value].y else y;
    if between.after.Some? && between.after.value in nodes && nodes[between.after.value].y < raised
    then nodes[between.after.value].y else raised
  }

  /** Clamping against one pair of neighbours after another ends within all of them. */
  method Clamp(nodes: Nodes, limits: Limits, key: Name, wish: real) returns (y: real)
    requires Held(nodes, limits) && key in nodes
    ensures Nearest(nodes, limits, key, wish, y)
  {
    y := wish;
    var pairs := if key in limits then limits[key] else [];
    for i := 0 to |pairs|
      invariant forall j :: 0 <= j < i ==>
        && (pairs[j].before.Some? && pairs[j].before.value in nodes ==> nodes[pairs[j].before.value].y <= y)
        && (pairs[j].after.Some? && pairs[j].after.value in nodes ==> y <= nodes[pairs[j].after.value].y)
      invariant forall z :: Allowed(nodes, limits, key, z) ==> Amid(wish, z, y)
    {
      assert Bounded(limits, key, pairs[i]);
      assert forall j :: 0 <= j < i ==> Bounded(limits, key, pairs[j]);
      forall z | Allowed(nodes, limits, key, z)
        ensures Amid(wish, z, Clamped(nodes, pairs[i], y))
      {
        assert Amid(wish, z, y);
      }
      y := Clamped(nodes, pairs[i], y);
    }
  }

  /** Heights between two allowed ones are allowed. */
  lemma BetweenIsAllowed(nodes: Nodes, limits: Limits, key: Name, a: real, b: real, y: real)
    requires Allowed(nodes, limits, key, a) && Allowed(nodes, limits, key, b) && (a <= y <= b || b <= y <= a)
    ensures Allowed(nodes, limits, key, y)
  {
  }

  lemma OwnHeightAllowed(nodes: Nodes, limits: Limits, key: Name)
    requires Held(nodes, limits) && key in nodes
    ensures Allowed(nodes, limits, key, nodes[key].y)
  {
    forall between | Bounded(limits, key, between)
      ensures HeldBy(nodes, key, between)
    {
    }
  }

  // ---------------------------------------------------------------------------
  // The established order
  // ---------------------------------------------------------------------------

  /** A column, or the addresses on one side of one transaction. */
  type Group = set<Name>

  function ColumnOf(nodes: Nodes, c: int): Group {
    set k | k in nodes && nodes[k].column == Some(c)
  }

  function Outputs(nodes: Nodes, edges: seq<Edge>, t: Name): Group {
    set e | e in edges && e.source == t && e.target in nodes && nodes[e.target].kind.Address? :: e.target
  }

  function Inputs(nodes: Nodes, edges: seq<Edge>, t: Name): Group {
    set e | e in edges && e.source != t && e.target == t && e.source in nodes && nodes[e.source].kind.Address? :: e.source
  }

  /** The groups whose vertical order is to be kept. */
  ghost predicate Ordered(nodes: Nodes, edges: seq<Edge>, group: Group) {
    || (exists c :: group == ColumnOf(nodes, c))
    || (exists t :: t in nodes && nodes[t].kind.Transaction? && (group == Outputs(nodes, edges, t) || group == Inputs(nodes, edges, t)))
  }

  ghost predicate TopDown(nodes: Nodes, list: seq<Name>) {
    && (forall i :: 0 <= i < |list| ==> list[i] in nodes)
    && (forall i, j :: 0 <= i < j < |list| && list[i] in nodes && list[j] in nodes ==> nodes[list[i]].y <= nodes[list[j]].y)
  }

  method Topmost(nodes: Nodes, keys: set<Name>) returns (first: Name)
    requires keys != {} && forall k :: k in keys ==> k in nodes
    ensures first in keys && forall k :: k in keys && k in nodes ==> nodes[first].y <= nodes[k].y
  {
    first := Pick(keys);
    var todo := keys - {first};
    while todo != {}
      invariant todo <= keys && first in keys
      invariant forall k :: k in keys && k !in todo && k in nodes ==> nodes[first].y <= nodes[k].y
      decreases todo
    {
      var k := Pick(todo);
      if nodes[k].y < nodes[first].y {
        first := k;
      }
      todo := todo - {k};
    }
  }

  /** One group from the top; the order among level objects is left open. */
  method Sort(nodes: Nodes, group: Group) returns (list: seq<Name>)
    requires forall k :: k in group ==> k in nodes
    ensures TopDown(nodes, list) && Distinct(list) && forall k :: k in list <==> k in group
  {
    list := [];
    var todo := group;
    while todo != {}
      invariant todo <= group && TopDown(nodes, list) && Distinct(list)
      invariant forall k :: k in list <==> k in group && k !in todo
      invariant forall i, k :: 0 <= i < |list| && list[i] in nodes && k in todo && k in nodes ==> nodes[list[i]].y <= nodes[k].y
      decreases todo
    {
      var first := Topmost(nodes, todo);
      assert first !in list;
      list := list + [first];
      todo := todo - {first};
    }
  }

  /** Every group has its list. */
  ghost predicate ListsOf(nodes: Nodes, groups: seq<Group>, lists: seq<seq<Name>>) {
    && |lists| == |groups|
    && (forall a :: 0 <= a < |lists| ==> TopDown(nodes, lists[a]) && Distinct(lists[a]))
    && (forall a, k :: 0 <= a < |lists| ==> (k in lists[a] <==> k in groups[a]))
  }

  method SortAll(nodes: Nodes, groups: seq<Group>) returns (lists: seq<seq<Name>>)
    requires forall a, k :: 0 <= a < |groups| && k in groups[a] ==> k in nodes
    ensures ListsOf(nodes, groups, lists)
  {
    lists := [];
    for a := 0 to |groups|
      invariant |lists| == a
      invariant forall b :: 0 <= b < a ==> TopDown(nodes, lists[b]) && Distinct(lists[b])
      invariant forall b, k :: 0 <= b < a ==> (k in lists[b] <==> k in groups[b])
    {
      var list := Sort(nodes, groups[a]);
      lists := lists + [list];
    }
  }

  // Recording the neighbours, list by list and place by place.

  ghost predicate Before(a: nat, p: nat, n: nat, m: nat) {
    a < n || (a == n && p < m)
  }

  ghost predicate LimitsUpTo(lists: seq<seq<Name>>, n: nat, m: nat, limits: Limits) {
    && (forall a: nat, p: nat, key, between :: Before(a, p, n, m) && Listed(lists, a, p, key, between) ==> Bounded(limits, key, between))
    && (forall key, between :: Bounded(limits, key, between) ==> exists a: nat, p: nat :: Before(a, p, n, m) && Listed(lists, a, p, key, between))
  }

  function Record(limits: Limits, key: Name, between: Between): Limits {
    limits[key := (if key in limits then limits[key] else []) + [between]]
  }

  lemma RecordAdds(limits: Limits, key: Name, between: Between)
    ensures forall k, b :: Bounded(Record(limits, key, between), k, b) <==> Bounded(limits, k, b) || (k == key && b == between)
  {
  }

  lemma RecordStep(lists: seq<seq<Name>>, n: nat, m: nat, limits: Limits)
    requires n < |lists| && m < |lists[n]| && LimitsUpTo(lists, n, m, limits)
    ensures LimitsUpTo(lists, n, m + 1, Record(limits, lists[n][m], Neighbours(lists[n], m)))
  {
    var key, between := lists[n][m], Neighbours(lists[n], m);
    var after := Record(limits, key, between);
    RecordAdds(limits, key, between);
    assert Listed(lists, n, m, key, between);
    forall a: nat, p: nat, k, b | Before(a, p, n, m + 1) && Listed(lists, a, p, k, b)
      ensures Bounded(after, k, b)
    {
      if a == n && p == m {
        assert k == key && b == between;
      } else {
        assert Before(a, p, n, m);
      }
    }
    forall k, b | Bounded(after, k, b)
      ensures exists a: nat, p: nat :: Before(a, p, n, m + 1) && Listed(lists, a, p, k, b)
    {
      if Bounded(limits, k, b) {
        var a: nat, p: nat :| Before(a, p, n, m) && Listed(lists, a, p, k, b);
        assert Before(a, p, n, m + 1);
      } else {
        assert Before(n, m, n, m + 1) && Listed(lists, n, m, k, b);
      }
    }
  }

  lemma RecordRow(lists: seq<seq<Name>>, n: nat, limits: Limits)
    requires n < |lists| && LimitsUpTo(lists, n, |lists[n]|, limits)
    ensures LimitsUpTo(lists, n + 1, 0, limits)
  {
    forall a: nat, p: nat, k, b | Before(a, p, n + 1, 0) && Listed(lists, a, p, k, b)
      ensures Bounded(limits, k, b)
    {
      assert Before(a, p, n, |lists[n]|);
    }
    forall k, b | Bounded(limits, k, b)
      ensures exists a: nat, p: nat :: Before(a, p, n + 1, 0) && Listed(lists, a, p, k, b)
    {
      var a: nat, p: nat :| Before(a, p, n, |lists[n]|) && Listed(lists, a, p, k, b);
      assert Before(a, p, n + 1, 0);
    }
  }

  lemma RecordDone(lists: seq<seq<Name>>, limits: Limits)
    requires LimitsUpTo(lists, |lists|, 0, limits)
    ensures LimitsOf(lists, limits)
  {
    forall a: nat, p: nat, k, b | Listed(lists, a, p, k, b)
      ensures Bounded(limits, k, b)
    {
      assert Before(a, p, |lists|, 0);
    }
  }

  /** Notes for every key its neighbours in every list. */
  method NoteNeighbours(lists: seq<seq<Name>>) returns (limits: Limits)
    ensures LimitsOf(lists, limits)
  {
    limits := map[];
    for n := 0 to |lists|
      invariant LimitsUpTo(lists, n, 0, limits)
    {
      for m := 0 to |lists[n]|
        invariant LimitsUpTo(lists, n, m, limits)
      {
        RecordStep(lists, n, m, limits);
        limits := Record(limits, lists[n][m], Neighbours(lists[n], m));
      }
      RecordRow(lists, n, limits);
    }
    RecordDone(lists, limits);
  }

  /** The lists are in order, so every key is held by its neighbours. */
  lemma ListsHold(nodes: Nodes, lists: seq<seq<Name>>, limits: Limits)
    requires LimitsOf(lists, limits) && forall a :: 0 <= a < |lists| ==> TopDown(nodes, lists[a])
    ensures Held(nodes, limits)
  {
    forall key, between | Bounded(limits, key, between)
      ensures HeldBy(nodes, key, between)
    {
      var a: nat, p: nat :| Listed(lists, a, p, key, between);
      assert TopDown(nodes, lists[a]);
    }
  }

  ghost predicate AllOrdered(nodes: Nodes, edges: seq<Edge>, groups: seq<Group>) {
    forall group :: group != {} ==> (Ordered(nodes, edges, group) <==> group in groups)
  }

  ghost predicate GroupsKnown(nodes: Nodes, groups: seq<Group>) {
    forall a, k :: 0 <= a < |groups| && k in groups[a] ==> k in nodes
  }

  /** All columns, and the addresses on either side of all transactions. */
  method AllGroups(nodes: Nodes, edges: seq<Edge>) returns (groups: seq<Group>)
    ensures AllOrdered(nodes, edges, groups) && GroupsKnown(nodes, groups)
  {
    groups := [];
    var todo := nodes.Keys;
    while todo != {}
      invariant todo <= nodes.Keys && GroupsKnown(nodes, groups)
      invariant forall k :: k in nodes && k !in todo && nodes[k].column.Some? ==> ColumnOf(nodes, nodes[k].column.value) in groups
      invariant forall k :: k in nodes && k !in todo && nodes[k].kind.Transaction? ==>
        Outputs(nodes, edges, k) in groups && Inputs(nodes, edges, k) in groups
      invariant forall group :: group in groups ==> Ordered(nodes, edges, group)
      decreases todo
    {
      var k := Pick(todo);
      if nodes[k].column.Some? && ColumnOf(nodes, nodes[k].column.value) !in groups {
        groups := groups + [ColumnOf(nodes, nodes[k].column.value)];
      }
      if nodes[k].kind.Transaction? {
        groups := groups + [Outputs(nodes, edges, k), Inputs(nodes, edges, k)];
      }
      todo := todo - {k};
    }
    forall group | group != {} && Ordered(nodes, edges, group)
      ensures group in groups
    {
      if c :| group == ColumnOf(nodes, c) {
        var k :| k in group;
        assert nodes[k].column == Some(c);
      }
    }
  }

  /** Every key is limited by its neighbours in its column and beside its transactions, listed from the top, and by nothing else. */
  ghost predicate SiblingLimits(nodes: Nodes, edges: seq<Edge>, limits: Limits) {
    exists groups, lists :: AllOrdered(nodes, edges, groups) && ListsOf(nodes, groups, lists) && LimitsOf(lists, limits)
  }

  /** The neighbours of every key in its column and beside its transactions, taken from the top; every key lies between its neighbours. */
  method SiblingOrder(nodes: Nodes, edges: seq<Edge>) returns (limits: Limits, ghost groups: seq<Group>, ghost lists: seq<seq<Name>>)
    ensures SiblingLimits(nodes, edges, limits)
    ensures AllOrdered(nodes, edges, groups) && ListsOf(nodes, groups, lists) && LimitsOf(lists, limits)
    ensures Mutual(limits) && Held(nodes, limits)
  {
    var all := AllGroups(nodes, edges);
    var sorted := SortAll(nodes, all);
    limits := NoteNeighbours(sorted);
    groups, lists := all, sorted;
    LimitsAreMutual(lists, limits);
    ListsHold(nodes, lists, limits);
  }

  /** While every key is held by its neighbours, the lists stay in order. */
  lemma {:induction false} HeldOrdersList(nodes: Nodes, lists: seq<seq<Name>>, limits: Limits, a: nat, i: nat, j: nat)
    requires LimitsOf(lists, limits) && Held(nodes, limits) && a < |lists| && i < j < |lists[a]|
    ensures lists[a][i] in nodes && lists[a][j] in nodes && nodes[lists[a][i]].y <= nodes[lists[a][j]].y
    decreases j
  {
    var list := lists[a];
    assert Listed(lists, a, j, list[j], Neighbours(list, j));
    assert HeldBy(nodes, list[j], Neighbours(list, j));
    if i < j - 1 {
      HeldOrdersList(nodes, lists, limits, a, i, j - 1);
    }
  }

  /** What lay above another object of the group does not lie below it now. */
  ghost predicate OrderKept(before: Nodes, after: Nodes, group: Group) {
    forall j, k :: j in group && k in group && j in before && k in before && before[j].y < before[k].y ==>
      j in after && k in after && after[j].y <= after[k].y
  }

  lemma HeldKeepsOrder(before: Nodes, after: Nodes, groups: seq<Group>, lists: seq<seq<Name>>, limits: Limits, a: nat)
    requires ListsOf(before, groups, lists) && LimitsOf(lists, limits) && Held(after, limits) && a < |groups|
    ensures OrderKept(before, after, groups[a])
  {
    forall j, k | j in groups[a] && k in groups[a] && j in before && k in before && before[j].y < before[k].y
      ensures j in after && k in after && after[j].y <= after[k].y
    {
      assert j in lists[a] && k in lists[a];
      var p: nat :| p < |lists[a]| && lists[a][p] == j;
      var q: nat :| q < |lists[a]| && lists[a][q] == k;
      assert TopDown(before, lists[a]);
      assert p < q;
      HeldOrdersList(after, lists, limits, a, p, q);
    }
  }

  // ---------------------------------------------------------------------------
  // Which addresses may move, and how far
  // ---------------------------------------------------------------------------

  function RightEnd(n: Node): real {
    n.x + n.width / 2.0
  }

  function LeftEnd(n: Node): real {
    n.x - n.width / 2.0
  }

  function Incident(edges: seq<Edge>, key: Name): seq<Edge> {
    if edges == [] then []
    else
      var rest := Incident(edges[..|edges| - 1], key);
      var last := edges[|edges| - 1];
      if last.source == key || last.target == key then rest + [last] else rest
  }

  function OtherEnd(e: Edge, key: Name): Name {
    if e.target == key then e.source else e.target
  }

  /** The address keeps its distance from the transaction at the other end, up to the tolerance. */
  predicate KeepsDistance(nodes: Nodes, e: Edge, key: Name) {
    && key in nodes && OtherEnd(e, key) in nodes
    && (if e.target == key then LeftEnd(nodes[key]) - RightEnd(nodes[e.source]) >= LINKED_HORIZONTAL - EPSILON
        else LeftEnd(nodes[e.target]) - RightEnd(nodes[key]) >= LINKED_HORIZONTAL - EPSILON)
  }

  predicate LinksForward(nodes: Nodes, fees: set<Name>, e: Edge, key: Name) {
    && !e.special && e.source in nodes && e.target in nodes
    && nodes[OtherEnd(e, key)].kind.Transaction? && OtherEnd(e, key) !in fees
    && nodes[e.source].x < nodes[e.target].x
  }

  /** The least or greatest centre that keeps the distance along an edge. */
  function Limit(nodes: Nodes, e: Edge, key: Name): real
    requires key in nodes && e.source in nodes && e.target in nodes
  {
    if e.target == key then RightEnd(nodes[e.source]) + LINKED_HORIZONTAL + nodes[key].width / 2.0
    else LeftEnd(nodes[e.target]) - LINKED_HORIZONTAL - nodes[key].width / 2.0
  }

  /** One or two ordinary forward links, at most one to each side, and room between them. */
  predicate MayMove(nodes: Nodes, fees: set<Name>, key: Name, incident: seq<Edge>) {
    && key in nodes && nodes[key].kind.Address? && key !in fees && 1 <= |incident| <= 2
    && (forall i :: 0 <= i < |incident| ==> LinksForward(nodes, fees, incident[i], key) && KeepsDistance(nodes, incident[i], key))
    && (|incident| == 2 ==>
          && (incident[0].target == key) != (incident[1].target == key)
          && OtherEnd(incident[0], key) != OtherEnd(incident[1], key)
          && (if incident[0].target == key then Limit(nodes, incident[0], key) <= Limit(nodes, incident[1], key) + EPSILON
              else Limit(nodes, incident[1], key) <= Limit(nodes, incident[0], key) + EPSILON))
  }

  /** `low` and `high` stand for the producer's and the consumer's side; a missing side sets no limit. */
  datatype Room = Room(wish: real, preferred: Name, low: Option<real>, high: Option<real>)

  predicate InRoom(room: Room, x: real) {
    && (room.low.Some? ==> room.low.value - EPSILON <= x)
    && (room.high.Some? ==> x <= room.high.value + EPSILON)
  }

  /** The producer if there is one, else the consumer. */
  ghost predicate Prefers(incident: seq<Edge>, key: Name, p: Name) {
    || (exists e :: e in incident && e.target == key && e.source == p)
    || ((forall e :: e in incident ==> e.target != key) && exists e :: e in incident && e.target == p)
  }

  /** The room says what the links demand. */
  ghost predicate RoomOf(nodes: Nodes, key: Name, incident: seq<Edge>, room: Room) {
    && key in nodes && room.preferred in nodes && nodes[room.preferred].kind.Transaction? && Prefers(incident, key, room.preferred)
    && (room.low.Some? || room.high.Some?) && room.wish == (if room.low.Some? then room.low.value else room.high.value)
    && InRoom(room, room.wish)
    && (room.low.Some? ==> exists e :: e in incident && e.target == key)
    && (room.high.Some? ==> exists e :: e in incident && e.target != key)
    && (forall e :: e in incident && e.source in nodes && e.target in nodes ==>
          if e.target == key then room.low == Some(Limit(nodes, e, key)) else room.high == Some(Limit(nodes, e, key)))
  }

  /** Sorts one link to its side, refusing links that are not ordinary. */
  method AddLink(nodes: Nodes, fees: set<Name>, key: Name, e: Edge, low: Option<Edge>, high: Option<Edge>)
      returns (ok: bool, low': Option<Edge>, high': Option<Edge>)
    requires key in nodes && (e.source in nodes && e.target in nodes)
    ensures ok <==> LinksForward(nodes, fees, e, key) && (if e.target == key then low.None? else high.None?)
    ensures ok ==> (if e.target == key then low' == Some(e) && high' == high else high' == Some(e) && low' == low)
  {
    low', high' := low, high;
    var other := OtherEnd(e, key);
    if e.special || !nodes[other].kind.Transaction? || other in fees || nodes[e.source].x >= nodes[e.target].x {
      return false, low', high';
    }
    if e.target == key {
      ok, low' := low.None?, Some(e);
    } else {
      ok, high' := high.None?, Some(e);
    }
  }

  /** The room of an address, if it may move at all. */
  method Eligible(nodes: Nodes, fees: set<Name>, key: Name, incident: seq<Edge>) returns (room: Option<Room>)
    requires key in nodes && forall e :: e in incident ==> e.source in nodes && e.target in nodes && (e.source == key || e.target == key)
    ensures room.Some? <==> MayMove(nodes, fees, key, incident)
    ensures room.Some? ==> RoomOf(nodes, key, incident, room.value) && InRoom(room.value, nodes[key].x)
  {
    if !nodes[key].kind.Address? || key in fees || !(1 <= |incident| <= 2) {
      return None;
    }
    assert incident[0] in incident;
    var ok, low, high := AddLink(nodes, fees, key, incident[0], None, None);
    if !ok {
      return None;
    }
    if |incident| == 2 {
      assert incident[1] in incident;
      ok, low, high := AddLink(nodes, fees, key, incident[1], low, high);
      if !ok || low.value.source == high.value.target {
        return None;
      }
    }
    var least := if low.Some? then Some(Limit(nodes, low.value, key)) else None;
    var most := if high.Some? then Some(Limit(nodes, high.value, key)) else None;
    var given := if low.Some? then Room(least.value, low.value.source, least, most) else Room(most.value, high.value.target, least, most);
    if least.Some? && most.Some? && least.value > most.value + EPSILON {
      return None;
    }
    if !InRoom(given, nodes[key].x) {
      return None;
    }
    return Some(given);
  }

  // ---------------------------------------------------------------------------
  // Trying the moves
  // ---------------------------------------------------------------------------

  datatype Place = Place(x: real, y: real)

  /** How far towards the wish, sideways and in height. */
  const FRACTIONS: seq<Place> := [Place(1.0, 1.0), Place(1.0, 0.0), Place(0.75, 0.75), Place(0.5, 0.5), Place(0.5, 0.0),
    Place(0.0, 1.0), Place(0.0, 0.5), Place(0.25, 0.25), Place(0.125, 0.125), Place(0.0625, 0.0625)]

  function Distance(a: real, b: real): real {
    if a <= b then b - a else a - b
  }

  /** A place on the way to the wish, really elsewhere, and within the room. */
  predicate Proposed(node: Node, room: Room, wishY: real, p: Place) {
    Distance(node.x, p.x) + Distance(node.y, p.y) > EPSILON && InRoom(room, p.x) && Amid(node.y, wishY, p.y)
  }

  lemma Scaled(d: real, f: real)
    requires d >= 0.0 && 0.0 <= f <= 1.0
    ensures 0.0 <= d * f <= d
  {
    ProductSign(d, f);
    ProductSign(d, 1.0 - f);
    assert d * (1.0 - f) == d - d * f;
  }

  lemma ProductSign(a: real, b: real)
    requires a >= 0.0 && b >= 0.0
    ensures a * b >= 0.0
  {
  }

  lemma Negated(d: real, f: real, product: real)
    requires product == (-d) * f
    ensures d * f == -product
  {
  }

  /** A fraction of the way from `a` lies between `a` and the goal. */
  lemma PartOf(a: real, delta: real, f: real)
    requires 0.0 <= f <= 1.0
    ensures Amid(a, a + delta, a + delta * f)
  {
    if delta >= 0.0 {
      Scaled(delta, f);
    } else {
      Scaled(-delta, f);
      Negated(delta, f, (-delta) * f);
    }
  }

  lemma PartWay(a: real, b: real, f: real)
    requires 0.0 <= f <= 1.0
    ensures Amid(a, b, a + (b - a) * f)
  {
    PartOf(a, b - a, f);
    assert a + (b - a) == b;
  }

  /** The place that a pair of fractions leads to. */
  function Step(node: Node, room: Room, wishY: real, i: nat): Place
    requires i < |FRACTIONS|
  {
    Place(node.x + (room.wish - node.x) * FRACTIONS[i].x, node.y + (wishY - node.y) * FRACTIONS[i].y)
  }

  lemma WhenProposed(node: Node, room: Room, wishY: real, i: nat)
    requires i < |FRACTIONS|
    ensures var p := Step(node, room, wishY, i);
      Proposed(node, room, wishY, p) <==> Distance(p.x, node.x) + Distance(p.y, node.y) > EPSILON && InRoom(room, p.x)
  {
    var p := Step(node, room, wishY, i);
    assert 0.0 <= FRACTIONS[i].y <= 1.0;
    PartWay(node.y, wishY, FRACTIONS[i].y);
    assert Amid(node.y, wishY, p.y);
    DistanceBothWays(node, p);
  }

  lemma DistanceBothWays(node: Node, p: Place)
    ensures Distance(node.x, p.x) + Distance(node.y, p.y) == Distance(p.x, node.x) + Distance(p.y, node.y)
  {
  }

  /** The place comes from some fractions, behind all that earlier fractions propose. */
  ghost predicate InTurn(node: Node, room: Room, wishY: real, proposals: seq<Place>, a: nat, i: nat) {
    && a < |proposals| && i < |FRACTIONS| && proposals[a] == Step(node, room, wishY, i)
    && forall j: nat :: j < i && Proposed(node, room, wishY, Step(node, room, wishY, j)) ==> Step(node, room, wishY, j) in proposals[..a]
  }

  ghost predicate HasTurn(node: Node, room: Room, wishY: real, proposals: seq<Place>, a: nat) {
    exists i: nat :: InTurn(node, room, wishY, proposals, a, i)
  }

  /** The proposals, without repetition, from the boldest to the most timid. */
  method Proposals(node: Node, room: Room, wishY: real) returns (proposals: seq<Place>)
    ensures forall p :: p in proposals ==> Proposed(node, room, wishY, p)
    ensures forall j: nat :: j < |FRACTIONS| && Proposed(node, room, wishY, Step(node, room, wishY, j)) ==> Step(node, room, wishY, j) in proposals
    ensures forall a: nat :: a < |proposals| ==> HasTurn(node, room, wishY, proposals, a)
  {
    proposals := [];
    for i := 0 to |FRACTIONS|
      invariant forall p :: p in proposals ==> Proposed(node, room, wishY, p)
      invariant forall j: nat :: j < i && Proposed(node, room, wishY, Step(node, room, wishY, j)) ==> Step(node, room, wishY, j) in proposals
      invariant forall a: nat :: a < |proposals| ==> HasTurn(node, room, wishY, proposals, a)
    {
      var p := Step(node, room, wishY, i);
      WhenProposed(node, room, wishY, i);
      if Distance(p.x, node.x) + Distance(p.y, node.y) > EPSILON && InRoom(room, p.x) && p !in proposals {
        ghost var before := proposals;
        proposals := proposals + [p];
        OneMore(node, room, wishY, before, p, i);
      }
    }
  }

  lemma OneMore(node: Node, room: Room, wishY: real, proposals: seq<Place>, p: Place, i: nat)
    requires i < |FRACTIONS| && p == Step(node, room, wishY, i)
    requires forall j: nat :: j < i && Proposed(node, room, wishY, Step(node, room, wishY, j)) ==> Step(node, room, wishY, j) in proposals
    requires forall a: nat :: a < |proposals| ==> HasTurn(node, room, wishY, proposals, a)
    ensures forall a: nat :: a < |proposals + [p]| ==> HasTurn(node, room, wishY, proposals + [p], a)
  {
    var more := proposals + [p];
    assert more[..|proposals|] == proposals;
    forall a: nat | a < |more|
      ensures HasTurn(node, room, wishY, more, a)
    {
      if a < |proposals| {
        assert HasTurn(node, room, wishY, proposals, a);
        var k: nat :| InTurn(node, room, wishY, proposals, a, k);
        assert more[..a] == proposals[..a];
        assert InTurn(node, room, wishY, more, a, k);
      } else {
        assert InTurn(node, room, wishY, more, a, i);
      }
    }
  }

  /** Straight-line distance and the geometric safety check are not looked into. */
  type Length = (real, real) -> real
  type Check = (Nodes, Name) -> bool

  function Gap(length: Length, a: Place, b: Node): real {
    length(a.x - b.x, a.y - b.y)
  }

  /** An accepted place: proposed, and nearer to the preferred transaction. */
  predicate Accepted(node: Node, preferred: Node, room: Room, wishY: real, length: Length, p: Place) {
    Proposed(node, room, wishY, p) && Gap(length, p, preferred) < Gap(length, Place(node.x, node.y), preferred) - EPSILON
  }

  function Moved(nodes: Nodes, key: Name, p: Place): Nodes
    requires key in nodes
  {
    nodes[key := nodes[key].(x := p.x, y := p.y)]
  }

  /** This step could be accepted. */
  ghost predicate Open(nodes: Nodes, key: Name, room: Room, wishY: real, length: Length, safe: Check, j: nat) {
    && key in nodes && room.preferred in nodes && j < |FRACTIONS|
    && var p := Step(nodes[key], room, wishY, j);
      Accepted(nodes[key], nodes[room.preferred], room, wishY, length, p) && safe(Moved(nodes, key, p), key)
  }

  /** The first proposal that is nearer and safe, if any is. */
  method FirstSafe(nodes: Nodes, key: Name, room: Room, wishY: real, length: Length, safe: Check) returns (place: Option<Place>)
    requires key in nodes && room.preferred in nodes
    ensures place.Some? ==> Accepted(nodes[key], nodes[room.preferred], room, wishY, length, place.value)
    ensures place.Some? ==> safe(Moved(nodes, key, place.value), key)
    ensures place.Some? ==> exists i: nat :: Chosen(nodes, key, room, wishY, length, safe, place.value, i)
    ensures place.None? ==> forall j: nat :: !Open(nodes, key, room, wishY, length, safe, j)
  {
    var node := nodes[key];
    var proposals := Proposals(node, room, wishY);
    for a := 0 to |proposals|
      invariant forall b :: 0 <= b < a ==>
        !(Gap(length, proposals[b], nodes[room.preferred]) < Gap(length, Place(node.x, node.y), nodes[room.preferred]) - EPSILON
          && safe(Moved(nodes, key, proposals[b]), key))
    {
      var p := proposals[a];
      assert p in proposals;
      if Gap(length, p, nodes[room.preferred]) < Gap(length, Place(node.x, node.y), nodes[room.preferred]) - EPSILON
         && safe(Moved(nodes, key, p), key) {
        assert HasTurn(node, room, wishY, proposals, a);
        ghost var i: nat :| InTurn(node, room, wishY, proposals, a, i);
        assert Chosen(nodes, key, room, wishY, length, safe, p, i);
        return Some(p);
      }
    }
    return None;
  }

  /** The place of the first step that could be accepted. */
  ghost predicate Chosen(nodes: Nodes, key: Name, room: Room, wishY: real, length: Length, safe: Check, place: Place, i: nat)
    requires key in nodes
  {
    && i < |FRACTIONS| && place == Step(nodes[key], room, wishY, i)
    && forall j: nat :: j < i ==> !Open(nodes, key, room, wishY, length, safe, j)
  }

  // ---------------------------------------------------------------------------
  // The whole run
  // ---------------------------------------------------------------------------

  /** Only positions of moved addresses differ. */
  ghost predicate OnlyMoved(before: Nodes, after: Nodes, moved: set<Name>) {
    && (forall k :: k in after <==> k in before)
    && (forall k :: k in before && k in after ==> after[k] == before[k].(x := after[k].x, y := after[k].y))
    && (forall k :: k in before && k in after && k !in moved ==> after[k] == before[k])
    && (forall k :: k in moved ==> k in before && before[k].kind.Address?)
  }

  /** A moved address keeps its distances, and is nearer to the transaction it prefers. */
  ghost predicate MovedWell(before: Nodes, after: Nodes, edges: seq<Edge>, length: Length, key: Name) {
    && key in before && key in after
    && (forall e :: e in Incident(edges, key) ==> KeepsDistance(after, e, key))
    && (exists p :: p in before && before[p].kind.Transaction? && Prefers(Incident(edges, key), key, p)
          && Gap(length, Place(after[key].x, after[key].y), before[p]) < Gap(length, Place(before[key].x, before[key].y), before[p]) - EPSILON)
  }

  /** What every accepted move keeps. */
  ghost predicate Compacting(before: Nodes, after: Nodes, edges: seq<Edge>, limits: Limits, length: Length, moved: set<Name>) {
    && Held(after, limits) && OnlyMoved(before, after, moved)
    && (forall k :: k in moved ==> MovedWell(before, after, edges, length, k))
    && (forall k, e :: k in moved && e in Incident(edges, k) && OtherEnd(e, k) in before ==> before[OtherEnd(e, k)].kind.Transaction?)
  }

  lemma {:induction false} IncidentMeans(edges: seq<Edge>, key: Name)
    ensures forall e :: e in Incident(edges, key) <==> e in edges && (e.source == key || e.target == key)
    decreases |edges|
  {
    if edges != [] {
      IncidentMeans(edges[..|edges| - 1], key);
      assert forall e :: e in edges <==> e in edges[..|edges| - 1] || e == edges[|edges| - 1];
    }
  }

  /** Within its room an address keeps its distances. */
  lemma RoomKeepsDistance(nodes: Nodes, key: Name, incident: seq<Edge>, room: Room, p: Place, e: Edge)
    requires RoomOf(nodes, key, incident, room) && InRoom(room, p.x) && e in incident && e.source in nodes && e.target in nodes
    requires OtherEnd(e, key) != key && (e.source == key || e.target == key)
    ensures KeepsDistance(Moved(nodes, key, p), e, key)
  {
  }

  /** Moving an address leaves the distances of the others alone: their links end at transactions. */
  lemma OthersKeepDistance(nodes: Nodes, key: Name, node: Node, k: Name, e: Edge)
    requires key in nodes && k != key && OtherEnd(e, k) != key && KeepsDistance(nodes, e, k) && (e.source == k || e.target == k)
    ensures KeepsDistance(nodes[key := node], e, k)
  {
  }

  lemma MovedWellStill(before: Nodes, after: Nodes, edges: seq<Edge>, limits: Limits, length: Length, moved: set<Name>, key: Name, node: Node, k: Name)
    requires Compacting(before, after, edges, limits, length, moved) && k in moved && k != key
    requires key in before && key in after && before[key].kind.Address?
    ensures MovedWell(before, after[key := node], edges, length, k)
  {
    IncidentMeans(edges, k);
    assert MovedWell(before, after, edges, length, k);
    forall e | e in Incident(edges, k)
      ensures KeepsDistance(after[key := node], e, k)
    {
      OthersKeepDistance(after, key, node, k, e);
    }
    var p :| p in before && before[p].kind.Transaction? && Prefers(Incident(edges, k), k, p)
      && Gap(length, Place(after[k].x, after[k].y), before[p]) < Gap(length, Place(before[k].x, before[k].y), before[p]) - EPSILON;
  }

  lemma JustMovedWell(before: Nodes, after: Nodes, edges: seq<Edge>, limits: Limits, length: Length, moved: set<Name>,
      fees: set<Name>, key: Name, room: Room, wishY: real, p: Place)
    requires Compacting(before, after, edges, limits, length, moved) && key in before && key in after && key !in moved
    requires MayMove(after, fees, key, Incident(edges, key)) && RoomOf(after, key, Incident(edges, key), room)
    requires Accepted(after[key], after[room.preferred], room, wishY, length, p)
    ensures MovedWell(before, Moved(after, key, p), edges, length, key)
  {
    IncidentMeans(edges, key);
    var incident := Incident(edges, key);
    forall e | e in incident
      ensures KeepsDistance(Moved(after, key, p), e, key)
    {
      var i :| 0 <= i < |incident| && incident[i] == e;
      assert LinksForward(after, fees, incident[i], key);
      RoomKeepsDistance(after, key, incident, room, p, e);
    }
    assert after[room.preferred] == before[room.preferred];
  }

  /** On the way to an allowed height no order is disturbed. */
  lemma HeldStill(nodes: Nodes, limits: Limits, key: Name, wishY: real, p: Place)
    requires Held(nodes, limits) && Mutual(limits) && key in nodes && Allowed(nodes, limits, key, wishY) && Amid(nodes[key].y, wishY, p.y)
    ensures Held(Moved(nodes, key, p), limits)
  {
    OwnHeightAllowed(nodes, limits, key);
    BetweenIsAllowed(nodes, limits, key, nodes[key].y, wishY, p.y);
    MoveKeepsHeld(nodes, limits, key, nodes[key].(x := p.x, y := p.y));
  }

  lemma OnlyMovedGrow(before: Nodes, after: Nodes, moved: set<Name>, key: Name, p: Place)
    requires OnlyMoved(before, after, moved) && key in before && key in after && before[key].kind.Address?
    ensures OnlyMoved(before, Moved(after, key, p), moved + {key})
  {
  }

  lemma AllMovedWell(before: Nodes, after: Nodes, edges: seq<Edge>, limits: Limits, length: Length, moved: set<Name>,
      fees: set<Name>, key: Name, room: Room, wishY: real, p: Place, k: Name)
    requires Compacting(before, after, edges, limits, length, moved) && key in before && key in after && key !in moved
    requires MayMove(after, fees, key, Incident(edges, key)) && RoomOf(after, key, Incident(edges, key), room)
    requires Accepted(after[key], after[room.preferred], room, wishY, length, p) && k in moved + {key}
    ensures MovedWell(before, Moved(after, key, p), edges, length, k)
  {
    if k == key {
      JustMovedWell(before, after, edges, limits, length, moved, fees, key, room, wishY, p);
    } else {
      MovedWellStill(before, after, edges, limits, length, moved, key, after[key].(x := p.x, y := p.y), k);
    }
  }

  lemma MoveStep(before: Nodes, after: Nodes, edges: seq<Edge>, limits: Limits, length: Length, moved: set<Name>,
      fees: set<Name>, key: Name, room: Room, wishY: real, p: Place)
    requires Compacting(before, after, edges, limits, length, moved) && Mutual(limits)
    requires key in before && key in after && key !in moved
    requires MayMove(after, fees, key, Incident(edges, key)) && RoomOf(after, key, Incident(edges, key), room)
    requires Accepted(after[key], after[room.preferred], room, wishY, length, p) && Allowed(after, limits, key, wishY)
    ensures Compacting(before, Moved(after, key, p), edges, limits, length, moved + {key})
  {
    HeldStill(after, limits, key, wishY, p);
    OnlyMovedGrow(before, after, moved, key, p);
    forall k | k in moved + {key}
      ensures MovedWell(before, Moved(after, key, p), edges, length, k)
    {
      AllMovedWell(before, after, edges, limits, length, moved, fees, key, room, wishY, p, k);
    }
    TransactionsAround(before, after, edges, fees, key);
  }

  lemma TransactionsAround(before: Nodes, after: Nodes, edges: seq<Edge>, fees: set<Name>, key: Name)
    requires MayMove(after, fees, key, Incident(edges, key))
    requires forall k :: k in before && k in after ==> after[k] == before[k].(x := after[k].x, y := after[k].y)
    requires forall k :: k in after <==> k in before
    ensures forall e :: e in Incident(edges, key) && OtherEnd(e, key) in before ==> before[OtherEnd(e, key)].kind.Transaction?
  {
    var incident := Incident(edges, key);
    forall e | e in incident && OtherEnd(e, key) in before
      ensures before[OtherEnd(e, key)].kind.Transaction?
    {
      var i :| 0 <= i < |incident| && incident[i] == e;
      assert LinksForward(after, fees, incident[i], key);
    }
  }

  /** Where the address would best be: its room, and the allowed height nearest to that of the transaction it prefers. */
  ghost predicate Wished(nodes: Nodes, edges: seq<Edge>, limits: Limits, key: Name, room: Room, wishY: real) {
    RoomOf(nodes, key, Incident(edges, key), room) && Nearest(nodes, limits, key, nodes[room.preferred].y, wishY)
  }

  /** No step from the address' place could be accepted. */
  ghost predicate Stuck(nodes: Nodes, edges: seq<Edge>, limits: Limits, length: Length, safe: Check, key: Name) {
    exists room, wishY :: Wished(nodes, edges, limits, key, room, wishY)
      && forall j: nat :: !Open(nodes, key, room, wishY, length, safe, j)
  }

  /** Step `j` is the first that could be accepted, and was taken. */
  ghost predicate FirstOpen(nodes: Nodes, after: Nodes, key: Name, room: Room, wishY: real, length: Length, safe: Check, j: nat) {
    && Open(nodes, key, room, wishY, length, safe, j) && after == Moved(nodes, key, Step(nodes[key], room, wishY, j))
    && forall i: nat :: i < j ==> !Open(nodes, key, room, wishY, length, safe, i)
  }

  /** The address went the first step that could be accepted, and nothing else changed. */
  ghost predicate Took(nodes: Nodes, after: Nodes, edges: seq<Edge>, limits: Limits, length: Length, safe: Check, key: Name) {
    exists room, wishY, j: nat :: Wished(nodes, edges, limits, key, room, wishY)
      && FirstOpen(nodes, after, key, room, wishY, length, safe, j)
  }

  /** One turn: an address that may move takes the first step that could be accepted, and stays only if there is none. */
  ghost predicate TurnTaken(nodes: Nodes, after: Nodes, edges: seq<Edge>, fees: set<Name>, limits: Limits, length: Length, safe: Check,
      key: Name, accepted: bool) {
    if accepted then
      MayMove(nodes, fees, key, Incident(edges, key)) && Took(nodes, after, edges, limits, length, safe, key)
    else
      after == nodes && (MayMove(nodes, fees, key, Incident(edges, key)) ==> Stuck(nodes, edges, limits, length, safe, key))
  }

  lemma TookFirst(nodes: Nodes, edges: seq<Edge>, limits: Limits, length: Length, safe: Check, key: Name, room: Room, wishY: real, p: Place)
    requires Wished(nodes, edges, limits, key, room, wishY)
    requires Accepted(nodes[key], nodes[room.preferred], room, wishY, length, p) && safe(Moved(nodes, key, p), key)
    requires exists i: nat :: Chosen(nodes, key, room, wishY, length, safe, p, i)
    ensures Took(nodes, Moved(nodes, key, p), edges, limits, length, safe, key)
  {
    var i: nat :| Chosen(nodes, key, room, wishY, length, safe, p, i);
    assert FirstOpen(nodes, Moved(nodes, key, p), key, room, wishY, length, safe, i);
  }

  /** Gives one address its turn. */
  method TryAddress(ghost before: Nodes, after0: Nodes, edges: seq<Edge>, limits: Limits, length: Length, safe: Check,
      ghost moved: set<Name>, fees: set<Name>, key: Name) returns (accepted: bool, after: Nodes)
    requires Compacting(before, after0, edges, limits, length, moved) && Mutual(limits)
    requires key in after0 && key !in moved && forall e :: e in edges ==> e.source in after0 && e.target in after0
    ensures Compacting(before, after, edges, limits, length, if accepted then moved + {key} else moved)
    ensures TurnTaken(after0, after, edges, fees, limits, length, safe, key, accepted)
    ensures accepted ==> safe(after, key)
  {
    accepted, after := false, after0;
    IncidentMeans(edges, key);
    var room := Eligible(after, fees, key, Incident(edges, key));
    if room.None? {
      return;
    }
    var wishY := Clamp(after, limits, key, after[room.value.preferred].y);
    assert Wished(after0, edges, limits, key, room.value, wishY);
    var place := FirstSafe(after, key, room.value, wishY, length, safe);
    if place.Some? {
      MoveStep(before, after, edges, limits, length, moved, fees, key, room.value, wishY, place.value);
      TookFirst(after, edges, limits, length, safe, key, room.value, wishY, place.value);
      accepted, after := true, Moved(after, key, place.value);
    }
  }

  lemma CompactingStart(nodes: Nodes, edges: seq<Edge>, limits: Limits, length: Length)
    requires Held(nodes, limits)
    ensures Compacting(nodes, nodes, edges, limits, length, {})
  {
  }

  /** Between two turns stands one drawing; an address that is locked, or comes when the budget is spent, has no turn. */
  ghost predicate TurnsTaken(drawings: seq<Nodes>, edges: seq<Edge>, fees: set<Name>, locked: set<Name>, order: seq<Name>, limits: Limits,
      length: Length, safe: nat -> Check, lasts: Name -> bool, moved: set<Name>)
    requires |drawings| == |order| + 1
  {
    forall i: nat :: i < |order| ==> TurnOrNone(drawings, edges, fees, locked, order, limits, length, safe, lasts, moved, i)
  }

  ghost predicate TurnOrNone(drawings: seq<Nodes>, edges: seq<Edge>, fees: set<Name>, locked: set<Name>, order: seq<Name>, limits: Limits,
      length: Length, safe: nat -> Check, lasts: Name -> bool, moved: set<Name>, i: nat)
    requires |drawings| == |order| + 1 && i < |order|
  {
    if order[i] in locked || !lasts(order[i]) then drawings[i + 1] == drawings[i] && order[i] !in moved
    else TurnTaken(drawings[i], drawings[i + 1], edges, fees, limits, length, safe(i), order[i], order[i] in moved)
  }

  lemma TurnsGrow(drawings: seq<Nodes>, next: Nodes, edges: seq<Edge>, fees: set<Name>, locked: set<Name>, order: seq<Name>, limits: Limits,
      length: Length, safe: nat -> Check, lasts: Name -> bool, moved: set<Name>, accepted: bool, n: nat)
    requires n < |order| && |drawings| == n + 1 && Distinct(order)
    requires TurnsTaken(drawings, edges, fees, locked, order[..n], limits, length, safe, lasts, moved)
    requires order[n] !in moved
    requires if order[n] in locked || !lasts(order[n]) then next == drawings[n] && !accepted
      else TurnTaken(drawings[n], next, edges, fees, limits, length, safe(n), order[n], accepted)
    ensures TurnsTaken(drawings + [next], edges, fees, locked, order[..n + 1], limits, length, safe, lasts,
      if accepted then moved + {order[n]} else moved)
  {
    var more, keys, after := drawings + [next], order[..n + 1], if accepted then moved + {order[n]} else moved;
    forall i: nat | i < n + 1
      ensures TurnOrNone(more, edges, fees, locked, keys, limits, length, safe, lasts, after, i)
    {
      if i < n {
        assert order[..n][i] == order[i] && order[i] != order[n];
        assert TurnOrNone(drawings, edges, fees, locked, order[..n], limits, length, safe, lasts, moved, i);
      }
    }
  }

  /** Gives every address that is not locked its turn, while the budget lasts.

  Each turn has its own check, which also sees the routes that earlier moves left. */
  method CompactAddresses(before: Nodes, edges: seq<Edge>, fees: set<Name>, locked: set<Name>, order: seq<Name>,
      length: Length, safe: nat -> Check, lasts: Name -> bool)
      returns (after: Nodes, moved: set<Name>, ghost limits: Limits, ghost drawings: seq<Nodes>)
    requires (forall k :: k in order ==> k in before) && Distinct(order)
    requires forall e :: e in edges ==> e.source in before && e.target in before
    ensures OnlyMoved(before, after, moved) && moved !! locked
    ensures forall group :: group != {} && Ordered(before, edges, group) ==> OrderKept(before, after, group)
    ensures forall k :: k in moved ==> MovedWell(before, after, edges, length, k)
    ensures SiblingLimits(before, edges, limits) && (forall k :: k in moved ==> k in order)
    ensures |drawings| == |order| + 1 && drawings[0] == before && drawings[|order|] == after
    ensures TurnsTaken(drawings, edges, fees, locked, order, limits, length, safe, lasts, moved)
  {
    var bounds;
    ghost var groups, lists;
    bounds, groups, lists := SiblingOrder(before, edges);
    limits := bounds;
    CompactingStart(before, edges, limits, length);
    after, moved, drawings := before, {}, [before];
    for i := 0 to |order|
      invariant Compacting(before, after, edges, limits, length, moved) && moved !! locked && limits == bounds
      invariant forall k :: k in moved ==> k in order[..i]
      invariant |drawings| == i + 1 && drawings[0] == before && drawings[i] == after
      invariant TurnsTaken(drawings, edges, fees, locked, order[..i], limits, length, safe, lasts, moved)
    {
      var key := order[i];
      assert key in order && key !in order[..i];
      assert order[..i + 1] == order[..i] + [key];
      var accepted, next := false, after;
      if key !in locked && lasts(key) {
        accepted, next := TryAddress(before, after, edges, bounds, length, safe(i), moved, fees, key);
      }
      TurnsGrow(drawings, next, edges, fees, locked, order, limits, length, safe, lasts, moved, accepted, i);
      drawings, after := drawings + [next], next;
      if accepted {
        moved := moved + {key};
      }
    }
    assert order[..|order|] == order;
    forall group | group != {} && Ordered(before, edges, group)
      ensures OrderKept(before, after, group)
    {
      var a: nat :| a < |groups| && groups[a] == group;
      HeldKeepsOrder(before, after, groups, lists, limits, a);
    }
  }
}
