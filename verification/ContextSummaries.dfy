/** Which plain context inputs one counted connector may stand for.

Summaries are derived anew from the evidence alone, never from how it is drawn. */
module ContextSummaries {
  import opened Options
  import opened Sequences

  datatype Result<+T> = Ok(value: T) | Error

  /** Identifiers are text; a parallel connector's is a digest of its two ends, taken to be injective. */
  datatype Id = Text(s: string) | Parallel(source: Id, target: Id)

  const TX := "tx:"
  const GROUP := "context-group:"
  const PREFIX := "context-inputs:"
  const INPUT := "in:"

  predicate StartsWith(id: Id, prefix: string) {
    id.Text? && prefix <= id.s
  }

  /** The text of a transaction's identifier after its prefix. */
  function TxId(target: Id): string
    requires StartsWith(target, TX)
  {
    target.s[|TX|..]
  }

  datatype Outpoint = Outpoint(tx: string, index: nat)

  datatype Kind = Transaction | Address | ContextGroup | OtherKind

  datatype Member = Member(id: Id, isAddress: bool, primary: bool, address: Option<string>, protected: bool)

  datatype GroupDetails = GroupDetails(transaction: Id, members: seq<Member>, inputIds: seq<Id>, inputCount: nat, addressCount: nat)

  /** What a node says, apart from where it is drawn. */
  datatype NodeCore = NodeCore(id: Id, kind: Kind, primary: bool, address: Option<string>, group: Option<GroupDetails>, rest: nat)

  datatype Summary = Summary(version: nat, parallel: bool, inputCount: nat, addressCount: nat, members: seq<Id>)

  datatype Details = Details(vin: Option<Outpoint>, pegin: bool, coinbase: bool, traced: bool, summary: Option<Summary>, rest: nat)

  datatype Wording = Words(n: nat) | Counted(inputs: nat, addresses: nat)

  /** What an edge says, apart from how it is drawn; `rest` stands for fields that restoring does not compare. */
  datatype Core = Core(id: Id, source: Id, target: Id, contextInput: bool, outpoint: Option<Outpoint>, wording: Wording, quantity: nat,
    details: Details, originalSource: Option<Id>, change: bool, rest: nat)

  datatype Controls = Controls(version: nat, enabled: bool, groupCount: nat, nodeCount: nat, addressCount: nat, inputCount: nat)

  datatype Settings = Settings(controls: Option<Controls>, grouping: bool, seeds: set<Outpoint>, designated: set<Outpoint>, hubs: set<string>)

  datatype Evidence = Evidence(nodes: seq<NodeCore>, edges: seq<Core>, settings: Settings)

  // ---------------------------------------------------------------------------
  // Inventories
  // ---------------------------------------------------------------------------

  function NodeIds(nodes: seq<NodeCore>): (ids: seq<Id>)
    ensures |ids| == |nodes| && forall i :: 0 <= i < |nodes| ==> ids[i] == nodes[i].id
  {
    seq(|nodes|, i requires 0 <= i < |nodes| => nodes[i].id)
  }

  function EdgeIds(edges: seq<Core>): (ids: seq<Id>)
    ensures |ids| == |edges| && forall i :: 0 <= i < |edges| ==> ids[i] == edges[i].id
  {
    seq(|edges|, i requires 0 <= i < |edges| => edges[i].id)
  }

  predicate Inventory(nodes: seq<NodeCore>, edges: seq<Core>) {
    && Distinct(NodeIds(nodes)) && Distinct(EdgeIds(edges))
    && forall id :: id in NodeIds(nodes) ==> id !in EdgeIds(edges)
  }

  function NodeOf(nodes: seq<NodeCore>, id: Id): (node: Option<NodeCore>)
    ensures node.Some? <==> id in NodeIds(nodes)
    ensures node.Some? ==> node.value in nodes && node.value.id == id
  {
    if nodes == [] then None
    else if nodes[|nodes| - 1].id == id then Some(nodes[|nodes| - 1])
    else
      var found := NodeOf(nodes[..|nodes| - 1], id);
      assert id in NodeIds(nodes) ==> id in NodeIds(nodes[..|nodes| - 1]) by {
        if id in NodeIds(nodes) {
          var i :| 0 <= i < |nodes| && NodeIds(nodes)[i] == id;
          assert NodeIds(nodes[..|nodes| - 1])[i] == id;
        }
      }
      assert id in NodeIds(nodes[..|nodes| - 1]) ==> id in NodeIds(nodes) by {
        if id in NodeIds(nodes[..|nodes| - 1]) {
          var i :| 0 <= i < |nodes| - 1 && NodeIds(nodes[..|nodes| - 1])[i] == id;
          assert NodeIds(nodes)[i] == id;
        }
      }
      found
  }

  predicate IsKind(nodes: seq<NodeCore>, id: Id, kind: Kind) {
    NodeOf(nodes, id).Some? && NodeOf(nodes, id).value.kind == kind
  }

  // ---------------------------------------------------------------------------
  // Sorting
  // ---------------------------------------------------------------------------

  predicate TextBefore(a: string, b: string) {
    if b == [] then false
    else if a == [] then true
    else a[0] < b[0] || (a[0] == b[0] && TextBefore(a[1..], b[1..]))
  }

  predicate IdBefore(a: Id, b: Id) {
    match (a, b)
    case (Text(s), Text(t)) => TextBefore(s, t)
    case (Text(_), Parallel(_, _)) => true
    case (Parallel(_, _), Text(_)) => false
    case (Parallel(s, t), Parallel(u, v)) => IdBefore(s, u) || (s == u && IdBefore(t, v))
  }

  type Pair = (Id, Id)

  predicate PairBefore(a: Pair, b: Pair) {
    IdBefore(a.0, b.0) || (a.0 == b.0 && IdBefore(a.1, b.1))
  }

  function Insert<T(==)>(x: T, s: seq<T>, before: (T, T) -> bool): (r: seq<T>)
    ensures multiset(r) == multiset(s) + multiset{x}
  {
    if s == [] then [x]
    else if before(x, s[0]) then
      assert s == [s[0]] + s[1..];
      [x] + s
    else
      assert s == [s[0]] + s[1..];
      [s[0]] + Insert(x, s[1..], before)
  }

  function Sort<T(==)>(s: seq<T>, before: (T, T) -> bool): (r: seq<T>)
    ensures multiset(r) == multiset(s)
  {
    if s == [] then []
    else
      assert s == s[..|s| - 1] + [s[|s| - 1]];
      Insert(s[|s| - 1], Sort(s[..|s| - 1], before), before)
  }

  lemma {:induction false} DistinctCounts<T>(s: seq<T>)
    ensures Distinct(s) <==> forall x :: multiset(s)[x] <= 1
    decreases |s|
  {
    if s != [] {
      var n := |s| - 1;
      DistinctCounts(s[..n]);
      assert s == s[..n] + [s[n]];
      if Distinct(s) {
        assert s[n] !in multiset(s[..n]);
      }
      if forall x :: multiset(s)[x] <= 1 {
        assert multiset(s)[s[n]] == multiset(s[..n])[s[n]] + 1;
        assert s[n] !in multiset(s[..n]);
        forall x
          ensures multiset(s[..n])[x] <= 1
        {
          assert multiset(s)[x] <= 1;
        }
      }
    }
  }

  lemma SortKeeps<T>(s: seq<T>, before: (T, T) -> bool)
    ensures |Sort(s, before)| == |s| && (Distinct(Sort(s, before)) <==> Distinct(s))
    ensures forall x :: x in Sort(s, before) <==> x in s
  {
    var r := Sort(s, before);
    DistinctCounts(r);
    DistinctCounts(s);
    assert |multiset(r)| == |multiset(s)|;
    forall x
      ensures x in r <==> x in s
    {
      assert x in multiset(r) <==> x in multiset(s);
    }
  }

  lemma {:induction false} TextSteps(a: string, b: string, c: string)
    ensures !TextBefore(a, a) && (a == b || TextBefore(a, b) || TextBefore(b, a))
    ensures TextBefore(a, b) && TextBefore(b, c) ==> TextBefore(a, c)
    decreases |a|
  {
    if a != [] {
      var bs, cs := if b == [] then [] else b[1..], if c == [] then [] else c[1..];
      TextSteps(a[1..], bs, cs);
      assert a == [a[0]] + a[1..] && (b != [] ==> b == [b[0]] + bs);
    }
  }

  lemma {:induction false} IdSteps(a: Id, b: Id, c: Id)
    ensures !IdBefore(a, a) && (a == b || IdBefore(a, b) || IdBefore(b, a))
    ensures IdBefore(a, b) && IdBefore(b, c) ==> IdBefore(a, c)
    decreases a
  {
    if a.Text? {
      TextSteps(a.s, if b.Text? then b.s else "", if c.Text? then c.s else "");
    } else {
      IdSteps(a.source, if b.Parallel? then b.source else b, if c.Parallel? then c.source else c);
      IdSteps(a.target, if b.Parallel? then b.target else b, if c.Parallel? then c.target else c);
    }
  }

  lemma IdOrder()
    ensures StrictOrder(IdBefore)
  {
    forall a, b, c
      ensures !IdBefore(a, a) && (a == b || IdBefore(a, b) || IdBefore(b, a))
      ensures IdBefore(a, b) && IdBefore(b, c) ==> IdBefore(a, c)
    {
      IdSteps(a, b, c);
    }
  }

  lemma PairOrder()
    ensures StrictOrder(PairBefore)
  {
    forall a: Pair, b: Pair, c: Pair
      ensures !PairBefore(a, a) && (a == b || PairBefore(a, b) || PairBefore(b, a))
      ensures PairBefore(a, b) && PairBefore(b, c) ==> PairBefore(a, c)
    {
      IdSteps(a.0, b.0, c.0);
      IdSteps(a.1, b.1, c.1);
    }
  }

  lemma {:induction false} InsertAscends<T(!new)>(x: T, s: seq<T>, before: (T, T) -> bool)
    requires StrictOrder(before) && Ascends(s, before)
    ensures Ascends(Insert(x, s, before), before)
    decreases |s|
  {
    if s != [] && !before(x, s[0]) {
      var rest := Insert(x, s[1..], before);
      InsertAscends(x, s[1..], before);
      forall k | 0 <= k < |rest|
        ensures !before(rest[k], s[0])
      {
        assert rest[k] in multiset(s[1..]) + multiset{x};
      }
    }
  }

  /** Sorting by a strict order leaves nothing after what it comes before. */
  lemma {:induction false} SortAscends<T(!new)>(s: seq<T>, before: (T, T) -> bool)
    requires StrictOrder(before)
    ensures Ascends(Sort(s, before), before)
    decreases |s|
  {
    if s != [] {
      SortAscends(s[..|s| - 1], before);
      InsertAscends(s[|s| - 1], Sort(s[..|s| - 1], before), before);
    }
  }

  // ---------------------------------------------------------------------------
  // Groups of isolated addresses
  // ---------------------------------------------------------------------------

  /** What the loop over the group nodes has gathered. */
  datatype Gathered = Gathered(summaries: seq<Core>, members: set<Id>, addresses: set<string>, inputs: set<Id>)

  function VisibleAddresses(nodes: seq<NodeCore>): set<string> {
    set n | n in nodes && n.kind.Address? && n.primary && n.address.Some? :: n.address.value
  }

  function Incident(edges: seq<Core>, id: Id): seq<Core> {
    if edges == [] then []
    else
      var last := edges[|edges| - 1];
      Incident(edges[..|edges| - 1], id) + (if last.source == id then [last] else []) + (if last.target == id then [last] else [])
  }

  /** A plain context input from one object to the other. */
  predicate PlainInput(e: Core, source: Id, target: Id) {
    && e.source == source && e.target == target && e.contextInput && StartsWith(e.id, INPUT)
    && !e.details.pegin && !e.details.coinbase && !e.details.traced && !e.change
  }

  predicate MemberFits(ev: Evidence, before: Gathered, keys: set<Id>, m: Member) {
    && m.isAddress && m.primary && m.address.Some? && m.address.value != "" && !m.protected && m.id != Text("")
    && m.id !in keys && m.id !in NodeIds(ev.nodes) && m.id !in before.members
    && m.address.value !in VisibleAddresses(ev.nodes) && m.address.value !in before.addresses && m.address.value !in ev.settings.hubs
  }

  datatype Keys = Keys(ids: set<Id>, addresses: set<string>)

  function Members(ev: Evidence, before: Gathered, members: seq<Member>): Result<Keys> {
    if members == [] then Ok(Keys({}, {}))
    else
      var m := members[|members| - 1];
      match Members(ev, before, members[..|members| - 1])
      case Error => Error
      case Ok(keys) =>
        if MemberFits(ev, before, keys.ids, m) then Ok(Keys(keys.ids + {m.id}, keys.addresses + {m.address.value})) else Error
  }

  predicate GroupInput(ev: Evidence, before: Gathered, id: Id, target: Id, e: Core)
    requires StartsWith(target, TX)
  {
    && PlainInput(e, id, target) && StartsWith(e.id, INPUT + TxId(target) + ":")
    && e.outpoint.Some? && e.outpoint.value !in ev.settings.designated && e.id !in before.inputs
  }

  function GroupSummary(id: Id, target: Id, inputIds: seq<Id>, addressCount: nat): Core
    requires StartsWith(target, TX)
  {
    Core(Text(PREFIX + TxId(target)), id, target, true, None, Counted(|inputIds|, addressCount), 0,
      Details(None, false, false, false, Some(Summary(1, false, |inputIds|, addressCount, inputIds)), 0), None, false, 0)
  }

  /** What the group's own record must say. */
  predicate GroupFits(ev: Evidence, before: Gathered, id: Id, d: GroupDetails, keys: Keys)
    requires StartsWith(d.transaction, TX)
  {
    var inputs := Incident(ev.edges, id);
    var inputIds := Sort(EdgeIds(inputs), IdBefore);
    && |keys.addresses| >= 2 && inputs != [] && Distinct(inputIds)
    && d.inputIds == inputIds && d.inputCount == |inputs| && d.addressCount == |keys.addresses|
    && (set e | e in inputs :: e.originalSource) == (set k | k in keys.ids :: Some(k))
    && (forall e :: e in inputs ==> GroupInput(ev, before, id, d.transaction, e))
    && Text(PREFIX + TxId(d.transaction)) !in NodeIds(ev.nodes) && Text(PREFIX + TxId(d.transaction)) !in EdgeIds(ev.edges)
  }

  function GroupStep(ev: Evidence, before: Gathered, id: Id): Result<Gathered>
    requires id in NodeIds(ev.nodes)
  {
    var node := NodeOf(ev.nodes, id).value;
    if !node.kind.ContextGroup? then Ok(before)
    else if node.group.None? then Error
    else
      var d := node.group.value;
      if !StartsWith(d.transaction, TX) || !IsKind(ev.nodes, d.transaction, Transaction) || id != Text(GROUP + TxId(d.transaction)) then Error
      else match Members(ev, before, d.members)
      case Error => Error
      case Ok(keys) =>
        var inputIds := Sort(EdgeIds(Incident(ev.edges, id)), IdBefore);
        if !GroupFits(ev, before, id, d, keys) then Error
        else Ok(Gathered(before.summaries + [GroupSummary(id, d.transaction, inputIds, |keys.addresses|)], before.members + keys.ids,
          before.addresses + keys.addresses, before.inputs + (set i | i in inputIds)))
  }

  function GatherGroups(ev: Evidence, ids: seq<Id>): Result<Gathered>
    requires forall id :: id in ids ==> id in NodeIds(ev.nodes)
  {
    if ids == [] then Ok(Gathered([], {}, {}, {}))
    else
      match GatherGroups(ev, ids[..|ids| - 1])
      case Error => Error
      case Ok(before) => GroupStep(ev, before, ids[|ids| - 1])
  }

  predicate EndsKnown(nodes: seq<NodeCore>, edges: seq<Core>) {
    forall e :: e in edges ==> e.source in NodeIds(nodes) && e.target in NodeIds(nodes)
  }

  predicate ControlsMatch(controls: Controls, all: Gathered) {
    controls.groupCount == |all.summaries| && controls.nodeCount == |all.members|
    && controls.addressCount == |all.addresses| && controls.inputCount == |all.inputs|
  }

  /** The summaries of all groups, in the order of their nodes. */
  function GroupSummaries(ev: Evidence): Result<seq<Core>> {
    var ids := Sort(NodeIds(ev.nodes), IdBefore);
    if !Inventory(ev.nodes, ev.edges) || ev.settings.controls.None? then Error
    else if ev.settings.controls.value.version != 2 || !ev.settings.controls.value.enabled || !ev.settings.grouping then Error
    else if !EndsKnown(ev.nodes, ev.edges) then Error
    else
      SortKeeps(NodeIds(ev.nodes), IdBefore);
      match GatherGroups(ev, ids)
      case Error => Error
      case Ok(all) => if ControlsMatch(ev.settings.controls.value, all) then Ok(all.summaries) else Error
  }

  // ---------------------------------------------------------------------------
  // Parallel inputs from one address to one transaction
  // ---------------------------------------------------------------------------

  predicate IsDigit(c: char) {
    '0' <= c <= '9'
  }

  /** A whole number as it is printed. */
  predicate IsDecimal(s: string) {
    s != [] && (forall i :: 0 <= i < |s| ==> IsDigit(s[i])) && (s[0] == '0' ==> |s| == 1)
  }

  function BareTx(target: Id): string {
    if StartsWith(target, TX) then TxId(target) else if target.Text? then target.s else ""
  }

  /** The exact place of an input in its transaction. */
  predicate IsInputId(id: Id, target: Id) {
    var prefix := INPUT + BareTx(target) + ":";
    StartsWith(id, prefix) && IsDecimal(id.s[|prefix|..])
  }

  /** The output that an edge's input spends is itself displayed as an output to the same address. */
  predicate Continues(ev: Evidence, e: Core) {
    exists o :: o in ev.edges && IsKind(ev.nodes, o.source, Transaction) && IsKind(ev.nodes, o.target, Address)
      && o.outpoint.Some? && o.outpoint == e.outpoint && o.target == e.source
  }

  predicate PlainAddress(nodes: seq<NodeCore>, id: Id) {
    IsKind(nodes, id, Address) && var node := NodeOf(nodes, id).value; node.primary && node.address.Some? && node.address.value != ""
  }

  /** An input that may be bundled with others. */
  predicate Bundles(ev: Evidence, e: Core) {
    && PlainAddress(ev.nodes, e.source) && IsKind(ev.nodes, e.target, Transaction)
    && PlainInput(e, e.source, e.target) && e.originalSource.None?
    && !(e.outpoint.Some? && (e.outpoint.value in ev.settings.seeds || e.outpoint.value in ev.settings.designated))
    && !Continues(ev, e)
    && e.details.vin.Some? && e.outpoint == e.details.vin
    && IsInputId(e.id, e.target)
  }

  function EndsOf(e: Core): Pair {
    (e.source, e.target)
  }

  /** The inputs between two ends that may be bundled, in the order of the edges. */
  function InputsBetween(ev: Evidence, edges: seq<Core>, pair: Pair): seq<Id> {
    if edges == [] then []
    else
      var last := edges[|edges| - 1];
      InputsBetween(ev, edges[..|edges| - 1], pair) + (if Bundles(ev, last) && EndsOf(last) == pair then [last.id] else [])
  }

  /** The pairs of ends that have such inputs, as they first occur. */
  function PairsOf(ev: Evidence, edges: seq<Core>): seq<Pair> {
    if edges == [] then []
    else
      var before := PairsOf(ev, edges[..|edges| - 1]);
      var last := edges[|edges| - 1];
      if Bundles(ev, last) && EndsOf(last) !in before then before + [EndsOf(last)] else before
  }

  function ParallelSummary(pair: Pair, inputIds: seq<Id>): Core {
    Core(Parallel(pair.0, pair.1), pair.0, pair.1, true, None, Counted(|inputIds|, 1), 0,
      Details(None, false, false, false, Some(Summary(2, true, |inputIds|, 1, inputIds)), 0), None, false, 0)
  }

  function PairStep(ev: Evidence, before: seq<Core>, pair: Pair): Result<seq<Core>> {
    var inputs := InputsBetween(ev, ev.edges, pair);
    if |inputs| < 2 then Ok(before)
    else if Parallel(pair.0, pair.1) in NodeIds(ev.nodes) || Parallel(pair.0, pair.1) in EdgeIds(ev.edges) then Error
    else Ok(before + [ParallelSummary(pair, Sort(inputs, IdBefore))])
  }

  function GatherPairs(ev: Evidence, pairs: seq<Pair>): Result<seq<Core>> {
    if pairs == [] then Ok([])
    else
      match GatherPairs(ev, pairs[..|pairs| - 1])
      case Error => Error
      case Ok(before) => PairStep(ev, before, pairs[|pairs| - 1])
  }

  function ParallelSummaries(ev: Evidence): Result<seq<Core>> {
    if !Inventory(ev.nodes, ev.edges) || !EndsKnown(ev.nodes, ev.edges) then Error
    else GatherPairs(ev, Sort(PairsOf(ev, ev.edges), PairBefore))
  }

  /** All summaries of a version; only the first two versions are modelled. */
  function Derived(ev: Evidence, version: nat): Result<seq<Core>> {
    match GroupSummaries(ev)
    case Error => Error
    case Ok(groups) =>
      if version == 1 then Ok(groups)
      else if version != 2 then Error
      else
        match ParallelSummaries(ev)
        case Error => Error
        case Ok(parallel) => Ok(groups + parallel)
  }

  // ---------------------------------------------------------------------------
  // What derived summaries are
  // ---------------------------------------------------------------------------

  /** An edge of this identity runs between the same two objects. */
  ghost predicate RunsBetween(edges: seq<Core>, id: Id, source: Id, target: Id) {
    exists e :: e in edges && e.id == id && e.source == source && e.target == target
  }

  /** The summary's identity tells its ends. */
  ghost predicate Named(nodes: seq<NodeCore>, s: Core) {
    || (s.id == Parallel(s.source, s.target) && IsKind(nodes, s.source, Address))
    || (exists tx: string :: s.id == Text(PREFIX + tx) && s.source == Text(GROUP + tx) && s.target == Text(TX + tx))
  }

  /** The summary says what it counts; a group's says what the group's record says. */
  ghost predicate Worded(nodes: seq<NodeCore>, s: Core)
    requires s.details.summary.Some?
  {
    var summary := s.details.summary.value;
    && s.contextInput && s.outpoint.None? && s.wording == Counted(summary.inputCount, summary.addressCount)
    && (summary.parallel <==> s.id.Parallel?) && summary.version == (if summary.parallel then 2 else 1)
    && if summary.parallel then summary.addressCount == 1 else RecordSays(nodes, s.source, summary)
  }

  predicate RecordSays(nodes: seq<NodeCore>, group: Id, summary: Summary) {
    && IsKind(nodes, group, ContextGroup) && NodeOf(nodes, group).value.group.Some?
    && var d := NodeOf(nodes, group).value.group.value;
      d.inputIds == summary.members && d.inputCount == summary.inputCount && d.addressCount == summary.addressCount
  }

  /** A summary stands for one or more different edges between its own two ends, counts them, and lists them in order. */
  ghost predicate SummarySound(ev: Evidence, s: Core) {
    && s.details.summary.Some?
    && s.details.summary.value.inputCount == |s.details.summary.value.members| > 0
    && Distinct(s.details.summary.value.members) && Ascends(s.details.summary.value.members, IdBefore)
    && (forall m :: m in s.details.summary.value.members ==> RunsBetween(ev.edges, m, s.source, s.target))
    && s.id !in NodeIds(ev.nodes) && s.id !in EdgeIds(ev.edges)
    && Named(ev.nodes, s) && Worded(ev.nodes, s)
  }

  ghost predicate SummariesSound(ev: Evidence, summaries: seq<Core>) {
    && (forall i :: 0 <= i < |summaries| ==> SummarySound(ev, summaries[i]))
    && (forall i, j :: 0 <= i < j < |summaries| ==> EndsOf(summaries[i]) != EndsOf(summaries[j]))
  }

  lemma {:induction false} IncidentAreEdges(edges: seq<Core>, id: Id)
    ensures forall e :: e in Incident(edges, id) ==> e in edges
    decreases |edges|
  {
    if edges != [] {
      IncidentAreEdges(edges[..|edges| - 1], id);
    }
  }

  lemma IdOfEdge(edges: seq<Core>, id: Id)
    requires id in EdgeIds(edges)
    ensures exists e :: e in edges && e.id == id
  {
    var i :| 0 <= i < |edges| && EdgeIds(edges)[i] == id;
    assert edges[i] in edges && edges[i].id == id;
  }

  lemma GroupMembersRun(ev: Evidence, before: Gathered, id: Id, d: GroupDetails, keys: Keys)
    requires StartsWith(d.transaction, TX) && GroupFits(ev, before, id, d, keys)
    ensures forall m :: m in Sort(EdgeIds(Incident(ev.edges, id)), IdBefore) ==> RunsBetween(ev.edges, m, id, d.transaction)
  {
    var inputs := Incident(ev.edges, id);
    SortKeeps(EdgeIds(inputs), IdBefore);
    IncidentAreEdges(ev.edges, id);
    forall m | m in Sort(EdgeIds(inputs), IdBefore)
      ensures RunsBetween(ev.edges, m, id, d.transaction)
    {
      IdOfEdge(inputs, m);
      var e :| e in inputs && e.id == m;
      assert GroupInput(ev, before, id, d.transaction, e);
    }
  }

  lemma TxText(target: Id)
    requires StartsWith(target, TX)
    ensures target == Text(TX + TxId(target))
  {
  }

  lemma GroupNamed(nodes: seq<NodeCore>, s: Core, tx: string)
    requires s.id == Text(PREFIX + tx) && s.source == Text(GROUP + tx) && s.target == Text(TX + tx)
    ensures Named(nodes, s)
  {
  }

  lemma GroupSummarySound(ev: Evidence, before: Gathered, id: Id, d: GroupDetails, keys: Keys)
    requires StartsWith(d.transaction, TX) && GroupFits(ev, before, id, d, keys)
    requires IsKind(ev.nodes, id, ContextGroup) && id == Text(GROUP + TxId(d.transaction))
    requires NodeOf(ev.nodes, id).value.group == Some(d)
    ensures SummarySound(ev, GroupSummary(id, d.transaction, Sort(EdgeIds(Incident(ev.edges, id)), IdBefore), |keys.addresses|))
  {
    var inputIds := Sort(EdgeIds(Incident(ev.edges, id)), IdBefore);
    SortKeeps(EdgeIds(Incident(ev.edges, id)), IdBefore);
    IdOrder();
    SortAscends(EdgeIds(Incident(ev.edges, id)), IdBefore);
    GroupMembersRun(ev, before, id, d, keys);
    TxText(d.transaction);
    GroupNamed(ev.nodes, GroupSummary(id, d.transaction, inputIds, |keys.addresses|), TxId(d.transaction));
  }

  ghost predicate SourcesAmong(nodes: seq<NodeCore>, summaries: seq<Core>, ids: seq<Id>) {
    && (forall i :: 0 <= i < |summaries| ==> summaries[i].source in ids && IsKind(nodes, summaries[i].source, ContextGroup))
    && (forall i, j :: 0 <= i < j < |summaries| ==> summaries[i].source != summaries[j].source)
  }

  ghost predicate EachSound(ev: Evidence, summaries: seq<Core>) {
    forall i :: 0 <= i < |summaries| ==> SummarySound(ev, summaries[i])
  }

  lemma SourcesGrow(ev: Evidence, summaries: seq<Core>, ids: seq<Id>, s: Core, id: Id)
    requires SourcesAmong(ev.nodes, summaries, ids) && EachSound(ev, summaries) && id !in ids && s.source == id && SummarySound(ev, s)
    requires IsKind(ev.nodes, id, ContextGroup)
    ensures SourcesAmong(ev.nodes, summaries + [s], ids + [id]) && EachSound(ev, summaries + [s])
  {
  }

  /** One node adds at most one summary, starting at itself. */
  lemma GroupStepKeeps(ev: Evidence, before: Gathered, ids: seq<Id>, id: Id)
    requires id in NodeIds(ev.nodes) && GroupStep(ev, before, id).Ok?
    requires SourcesAmong(ev.nodes, before.summaries, ids) && EachSound(ev, before.summaries) && id !in ids
    ensures var after := GroupStep(ev, before, id).value.summaries; SourcesAmong(ev.nodes, after, ids + [id]) && EachSound(ev, after)
  {
    var node := NodeOf(ev.nodes, id).value;
    if node.kind.ContextGroup? {
      var d := node.group.value;
      var keys := Members(ev, before, d.members).value;
      GroupSummarySound(ev, before, id, d, keys);
      var s := GroupSummary(id, d.transaction, Sort(EdgeIds(Incident(ev.edges, id)), IdBefore), |keys.addresses|);
      SourcesGrow(ev, before.summaries, ids, s, id);
    }
  }

  lemma {:induction false} GroupsSound(ev: Evidence, ids: seq<Id>)
    requires (forall id :: id in ids ==> id in NodeIds(ev.nodes)) && Distinct(ids)
    ensures GatherGroups(ev, ids).Ok? ==> SourcesAmong(ev.nodes, GatherGroups(ev, ids).value.summaries, ids)
    ensures GatherGroups(ev, ids).Ok? ==> EachSound(ev, GatherGroups(ev, ids).value.summaries)
    decreases |ids|
  {
    if ids != [] {
      var front, id := ids[..|ids| - 1], ids[|ids| - 1];
      GroupsSound(ev, front);
      var gathered := GatherGroups(ev, front);
      assert id !in front && ids == front + [id];
      if gathered.Ok? && GroupStep(ev, gathered.value, id).Ok? {
        GroupStepKeeps(ev, gathered.value, front, id);
      }
    }
  }

  lemma {:induction false} BetweenAre(ev: Evidence, edges: seq<Core>, pair: Pair, m: Id)
    ensures m in InputsBetween(ev, edges, pair) ==> exists e :: e in edges && e.id == m && EndsOf(e) == pair && Bundles(ev, e)
    decreases |edges|
  {
    if edges != [] {
      BetweenAre(ev, edges[..|edges| - 1], pair, m);
      assert edges[|edges| - 1] in edges;
    }
  }

  lemma {:induction false} BetweenAmong(ev: Evidence, edges: seq<Core>, pair: Pair, m: Id)
    ensures m !in EdgeIds(edges) ==> m !in InputsBetween(ev, edges, pair)
    decreases |edges|
  {
    if edges != [] {
      var n := |edges| - 1;
      BetweenAmong(ev, edges[..n], pair, m);
      assert EdgeIds(edges) == EdgeIds(edges[..n]) + [edges[n].id];
    }
  }

  lemma {:induction false} BetweenDistinct(ev: Evidence, edges: seq<Core>, pair: Pair)
    requires Distinct(EdgeIds(edges))
    ensures Distinct(InputsBetween(ev, edges, pair))
    decreases |edges|
  {
    if edges != [] {
      var n := |edges| - 1;
      assert EdgeIds(edges[..n]) == EdgeIds(edges)[..n];
      BetweenDistinct(ev, edges[..n], pair);
      BetweenAmong(ev, edges[..n], pair, edges[n].id);
    }
  }

  lemma {:induction false} PairsDistinct(ev: Evidence, edges: seq<Core>)
    ensures Distinct(PairsOf(ev, edges))
    decreases |edges|
  {
    if edges != [] {
      PairsDistinct(ev, edges[..|edges| - 1]);
    }
  }

  lemma PairSummarySound(ev: Evidence, pair: Pair)
    requires Inventory(ev.nodes, ev.edges) && |InputsBetween(ev, ev.edges, pair)| >= 2
    requires Parallel(pair.0, pair.1) !in NodeIds(ev.nodes) && Parallel(pair.0, pair.1) !in EdgeIds(ev.edges)
    ensures SummarySound(ev, ParallelSummary(pair, Sort(InputsBetween(ev, ev.edges, pair), IdBefore)))
  {
    var inputs := InputsBetween(ev, ev.edges, pair);
    SortKeeps(inputs, IdBefore);
    IdOrder();
    SortAscends(inputs, IdBefore);
    BetweenDistinct(ev, ev.edges, pair);
    forall m | m in Sort(inputs, IdBefore)
      ensures RunsBetween(ev.edges, m, pair.0, pair.1)
    {
      BetweenAre(ev, ev.edges, pair, m);
      var e :| e in ev.edges && e.id == m && EndsOf(e) == pair;
      assert e.source == pair.0 && e.target == pair.1;
    }
    BetweenAre(ev, ev.edges, pair, inputs[0]);
  }

  ghost predicate EndsAmong(ev: Evidence, summaries: seq<Core>, pairs: seq<Pair>) {
    && (forall i :: 0 <= i < |summaries| ==> EndsOf(summaries[i]) in pairs && IsKind(ev.nodes, summaries[i].source, Address))
    && (forall i, j :: 0 <= i < j < |summaries| ==> EndsOf(summaries[i]) != EndsOf(summaries[j]))
  }

  lemma EndsGrow(ev: Evidence, summaries: seq<Core>, pairs: seq<Pair>, s: Core, pair: Pair)
    requires EndsAmong(ev, summaries, pairs) && EachSound(ev, summaries) && pair !in pairs
    requires EndsOf(s) == pair && IsKind(ev.nodes, pair.0, Address) && SummarySound(ev, s)
    ensures EndsAmong(ev, summaries + [s], pairs + [pair]) && EachSound(ev, summaries + [s])
  {
  }

  lemma PairStepKeeps(ev: Evidence, before: seq<Core>, pairs: seq<Pair>, pair: Pair)
    requires Inventory(ev.nodes, ev.edges) && PairStep(ev, before, pair).Ok?
    requires EndsAmong(ev, before, pairs) && EachSound(ev, before) && pair !in pairs
    ensures var after := PairStep(ev, before, pair).value; EndsAmong(ev, after, pairs + [pair]) && EachSound(ev, after)
  {
    var inputs := InputsBetween(ev, ev.edges, pair);
    if |inputs| >= 2 {
      PairSummarySound(ev, pair);
      BetweenAre(ev, ev.edges, pair, inputs[0]);
      EndsGrow(ev, before, pairs, ParallelSummary(pair, Sort(inputs, IdBefore)), pair);
    }
  }

  lemma {:induction false} PairsSound(ev: Evidence, pairs: seq<Pair>)
    requires Inventory(ev.nodes, ev.edges) && Distinct(pairs)
    ensures GatherPairs(ev, pairs).Ok? ==> EndsAmong(ev, GatherPairs(ev, pairs).value, pairs)
    ensures GatherPairs(ev, pairs).Ok? ==> EachSound(ev, GatherPairs(ev, pairs).value)
    decreases |pairs|
  {
    if pairs != [] {
      var front, pair := pairs[..|pairs| - 1], pairs[|pairs| - 1];
      PairsSound(ev, front);
      var gathered := GatherPairs(ev, front);
      assert pair !in front && pairs == front + [pair];
      if gathered.Ok? && PairStep(ev, gathered.value, pair).Ok? {
        PairStepKeeps(ev, gathered.value, front, pair);
      }
    }
  }

  /** The two kinds start at different kinds of objects, so no two summaries share both ends. */
  lemma KindsDiffer(nodes: seq<NodeCore>, group: Id, address: Id)
    requires IsKind(nodes, group, ContextGroup) && IsKind(nodes, address, Address)
    ensures group != address
  {
  }

  lemma GroupSummariesSound(ev: Evidence)
    requires GroupSummaries(ev).Ok?
    ensures Inventory(ev.nodes, ev.edges) && SummariesSound(ev, GroupSummaries(ev).value)
    ensures forall i :: 0 <= i < |GroupSummaries(ev).value| ==> IsKind(ev.nodes, GroupSummaries(ev).value[i].source, ContextGroup)
  {
    var ids := Sort(NodeIds(ev.nodes), IdBefore);
    SortKeeps(NodeIds(ev.nodes), IdBefore);
    GroupsSound(ev, ids);
  }

  lemma ParallelSummariesSound(ev: Evidence)
    requires ParallelSummaries(ev).Ok?
    ensures SummariesSound(ev, ParallelSummaries(ev).value)
    ensures forall i :: 0 <= i < |ParallelSummaries(ev).value| ==> IsKind(ev.nodes, ParallelSummaries(ev).value[i].source, Address)
  {
    PairsDistinct(ev, ev.edges);
    SortKeeps(PairsOf(ev, ev.edges), PairBefore);
    PairsSound(ev, Sort(PairsOf(ev, ev.edges), PairBefore));
  }

  /** Whatever is derived is sound: counted, between its own ends, and one summary to each pair of ends. */
  lemma DerivedSound(ev: Evidence, version: nat)
    requires Derived(ev, version).Ok?
    ensures Inventory(ev.nodes, ev.edges)
    ensures SummariesSound(ev, Derived(ev, version).value)
  {
    GroupSummariesSound(ev);
    if version == 2 {
      ParallelSummariesSound(ev);
      var groups, parallel := GroupSummaries(ev).value, ParallelSummaries(ev).value;
      forall i, j | 0 <= i < |groups| && 0 <= j < |parallel|
        ensures EndsOf(groups[i]) != EndsOf(parallel[j])
      {
        KindsDiffer(ev.nodes, groups[i].source, parallel[j].source);
      }
    }
  }

  // ---------------------------------------------------------------------------
  // In order
  // ---------------------------------------------------------------------------

  /** The summaries of groups stand in the order of their groups. */
  ghost predicate SourcesAscend(summaries: seq<Core>) {
    forall i, j :: 0 <= i < j < |summaries| ==> IdBefore(summaries[i].source, summaries[j].source)
  }

  /** Parallel summaries stand in the order of their ends. */
  ghost predicate EndsAscend(summaries: seq<Core>) {
    forall i, j :: 0 <= i < j < |summaries| ==> PairBefore(EndsOf(summaries[i]), EndsOf(summaries[j]))
  }

  /** In an ascending list without repetition every earlier element comes before the last. */
  lemma BeforeLast<T(!new)>(s: seq<T>, before: (T, T) -> bool)
    requires StrictOrder(before) && Ascends(s, before) && Distinct(s) && s != []
    ensures forall i :: 0 <= i < |s| - 1 ==> before(s[i], s[|s| - 1])
  {
  }

  lemma {:induction false} GroupsAscend(ev: Evidence, ids: seq<Id>)
    requires (forall id :: id in ids ==> id in NodeIds(ev.nodes)) && Distinct(ids) && Ascends(ids, IdBefore)
    ensures GatherGroups(ev, ids).Ok? ==> SourcesAscend(GatherGroups(ev, ids).value.summaries)
    decreases |ids|
  {
    if ids != [] && GatherGroups(ev, ids).Ok? {
      var front := ids[..|ids| - 1];
      GroupsAscend(ev, front);
      GroupsSound(ev, front);
      IdOrder();
      BeforeLast(ids, IdBefore);
    }
  }

  lemma {:induction false} PairsAscend(ev: Evidence, pairs: seq<Pair>)
    requires Inventory(ev.nodes, ev.edges) && Distinct(pairs) && Ascends(pairs, PairBefore)
    ensures GatherPairs(ev, pairs).Ok? ==> EndsAscend(GatherPairs(ev, pairs).value)
    decreases |pairs|
  {
    if pairs != [] && GatherPairs(ev, pairs).Ok? {
      var front := pairs[..|pairs| - 1];
      PairsAscend(ev, front);
      PairsSound(ev, front);
      PairOrder();
      BeforeLast(pairs, PairBefore);
    }
  }

  /** What a group's record must say, without sorting anything: its edges, once each and in ascending order. */
  ghost predicate GroupRecorded(ev: Evidence, before: Gathered, id: Id, d: GroupDetails, keys: Keys)
    requires StartsWith(d.transaction, TX)
  {
    var inputs := Incident(ev.edges, id);
    && |keys.addresses| >= 2 && inputs != []
    && Ascends(d.inputIds, IdBefore) && Distinct(d.inputIds) && multiset(d.inputIds) == multiset(EdgeIds(inputs))
    && d.inputCount == |inputs| && d.addressCount == |keys.addresses|
    && (set e | e in inputs :: e.originalSource) == (set k | k in keys.ids :: Some(k))
    && (forall e :: e in inputs ==> GroupInput(ev, before, id, d.transaction, e))
    && Text(PREFIX + TxId(d.transaction)) !in NodeIds(ev.nodes) && Text(PREFIX + TxId(d.transaction)) !in EdgeIds(ev.edges)
  }

  lemma RecordedOnce(listed: seq<Id>, ids: seq<Id>)
    ensures Distinct(Sort(ids, IdBefore)) && listed == Sort(ids, IdBefore) <==>
      Ascends(listed, IdBefore) && Distinct(listed) && multiset(listed) == multiset(ids)
  {
    IdOrder();
    SortAscends(ids, IdBefore);
    if Ascends(listed, IdBefore) && multiset(listed) == multiset(ids) {
      OneAscending(listed, Sort(ids, IdBefore), IdBefore);
    }
  }

  /** A group is accepted exactly when its record names its transaction, fits its members, and lists its edges in ascending order. */
  lemma GroupAccepted(ev: Evidence, before: Gathered, id: Id)
    requires id in NodeIds(ev.nodes) && IsKind(ev.nodes, id, ContextGroup)
    ensures GroupStep(ev, before, id).Ok? <==>
      && NodeOf(ev.nodes, id).value.group.Some?
      && var d := NodeOf(ev.nodes, id).value.group.value;
        && StartsWith(d.transaction, TX) && IsKind(ev.nodes, d.transaction, Transaction) && id == Text(GROUP + TxId(d.transaction))
        && Members(ev, before, d.members).Ok? && GroupRecorded(ev, before, id, d, Members(ev, before, d.members).value)
  {
    var node := NodeOf(ev.nodes, id).value;
    if node.group.Some? {
      RecordedOnce(node.group.value.inputIds, EdgeIds(Incident(ev.edges, id)));
    }
  }

  // ---------------------------------------------------------------------------
  // Nothing is left out, and nothing else is bundled
  // ---------------------------------------------------------------------------

  ghost predicate StandsFor(summaries: seq<Core>, id: Id, pair: Pair) {
    exists s :: s in summaries && EndsOf(s) == pair && s.details.summary.Some? && id in s.details.summary.value.members
  }

  lemma StandsForMore(summaries: seq<Core>, more: seq<Core>, id: Id, pair: Pair)
    requires StandsFor(summaries, id, pair) && forall s :: s in summaries ==> s in more
    ensures StandsFor(more, id, pair)
  {
    var s :| s in summaries && EndsOf(s) == pair && s.details.summary.Some? && id in s.details.summary.value.members;
    assert s in more;
  }

  lemma {:induction false} BetweenHas(ev: Evidence, edges: seq<Core>, e: Core)
    requires e in edges && Bundles(ev, e)
    ensures e.id in InputsBetween(ev, edges, EndsOf(e)) && EndsOf(e) in PairsOf(ev, edges)
    decreases |edges|
  {
    var n := |edges| - 1;
    if edges[n] != e {
      BetweenHas(ev, edges[..n], e);
    }
  }

  lemma {:induction false} PairIsGathered(ev: Evidence, pairs: seq<Pair>, pair: Pair, id: Id)
    requires GatherPairs(ev, pairs).Ok? && pair in pairs
    requires |InputsBetween(ev, ev.edges, pair)| >= 2 && id in InputsBetween(ev, ev.edges, pair)
    ensures StandsFor(GatherPairs(ev, pairs).value, id, pair)
    decreases |pairs|
  {
    var front, last := pairs[..|pairs| - 1], pairs[|pairs| - 1];
    var before := GatherPairs(ev, front).value;
    var after := GatherPairs(ev, pairs).value;
    if last == pair {
      var s := ParallelSummary(pair, Sort(InputsBetween(ev, ev.edges, pair), IdBefore));
      SortKeeps(InputsBetween(ev, ev.edges, pair), IdBefore);
      assert s in after;
    } else {
      PairIsGathered(ev, front, pair, id);
      StandsForMore(before, after, id, pair);
    }
  }

  /** Two or more inputs that may be bundled between one address and one transaction are all bundled. */
  lemma ParallelComplete(ev: Evidence, e: Core)
    requires ParallelSummaries(ev).Ok? && e in ev.edges && Bundles(ev, e) && |InputsBetween(ev, ev.edges, EndsOf(e))| >= 2
    ensures StandsFor(ParallelSummaries(ev).value, e.id, EndsOf(e))
  {
    BetweenHas(ev, ev.edges, e);
    SortKeeps(PairsOf(ev, ev.edges), PairBefore);
    PairIsGathered(ev, Sort(PairsOf(ev, ev.edges), PairBefore), EndsOf(e), e.id);
  }

  /** What a parallel summary stands for may be bundled. */
  lemma {:induction false} OnlyBundles(ev: Evidence, pairs: seq<Pair>, i: nat, m: Id)
    requires GatherPairs(ev, pairs).Ok? && i < |GatherPairs(ev, pairs).value|
    requires var s := GatherPairs(ev, pairs).value[i]; s.details.summary.Some? && m in s.details.summary.value.members
    ensures exists e :: e in ev.edges && e.id == m && EndsOf(e) == EndsOf(GatherPairs(ev, pairs).value[i]) && Bundles(ev, e)
    decreases |pairs|
  {
    var front, last := pairs[..|pairs| - 1], pairs[|pairs| - 1];
    var before := GatherPairs(ev, front).value;
    if i < |before| {
      OnlyBundles(ev, front, i, m);
    } else {
      SortKeeps(InputsBetween(ev, ev.edges, last), IdBefore);
      BetweenAre(ev, ev.edges, last, m);
    }
  }

  lemma ParallelAreSummaries(ev: Evidence, i: nat)
    requires ParallelSummaries(ev).Ok? && i < |ParallelSummaries(ev).value|
    ensures Distinct(EdgeIds(ev.edges)) && ParallelSummaries(ev).value[i].details.summary.Some?
  {
    ParallelSummariesSound(ev);
    assert SummarySound(ev, ParallelSummaries(ev).value[i]);
  }

  /** What spends a starting or designated output, or goes on from an output on display, is never bundled. */
  lemma ProtectedStays(ev: Evidence, e: Core, i: nat)
    requires ParallelSummaries(ev).Ok? && e in ev.edges && i < |ParallelSummaries(ev).value|
    requires (e.outpoint.Some? && (e.outpoint.value in ev.settings.seeds || e.outpoint.value in ev.settings.designated)) || Continues(ev, e)
    ensures var s := ParallelSummaries(ev).value[i]; s.details.summary.Some? && e.id !in s.details.summary.value.members
  {
    var s := ParallelSummaries(ev).value[i];
    ParallelAreSummaries(ev, i);
    if e.id in s.details.summary.value.members {
      OnlyBundles(ev, Sort(PairsOf(ev, ev.edges), PairBefore), i, e.id);
      var b :| b in ev.edges && b.id == e.id && EndsOf(b) == EndsOf(s) && Bundles(ev, b);
      OneCore(ev.edges, b, e);
    }
  }

  /** Edges with one identity are one edge. */
  lemma OneCore(edges: seq<Core>, a: Core, b: Core)
    requires Distinct(EdgeIds(edges)) && a in edges && b in edges && a.id == b.id
    ensures a == b
  {
    var j :| 0 <= j < |edges| && edges[j] == a;
    var k :| 0 <= k < |edges| && edges[k] == b;
    assert EdgeIds(edges)[j] == EdgeIds(edges)[k];
  }

  /** A group stands for plain, unprotected addresses only, none of them on display or a hub. */
  predicate Hideable(ev: Evidence, m: Member) {
    && m.isAddress && m.primary && !m.protected && m.id !in NodeIds(ev.nodes)
    && m.address.Some? && m.address.value !in VisibleAddresses(ev.nodes) && m.address.value !in ev.settings.hubs
  }

  lemma {:induction false} MembersHideable(ev: Evidence, before: Gathered, members: seq<Member>, m: Member)
    requires Members(ev, before, members).Ok? && m in members
    ensures Hideable(ev, m)
    decreases |members|
  {
    var n := |members| - 1;
    if members[n] != m {
      MembersHideable(ev, before, members[..n], m);
    }
  }

  lemma {:induction false} GroupsHideable(ev: Evidence, ids: seq<Id>, id: Id, m: Member)
    requires (forall x :: x in ids ==> x in NodeIds(ev.nodes)) && GatherGroups(ev, ids).Ok? && id in ids && IsKind(ev.nodes, id, ContextGroup)
    requires NodeOf(ev.nodes, id).value.group.Some? && m in NodeOf(ev.nodes, id).value.group.value.members
    ensures Hideable(ev, m)
    decreases |ids|
  {
    var front, last := ids[..|ids| - 1], ids[|ids| - 1];
    if last == id {
      MembersHideable(ev, GatherGroups(ev, front).value, NodeOf(ev.nodes, id).value.group.value.members, m);
    } else {
      GroupsHideable(ev, front, id, m);
    }
  }

  /** In an accepted graph every member of every group may be hidden. */
  lemma OnlyHideable(ev: Evidence, id: Id, m: Member)
    requires GroupSummaries(ev).Ok? && IsKind(ev.nodes, id, ContextGroup)
    requires NodeOf(ev.nodes, id).value.group.Some? && m in NodeOf(ev.nodes, id).value.group.value.members
    ensures Hideable(ev, m)
  {
    SortKeeps(NodeIds(ev.nodes), IdBefore);
    GroupsHideable(ev, Sort(NodeIds(ev.nodes), IdBefore), id, m);
  }

  lemma {:induction false} IncidentHas(edges: seq<Core>, e: Core)
    requires e in edges
    ensures e in Incident(edges, e.source) && e in Incident(edges, e.target)
    decreases |edges|
  {
    var n := |edges| - 1;
    if edges[n] != e {
      IncidentHas(edges[..n], e);
    }
  }

  lemma {:induction false} GroupIsGathered(ev: Evidence, ids: seq<Id>, id: Id, e: Core)
    requires (forall x :: x in ids ==> x in NodeIds(ev.nodes)) && GatherGroups(ev, ids).Ok? && id in ids
    requires IsKind(ev.nodes, id, ContextGroup) && e in Incident(ev.edges, id)
    ensures StandsFor(GatherGroups(ev, ids).value.summaries, e.id, EndsOf(e))
    decreases |ids|
  {
    var front, last := ids[..|ids| - 1], ids[|ids| - 1];
    var before := GatherGroups(ev, front).value;
    var after := GatherGroups(ev, ids).value;
    if last == id {
      GroupStandsFor(ev, before, id, e);
    } else {
      GroupIsGathered(ev, front, id, e);
      StandsForMore(before.summaries, after.summaries, e.id, EndsOf(e));
    }
  }

  lemma GroupStandsFor(ev: Evidence, before: Gathered, id: Id, e: Core)
    requires id in NodeIds(ev.nodes) && IsKind(ev.nodes, id, ContextGroup) && GroupStep(ev, before, id).Ok? && e in Incident(ev.edges, id)
    ensures StandsFor(GroupStep(ev, before, id).value.summaries, e.id, EndsOf(e))
  {
    var node := NodeOf(ev.nodes, id).value;
    var d := node.group.value;
    var keys := Members(ev, before, d.members).value;
    var inputs := Incident(ev.edges, id);
    var inputIds := Sort(EdgeIds(inputs), IdBefore);
    assert GroupInput(ev, before, id, d.transaction, e);
    SortKeeps(EdgeIds(inputs), IdBefore);
    var i :| 0 <= i < |inputs| && inputs[i] == e;
    assert EdgeIds(inputs)[i] == e.id;
    var s := GroupSummary(id, d.transaction, inputIds, |keys.addresses|);
    assert s in GroupStep(ev, before, id).value.summaries;
  }

  /** Every edge at a group of isolated addresses is stood for by the group's summary. */
  lemma GroupsComplete(ev: Evidence, id: Id, e: Core)
    requires GroupSummaries(ev).Ok? && IsKind(ev.nodes, id, ContextGroup) && e in ev.edges && (e.source == id || e.target == id)
    ensures StandsFor(GroupSummaries(ev).value, e.id, EndsOf(e))
  {
    SortKeeps(NodeIds(ev.nodes), IdBefore);
    IncidentHas(ev.edges, e);
    GroupIsGathered(ev, Sort(NodeIds(ev.nodes), IdBefore), id, e);
  }

  // ---------------------------------------------------------------------------
  // The same, as the source gathers it
  // ---------------------------------------------------------------------------

  /** Every edge at a group is stood for. */
  ghost predicate GroupsCovered(ev: Evidence, summaries: seq<Core>) {
    forall id, e :: IsKind(ev.nodes, id, ContextGroup) && e in ev.edges && (e.source == id || e.target == id) ==>
      StandsFor(summaries, e.id, EndsOf(e))
  }

  /** Every input that may be bundled with another of the same ends is. */
  ghost predicate ParallelCovered(ev: Evidence, summaries: seq<Core>) {
    forall e :: e in ev.edges && Bundles(ev, e) && |InputsBetween(ev, ev.edges, EndsOf(e))| >= 2 ==>
      StandsFor(summaries, e.id, EndsOf(e))
  }

  lemma GroupsAllCovered(ev: Evidence)
    requires GroupSummaries(ev).Ok?
    ensures SummariesSound(ev, GroupSummaries(ev).value) && GroupsCovered(ev, GroupSummaries(ev).value)
    ensures SourcesAscend(GroupSummaries(ev).value)
  {
    GroupSummariesSound(ev);
    IdOrder();
    SortKeeps(NodeIds(ev.nodes), IdBefore);
    SortAscends(NodeIds(ev.nodes), IdBefore);
    GroupsAscend(ev, Sort(NodeIds(ev.nodes), IdBefore));
    forall id, e | IsKind(ev.nodes, id, ContextGroup) && e in ev.edges && (e.source == id || e.target == id)
      ensures StandsFor(GroupSummaries(ev).value, e.id, EndsOf(e))
    {
      GroupsComplete(ev, id, e);
    }
  }

  lemma ParallelAllCovered(ev: Evidence)
    requires ParallelSummaries(ev).Ok?
    ensures SummariesSound(ev, ParallelSummaries(ev).value) && ParallelCovered(ev, ParallelSummaries(ev).value)
    ensures EndsAscend(ParallelSummaries(ev).value)
  {
    ParallelSummariesSound(ev);
    PairOrder();
    PairsDistinct(ev, ev.edges);
    SortKeeps(PairsOf(ev, ev.edges), PairBefore);
    SortAscends(PairsOf(ev, ev.edges), PairBefore);
    PairsAscend(ev, Sort(PairsOf(ev, ev.edges), PairBefore));
    forall e | e in ev.edges && Bundles(ev, e) && |InputsBetween(ev, ev.edges, EndsOf(e))| >= 2
      ensures StandsFor(ParallelSummaries(ev).value, e.id, EndsOf(e))
    {
      ParallelComplete(ev, e);
    }
  }

  method DeriveGroups(ev: Evidence) returns (derived: Result<seq<Core>>)
    ensures derived == GroupSummaries(ev)
    ensures derived.Ok? ==> SummariesSound(ev, derived.value) && GroupsCovered(ev, derived.value) && SourcesAscend(derived.value)
  {
    if !Inventory(ev.nodes, ev.edges) || ev.settings.controls.None? {
      return Error;
    }
    var controls := ev.settings.controls.value;
    if controls.version != 2 || !controls.enabled || !ev.settings.grouping || !EndsKnown(ev.nodes, ev.edges) {
      return Error;
    }
    SortKeeps(NodeIds(ev.nodes), IdBefore);
    var ids := Sort(NodeIds(ev.nodes), IdBefore);
    var all := Gathered([], {}, {}, {});
    for i := 0 to |ids|
      invariant GatherGroups(ev, ids[..i]) == Ok(all)
    {
      GroupsNext(ev, ids, i);
      var next := GroupStep(ev, all, ids[i]);
      if next.Error? {
        GroupsFail(ev, ids, i + 1);
        return Error;
      }
      all := next.value;
    }
    assert ids[..|ids|] == ids;
    derived := if ControlsMatch(controls, all) then Ok(all.summaries) else Error;
    if derived.Ok? {
      GroupsAllCovered(ev);
    }
  }

  lemma GroupsNext(ev: Evidence, ids: seq<Id>, i: nat)
    requires (forall id :: id in ids ==> id in NodeIds(ev.nodes)) && i < |ids| && GatherGroups(ev, ids[..i]).Ok?
    ensures GatherGroups(ev, ids[..i + 1]) == GroupStep(ev, GatherGroups(ev, ids[..i]).value, ids[i])
  {
    assert ids[..i + 1][..i] == ids[..i];
  }

  lemma PairsNext(ev: Evidence, pairs: seq<Pair>, i: nat)
    requires i < |pairs| && GatherPairs(ev, pairs[..i]).Ok?
    ensures GatherPairs(ev, pairs[..i + 1]) == PairStep(ev, GatherPairs(ev, pairs[..i]).value, pairs[i])
  {
    assert pairs[..i + 1][..i] == pairs[..i];
  }

  /** Once a node is refused, so is the graph. */
  lemma {:induction false} GroupsFail(ev: Evidence, ids: seq<Id>, i: nat)
    requires (forall id :: id in ids ==> id in NodeIds(ev.nodes)) && i <= |ids| && GatherGroups(ev, ids[..i]).Error?
    ensures GatherGroups(ev, ids).Error?
    decreases |ids|
  {
    if i < |ids| {
      assert ids[..|ids| - 1][..i] == ids[..i];
      GroupsFail(ev, ids[..|ids| - 1], i);
    } else {
      assert ids[..i] == ids;
    }
  }

  lemma {:induction false} PairsFail(ev: Evidence, pairs: seq<Pair>, i: nat)
    requires i <= |pairs| && GatherPairs(ev, pairs[..i]).Error?
    ensures GatherPairs(ev, pairs).Error?
    decreases |pairs|
  {
    if i < |pairs| {
      assert pairs[..|pairs| - 1][..i] == pairs[..i];
      PairsFail(ev, pairs[..|pairs| - 1], i);
    } else {
      assert pairs[..i] == pairs;
    }
  }

  /** The candidates gathered from some edges: by pair of ends, with the pairs in the order of their first edge. */
  ghost predicate CandidatesOf(ev: Evidence, edges: seq<Core>, order: seq<Pair>, candidates: map<Pair, seq<Id>>) {
    && order == PairsOf(ev, edges)
    && (forall pair: Pair :: pair in candidates <==> pair in order)
    && (forall pair: Pair {:trigger InputsIn(candidates, pair)} :: InputsIn(candidates, pair) == InputsBetween(ev, edges, pair))
  }

  function Put(candidates: map<Pair, seq<Id>>, pair: Pair, id: Id): map<Pair, seq<Id>> {
    candidates[pair := (if pair in candidates then candidates[pair] else []) + [id]]
  }

  function InputsIn(candidates: map<Pair, seq<Id>>, pair: Pair): seq<Id> {
    if pair in candidates then candidates[pair] else []
  }

  lemma BetweenNext(ev: Evidence, edges: seq<Core>, i: nat, pair: Pair)
    requires i < |edges|
    ensures InputsBetween(ev, edges[..i + 1], pair)
      == InputsBetween(ev, edges[..i], pair) + (if Bundles(ev, edges[i]) && EndsOf(edges[i]) == pair then [edges[i].id] else [])
  {
    assert edges[..i + 1][..i] == edges[..i];
  }

  lemma PairsOfNext(ev: Evidence, edges: seq<Core>, i: nat)
    requires i < |edges|
    ensures PairsOf(ev, edges[..i + 1]) ==
      if Bundles(ev, edges[i]) && EndsOf(edges[i]) !in PairsOf(ev, edges[..i]) then PairsOf(ev, edges[..i]) + [EndsOf(edges[i])] else PairsOf(ev, edges[..i])
  {
    assert edges[..i + 1][..i] == edges[..i];
  }

  lemma PutGathers(ev: Evidence, i: nat, order: seq<Pair>, candidates: map<Pair, seq<Id>>)
    requires i < |ev.edges| && CandidatesOf(ev, ev.edges[..i], order, candidates) && Bundles(ev, ev.edges[i])
    ensures var e := ev.edges[i];
      CandidatesOf(ev, ev.edges[..i + 1], if EndsOf(e) in candidates then order else order + [EndsOf(e)], Put(candidates, EndsOf(e), e.id))
  {
    var e := ev.edges[i];
    PairsOfNext(ev, ev.edges, i);
    forall pair: Pair
      ensures InputsIn(Put(candidates, EndsOf(e), e.id), pair) == InputsBetween(ev, ev.edges[..i + 1], pair)
    {
      BetweenNext(ev, ev.edges, i, pair);
      assert InputsIn(candidates, pair) == InputsBetween(ev, ev.edges[..i], pair);
    }
  }

  lemma OthersPass(ev: Evidence, i: nat, order: seq<Pair>, candidates: map<Pair, seq<Id>>)
    requires i < |ev.edges| && CandidatesOf(ev, ev.edges[..i], order, candidates) && !Bundles(ev, ev.edges[i])
    ensures CandidatesOf(ev, ev.edges[..i + 1], order, candidates)
  {
    PairsOfNext(ev, ev.edges, i);
    forall pair: Pair
      ensures InputsIn(candidates, pair) == InputsBetween(ev, ev.edges[..i + 1], pair)
    {
      BetweenNext(ev, ev.edges, i, pair);
      assert InputsIn(candidates, pair) == InputsBetween(ev, ev.edges[..i], pair);
    }
  }

  lemma CandidatesReady(ev: Evidence, order: seq<Pair>, candidates: map<Pair, seq<Id>>)
    requires CandidatesOf(ev, ev.edges, order, candidates)
    ensures forall pair: Pair :: pair in Sort(order, PairBefore) ==> pair in candidates && candidates[pair] == InputsBetween(ev, ev.edges, pair)
  {
    SortKeeps(order, PairBefore);
    forall pair: Pair | pair in Sort(order, PairBefore)
      ensures pair in candidates && candidates[pair] == InputsBetween(ev, ev.edges, pair)
    {
      assert InputsIn(candidates, pair) == InputsBetween(ev, ev.edges, pair);
    }
  }

  method Candidates(ev: Evidence) returns (order: seq<Pair>, candidates: map<Pair, seq<Id>>)
    ensures CandidatesOf(ev, ev.edges, order, candidates)
  {
    order, candidates := [], map[];
    for i := 0 to |ev.edges|
      invariant CandidatesOf(ev, ev.edges[..i], order, candidates)
    {
      var e := ev.edges[i];
      if Bundles(ev, e) {
        PutGathers(ev, i, order, candidates);
        if EndsOf(e) !in candidates {
          order := order + [EndsOf(e)];
        }
        candidates := Put(candidates, EndsOf(e), e.id);
      } else {
        OthersPass(ev, i, order, candidates);
      }
    }
    assert ev.edges[..|ev.edges|] == ev.edges;
  }

  /** Adds the summary of one pair, if it has inputs enough. */
  method AddPair(ev: Evidence, before: seq<Core>, pair: Pair, inputs: seq<Id>) returns (after: Result<seq<Core>>)
    requires inputs == InputsBetween(ev, ev.edges, pair)
    ensures after == PairStep(ev, before, pair)
  {
    if |inputs| < 2 {
      return Ok(before);
    }
    if Parallel(pair.0, pair.1) in NodeIds(ev.nodes) || Parallel(pair.0, pair.1) in EdgeIds(ev.edges) {
      return Error;
    }
    return Ok(before + [ParallelSummary(pair, Sort(inputs, IdBefore))]);
  }

  method DeriveParallel(ev: Evidence) returns (derived: Result<seq<Core>>)
    ensures derived == ParallelSummaries(ev)
    ensures derived.Ok? ==> SummariesSound(ev, derived.value) && ParallelCovered(ev, derived.value) && EndsAscend(derived.value)
  {
    if !Inventory(ev.nodes, ev.edges) || !EndsKnown(ev.nodes, ev.edges) {
      return Error;
    }
    var order, candidates := Candidates(ev);
    CandidatesReady(ev, order, candidates);
    derived := AddPairs(ev, Sort(order, PairBefore), candidates);
    if derived.Ok? {
      ParallelAllCovered(ev);
    }
  }

  method AddPairs(ev: Evidence, pairs: seq<Pair>, candidates: map<Pair, seq<Id>>) returns (derived: Result<seq<Core>>)
    requires forall pair: Pair :: pair in pairs ==> pair in candidates && candidates[pair] == InputsBetween(ev, ev.edges, pair)
    ensures derived == GatherPairs(ev, pairs)
  {
    var summaries: seq<Core> := [];
    for i := 0 to |pairs|
      invariant GatherPairs(ev, pairs[..i]) == Ok(summaries)
    {
      PairsNext(ev, pairs, i);
      var pair := pairs[i];
      assert pair in pairs;
      var next := AddPair(ev, summaries, pair, candidates[pair]);
      if next.Error? {
        PairsFail(ev, pairs, i + 1);
        return Error;
      }
      summaries := next.value;
    }
    assert pairs[..|pairs|] == pairs;
    return Ok(summaries);
  }
}
