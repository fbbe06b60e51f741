/** Completing a saved run with the spends its own transactions prove.

A run may hold both sides of a spend without a link between them. Completion
adds exactly those links, and refuses evidence that contradicts itself. */
module SavedEvidence {
  import opened Options
  import opened Sequences
  import opened Sets
  import opened Walks
  import opened Topology

  /** `context` marks coinbase and peg-in inputs, which spend no saved output;
  `agrees` says the input's own copy of the spent output matches the funding transaction. */
  datatype Vin = Vin(context: bool, parent: TxId, vout: int, agrees: bool)

  datatype OutputKind = Spendable | Fee | Unspendable

  /** `named` says the output's address belongs to the named group. */
  datatype Output = Output(kind: OutputKind, named: bool)

  datatype Tx = Tx(vins: seq<Vin>, outputs: seq<Output>)

  datatype Link = Link(child: TxId, vin: int)

  datatype Tracked = Tracked(txid: TxId, vout: int)

  datatype State = State(
    order: seq<TxId>,
    transactions: map<TxId, Tx>,
    outputs: map<Outpoint, Tracked>,
    links: map<Outpoint, Link>,
    seeds: set<Outpoint>)

  ghost predicate Wellformed(state: State) {
    Distinct(state.order) && Elems(state.order) == state.transactions.Keys
  }

  /** Input `vin` of saved transaction `child` spends saved output `key`. */
  predicate Spends(txs: map<TxId, Tx>, key: Outpoint, link: Link) {
    && link.child in txs
    && 0 <= link.vin < |txs[link.child].vins|
    && var vin := txs[link.child].vins[link.vin];
       !vin.context && vin.parent in txs && key == Outpoint(vin.parent, vin.vout)
  }

  predicate Sound(txs: map<TxId, Tx>, key: Outpoint, link: Link)
    requires Spends(txs, key, link)
  {
    && key.txid != link.child
    && 0 <= key.index < |txs[key.txid].outputs|
    && txs[link.child].vins[link.vin].agrees
  }

  predicate Recorded(state: State, key: Outpoint)
    requires key in state.links
  {
    && key in state.outputs
    && state.outputs[key] == Tracked(key.txid, key.index)
    && Spends(state.transactions, key, state.links[key])
  }

  predicate SeedExists(txs: map<TxId, Tx>, seed: Outpoint) {
    seed.txid in txs ==> seed.index < |txs[seed.txid].outputs|
  }

  ghost predicate SpendsSound(txs: map<TxId, Tx>) {
    forall key, link :: Spends(txs, key, link) ==> Sound(txs, key, link)
  }

  ghost predicate SpentOnce(txs: map<TxId, Tx>) {
    forall key, one, two :: Spends(txs, key, one) && Spends(txs, key, two) ==> one == two
  }

  ghost predicate LinksRecorded(state: State) {
    forall key :: key in state.links ==> Recorded(state, key)
  }

  ghost predicate SeedsExist(state: State) {
    forall seed :: seed in state.seeds ==> SeedExists(state.transactions, seed)
  }

  ghost predicate Consistent(state: State) {
    SpendsSound(state.transactions) && SpentOnce(state.transactions) && LinksRecorded(state) && SeedsExist(state)
  }

  /** The links are the functional set of saved inputs that spend saved outputs. */
  ghost predicate Complete(txs: map<TxId, Tx>, links: map<Outpoint, Link>) {
    forall key, link :: Spends(txs, key, link) <==> key in links && links[key] == link
  }

  /** A spend the scan has passed: by an earlier transaction, or by an earlier input of transaction `i`. */
  ghost predicate Passed(order: seq<TxId>, i: nat, j: nat, link: Link) {
    exists k :: 0 <= k < |order| && order[k] == link.child && (k < i || (k == i && link.vin < j))
  }

  /** `actual` is exactly the spends passed so far, all of them sound. */
  ghost predicate Scanned(order: seq<TxId>, txs: map<TxId, Tx>, i: nat, j: nat, actual: map<Outpoint, Link>) {
    && (forall key, link :: Spends(txs, key, link) && Passed(order, i, j, link) ==>
          Sound(txs, key, link) && key in actual && actual[key] == link)
    && (forall key :: key in actual ==> Spends(txs, key, actual[key]) && Passed(order, i, j, actual[key]))
  }

  /** Extending the scan by one input that is no saved spend. */
  lemma ScanSkip(order: seq<TxId>, txs: map<TxId, Tx>, i: nat, j: nat, actual: map<Outpoint, Link>)
    requires Distinct(order) && i < |order| && Scanned(order, txs, i, j, actual)
    requires forall key :: !Spends(txs, key, Link(order[i], j))
    ensures Scanned(order, txs, i, j + 1, actual)
  {
    forall key, link | Spends(txs, key, link) && Passed(order, i, j + 1, link)
      ensures Passed(order, i, j, link)
    {
      assert link != Link(order[i], j);
    }
  }

  lemma ScanAdd(order: seq<TxId>, txs: map<TxId, Tx>, i: nat, j: nat, actual: map<Outpoint, Link>, key: Outpoint)
    requires Distinct(order) && i < |order| && Scanned(order, txs, i, j, actual) && key !in actual
    requires Spends(txs, key, Link(order[i], j)) && Sound(txs, key, Link(order[i], j))
    ensures Scanned(order, txs, i, j + 1, actual[key := Link(order[i], j)])
  {
    var more := actual[key := Link(order[i], j)];
    forall other, link | Spends(txs, other, link) && Passed(order, i, j + 1, link)
      ensures Sound(txs, other, link) && other in more && more[other] == link
    {
      if !(link.child == order[i] && link.vin == j) {
        assert Passed(order, i, j, link);
        assert other != key;
      }
    }
    assert Passed(order, i, j + 1, Link(order[i], j));
    forall other | other in more
      ensures Spends(txs, other, more[other]) && Passed(order, i, j + 1, more[other])
    {
    }
  }

  lemma ScanRow(order: seq<TxId>, txs: map<TxId, Tx>, i: nat, actual: map<Outpoint, Link>)
    requires i < |order| && order[i] in txs && Scanned(order, txs, i, |txs[order[i]].vins|, actual)
    ensures Scanned(order, txs, i + 1, 0, actual)
  {
    forall key, link | Spends(txs, key, link) && Passed(order, i + 1, 0, link)
      ensures Passed(order, i, |txs[order[i]].vins|, link)
    {
    }
    forall key | key in actual
      ensures Passed(order, i + 1, 0, actual[key])
    {
    }
  }

  /** Reads every saved input; None is the error for an invalid reference or a double spend. */
  method Scan(order: seq<TxId>, txs: map<TxId, Tx>) returns (r: Option<map<Outpoint, Link>>)
    requires Distinct(order) && Elems(order) == txs.Keys
    ensures r.Some? <==> SpendsSound(txs) && SpentOnce(txs)
    ensures r.Some? ==> Complete(txs, r.value)
  {
    var actual: map<Outpoint, Link> := map[];
    for i := 0 to |order|
      invariant Scanned(order, txs, i, 0, actual)
    {
      var child := order[i];
      assert child in Elems(order);
      for j := 0 to |txs[child].vins|
        invariant Scanned(order, txs, i, j, actual)
      {
        var vin := txs[child].vins[j];
        var key, link := Outpoint(vin.parent, vin.vout), Link(child, j);
        if vin.context || vin.parent !in txs {
          ScanSkip(order, txs, i, j, actual);
        } else {
          assert Spends(txs, key, link);
          if vin.parent == child || !(0 <= vin.vout < |txs[vin.parent].outputs|) {
            return None;
          }
          if key in actual {
            Conflict(order, txs, i, j, actual, key);
            return None;
          }
          if !vin.agrees {
            return None;
          }
          ScanAdd(order, txs, i, j, actual, key);
          actual := actual[key := link];
        }
      }
      ScanRow(order, txs, i, actual);
    }
    ScanDone(order, txs, actual);
    return Some(actual);
  }

  lemma Conflict(order: seq<TxId>, txs: map<TxId, Tx>, i: nat, j: nat, actual: map<Outpoint, Link>, key: Outpoint)
    requires Distinct(order) && i < |order| && Scanned(order, txs, i, j, actual)
    requires key in actual && Spends(txs, key, Link(order[i], j))
    ensures !SpentOnce(txs)
  {
    assert Spends(txs, key, actual[key]);
    assert actual[key] != Link(order[i], j);
  }

  lemma ScanDone(order: seq<TxId>, txs: map<TxId, Tx>, actual: map<Outpoint, Link>)
    requires Elems(order) == txs.Keys && Scanned(order, txs, |order|, 0, actual)
    ensures SpendsSound(txs) && SpentOnce(txs) && Complete(txs, actual)
  {
    forall key, link | Spends(txs, key, link)
      ensures Sound(txs, key, link) && key in actual && actual[key] == link
    {
      assert link.child in Elems(order);
      var k :| 0 <= k < |order| && order[k] == link.child;
      assert Passed(order, |order|, 0, link);
    }
  }

  method CheckLinks(state: State, actual: map<Outpoint, Link>) returns (ok: bool)
    requires Complete(state.transactions, actual)
    ensures ok <==> LinksRecorded(state)
  {
    var todo := state.links.Keys;
    while todo != {}
      invariant todo <= state.links.Keys
      invariant forall key :: key in state.links && key !in todo ==> Recorded(state, key)
      decreases |todo|
    {
      var key := Pick(todo);
      var link := state.links[key];
      if key !in state.outputs || state.outputs[key] != Tracked(key.txid, key.index)
          || key !in actual || actual[key] != link {
        assert !Recorded(state, key);
        return false;
      }
      assert Spends(state.transactions, key, link);
      todo := todo - {key};
    }
    return true;
  }

  method CheckSeeds(state: State) returns (ok: bool)
    ensures ok <==> SeedsExist(state)
  {
    var todo := state.seeds;
    while todo != {}
      invariant todo <= state.seeds
      invariant forall seed :: seed in state.seeds && seed !in todo ==> SeedExists(state.transactions, seed)
      decreases |todo|
    {
      var seed := Pick(todo);
      if seed.txid in state.transactions && seed.index >= |state.transactions[seed.txid].outputs| {
        return false;
      }
      todo := todo - {seed};
    }
    return true;
  }

  /** The tracked output of `key`: the recorded one, or a new one naming the funding output. */
  function TrackedOf(outputs: map<Outpoint, Tracked>, key: Outpoint): Tracked {
    if key in outputs then outputs[key] else Tracked(key.txid, key.index)
  }

  ghost predicate Extends(before: map<Outpoint, Tracked>, after: map<Outpoint, Tracked>) {
    before.Keys <= after.Keys && forall key :: key in after ==> after[key] == TrackedOf(before, key)
  }

  ghost predicate Sublinks(links: map<Outpoint, Link>, all: map<Outpoint, Link>) {
    forall key :: key in links ==> key in all && links[key] == all[key]
  }

  lemma RecordedLinks(state: State, actual: map<Outpoint, Link>)
    requires Complete(state.transactions, actual) && LinksRecorded(state)
    ensures Sublinks(state.links, actual) && state.links.Keys <= state.outputs.Keys
  {
    forall key | key in state.links
      ensures key in actual && actual[key] == state.links[key] && key in state.outputs
    {
      assert Recorded(state, key);
    }
  }

  /** Adds the missing links, and a tracked output for each, without touching recorded ones. */
  method AddMissing(outputs0: map<Outpoint, Tracked>, links0: map<Outpoint, Link>, actual: map<Outpoint, Link>)
      returns (outputs: map<Outpoint, Tracked>, links: map<Outpoint, Link>)
    requires Sublinks(links0, actual) && links0.Keys <= outputs0.Keys
    ensures links == actual
    ensures Extends(outputs0, outputs) && outputs.Keys == outputs0.Keys + actual.Keys
  {
    outputs, links := outputs0, links0;
    var todo := actual.Keys;
    while todo != {}
      invariant forall key :: key in actual && key !in todo ==> key in links
      invariant forall key :: key in todo ==> key in actual
      invariant Sublinks(links, actual) && Sublinks(links0, links)
      invariant forall key :: key in links ==> key in outputs
      invariant forall key :: key in outputs ==> key in outputs0 || key in actual
      invariant Extends(outputs0, outputs)
      decreases todo
    {
      var key := Pick(todo);
      todo := todo - {key};
      if key !in links {
        outputs := outputs[key := TrackedOf(outputs, key)];
        links := links[key := actual[key]];
      }
    }
  }

  /** Succeeds exactly on consistent evidence, and then the links are all the saved spends and nothing else. */
  method CompleteEvidence(state: State) returns (r: Option<State>)
    requires Wellformed(state)
    ensures r.Some? <==> Consistent(state)
    ensures r.Some? ==>
      && r.value == state.(outputs := r.value.outputs, links := r.value.links)
      && Complete(state.transactions, r.value.links)
      && Sublinks(state.links, r.value.links)
      && Extends(state.outputs, r.value.outputs)
      && r.value.outputs.Keys == state.outputs.Keys + r.value.links.Keys
  {
    var scan := Scan(state.order, state.transactions);
    if scan.None? {
      return None;
    }
    var recorded := CheckLinks(state, scan.value);
    if !recorded {
      return None;
    }
    RecordedLinks(state, scan.value);
    var outputs, links := AddMissing(state.outputs, state.links, scan.value);
    var seeds := CheckSeeds(state);
    if !seeds {
      return None;
    }
    return Some(state.(outputs := outputs, links := links));
  }
}
