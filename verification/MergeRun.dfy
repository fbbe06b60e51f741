/** One run of the conversion, step by step, and any number of runs in a row. */
module MergeRun {
  import opened Options
  import opened Sets
  import opened AddressPlan
  import opened AddressMigration

  /** One durable commit. */
  method Commit(w0: World, saved: Saved, turns: Schedule) returns (w: World, ok: bool)
    ensures w == Tick(w0, turns) || w == Tick(w0, turns).(saved := saved)
    ensures ok ==> w == Tick(w0, turns).(saved := saved)
    ensures Smooth(turns) ==> ok
  {
    var fate := turns(w0.clock).fate;
    w := Tick(w0, turns);
    if fate != Stop {
      w := w.(saved := saved);
    }
    ok := fate == Go;
  }

  // ---------------------------------------------------------------------------
  // Rewiring one connector
  // ---------------------------------------------------------------------------

  function Mark1(saved: Saved, key: Key, mark: Mark): Saved
    requires saved.journal.Some?
  {
    var j := saved.journal.value;
    saved.(journal := Some(j.(patches := j.patches[key := mark])))
  }

  /** What rewiring steps leave alone. */
  predicate SameButPatches(before: Saved, after: Saved) {
    && before.journal.Some? && after.journal.Some?
    && after == before.(journal := after.journal)
    && after.journal.value == before.journal.value.(patches := after.journal.value.patches)
  }

  ghost predicate Started(plan: Plan, w: World) {
    w.saved.journal.Some? && w.saved.journal.value.plan == plan
  }

  /** Marking an attempt covers a connector wherever the PATCH leaves it. */
  lemma AttemptKeeps(items: Items, plan: Plan, b0: Board, w: World, key: Key)
    requires Sited(items, plan) && Underway(items, plan, b0, w) && Started(plan, w)
    requires key in plan.rewires && !Rewired(plan, w.saved.journal.value.patches, key)
    ensures Underway(items, plan, b0, w.(saved := Mark1(w.saved, key, Attempted)))
  {
    var j := w.saved.journal.value;
    var more := j.patches[key := Attempted];
    assert key in items && items[key].id in w.board.connectors;
    assert Covered(plan.rewires[key], j.patches, key, w.board.connectors[items[key].id]);
    forall k | k in plan.rewires && k in items
      ensures items[k].id in w.board.connectors && Covered(plan.rewires[k], more, k, w.board.connectors[items[k].id])
    {
      assert Covered(plan.rewires[k], j.patches, k, w.board.connectors[items[k].id]);
    }
    assert !AllRewired(plan, j.patches);
    assert forall k :: k !in j.deletions;
  }

  lemma PatchCovers(items: Items, plan: Plan, patches: map<Key, Mark>, board: Board, key: Key, ends: Attachment)
    requires Sited(items, plan) && ConnectorsCovered(items, plan, patches, board)
    requires key in plan.rewires && key in items && Covered(plan.rewires[key], patches, key, ends)
    ensures ConnectorsCovered(items, plan, patches, board.(connectors := board.connectors[items[key].id := ends]))
  {
    var after := board.connectors[items[key].id := ends];
    forall k | k in plan.rewires && k in items
      ensures items[k].id in after && Covered(plan.rewires[k], patches, k, after[items[k].id])
    {
      assert Covered(plan.rewires[k], patches, k, board.connectors[items[k].id]);
    }
  }

  lemma PatchSparesOthers(items: Items, plan: Plan, b0: Board, board: Board, key: Key, ends: Attachment)
    requires OthersKept(items, plan, b0, board) && key in plan.rewires && key in items
    ensures OthersKept(items, plan, b0, board.(connectors := board.connectors[items[key].id := ends]))
  {
    forall other | Foreign(items, plan, other)
      ensures other != items[key].id
    {
    }
  }

  /** The PATCH itself moves a covered connector to its place, and touches nothing else. */
  lemma PatchKeeps(items: Items, plan: Plan, b0: Board, w: World, key: Key)
    requires Sited(items, plan) && Underway(items, plan, b0, w) && Started(plan, w)
    requires key in plan.rewires && key in items && key in w.saved.journal.value.patches
    requires w.saved.journal.value.patches[key] == Attempted
    ensures var id := items[key].id;
      Underway(items, plan, b0, w.(board := w.board.(connectors := w.board.connectors[id := Attached(plan.rewires[key].after)])))
  {
    PatchCovers(items, plan, w.saved.journal.value.patches, w.board, key, Attached(plan.rewires[key].after));
    PatchSparesOthers(items, plan, b0, w.board, key, Attached(plan.rewires[key].after));
  }

  lemma DoneKeeps(items: Items, plan: Plan, b0: Board, w: World, key: Key)
    requires Sited(items, plan) && Underway(items, plan, b0, w) && Started(plan, w)
    requires key in plan.rewires && key in items && items[key].id in w.board.connectors
    requires w.board.connectors[items[key].id] == Attached(plan.rewires[key].after)
    ensures Underway(items, plan, b0, w.(saved := Mark1(w.saved, key, Done)))
  {
    var j := w.saved.journal.value;
    var more := j.patches[key := Done];
    forall k | k in plan.rewires && k in items
      ensures items[k].id in w.board.connectors && Covered(plan.rewires[k], more, k, w.board.connectors[items[k].id])
    {
      assert Covered(plan.rewires[k], j.patches, k, w.board.connectors[items[k].id]);
    }
    forall k | k in plan.rewires && Rewired(plan, j.patches, k)
      ensures Rewired(plan, more, k)
    {
    }
    assert MarksMeaningful(plan, j.(patches := more)) by {
      forall k | k in j.deletions
        ensures AllRewired(plan, more)
      {
        assert AllRewired(plan, j.patches);
      }
    }
  }

  /** Reads a connector again just before an edit; a third attachment is refused. */
  method Recheck(items: Items, plan: Plan, key: Key, w0: World, turns: Schedule, ghost b0: Board)
      returns (w: World, verdict: Verdict, seen: Attachment)
    requires Sited(items, plan) && key in plan.rewires && Started(plan, w0)
    ensures w.saved == w0.saved && w.board == Tick(w0, turns).board
    ensures Recorded(items, plan, turns, w0, w)
    ensures verdict == Interrupted <==> turns(w0.clock).fate != Go
    ensures verdict == Refused ==>
      items[key].id in w.board.connectors ==> !Allowed(plan.rewires[key], key in w.saved.journal.value.patches, w.board.connectors[items[key].id])
    ensures verdict == Proceed ==>
      && items[key].id in w.board.connectors && seen == w.board.connectors[items[key].id]
      && Allowed(plan.rewires[key], key in w.saved.journal.value.patches, seen) && JustSeen(items, w.log, key, seen)
    ensures Quiet(turns) && Underway(items, plan, b0, w0) ==>
      && verdict != Refused
      && (Smooth(turns) ==> verdict == Proceed)
      && (verdict == Proceed ==> Covered(plan.rewires[key], w.saved.journal.value.patches, key, seen))
  {
    var id := items[key].id;
    var fate := turns(w0.clock).fate;
    TickRecorded(items, plan, turns, w0, w0.saved);
    w := Tick(w0, turns);
    seen := Ends(None, None);
    if fate != Go {
      return w, Interrupted, seen;
    }
    NoteRecorded(items, plan, turns, w, Looked(key, w.board));
    w := Note(w, Looked(key, w.board));
    if id !in w.board.connectors {
      return w, Refused, seen;
    }
    seen := w.board.connectors[id];
    assert ConnectorsCovered(items, plan, w.saved.journal.value.patches, w.board) ==>
      Covered(plan.rewires[key], w.saved.journal.value.patches, key, seen);
    verdict := if Allowed(plan.rewires[key], key in w.saved.journal.value.patches, seen) then Proceed else Refused;
  }

  /** The rewiring loop's body: look again, then PATCH only what differs, and never over a third attachment. */
  method RewireOne(items: Items, plan: Plan, key: Key, w0: World, turns: Schedule, ghost b0: Board) returns (w: World, verdict: Verdict)
    requires Sited(items, plan) && key in plan.rewires && Started(plan, w0)
    ensures SameButPatches(w0.saved, w.saved)
    ensures forall k :: k in w0.saved.journal.value.patches && k != key ==>
      k in w.saved.journal.value.patches && w.saved.journal.value.patches[k] == w0.saved.journal.value.patches[k]
    ensures verdict == Proceed ==> Rewired(plan, w.saved.journal.value.patches, key)
    ensures Recorded(items, plan, turns, w0, w)
    ensures Quiet(turns) && Underway(items, plan, b0, w0) ==> Underway(items, plan, b0, w) && verdict != Refused
    ensures Smooth(turns) && Underway(items, plan, b0, w0) ==> verdict == Proceed
  {
    var entry := plan.rewires[key];
    if entry.before == entry.after {
      return w0, Proceed;
    }
    var seen;
    w, verdict, seen := Recheck(items, plan, key, w0, turns, b0);
    if verdict != Proceed {
      return;
    }
    if seen != Attached(entry.after) {
      w, verdict := SendPatch(items, plan, key, seen, w, turns, b0);
      if verdict != Proceed {
        return;
      }
    }
    w, verdict := MarkDone(items, plan, key, w, turns, b0);
  }

  method MarkDone(items: Items, plan: Plan, key: Key, w0: World, turns: Schedule, ghost b0: Board) returns (w: World, verdict: Verdict)
    requires Sited(items, plan) && key in plan.rewires && Started(plan, w0)
    requires items[key].id in w0.board.connectors && w0.board.connectors[items[key].id] == Attached(plan.rewires[key].after)
    ensures w.saved == w0.saved || w.saved == Mark1(w0.saved, key, Done)
    ensures Recorded(items, plan, turns, w0, w)
    ensures verdict == Proceed ==> w.saved == Mark1(w0.saved, key, Done)
    ensures Quiet(turns) && Underway(items, plan, b0, w0) ==> Underway(items, plan, b0, w) && verdict != Refused
    ensures Smooth(turns) ==> verdict == Proceed
  {
    if Quiet(turns) && Underway(items, plan, b0, w0) {
      DoneKeeps(items, plan, b0, w0, key);
    }
    var ok;
    TickRecorded(items, plan, turns, w0, w0.saved);
    TickRecorded(items, plan, turns, w0, Mark1(w0.saved, key, Done));
    w, ok := Commit(w0, Mark1(w0.saved, key, Done), turns);
    verdict := if ok then Proceed else Interrupted;
  }

  /** Some request is sent between the two. */
  predicate Sends(w0: World, w: World) {
    exists i :: |w0.log| <= i < |w.log| && (w.log[i].PatchSent? || w.log[i].DeleteSent?)
  }

  /** Journal the attempt, then send it. */
  method SendPatch(items: Items, plan: Plan, key: Key, seen: Attachment, w0: World, turns: Schedule, ghost b0: Board)
      returns (w: World, verdict: Verdict)
    requires Sited(items, plan) && key in plan.rewires && Started(plan, w0)
    requires items[key].id in w0.board.connectors && seen == w0.board.connectors[items[key].id]
    requires Allowed(plan.rewires[key], key in w0.saved.journal.value.patches, seen) && JustSeen(items, w0.log, key, seen)
    ensures SameButPatches(w0.saved, w.saved)
    ensures w.saved == w0.saved || w.saved == Mark1(w0.saved, key, Attempted)
    ensures Sends(w0, w) ==> w.saved == Mark1(w0.saved, key, Attempted)
    ensures verdict == Proceed ==> items[key].id in w.board.connectors && w.board.connectors[items[key].id] == Attached(plan.rewires[key].after)
    ensures Recorded(items, plan, turns, w0, w)
    ensures Quiet(turns) && Underway(items, plan, b0, w0) && !Rewired(plan, w0.saved.journal.value.patches, key)
      ==> Underway(items, plan, b0, w) && verdict != Refused && (Smooth(turns) ==> verdict == Proceed)
  {
    if Quiet(turns) && Underway(items, plan, b0, w0) && !Rewired(plan, w0.saved.journal.value.patches, key) {
      AttemptKeeps(items, plan, b0, w0, key);
    }
    var ok;
    TickRecorded(items, plan, turns, w0, w0.saved);
    TickRecorded(items, plan, turns, w0, Mark1(w0.saved, key, Attempted));
    w, ok := Commit(w0, Mark1(w0.saved, key, Attempted), turns);
    if !ok {
      return w, Interrupted;
    }
    w, verdict := Transmit(items, plan, key, seen, w, turns, b0);
  }

  predicate Attempting(saved: Saved, key: Key) {
    saved.journal.Some? && key in saved.journal.value.patches && saved.journal.value.patches[key] == Attempted
  }

  /** The request itself, once its attempt is recorded. */
  method Transmit(items: Items, plan: Plan, key: Key, seen: Attachment, w0: World, turns: Schedule, ghost b0: Board)
      returns (w: World, verdict: Verdict)
    requires Sited(items, plan) && key in plan.rewires && Started(plan, w0)
    requires Allowed(plan.rewires[key], true, seen) && JustSeen(items, w0.log, key, seen)
    requires Quiet(turns) ==> items[key].id in w0.board.connectors && seen == w0.board.connectors[items[key].id]
    ensures w.saved == w0.saved
    ensures verdict == Proceed ==> items[key].id in w.board.connectors && w.board.connectors[items[key].id] == Attached(plan.rewires[key].after)
    ensures Recorded(items, plan, turns, w0, w)
    ensures Quiet(turns) && Underway(items, plan, b0, w0) && Attempting(w0.saved, key) ==> Underway(items, plan, b0, w) && verdict != Refused
    ensures Smooth(turns) ==> verdict == Proceed
  {
    var entry, id := plan.rewires[key], items[key].id;
    ghost var tracked := Quiet(turns) && Underway(items, plan, b0, w0) && Attempting(w0.saved, key);
    var fate := turns(w0.clock).fate;
    TickRecorded(items, plan, turns, w0, w0.saved);
    w := Tick(w0, turns);
    if fate == Stop {
      return w, Interrupted;
    }
    var request := PatchSent(key, seen, Patched(items, plan, key, seen, w.board));
    NoteRecorded(items, plan, turns, w, request);
    if tracked {
      PatchKeeps(items, plan, b0, w, key);
    }
    w := Note(w, request);
    if id !in w.board.connectors {
      return w, Refused;
    }
    if fate == Vanish {
      return w, Interrupted;
    }
    verdict := if w.board.connectors[id] == Attached(entry.after) then Proceed else Refused;
  }

  /** Every connector of the plan in turn. */
  method RewireConnectors(items: Items, plan: Plan, w0: World, turns: Schedule, ghost b0: Board) returns (w: World, verdict: Verdict)
    requires Sited(items, plan) && Started(plan, w0)
    ensures SameButPatches(w0.saved, w.saved)
    ensures verdict == Proceed ==> AllRewired(plan, w.saved.journal.value.patches)
    ensures Recorded(items, plan, turns, w0, w)
    ensures Quiet(turns) && Underway(items, plan, b0, w0) ==> Underway(items, plan, b0, w) && verdict != Refused
    ensures Smooth(turns) && Underway(items, plan, b0, w0) ==> verdict == Proceed
  {
    w, verdict := w0, Proceed;
    var todo := plan.rewires.Keys;
    while todo != {} && verdict == Proceed
      invariant todo <= plan.rewires.Keys
      invariant SameButPatches(w0.saved, w.saved)
      invariant verdict == Proceed ==> forall k :: k in plan.rewires && k !in todo ==> Rewired(plan, w.saved.journal.value.patches, k)
      invariant Recorded(items, plan, turns, w0, w)
      invariant Quiet(turns) && Underway(items, plan, b0, w0) ==> Underway(items, plan, b0, w) && verdict != Refused
      invariant Smooth(turns) && Underway(items, plan, b0, w0) ==> verdict == Proceed
      decreases todo
    {
      var key := Pick(todo);
      w, verdict := RewireOne(items, plan, key, w, turns, b0);
      todo := todo - {key};
    }
  }

  // ---------------------------------------------------------------------------
  // The connector inventory
  // ---------------------------------------------------------------------------

  predicate Present(items: Items, plan: Plan, deletions: map<Key, Mark>, board: Board, key: Key)
    requires key in items
  {
    if items[key].Connector? then items[key].id in board.connectors
    else items[key].id in board.shapes || key in deletions
  }

  /** The inventory check for one connector of the board. */
  ghost predicate EntryFine(items: Items, plan: Plan, patches: map<Key, Mark>, detached: bool, id: ItemId, ends: Attachment) {
    && (detached || Foreign(items, plan, id) ==> Clear(items, plan, ends))
    && (forall k :: k in plan.rewires && k in items && items[k].id == id ==> Allowed(plan.rewires[k], k in patches, ends))
  }

  ghost predicate InventoryFine(items: Items, plan: Plan, patches: map<Key, Mark>, detached: bool, board: Board) {
    && (forall k :: k in plan.rewires && k in items ==> items[k].id in board.connectors)
    && (forall id :: id in board.connectors ==> EntryFine(items, plan, patches, detached, id, board.connectors[id]))
  }

  method CheckInventory(items: Items, plan: Plan, patches: map<Key, Mark>, detached: bool, board: Board) returns (ok: bool)
    requires Sited(items, plan)
    ensures ok <==> InventoryFine(items, plan, patches, detached, board)
  {
    var removedIds := set k | k in plan.removed && k in items :: items[k].id;
    var mapped := map k | k in plan.rewires && k in items :: items[k].id := k;
    if exists id :: id in mapped && id !in board.connectors {
      var id :| id in mapped && id !in board.connectors;
      assert items[mapped[id]].id !in board.connectors;
      return false;
    }
    forall k | k in plan.rewires && k in items
      ensures items[k].id in board.connectors
    {
      assert items[k].id in mapped;
    }
    var todo := board.connectors.Keys;
    while todo != {}
      invariant forall id :: id in todo ==> id in board.connectors
      invariant forall id :: id in board.connectors && id !in todo ==>
        EntryFine(items, plan, patches, detached, id, board.connectors[id])
      decreases todo
    {
      var id := Pick(todo);
      var fine := CheckEntry(items, plan, patches, detached, removedIds, mapped, id, board.connectors[id]);
      if !fine {
        return false;
      }
      todo := todo - {id};
    }
    return true;
  }

  method CheckEntry(items: Items, plan: Plan, patches: map<Key, Mark>, detached: bool, removedIds: set<ItemId>,
      mapped: map<ItemId, Key>, id: ItemId, ends: Attachment) returns (fine: bool)
    requires Sited(items, plan)
    requires forall i :: i in removedIds <==> exists k :: k in plan.removed && k in items && items[k].id == i
    requires forall i :: i in mapped ==> mapped[i] in plan.rewires && mapped[i] in items && items[mapped[i]].id == i
    requires forall k :: k in plan.rewires && k in items ==> items[k].id in mapped
    ensures fine <==> EntryFine(items, plan, patches, detached, id, ends)
  {
    var touching := (ends.source.Some? && ends.source.value in removedIds) || (ends.target.Some? && ends.target.value in removedIds);
    TouchingMeans(items, plan, removedIds, ends);
    if touching && (detached || id !in mapped) {
      assert id !in mapped ==> Foreign(items, plan, id);
      return false;
    }
    if id in mapped {
      return Allowed(plan.rewires[mapped[id]], mapped[id] in patches, ends);
    }
    return true;
  }

  lemma TouchingMeans(items: Items, plan: Plan, removedIds: set<ItemId>, ends: Attachment)
    requires forall id :: id in removedIds <==> exists k :: k in plan.removed && k in items && items[k].id == id
    ensures ((ends.source.Some? && ends.source.value in removedIds) || (ends.target.Some? && ends.target.value in removedIds))
      <==> !Clear(items, plan, ends)
  {
    if ends.source.Some? && ends.source.value in removedIds {
      var k :| k in plan.removed && k in items && items[k].id == ends.source.value;
      assert Touches(ends, items[k].id);
    }
    if ends.target.Some? && ends.target.value in removedIds {
      var k :| k in plan.removed && k in items && items[k].id == ends.target.value;
      assert Touches(ends, items[k].id);
    }
  }

  /** While nobody else edits a ready board, the first check always passes, and after rewiring so does the second. */
  lemma InventoryPasses(items: Items, plan: Plan, b0: Board, w: World, patches: map<Key, Mark>, detached: bool)
    requires Sited(items, plan) && Ready(items, plan, b0)
    requires OthersKept(items, plan, b0, w.board) && ConnectorsCovered(items, plan, patches, w.board)
    requires detached ==> AllRewired(plan, patches)
    ensures InventoryFine(items, plan, patches, detached, w.board)
  {
    forall id | id in w.board.connectors
      ensures EntryFine(items, plan, patches, detached, id, w.board.connectors[id])
    {
      var ends := w.board.connectors[id];
      forall k | k in plan.rewires && k in items && items[k].id == id
        ensures Allowed(plan.rewires[k], k in patches, ends) && (detached ==> Clear(items, plan, ends))
      {
        assert Covered(plan.rewires[k], patches, k, ends);
        if detached {
          assert Rewired(plan, patches, k);
          assert Clear(items, plan, Attached(plan.rewires[k].after));
        }
      }
    }
  }

  /** A detached inventory that passes has every mapped connector where the plan wants it. */
  lemma DetachedMeans(items: Items, plan: Plan, patches: map<Key, Mark>, board: Board)
    requires Sited(items, plan) && InventoryFine(items, plan, patches, true, board)
    ensures InventoryClear(items, plan, board)
    ensures forall k :: k in plan.rewires && k in items ==> board.connectors[items[k].id] == Attached(plan.rewires[k].after)
  {
    forall id | id in board.connectors
      ensures Clear(items, plan, board.connectors[id])
    {
      assert EntryFine(items, plan, patches, true, id, board.connectors[id]);
    }
    forall k | k in plan.rewires && k in items
      ensures board.connectors[items[k].id] == Attached(plan.rewires[k].after)
    {
      var ends := board.connectors[items[k].id];
      assert EntryFine(items, plan, patches, true, items[k].id, ends);
      ClearIsAfter(items, plan, k, ends);
    }
  }
}
