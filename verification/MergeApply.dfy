/** The whole conversion: review again, check, rewire, inspect, delete, switch. */
module MergeApply {
  import opened Options
  import opened Sets
  import opened AddressPlan
  import opened AddressMigration
  import opened MergeRun

  // ---------------------------------------------------------------------------
  // Deleting one retired circle
  // ---------------------------------------------------------------------------

  function MarkDeletion(saved: Saved, key: Key, mark: Mark): Saved
    requires saved.journal.Some?
  {
    var j := saved.journal.value;
    saved.(journal := Some(j.(deletions := j.deletions[key := mark])))
  }

  predicate SameButDeletions(before: Saved, after: Saved) {
    && before.journal.Some? && after.journal.Some?
    && after == before.(journal := after.journal)
    && after.journal.value == before.journal.value.(deletions := after.journal.value.deletions)
  }

  /** With every connector rewired and the others clear, nothing on the board touches a retired circle. */
  lemma NothingTouches(items: Items, plan: Plan, b0: Board, board: Board, patches: map<Key, Mark>, key: Key, id: ItemId)
    requires Sited(items, plan) && Ready(items, plan, b0) && AllRewired(plan, patches)
    requires ConnectorsCovered(items, plan, patches, board) && OthersKept(items, plan, b0, board)
    requires key in plan.removed && key in items && id in board.connectors
    ensures !Touches(board.connectors[id], items[key].id)
  {
    if k :| k in plan.rewires && k in items && items[k].id == id {
      assert Rewired(plan, patches, k) && Covered(plan.rewires[k], patches, k, board.connectors[id]);
      assert Clear(items, plan, Attached(plan.rewires[k].after));
    } else {
      assert Foreign(items, plan, id);
      assert Clear(items, plan, b0.connectors[id]);
    }
  }

  lemma RemoveIsLocal(items: Items, plan: Plan, b0: Board, board: Board, patches: map<Key, Mark>, key: Key)
    requires Sited(items, plan) && Ready(items, plan, b0) && AllRewired(plan, patches)
    requires ConnectorsCovered(items, plan, patches, board) && OthersKept(items, plan, b0, board)
    requires key in plan.removed && key in items
    ensures Remove(board, items[key].id).connectors == board.connectors
  {
    forall id | id in board.connectors
      ensures Detach(board.connectors[id], items[key].id) == board.connectors[id]
    {
      NothingTouches(items, plan, b0, board, patches, key, id);
    }
  }

  lemma RemoveCovers(items: Items, plan: Plan, deletions: map<Key, Mark>, b0: Board, board: Board, key: Key)
    requires ShapesCovered(items, plan, deletions, b0, board) && key in deletions && key in items
    ensures ShapesCovered(items, plan, deletions, b0, Remove(board, items[key].id))
  {
    var after := Remove(board, items[key].id);
    forall id | id in b0.shapes && id !in after.shapes
      ensures exists k :: k in deletions && k in items && items[k].id == id
    {
      if id in board.shapes {
        assert items[key].id == id;
      }
    }
  }

  lemma RemoveKeeps(items: Items, plan: Plan, b0: Board, w: World, key: Key)
    requires Sited(items, plan) && Ready(items, plan, b0) && Underway(items, plan, b0, w) && Started(plan, w)
    requires key in w.saved.journal.value.deletions && key in items
    ensures Underway(items, plan, b0, w.(board := Remove(w.board, items[key].id)))
  {
    var j := w.saved.journal.value;
    assert key in plan.removed && AllRewired(plan, j.patches);
    RemoveIsLocal(items, plan, b0, w.board, j.patches, key);
    RemoveCovers(items, plan, j.deletions, b0, w.board, key);
  }

  lemma MarkCovers(items: Items, plan: Plan, deletions: map<Key, Mark>, b0: Board, board: Board, key: Key, mark: Mark)
    requires ShapesCovered(items, plan, deletions, b0, board) && key in items
    requires mark == Done ==> items[key].id !in board.shapes
    ensures ShapesCovered(items, plan, deletions[key := mark], b0, board)
  {
    var more := deletions[key := mark];
    forall id | id in b0.shapes && id !in board.shapes
      ensures exists k :: k in more && k in items && items[k].id == id
    {
      var k :| k in deletions && k in items && items[k].id == id;
      assert k in more;
    }
  }

  lemma MarkKeeps(items: Items, plan: Plan, b0: Board, w: World, key: Key, mark: Mark)
    requires Underway(items, plan, b0, w) && Started(plan, w) && AllRewired(plan, w.saved.journal.value.patches)
    requires key in plan.removed && key in items && (mark == Done ==> items[key].id !in w.board.shapes)
    ensures Underway(items, plan, b0, w.(saved := MarkDeletion(w.saved, key, mark)))
  {
    MarkCovers(items, plan, w.saved.journal.value.deletions, b0, w.board, key, mark);
  }

  /** Look again: an absent circle is accepted only after a journaled attempt, a present one only untouched. */
  method RecheckShape(items: Items, plan: Plan, key: Key, w0: World, turns: Schedule, ghost b0: Board)
      returns (w: World, verdict: Verdict, present: bool)
    requires Sited(items, plan) && key in plan.removed && Started(plan, w0)
    ensures w.saved == w0.saved && w.board == Tick(w0, turns).board
    ensures Recorded(items, plan, turns, w0, w) && LastInventory(w.log) == LastInventory(w0.log)
    ensures verdict == Interrupted <==> turns(w0.clock).fate != Go
    ensures present <==> items[key].id in w.board.shapes
    ensures verdict == Refused ==> if present then !w.board.shapes[items[key].id] else key !in w.saved.journal.value.deletions
    ensures verdict == Proceed ==> if present then JustUntouched(items, w.log, key) else key in w.saved.journal.value.deletions
    ensures Quiet(turns) && Ready(items, plan, b0) && Underway(items, plan, b0, w0) ==>
      verdict != Refused && (Smooth(turns) ==> verdict == Proceed)
  {
    var id := items[key].id;
    var fate := turns(w0.clock).fate;
    TickRecorded(items, plan, turns, w0, w0.saved);
    w := Tick(w0, turns);
    present := id in w.board.shapes;
    if fate != Go {
      return w, Interrupted, present;
    }
    NoteRecorded(items, plan, turns, w, Looked(key, w.board));
    w := Note(w, Looked(key, w.board));
    if present {
      verdict := if w.board.shapes[id] then Proceed else Refused;
    } else {
      verdict := if key in w.saved.journal.value.deletions then Proceed else Refused;
    }
  }

  /** Journal the attempt, then send the DELETE; only a confirmed one goes on. */
  method SendDelete(items: Items, plan: Plan, key: Key, w0: World, turns: Schedule, ghost b0: Board)
      returns (w: World, verdict: Verdict)
    requires Sited(items, plan) && key in plan.removed && Started(plan, w0) && AllRewired(plan, w0.saved.journal.value.patches)
    requires JustUntouched(items, w0.log, key) && Inspected(items, plan, w0.log)
    requires Quiet(turns) ==> items[key].id in w0.board.shapes
    ensures w.saved == w0.saved || w.saved == MarkDeletion(w0.saved, key, Attempted)
    ensures verdict == Proceed ==> w.saved == MarkDeletion(w0.saved, key, Attempted) && items[key].id !in w.board.shapes
    ensures Sends(w0, w) ==> w.saved == MarkDeletion(w0.saved, key, Attempted)
    ensures Recorded(items, plan, turns, w0, w) && Inspected(items, plan, w.log)
    ensures Quiet(turns) && Ready(items, plan, b0) && Underway(items, plan, b0, w0) ==>
      Underway(items, plan, b0, w) && verdict != Refused && (Smooth(turns) ==> verdict == Proceed)
  {
    if Quiet(turns) && Ready(items, plan, b0) && Underway(items, plan, b0, w0) {
      MarkKeeps(items, plan, b0, w0, key, Attempted);
    }
    var ok;
    TickRecorded(items, plan, turns, w0, w0.saved);
    TickRecorded(items, plan, turns, w0, MarkDeletion(w0.saved, key, Attempted));
    w, ok := Commit(w0, MarkDeletion(w0.saved, key, Attempted), turns);
    if !ok {
      return w, Interrupted;
    }
    w, verdict := TransmitDelete(items, plan, key, w, turns, b0);
  }

  /** The request itself, once its attempt is recorded. */
  method TransmitDelete(items: Items, plan: Plan, key: Key, w0: World, turns: Schedule, ghost b0: Board)
      returns (w: World, verdict: Verdict)
    requires Sited(items, plan) && key in plan.removed && Started(plan, w0) && key in w0.saved.journal.value.deletions
    requires JustUntouched(items, w0.log, key) && Inspected(items, plan, w0.log)
    requires Quiet(turns) ==> items[key].id in w0.board.shapes
    ensures w.saved == w0.saved && (verdict == Proceed ==> items[key].id !in w.board.shapes)
    ensures Recorded(items, plan, turns, w0, w) && Inspected(items, plan, w.log)
    ensures Quiet(turns) && Ready(items, plan, b0) && Underway(items, plan, b0, w0) ==> Underway(items, plan, b0, w) && verdict != Refused
    ensures Smooth(turns) ==> verdict == Proceed
  {
    var id := items[key].id;
    var fate := turns(w0.clock).fate;
    TickRecorded(items, plan, turns, w0, w0.saved);
    w := Tick(w0, turns);
    if fate == Stop {
      return w, Interrupted;
    }
    var found := id in w.board.shapes;
    var request := DeleteSent(key, Deleted(items, key, w.board));
    NoteRecorded(items, plan, turns, w, request);
    if Quiet(turns) && Ready(items, plan, b0) && Underway(items, plan, b0, w0) {
      RemoveKeeps(items, plan, b0, w, key);
    }
    w := Note(w, request);
    if !found {
      return w, Refused;
    }
    verdict := if fate == Vanish then Interrupted else Proceed;
  }

  method DeleteOne(items: Items, plan: Plan, key: Key, w0: World, turns: Schedule, ghost b0: Board)
      returns (w: World, verdict: Verdict)
    requires Sited(items, plan) && key in plan.removed && Started(plan, w0) && AllRewired(plan, w0.saved.journal.value.patches)
    requires Inspected(items, plan, w0.log)
    ensures SameButDeletions(w0.saved, w.saved)
    ensures forall k :: k in w0.saved.journal.value.deletions && k != key ==>
      k in w.saved.journal.value.deletions && w.saved.journal.value.deletions[k] == w0.saved.journal.value.deletions[k]
    ensures verdict == Proceed ==> key in w.saved.journal.value.deletions && w.saved.journal.value.deletions[key] == Done
    ensures Recorded(items, plan, turns, w0, w) && Inspected(items, plan, w.log)
    ensures Quiet(turns) && Ready(items, plan, b0) && Underway(items, plan, b0, w0) ==>
      Underway(items, plan, b0, w) && verdict != Refused && (Smooth(turns) ==> verdict == Proceed)
  {
    var present;
    w, verdict, present := RecheckShape(items, plan, key, w0, turns, b0);
    if verdict != Proceed {
      return;
    }
    if present {
      w, verdict := SendDelete(items, plan, key, w, turns, b0);
      if verdict != Proceed {
        return;
      }
    }
    w, verdict := MarkDeleted(items, plan, key, w, turns, b0);
  }

  method MarkDeleted(items: Items, plan: Plan, key: Key, w0: World, turns: Schedule, ghost b0: Board)
      returns (w: World, verdict: Verdict)
    requires Sited(items, plan) && key in plan.removed && Started(plan, w0) && AllRewired(plan, w0.saved.journal.value.patches)
    requires Quiet(turns) && Underway(items, plan, b0, w0) ==> items[key].id !in w0.board.shapes
    ensures w.saved == w0.saved || w.saved == MarkDeletion(w0.saved, key, Done)
    ensures Recorded(items, plan, turns, w0, w) && LastInventory(w.log) == LastInventory(w0.log)
    ensures verdict == Proceed ==> w.saved == MarkDeletion(w0.saved, key, Done)
    ensures Quiet(turns) && Underway(items, plan, b0, w0) ==> Underway(items, plan, b0, w) && verdict != Refused
    ensures Smooth(turns) ==> verdict == Proceed
  {
    if Quiet(turns) && Underway(items, plan, b0, w0) {
      MarkKeeps(items, plan, b0, w0, key, Done);
    }
    var ok;
    TickRecorded(items, plan, turns, w0, w0.saved);
    TickRecorded(items, plan, turns, w0, MarkDeletion(w0.saved, key, Done));
    w, ok := Commit(w0, MarkDeletion(w0.saved, key, Done), turns);
    verdict := if ok then Proceed else Interrupted;
  }

  ghost predicate AllDeleted(plan: Plan, deletions: map<Key, Mark>) {
    forall k :: k in plan.removed ==> k in deletions && deletions[k] == Done
  }

  method DeleteCircles(items: Items, plan: Plan, w0: World, turns: Schedule, ghost b0: Board) returns (w: World, verdict: Verdict)
    requires Sited(items, plan) && Started(plan, w0) && AllRewired(plan, w0.saved.journal.value.patches)
    requires Inspected(items, plan, w0.log)
    ensures SameButDeletions(w0.saved, w.saved)
    ensures verdict == Proceed ==> AllDeleted(plan, w.saved.journal.value.deletions)
    ensures Recorded(items, plan, turns, w0, w)
    ensures Quiet(turns) && Ready(items, plan, b0) && Underway(items, plan, b0, w0) ==>
      Underway(items, plan, b0, w) && verdict != Refused && (Smooth(turns) ==> verdict == Proceed)
  {
    w, verdict := w0, Proceed;
    var todo := plan.removed;
    while todo != {} && verdict == Proceed
      invariant todo <= plan.removed && SameButDeletions(w0.saved, w.saved) && Inspected(items, plan, w.log)
      invariant verdict == Proceed ==> forall k :: k in plan.removed && k !in todo ==>
        k in w.saved.journal.value.deletions && w.saved.journal.value.deletions[k] == Done
      invariant Recorded(items, plan, turns, w0, w)
      invariant Quiet(turns) && Ready(items, plan, b0) && Underway(items, plan, b0, w0) ==>
        Underway(items, plan, b0, w) && verdict != Refused && (Smooth(turns) ==> verdict == Proceed)
      decreases todo
    {
      var key := Pick(todo);
      w, verdict := DeleteOne(items, plan, key, w, turns, b0);
      todo := todo - {key};
    }
  }

  // ---------------------------------------------------------------------------
  // Before the first write
  // ---------------------------------------------------------------------------

  function Deletions(saved: Saved): map<Key, Mark> {
    if saved.journal.Some? then saved.journal.value.deletions else map[]
  }

  function Patches(saved: Saved): map<Key, Mark> {
    if saved.journal.Some? then saved.journal.value.patches else map[]
  }

  ghost predicate AllPresent(items: Items, plan: Plan, deletions: map<Key, Mark>, board: Board) {
    forall k :: k in items ==> Present(items, plan, deletions, board, k)
  }

  ghost predicate DuplicatesUntouched(items: Items, plan: Plan, board: Board) {
    forall k :: k in plan.removed && k in items && items[k].id in board.shapes ==> board.shapes[items[k].id]
  }

  lemma PrecheckPasses(items: Items, plan: Plan, b0: Board, w: World)
    requires Sited(items, plan) && Ready(items, plan, b0) && Underway(items, plan, b0, w)
    requires forall k :: k in items && items[k].Connector? ==> k in plan.rewires
    ensures AllPresent(items, plan, Deletions(w.saved), w.board) && DuplicatesUntouched(items, plan, w.board)
    ensures InventoryFine(items, plan, Patches(w.saved), false, w.board)
  {
    var deletions, patches := Deletions(w.saved), Patches(w.saved);
    assert ConnectorsCovered(items, plan, patches, w.board);
    assert OthersKept(items, plan, b0, w.board);
    InventoryPasses(items, plan, b0, w, patches, false);
    assert ShapesCovered(items, plan, deletions, b0, w.board);
    forall k | k in items
      ensures Present(items, plan, deletions, w.board, k)
    {
      if !items[k].Connector? && items[k].id !in w.board.shapes {
        var j :| j in deletions && j in items && items[j].id == items[k].id;
      }
    }
  }

  /** Two readings, of the mapped items and of all connectors, were as they should be. */
  ghost predicate ReadFine(items: Items, plan: Plan, w0: World, w: World) {
    exists one, two :: w.log == w0.log + [Elapsed(one), ItemsRead(one), Elapsed(two), InventoryRead(two)]
      && AllPresent(items, plan, Deletions(w0.saved), one) && DuplicatesUntouched(items, plan, one)
      && InventoryFine(items, plan, Patches(w0.saved), false, two)
  }

  /** Reads all mapped items. */
  method ReadItems(items: Items, plan: Plan, w0: World, turns: Schedule) returns (w: World, verdict: Verdict)
    ensures w.saved == w0.saved && w.board == Edited(turns, w0.clock, w0.board) && Recorded(items, plan, turns, w0, w)
    ensures verdict == Interrupted <==> turns(w0.clock).fate != Go
    ensures verdict != Interrupted ==> w.log == w0.log + [Elapsed(w.board), ItemsRead(w.board)]
    ensures verdict != Interrupted ==> (verdict == Proceed <==> AllPresent(items, plan, Deletions(w.saved), w.board))
  {
    var fate := turns(w0.clock).fate;
    TickRecorded(items, plan, turns, w0, w0.saved);
    w := Tick(w0, turns);
    if fate != Go {
      return w, Interrupted;
    }
    NoteRecorded(items, plan, turns, w, ItemsRead(w.board));
    w := Note(w, ItemsRead(w.board));
    verdict := if exists k :: k in items && !Present(items, plan, Deletions(w.saved), w.board, k) then Refused else Proceed;
  }

  /** Reads every connector of the board, mapped or not, and checks them all. */
  method ReadInventory(items: Items, plan: Plan, detached: bool, w0: World, turns: Schedule) returns (w: World, verdict: Verdict)
    requires Sited(items, plan)
    ensures w.saved == w0.saved && w.board == Edited(turns, w0.clock, w0.board) && Recorded(items, plan, turns, w0, w)
    ensures verdict == Interrupted <==> turns(w0.clock).fate != Go
    ensures verdict != Interrupted ==> w.log == w0.log + [Elapsed(w.board), InventoryRead(w.board)] && LastInventory(w.log) == Some(w.board)
    ensures verdict != Interrupted ==> (verdict == Proceed <==> InventoryFine(items, plan, Patches(w.saved), detached, w.board))
  {
    var fate := turns(w0.clock).fate;
    TickRecorded(items, plan, turns, w0, w0.saved);
    w := Tick(w0, turns);
    if fate != Go {
      return w, Interrupted;
    }
    NoteRecorded(items, plan, turns, w, InventoryRead(w.board));
    w := Note(w, InventoryRead(w.board));
    var fine := CheckInventory(items, plan, Patches(w.saved), detached, w.board);
    verdict := if fine then Proceed else Refused;
  }

  lemma BothRead(items: Items, plan: Plan, w0: World, w1: World, w: World)
    requires w1.log == w0.log + [Elapsed(w1.board), ItemsRead(w1.board)] && w.log == w1.log + [Elapsed(w.board), InventoryRead(w.board)]
    requires AllPresent(items, plan, Deletions(w0.saved), w1.board) && DuplicatesUntouched(items, plan, w1.board)
    requires InventoryFine(items, plan, Patches(w0.saved), false, w.board)
    ensures ReadFine(items, plan, w0, w)
  {
    assert w.log == w0.log + [Elapsed(w1.board), ItemsRead(w1.board), Elapsed(w.board), InventoryRead(w.board)];
  }

  /** The read-only checks of a run: all mapped items, the connector inventory, the duplicates. */
  method Precheck(items: Items, plan: Plan, w0: World, turns: Schedule, ghost b0: Board) returns (w: World, verdict: Verdict)
    requires Sited(items, plan) && forall k :: k in items && items[k].Connector? ==> k in plan.rewires
    ensures w.saved == w0.saved
    ensures Recorded(items, plan, turns, w0, w)
    ensures Quiet(turns) ==> w.board == w0.board
    ensures Quiet(turns) && Ready(items, plan, b0) && Underway(items, plan, b0, w0) ==> verdict != Refused && (Smooth(turns) ==> verdict == Proceed)
    ensures Quiet(turns) && w0.saved.journal.None? && verdict == Proceed ==> Ready(items, plan, w0.board)
    ensures verdict == Proceed ==> ReadFine(items, plan, w0, w)
  {
    if Ready(items, plan, b0) && Underway(items, plan, b0, w0) {
      PrecheckPasses(items, plan, b0, w0);
    }
    w, verdict := ReadItems(items, plan, w0, turns);
    if verdict != Proceed {
      return;
    }
    var read := w.board;
    ghost var w1 := w;
    w, verdict := ReadInventory(items, plan, false, w, turns);
    RecordedOn(items, plan, turns, w0, w1, w);
    if verdict != Proceed {
      return;
    }
    if exists k :: k in plan.removed && k in items && items[k].id in read.shapes && !read.shapes[items[k].id] {
      return w, Refused;
    }
    if Quiet(turns) && w0.saved.journal.None? {
      FreshIsReady(items, plan, w.board);
    }
    BothRead(items, plan, w0, w1, w);
    return w, Proceed;
  }

  /** With no journal yet, passing the checks is being ready. */
  lemma FreshIsReady(items: Items, plan: Plan, board: Board)
    requires Sited(items, plan) && AllPresent(items, plan, map[], board) && DuplicatesUntouched(items, plan, board)
    requires InventoryFine(items, plan, map[], false, board)
    ensures Ready(items, plan, board)
  {
    forall k | k in plan.rewires && k in items
      ensures items[k].id in board.connectors && board.connectors[items[k].id] == Attached(plan.rewires[k].before)
    {
      assert EntryFine(items, plan, map[], false, items[k].id, board.connectors[items[k].id]);
    }
    forall k | k in items && !items[k].Connector?
      ensures items[k].id in board.shapes
    {
      assert Present(items, plan, map[], board, k);
    }
    forall id | id in board.connectors && Foreign(items, plan, id)
      ensures Clear(items, plan, board.connectors[id])
    {
      assert EntryFine(items, plan, map[], false, id, board.connectors[id]);
    }
  }

  /** The backup of the unchanged mapping, unless it is there already. */
  method KeepBackup(items: Items, plan: Plan, w0: World, turns: Schedule, ghost b0: Board) returns (w: World, verdict: Verdict)
    requires w0.saved.items == items && w0.saved.journal.None?
    ensures Recorded(items, plan, turns, w0, w) && w.saved == w0.saved.(backup := w.saved.backup)
    ensures verdict == Proceed ==> w.saved.backup == Some(Backup(plan, items))
    ensures verdict == Refused <==> w0.saved.backup.Some? && w0.saved.backup.value != Backup(plan, items)
    ensures Quiet(turns) ==> w.board == w0.board
    ensures Quiet(turns) && Underway(items, plan, b0, w0) ==>
      Underway(items, plan, b0, w) && verdict != Refused && (Smooth(turns) ==> verdict == Proceed)
  {
    var backup := Backup(plan, items);
    if w0.saved.backup.Some? {
      return w0, if w0.saved.backup.value == backup then Proceed else Refused;
    }
    var ok;
    TickRecorded(items, plan, turns, w0, w0.saved);
    TickRecorded(items, plan, turns, w0, w0.saved.(backup := Some(backup)));
    w, ok := Commit(w0, w0.saved.(backup := Some(backup)), turns);
    verdict := if ok then Proceed else Interrupted;
  }

  /** The backup and the journal, both saved before any board write. */
  method Begin(items: Items, plan: Plan, w0: World, turns: Schedule, ghost b0: Board) returns (w: World, verdict: Verdict)
    requires w0.saved.items == items && (w0.saved.journal.Some? ==> w0.saved.journal.value.plan == plan)
    ensures w.saved.items == items && w.saved.merged == w0.saved.merged
    ensures Recorded(items, plan, turns, w0, w)
    ensures verdict == Proceed ==> Started(plan, w) && w.saved.backup == Some(Backup(plan, items))
    ensures Quiet(turns) ==> w.board == w0.board
    ensures Quiet(turns) && Sited(items, plan) && Ready(items, plan, b0) && Underway(items, plan, b0, w0) ==>
      Underway(items, plan, b0, w) && verdict != Refused && (Smooth(turns) ==> verdict == Proceed)
  {
    w := w0;
    if w.saved.journal.Some? {
      return w, if w.saved.backup == Some(Backup(plan, items)) then Proceed else Refused;
    }
    w, verdict := KeepBackup(items, plan, w, turns, b0);
    if verdict != Proceed {
      return;
    }
    ghost var w1 := w;
    w, verdict := OpenJournal(items, plan, w, turns, b0);
    RecordedOn(items, plan, turns, w0, w1, w);
  }

  method OpenJournal(items: Items, plan: Plan, w0: World, turns: Schedule, ghost b0: Board) returns (w: World, verdict: Verdict)
    requires w0.saved.items == items && w0.saved.journal.None? && w0.saved.backup == Some(Backup(plan, items))
    ensures Recorded(items, plan, turns, w0, w) && verdict != Refused
    ensures w.saved == w0.saved || w.saved == w0.saved.(journal := Some(Journal(plan, map[], map[])))
    ensures verdict == Proceed ==> w.saved.journal.Some?
    ensures Quiet(turns) ==> w.board == w0.board
    ensures Quiet(turns) && Sited(items, plan) && Ready(items, plan, b0) && Underway(items, plan, b0, w0) ==> Underway(items, plan, b0, w)
    ensures Smooth(turns) ==> verdict == Proceed
  {
    var started;
    TickRecorded(items, plan, turns, w0, w0.saved);
    TickRecorded(items, plan, turns, w0, w0.saved.(journal := Some(Journal(plan, map[], map[]))));
    w, started := Commit(w0, w0.saved.(journal := Some(Journal(plan, map[], map[]))), turns);
    verdict := if started then Proceed else Interrupted;
  }

  // ---------------------------------------------------------------------------
  // Between rewiring and deleting, and the switch
  // ---------------------------------------------------------------------------

  /** The complete inventory after all rewires: without it nothing is deleted. */
  method Inspect(items: Items, plan: Plan, w0: World, turns: Schedule, ghost b0: Board) returns (w: World, verdict: Verdict)
    requires Sited(items, plan) && Started(plan, w0) && AllRewired(plan, w0.saved.journal.value.patches)
    ensures w.saved == w0.saved
    ensures w.board == Edited(turns, w0.clock, w0.board) && (verdict == Interrupted <==> turns(w0.clock).fate != Go)
    ensures verdict != Interrupted ==>
      && w.log == w0.log + [Elapsed(w.board), InventoryRead(w.board)]
      && (verdict == Proceed <==> InventoryFine(items, plan, w.saved.journal.value.patches, true, w.board))
    ensures verdict == Proceed ==> InventoryClear(items, plan, w.board) && Inspected(items, plan, w.log)
    ensures verdict == Proceed ==> forall k :: k in plan.rewires && k in items ==>
      items[k].id in w.board.connectors && w.board.connectors[items[k].id] == Attached(plan.rewires[k].after)
    ensures Recorded(items, plan, turns, w0, w)
    ensures Quiet(turns) ==> w.board == w0.board
    ensures Quiet(turns) && Ready(items, plan, b0) && Underway(items, plan, b0, w0) ==> verdict != Refused && (Smooth(turns) ==> verdict == Proceed)
  {
    if Quiet(turns) && Ready(items, plan, b0) && Underway(items, plan, b0, w0) {
      InventoryPasses(items, plan, b0, w0, w0.saved.journal.value.patches, true);
    }
    w, verdict := ReadInventory(items, plan, true, w0, turns);
    if verdict == Proceed {
      DetachedMeans(items, plan, w.saved.journal.value.patches, w.board);
    }
  }

  lemma SwitchFinishes(items: Items, plan: Plan, b0: Board, w: World, final: Items)
    requires Sited(items, plan) && Underway(items, plan, b0, w) && Started(plan, w)
    requires AllRewired(plan, w.saved.journal.value.patches) && AllDeleted(plan, w.saved.journal.value.deletions)
    requires Switched(items, plan, final)
    ensures Finished(items, plan, b0, w.(saved := Saved(final, true, None, w.saved.backup)))
  {
    var j := w.saved.journal.value;
    forall k | k in plan.rewires && k in items
      ensures items[k].id in w.board.connectors && w.board.connectors[items[k].id] == Attached(plan.rewires[k].after)
    {
      assert Rewired(plan, j.patches, k) && Covered(plan.rewires[k], j.patches, k, w.board.connectors[items[k].id]);
    }
    forall id
      ensures id in w.board.shapes <==> id in b0.shapes && forall k :: k in plan.removed && k in items ==> items[k].id != id
    {
      if id in b0.shapes && id !in w.board.shapes {
        var k :| k in j.deletions && k in items && items[k].id == id;
        assert k in plan.removed;
      }
    }
  }

  /** One commit re-keys the records, switches the namespace and drops the journal. */
  method Switch(items: Items, plan: Plan, final: Items, w0: World, turns: Schedule, ghost b0: Board)
      returns (w: World, verdict: Verdict)
    requires Sited(items, plan) && Switched(items, plan, final) && Started(plan, w0)
    requires AllRewired(plan, w0.saved.journal.value.patches) && AllDeleted(plan, w0.saved.journal.value.deletions)
    ensures Recorded(items, plan, turns, w0, w) && verdict != Refused
    ensures w.saved == w0.saved || w.saved == Saved(final, true, None, w0.saved.backup)
    ensures verdict == Proceed ==> w.saved.merged
    ensures Quiet(turns) && Underway(items, plan, b0, w0) ==>
      && (Underway(items, plan, b0, w) || Finished(items, plan, b0, w))
      && (verdict == Proceed ==> Finished(items, plan, b0, w)) && (Smooth(turns) ==> verdict == Proceed)
  {
    if Quiet(turns) && Underway(items, plan, b0, w0) {
      SwitchFinishes(items, plan, b0, w0, final);
    }
    var ok;
    TickRecorded(items, plan, turns, w0, w0.saved);
    TickRecorded(items, plan, turns, w0, Saved(final, true, None, w0.saved.backup));
    w, ok := Commit(w0, Saved(final, true, None, w0.saved.backup), turns);
    verdict := if ok then Proceed else Interrupted;
  }

  /** From the journaled plan to the last deletion. */
  method Convert(items: Items, plan: Plan, w0: World, turns: Schedule, ghost b0: Board)
      returns (w: World, verdict: Verdict)
    requires Sited(items, plan) && Started(plan, w0)
    ensures Started(plan, w) && w.saved.items == w0.saved.items && w.saved.merged == w0.saved.merged
    ensures verdict == Proceed ==>
      AllRewired(plan, w.saved.journal.value.patches) && AllDeleted(plan, w.saved.journal.value.deletions)
    ensures Recorded(items, plan, turns, w0, w)
    ensures Quiet(turns) && Ready(items, plan, b0) && Underway(items, plan, b0, w0) ==>
      Underway(items, plan, b0, w) && verdict != Refused && (Smooth(turns) ==> verdict == Proceed)
  {
    w, verdict := RewireConnectors(items, plan, w0, turns, b0);
    if verdict != Proceed {
      return;
    }
    w, verdict := Inspect(items, plan, w, turns, b0);
    if verdict != Proceed {
      return;
    }
    w, verdict := DeleteCircles(items, plan, w, turns, b0);
  }

  /** From the first check to the last deletion. */
  method Carry(items: Items, plan: Plan, w0: World, turns: Schedule, ghost b0: Board) returns (w: World, verdict: Verdict)
    requires Sited(items, plan) && forall k :: k in items && items[k].Connector? ==> k in plan.rewires
    requires w0.saved.items == items && (w0.saved.journal.Some? ==> w0.saved.journal.value.plan == plan)
    ensures w.saved.items == items && w.saved.merged == w0.saved.merged
    ensures verdict == Proceed ==>
      && Started(plan, w)
      && AllRewired(plan, w.saved.journal.value.patches) && AllDeleted(plan, w.saved.journal.value.deletions)
    ensures Recorded(items, plan, turns, w0, w)
    ensures Quiet(turns) && Ready(items, plan, b0) && Underway(items, plan, b0, w0) ==>
      Underway(items, plan, b0, w) && verdict != Refused && (Smooth(turns) ==> verdict == Proceed)
    ensures Quiet(turns) && w0.saved.journal.None? && !Ready(items, plan, w0.board) ==>
      verdict != Proceed && w.board == w0.board && w.saved == w0.saved
  {
    w, verdict := Precheck(items, plan, w0, turns, b0);
    if verdict != Proceed {
      return;
    }
    w, verdict := Begin(items, plan, w, turns, b0);
    if verdict != Proceed {
      return;
    }
    w, verdict := Convert(items, plan, w, turns, b0);
  }

  // ---------------------------------------------------------------------------
  // A run, and any number of runs
  // ---------------------------------------------------------------------------

  /** The saved mapping and archive admit this plan. */
  ghost predicate Reviewed(items: Items, graph: Graph, plan: Plan) {
    IsPlan(items, graph, plan) && Plannable(items, graph, plan) && DistinctIds(items)
  }

  /** Plans again from the unchanged mapping; a run goes on only with the approved plan, new or pending. */
  method Review(graph: Graph, approval: Plan, saved: Saved) returns (ok: bool)
    ensures ok ==> !saved.merged && IsPlan(saved.items, graph, approval) && Plannable(saved.items, graph, approval)
    ensures ok && saved.journal.None? ==> DistinctIds(saved.items)
    ensures ok && saved.journal.Some? ==> saved.journal.value.plan == approval
    ensures !saved.merged && Reviewed(saved.items, graph, approval) && (saved.journal.Some? ==> saved.journal.value.plan == approval) ==> ok
  {
    var items := saved.items;
    if saved.merged {
      return false;
    }
    if saved.journal.None? && exists j, k :: j in items && k in items && items[j].id == items[k].id && j != k {
      return false;
    }
    var plan := MakePlan(items, graph);
    return plan == Some(approval) && (saved.journal.Some? ==> saved.journal.value.plan == approval);
  }

  /** The log goes on with the whole story of this run, and with safe requests only. */
  ghost predicate RunRecorded(items: Items, plan: Plan, turns: Schedule, w0: World, w: World) {
    && w0.log + [Began(w0.board, w0.clock)] <= w.log && StartOf(w.log) == |w0.log| && Lived(items, plan, turns, w)
    && (SafeLog(items, plan, w0.log) ==> SafeLog(items, plan, w.log))
  }

  /** Whatever others do meanwhile, all that this run takes off the board is taken justly. */
  ghost predicate AllTakenJustly(items: Items, plan: Plan, w0: World, w: World) {
    forall i: nat, id :: |w0.log| < i && Takes(w.log, i, id) ==> TakenJustly(items, plan, w.log, i, id)
  }

  lemma RunIsJust(items: Items, plan: Plan, turns: Schedule, w0: World, w: World)
    requires RunRecorded(items, plan, turns, w0, w) && SafeLog(items, plan, w0.log)
    ensures AllTakenJustly(items, plan, w0, w)
  {
    forall i: nat, id | |w0.log| < i && Takes(w.log, i, id)
      ensures TakenJustly(items, plan, w.log, i, id)
    {
      RemovalJustified(items, plan, turns, w.log, i, id);
    }
  }

  lemma RunStarts(items: Items, plan: Plan, turns: Schedule, w0: World)
    ensures var w := Note(w0, Began(w0.board, w0.clock));
      RunRecorded(items, plan, turns, w0, w)
  {
    assert Note(w0, Began(w0.board, w0.clock)).log[..|w0.log|] == w0.log;
  }

  /** The accepted run. */
  method RunMerge(graph: Graph, mapping: Items, approval: Plan, w0: World, turns: Schedule, ghost b0: Board)
      returns (w: World, verdict: Verdict)
    requires w0.saved.items == mapping && IsPlan(mapping, graph, approval) && Plannable(mapping, graph, approval) && DistinctIds(mapping)
    requires w0.saved.journal.Some? ==> w0.saved.journal.value.plan == approval
    ensures Recorded(mapping, approval, turns, w0, w)
    ensures w.saved.items == mapping || (w.saved.merged && Switched(mapping, approval, w.saved.items))
    ensures Quiet(turns) && Ready(mapping, approval, b0) && Underway(mapping, approval, b0, w0) ==>
      && verdict != Refused
      && (Underway(mapping, approval, b0, w) || Finished(mapping, approval, b0, w))
      && (verdict == Proceed ==> Finished(mapping, approval, b0, w))
      && (Smooth(turns) ==> verdict == Proceed)
    ensures Quiet(turns) && w0.saved.journal.None? && !Ready(mapping, approval, w0.board) ==>
      verdict != Proceed && w.board == w0.board && w.saved == w0.saved
  {
    PlanIsSited(mapping, graph, approval);
    w, verdict := Carry(mapping, approval, w0, turns, b0);
    if verdict != Proceed {
      return;
    }
    var final := Rekey(mapping, graph, approval);
    w, verdict := Switch(mapping, approval, final, w, turns, b0);
  }

  /** Applies the approved plan. Whatever the schedule, no DELETE precedes a clear inventory taken after the last
  PATCH. If nobody else edits a ready board, the run is accepted, keeps the invariant wherever it stops, and reaches
  the one final board and mapping when nothing goes wrong. */
  method ApplyMerge(graph: Graph, approval: Plan, w0: World, turns: Schedule, ghost items: Items, ghost b0: Board)
      returns (w: World, verdict: Verdict)
    requires w0.saved.items == items && (w0.saved.journal.Some? ==> DistinctIds(items))
    ensures w0.saved.merged ==> verdict == Refused && w == w0
    ensures if w.log == w0.log then verdict == Refused && w == w0 else RunRecorded(items, approval, turns, w0, w)
    ensures SafeLog(items, approval, w0.log) ==> SafeLog(items, approval, w.log) && AllTakenJustly(items, approval, w0, w)
    ensures w.saved.items == items || (w.saved.merged && Switched(items, approval, w.saved.items))
    ensures Quiet(turns) && Reviewed(items, graph, approval) && Ready(items, approval, b0) && Underway(items, approval, b0, w0) ==>
      && verdict != Refused
      && (Underway(items, approval, b0, w) || Finished(items, approval, b0, w))
      && (verdict == Proceed ==> Finished(items, approval, b0, w))
      && (Smooth(turns) ==> verdict == Proceed)
    ensures Quiet(turns) && w0.saved.journal.None? && !Ready(items, approval, w0.board) ==>
      verdict != Proceed && w.board == w0.board && w.saved == w0.saved
  {
    w := w0;
    var accepted := Review(graph, approval, w.saved);
    if !accepted {
      return w, Refused;
    }
    var mapping := w.saved.items;
    RunStarts(mapping, approval, turns, w0);
    w := Note(w, Began(w.board, w.clock));
    w, verdict := RunMerge(graph, mapping, approval, w, turns, b0);
    if SafeLog(items, approval, w0.log) {
      RunIsJust(items, approval, turns, w0, w);
    }
  }

  /** Any number of interrupted runs, then one that is not: the conversion ends where an uninterrupted one would. */
  method Resume(graph: Graph, approval: Plan, w0: World, schedules: seq<Schedule>, last: Schedule, ghost items: Items, ghost b0: Board)
      returns (w: World)
    requires Reviewed(items, graph, approval) && Ready(items, approval, b0) && Underway(items, approval, b0, w0)
    requires (forall i :: 0 <= i < |schedules| ==> Quiet(schedules[i])) && Smooth(last)
    ensures Finished(items, approval, b0, w)
    ensures SafeLog(items, approval, w0.log) ==> SafeLog(items, approval, w.log)
  {
    w := w0;
    var verdict;
    for i := 0 to |schedules|
      invariant Underway(items, approval, b0, w) || Finished(items, approval, b0, w)
      invariant SafeLog(items, approval, w0.log) ==> SafeLog(items, approval, w.log)
    {
      w, verdict := ApplyMerge(graph, approval, w, schedules[i], w.saved.items, b0);
    }
    w, verdict := ApplyMerge(graph, approval, w, last, w.saved.items, b0);
  }

  lemma SwitchedOnce(items: Items, plan: Plan, one: Items, two: Items)
    requires Switched(items, plan, one) && Switched(items, plan, two)
    ensures one == two
  {
    forall c
      ensures c in one <==> c in two
      ensures c in one ==> one[c] == two[c]
    {
      if c in one {
        var k :| k in items && k !in plan.removed && AliasOf(plan.aliases, k) == c;
      }
      if c in two {
        var k :| k in items && k !in plan.removed && AliasOf(plan.aliases, k) == c;
      }
    }
  }

  /** There is only one finished board and one finished mapping, however the runs were cut. */
  lemma FinishedOnce(items: Items, plan: Plan, b0: Board, one: World, two: World)
    requires Finished(items, plan, b0, one) && Finished(items, plan, b0, two)
    ensures one.board == two.board && one.saved.items == two.saved.items
  {
    SwitchedOnce(items, plan, one.saved.items, two.saved.items);
    forall id
      ensures id in one.board.connectors <==> id in two.board.connectors
      ensures id in one.board.connectors ==> one.board.connectors[id] == two.board.connectors[id]
    {
      if k :| k in plan.rewires && k in items && items[k].id == id {
        assert items[k].id in one.board.connectors && items[k].id in two.board.connectors;
      } else {
        assert Foreign(items, plan, id);
      }
    }
    assert one.board.connectors == two.board.connectors;
    assert one.board.shapes == two.board.shapes;
  }

  /** A finished conversion leaves no connector, mapped or not, on a retired circle. */
  lemma FinishedDetached(items: Items, plan: Plan, b0: Board, w: World, id: ItemId)
    requires Sited(items, plan) && Ready(items, plan, b0) && Finished(items, plan, b0, w)
    requires id in w.board.connectors
    ensures Clear(items, plan, w.board.connectors[id])
  {
    if k :| k in plan.rewires && k in items && items[k].id == id {
      assert Clear(items, plan, Attached(plan.rewires[k].after));
    } else {
      assert Foreign(items, plan, id);
    }
  }

  /** The invariant starts at the first approved run: nothing journaled, nothing changed. */
  lemma FirstRun(items: Items, plan: Plan, w: World)
    requires w.saved == Saved(items, false, None, None)
    ensures Underway(items, plan, w.board, w)
  {
  }

  /** From an untouched mapping on a ready board: however many runs are cut short, the one that is not leaves
  no connector on a retired circle, no retired circle, every other circle, and a safe record of requests. */
  method ConvertAll(graph: Graph, approval: Plan, items: Items, board: Board, schedules: seq<Schedule>, last: Schedule) returns (w: World)
    requires Reviewed(items, graph, approval) && Ready(items, approval, board)
    requires (forall i :: 0 <= i < |schedules| ==> Quiet(schedules[i])) && Smooth(last)
    ensures Finished(items, approval, board, w) && SafeLog(items, approval, w.log)
    ensures InventoryClear(items, approval, w.board)
  {
    w := World(board, Saved(items, false, None, None), [], 0);
    FirstRun(items, approval, w);
    w := Resume(graph, approval, w, schedules, last, items, board);
    PlanIsSited(items, graph, approval);
    forall id | id in w.board.connectors
      ensures Clear(items, approval, w.board.connectors[id])
    {
      FinishedDetached(items, approval, board, w, id);
    }
  }
}
