/** Applying a reviewed conversion to the remote board, one journaled step at a time.

A run rewires the mapped connectors, reads the whole connector inventory, only
then deletes the retired circles, and at last switches the mapping in one
commit. It may stop before any step, and a request may take effect without its
answer arriving. A schedule decides this for every step; it may also replace
the board before a step, which stands for edits made by other people. */
module AddressMigration {
  import opened Options
  import opened AddressPlan

  type Attachment = Ends<Option<ItemId>>

  /** `shapes` says of every circle, note and frame whether its content is untouched. */
  datatype Board = Board(connectors: map<ItemId, Attachment>, shapes: map<ItemId, bool>)

  datatype Mark = Attempted | Done

  datatype Journal = Journal(plan: Plan, patches: map<Key, Mark>, deletions: map<Key, Mark>)

  datatype Backup = Backup(plan: Plan, items: Items)

  /** The durable side: the mapping with its journal, and the backup file. */
  datatype Saved = Saved(items: Items, merged: bool, journal: Option<Journal>, backup: Option<Backup>)

  /** What happens in a run, each with the whole board as it is then. */
  datatype Event =
    | Began(board: Board, clock: nat)
    /** A step's turn: others may have edited the board. */
    | Elapsed(board: Board)
    | ItemsRead(board: Board)
    | InventoryRead(board: Board)
    | Looked(key: Key, board: Board)
    | PatchSent(key: Key, seen: Attachment, board: Board)
    | DeleteSent(key: Key, board: Board)

  datatype World = World(board: Board, saved: Saved, log: seq<Event>, clock: nat)

  /** `Stop`: the step does not happen. `Vanish`: it takes effect, and the run ends without knowing. */
  datatype Fate = Stop | Go | Vanish

  datatype Turn = Turn(edit: Option<Board>, fate: Fate)

  type Schedule = nat -> Turn

  datatype Verdict = Proceed | Interrupted | Refused

  /** Nobody else edits the board. */
  ghost predicate Quiet(turns: Schedule) {
    forall n :: turns(n).edit.None?
  }

  /** Nothing goes wrong either. */
  ghost predicate Smooth(turns: Schedule) {
    forall n :: turns(n) == Turn(None, Go)
  }

  function Tick(w: World, turns: Schedule): World {
    var board := Edited(turns, w.clock, w.board);
    w.(board := board, log := w.log + [Elapsed(board)], clock := w.clock + 1)
  }

  /** The board after a step's turn. */
  function Edited(turns: Schedule, clock: nat, board: Board): Board {
    if turns(clock).edit.Some? then turns(clock).edit.value else board
  }

  function Note(w: World, e: Event): World {
    w.(board := e.board, log := w.log + [e])
  }

  function Attached(ends: Ends<ItemId>): Attachment {
    Ends(Some(ends.source), Some(ends.target))
  }

  /** An end may still be where it was, or where an attempted PATCH would have put it. */
  predicate Allowed(entry: Rewire, attempted: bool, ends: Attachment) {
    && (ends.source == Some(entry.before.source) || (attempted && ends.source == Some(entry.after.source)))
    && (ends.target == Some(entry.before.target) || (attempted && ends.target == Some(entry.after.target)))
  }

  /** What a PATCH naming only the ends that differ does to the board. */
  function Reattach(board: Board, id: ItemId, seen: Attachment, after: Ends<ItemId>): Board
    requires id in board.connectors
  {
    var now := board.connectors[id];
    var ends := Ends(if seen.source != Some(after.source) then Some(after.source) else now.source,
                     if seen.target != Some(after.target) then Some(after.target) else now.target);
    board.(connectors := board.connectors[id := ends])
  }

  function Detach(ends: Attachment, id: ItemId): Attachment {
    Ends(if ends.source == Some(id) then None else ends.source, if ends.target == Some(id) then None else ends.target)
  }

  /** Deleting a circle also loses every end attached to it. */
  function Remove(board: Board, id: ItemId): Board {
    Board(map c | c in board.connectors :: Detach(board.connectors[c], id), board.shapes - {id})
  }

  predicate Touches(ends: Attachment, id: ItemId) {
    ends.source == Some(id) || ends.target == Some(id)
  }

  // ---------------------------------------------------------------------------
  // Facts about the plan that the steps use
  // ---------------------------------------------------------------------------

  /** Remote identities are distinct, rewired ends avoid the retired circles, and an end moves only away from one. */
  ghost predicate Sited(items: Items, plan: Plan) {
    && (forall k :: k in plan.rewires ==> k in items && items[k].Connector?)
    && (forall k :: k in plan.removed ==> k in items && items[k].Shape?)
    && (forall j, k :: j in items && k in items && items[j].id == items[k].id ==> j == k)
    && (forall k :: k in plan.rewires ==> Clear(items, plan, Attached(plan.rewires[k].after)))
    && (forall k :: k in plan.rewires ==> MovesOff(items, plan, plan.rewires[k]))
  }

  /** The attachment touches no retired circle. */
  ghost predicate Clear(items: Items, plan: Plan, ends: Attachment) {
    forall k :: k in plan.removed && k in items ==> !Touches(ends, items[k].id)
  }

  ghost predicate MovesOff(items: Items, plan: Plan, entry: Rewire) {
    && (entry.before.source != entry.after.source ==> exists k :: k in plan.removed && k in items && entry.before.source == items[k].id)
    && (entry.before.target != entry.after.target ==> exists k :: k in plan.removed && k in items && entry.before.target == items[k].id)
  }

  lemma MovesOnlyOff(items: Items, graph: Graph, plan: Plan, end: Key)
    requires IsPlan(items, graph, plan) && KeysFree(items, plan.aliases, plan.retained) && end in items
    ensures var home := Home(plan.retained, AliasOf(plan.aliases, end)); home != end ==> end in plan.removed
  {
    HomeStays(items, graph, plan, end);
  }

  lemma RewireIsSited(items: Items, graph: Graph, plan: Plan, k: Key)
    requires IsPlan(items, graph, plan) && KeysFree(items, plan.aliases, plan.retained) && DistinctIds(items) && k in plan.rewires
    ensures Clear(items, plan, Attached(plan.rewires[k].after)) && MovesOff(items, plan, plan.rewires[k])
  {
    forall gone | gone in plan.removed && gone in items
      ensures !Touches(Attached(plan.rewires[k].after), items[gone].id)
    {
      RewiresAvoidRemoved(items, graph, plan, k, gone);
    }
    assert RewireOf(items, plan.aliases, plan.retained, items[k].ends, plan.rewires[k]);
    MovesOnlyOff(items, graph, plan, items[k].ends.source);
    MovesOnlyOff(items, graph, plan, items[k].ends.target);
  }

  lemma PlanIsSited(items: Items, graph: Graph, plan: Plan)
    requires IsPlan(items, graph, plan) && KeysFree(items, plan.aliases, plan.retained) && DistinctIds(items)
    ensures Sited(items, plan)
  {
    RemovedMapped(items, graph, plan);
    forall k | k in plan.removed
      ensures k in items && items[k].Shape?
    {
      assert k in plan.aliases;
    }
    forall k | k in plan.rewires
      ensures Clear(items, plan, Attached(plan.rewires[k].after)) && MovesOff(items, plan, plan.rewires[k])
    {
      RewireIsSited(items, graph, plan, k);
    }
  }

  /** A connector end allowed by the journal and clear of every retired circle is where the plan wants it. */
  lemma ClearIsAfter(items: Items, plan: Plan, k: Key, ends: Attachment)
    requires Sited(items, plan) && k in plan.rewires
    requires Allowed(plan.rewires[k], true, ends) && Clear(items, plan, ends)
    ensures ends == Attached(plan.rewires[k].after)
  {
    assert MovesOff(items, plan, plan.rewires[k]);
  }

  // ---------------------------------------------------------------------------
  // What every run keeps while nobody else edits the board
  // ---------------------------------------------------------------------------

  /** The board under review: every mapped item is there, connectors are where the mapping says,
  duplicates are untouched, and no unmapped connector uses one. */
  ghost predicate Ready(items: Items, plan: Plan, b0: Board) {
    && (forall k :: k in plan.rewires && k in items ==>
          items[k].id in b0.connectors && b0.connectors[items[k].id] == Attached(plan.rewires[k].before))
    && (forall k :: k in items && !items[k].Connector? ==> items[k].id in b0.shapes)
    && (forall k :: k in plan.removed && k in items && items[k].id in b0.shapes ==> b0.shapes[items[k].id])
    && (forall id :: id in b0.connectors && Foreign(items, plan, id) ==> Clear(items, plan, b0.connectors[id]))
  }

  /** A connector outside the mapping. */
  ghost predicate Foreign(items: Items, plan: Plan, id: ItemId) {
    forall k :: k in plan.rewires && k in items ==> items[k].id != id
  }

  /** Where a mapped connector can be, given its journal entry: any difference from the original is covered by one. */
  predicate Covered(entry: Rewire, patches: map<Key, Mark>, key: Key, ends: Attachment) {
    if key !in patches then ends == Attached(entry.before)
    else if patches[key] == Attempted then ends == Attached(entry.before) || ends == Attached(entry.after)
    else ends == Attached(entry.after)
  }

  ghost predicate ConnectorsCovered(items: Items, plan: Plan, patches: map<Key, Mark>, board: Board) {
    forall k :: k in plan.rewires && k in items ==>
      items[k].id in board.connectors && Covered(plan.rewires[k], patches, k, board.connectors[items[k].id])
  }

  ghost predicate OthersKept(items: Items, plan: Plan, b0: Board, board: Board) {
    forall id :: Foreign(items, plan, id) ==>
      (id in board.connectors <==> id in b0.connectors) && (id in board.connectors ==> board.connectors[id] == b0.connectors[id])
  }

  predicate Rewired(plan: Plan, patches: map<Key, Mark>, key: Key)
    requires key in plan.rewires
  {
    plan.rewires[key].before == plan.rewires[key].after || (key in patches && patches[key] == Done)
  }

  ghost predicate AllRewired(plan: Plan, patches: map<Key, Mark>) {
    forall k :: k in plan.rewires ==> Rewired(plan, patches, k)
  }

  ghost predicate MarksMeaningful(plan: Plan, j: Journal) {
    && (forall k :: k in j.patches ==> k in plan.rewires)
    && (forall k :: k in j.deletions ==> k in plan.removed && AllRewired(plan, j.patches))
  }

  /** Every missing shape is covered by a deletion entry, and a finished one is gone. */
  ghost predicate ShapesCovered(items: Items, plan: Plan, deletions: map<Key, Mark>, b0: Board, board: Board) {
    && (forall id :: id in board.shapes ==> id in b0.shapes && board.shapes[id] == b0.shapes[id])
    && (forall id :: id in b0.shapes && id !in board.shapes ==> exists k :: k in deletions && k in items && items[k].id == id)
    && (forall k :: k in deletions && k in items && deletions[k] == Done ==> items[k].id !in board.shapes)
  }

  /** The invariant of an unfinished conversion, over any number of interrupted runs. */
  ghost predicate Underway(items: Items, plan: Plan, b0: Board, w: World) {
    && w.saved.items == items && !w.saved.merged
    && (w.saved.backup.Some? ==> w.saved.backup.value == Backup(plan, items))
    && (match w.saved.journal
        case None => w.board == b0
        case Some(j) =>
          && j.plan == plan && w.saved.backup.Some?
          && MarksMeaningful(plan, j)
          && ConnectorsCovered(items, plan, j.patches, w.board)
          && OthersKept(items, plan, b0, w.board)
          && ShapesCovered(items, plan, j.deletions, b0, w.board))
  }

  /** Where a conversion ends: the one board and the one mapping. */
  ghost predicate Finished(items: Items, plan: Plan, b0: Board, w: World) {
    && w.saved.merged && w.saved.journal.None? && Switched(items, plan, w.saved.items)
    && (forall k :: k in plan.rewires && k in items ==>
          items[k].id in w.board.connectors && w.board.connectors[items[k].id] == Attached(plan.rewires[k].after))
    && OthersKept(items, plan, b0, w.board)
    && (forall id :: id in w.board.shapes <==> id in b0.shapes && forall k :: k in plan.removed && k in items ==> items[k].id != id)
    && (forall id :: id in w.board.shapes ==> w.board.shapes[id] == b0.shapes[id])
  }

  // ---------------------------------------------------------------------------
  // The record of a run is what happened
  // ---------------------------------------------------------------------------

  /** The schedule's clock after the events since the run began. */
  function ClockOf(log: seq<Event>): nat {
    if log == [] then 0
    else
      var last := log[|log| - 1];
      if last.Began? then last.clock else ClockOf(log[..|log| - 1]) + (if last.Elapsed? then 1 else 0)
  }

  /** The place of the last beginning. */
  function StartOf(log: seq<Event>): (i: nat)
    ensures log != [] ==> i < |log|
  {
    if log == [] then 0
    else if log[|log| - 1].Began? then |log| - 1
    else StartOf(log[..|log| - 1])
  }

  /** What a PATCH does to the whole board. */
  function Patched(items: Items, plan: Plan, key: Key, seen: Attachment, board: Board): Board {
    if key in items && key in plan.rewires && items[key].id in board.connectors
    then Reattach(board, items[key].id, seen, plan.rewires[key].after) else board
  }

  /** What a DELETE does to the whole board. */
  function Deleted(items: Items, key: Key, board: Board): Board {
    if key in items && items[key].id in board.shapes then Remove(board, items[key].id) else board
  }

  /** The event can follow: others edit as scheduled, reading changes nothing, and a request has its effect. */
  predicate Legal(items: Items, plan: Plan, turns: Schedule, before: Board, clock: nat, e: Event) {
    match e
    case Began(_, _) => true
    case Elapsed(board) => board == Edited(turns, clock, before)
    case ItemsRead(board) => board == before
    case InventoryRead(board) => board == before
    case Looked(_, board) => board == before
    case PatchSent(key, seen, board) => board == Patched(items, plan, key, seen, before)
    case DeleteSent(key, board) => board == Deleted(items, key, before)
  }

  /** Since the run began every event followed from the one before. */
  predicate Genuine(items: Items, plan: Plan, turns: Schedule, log: seq<Event>) {
    log != [] && var front, last := log[..|log| - 1], log[|log| - 1];
      last.Began? || (Genuine(items, plan, turns, front) && Legal(items, plan, turns, front[|front| - 1].board, ClockOf(front), last))
  }

  /** The log tells the whole story of the board since the run began. */
  predicate Lived(items: Items, plan: Plan, turns: Schedule, w: World) {
    Genuine(items, plan, turns, w.log) && w.board == w.log[|w.log| - 1].board && w.clock == ClockOf(w.log)
  }

  lemma LivesOn(items: Items, plan: Plan, turns: Schedule, w: World, e: Event)
    requires Lived(items, plan, turns, w) && !e.Began? && !e.Elapsed? && Legal(items, plan, turns, w.board, w.clock, e)
    ensures Lived(items, plan, turns, Note(w, e))
  {
    assert (w.log + [e])[..|w.log|] == w.log;
  }

  lemma TickLives(items: Items, plan: Plan, turns: Schedule, w: World)
    requires Lived(items, plan, turns, w)
    ensures Lived(items, plan, turns, Tick(w, turns))
  {
    var e := Elapsed(Edited(turns, w.clock, w.board));
    assert (w.log + [e])[..|w.log|] == w.log;
  }

  lemma {:induction false} NoneBegan(log: seq<Event>, i: nat)
    requires StartOf(log) < i < |log|
    ensures !log[i].Began?
    decreases |log|
  {
    if i < |log| - 1 {
      NoneBegan(log[..|log| - 1], i);
    }
  }

  /** Every event of the last run followed from the one before it. */
  lemma {:induction false} LegalAt(items: Items, plan: Plan, turns: Schedule, log: seq<Event>, i: nat)
    requires Genuine(items, plan, turns, log) && StartOf(log) < i < |log|
    ensures Legal(items, plan, turns, log[i - 1].board, ClockOf(log[..i]), log[i])
    decreases |log|
  {
    var front := log[..|log| - 1];
    if i < |log| - 1 {
      LegalAt(items, plan, turns, front, i);
      assert front[..i] == log[..i];
    }
  }

  // ---------------------------------------------------------------------------
  // What may be sent, whatever other people do
  // ---------------------------------------------------------------------------

  ghost predicate InventoryClear(items: Items, plan: Plan, board: Board) {
    forall id :: id in board.connectors ==> Clear(items, plan, board.connectors[id])
  }

  /** The last thing the run did itself. */
  function LastStep(log: seq<Event>): Option<Event> {
    if log == [] then None
    else
      var last := log[|log| - 1];
      if last.Elapsed? then LastStep(log[..|log| - 1]) else Some(last)
  }

  /** The last inventory of this run, unless a PATCH followed it. */
  function LastInventory(log: seq<Event>): Option<Board> {
    if log == [] then None
    else
      var last := log[|log| - 1];
      if last.InventoryRead? then Some(last.board)
      else if last.PatchSent? || last.Began? then None
      else LastInventory(log[..|log| - 1])
  }

  /** The log holds an inventory clear of the retired circles, taken in this run after its last PATCH. */
  ghost predicate Inspected(items: Items, plan: Plan, log: seq<Event>) {
    LastInventory(log).Some? && InventoryClear(items, plan, LastInventory(log).value)
  }

  /** The connector was just looked at, with these ends. */
  predicate JustSeen(items: Items, log: seq<Event>, key: Key, seen: Attachment) {
    && LastStep(log).Some? && LastStep(log).value.Looked? && LastStep(log).value.key == key && key in items
    && var board := LastStep(log).value.board;
      items[key].id in board.connectors && board.connectors[items[key].id] == seen
  }

  /** The circle was just looked at, and untouched. */
  predicate JustUntouched(items: Items, log: seq<Event>, key: Key) {
    && LastStep(log).Some? && LastStep(log).value.Looked? && LastStep(log).value.key == key && key in items
    && var board := LastStep(log).value.board;
      items[key].id in board.shapes && board.shapes[items[key].id]
  }

  /** A PATCH replaces only ends just seen and allowed; a DELETE takes only a circle just seen untouched, after a clear inventory. */
  ghost predicate SafeEvent(items: Items, plan: Plan, past: seq<Event>, e: Event) {
    match e
    case PatchSent(key, seen, _) => key in plan.rewires && Allowed(plan.rewires[key], true, seen) && JustSeen(items, past, key, seen)
    case DeleteSent(key, _) => key in plan.removed && JustUntouched(items, past, key) && Inspected(items, plan, past)
    case _ => true
  }

  ghost predicate SafeLog(items: Items, plan: Plan, log: seq<Event>) {
    log == [] || (SafeLog(items, plan, log[..|log| - 1]) && SafeEvent(items, plan, log[..|log| - 1], log[|log| - 1]))
  }

  lemma {:induction false} SafeAt(items: Items, plan: Plan, log: seq<Event>, i: nat)
    requires SafeLog(items, plan, log) && i < |log|
    ensures SafeEvent(items, plan, log[..i], log[i])
    decreases |log|
  {
    var front := log[..|log| - 1];
    if i < |log| - 1 {
      SafeAt(items, plan, front, i);
      assert front[..i] == log[..i];
    }
  }

  /** Nothing but the run's own PATCHes and its start makes an inventory stale. */
  lemma {:induction false} InventoryTaken(log: seq<Event>) returns (j: nat)
    requires LastInventory(log).Some?
    ensures StartOf(log) <= j < |log| && log[j] == InventoryRead(LastInventory(log).value)
    ensures forall m :: j < m < |log| ==> !log[m].PatchSent?
    decreases |log|
  {
    j := |log| - 1;
    if !log[j].InventoryRead? {
      j := InventoryTaken(log[..j]);
    }
  }

  /** One part of a run: it only adds to the log, what is added is what happened, and what is sent is safe. */
  ghost predicate Recorded(items: Items, plan: Plan, turns: Schedule, w0: World, w: World) {
    && w0.log <= w.log && (w0.log != [] ==> StartOf(w.log) == StartOf(w0.log))
    && (Lived(items, plan, turns, w0) ==> Lived(items, plan, turns, w))
    && (SafeLog(items, plan, w0.log) ==> SafeLog(items, plan, w.log))
  }

  lemma RecordedOn(items: Items, plan: Plan, turns: Schedule, w0: World, w1: World, w2: World)
    requires Recorded(items, plan, turns, w0, w1) && Recorded(items, plan, turns, w1, w2)
    ensures Recorded(items, plan, turns, w0, w2)
  {
  }

  /** A turn goes by; what was last done and read stays so. */
  lemma TickRecorded(items: Items, plan: Plan, turns: Schedule, w: World, saved: Saved)
    ensures var t := Tick(w, turns).(saved := saved);
      Recorded(items, plan, turns, w, t) && LastStep(t.log) == LastStep(w.log) && LastInventory(t.log) == LastInventory(w.log)
  {
    var t := Tick(w, turns);
    assert t.log[..|w.log|] == w.log;
    if Lived(items, plan, turns, w) {
      TickLives(items, plan, turns, w);
    }
  }

  /** Reading the board as it is, or sending what is safe. */
  lemma NoteRecorded(items: Items, plan: Plan, turns: Schedule, w: World, e: Event)
    requires !e.Began? && !e.Elapsed? && Legal(items, plan, turns, w.board, w.clock, e)
    requires SafeLog(items, plan, w.log) ==> SafeEvent(items, plan, w.log, e)
    ensures Recorded(items, plan, turns, w, Note(w, e)) && LastStep(Note(w, e).log) == Some(e)
    ensures !e.InventoryRead? && !e.PatchSent? ==> LastInventory(Note(w, e).log) == LastInventory(w.log)
    ensures e.InventoryRead? ==> LastInventory(Note(w, e).log) == Some(e.board)
  {
    assert (w.log + [e])[..|w.log|] == w.log;
    if Lived(items, plan, turns, w) {
      LivesOn(items, plan, turns, w, e);
    }
  }

  /** Event `i` takes an object off the board, though nobody else did. */
  predicate Takes(log: seq<Event>, i: nat, id: ItemId) {
    0 < i < |log| && !log[i].Elapsed? && id in log[i - 1].board.shapes && id !in log[i].board.shapes
  }

  /** Event `j` is an inventory of the whole board as it was, clear of every retired circle. */
  ghost predicate WholeAndClear(items: Items, plan: Plan, log: seq<Event>, j: nat) {
    0 < j < |log| && log[j] == InventoryRead(log[j - 1].board) && InventoryClear(items, plan, log[j].board)
  }

  /** Event `i` deletes this retired circle, just seen untouched, after such an inventory of the same run that no PATCH followed. */
  ghost predicate TakenJustly(items: Items, plan: Plan, log: seq<Event>, i: nat, id: ItemId)
    requires i < |log|
  {
    && log[i].DeleteSent? && log[i].key in plan.removed && log[i].key in items && items[log[i].key].id == id
    && JustUntouched(items, log[..i], log[i].key)
    && exists j: nat :: StartOf(log) < j < i && WholeAndClear(items, plan, log, j) && forall m :: j < m < i ==> !log[m].PatchSent?
  }

  lemma {:induction false} SameStart(log: seq<Event>, i: nat)
    requires StartOf(log) < i <= |log|
    ensures StartOf(log[..i]) == StartOf(log)
    decreases |log|
  {
    if i < |log| {
      SameStart(log[..|log| - 1], i);
      assert log[..|log| - 1][..i] == log[..i];
    } else {
      assert log[..i] == log;
    }
  }

  /** Whatever others do, what the run itself takes off the board is taken justly. */
  lemma RemovalJustified(items: Items, plan: Plan, turns: Schedule, log: seq<Event>, i: nat, id: ItemId)
    requires Genuine(items, plan, turns, log) && SafeLog(items, plan, log)
    requires StartOf(log) < i && Takes(log, i, id)
    ensures TakenJustly(items, plan, log, i, id)
  {
    NoneBegan(log, i);
    LegalAt(items, plan, turns, log, i);
    SafeAt(items, plan, log, i);
    SameStart(log, i);
    var j := InventoryTaken(log[..i]);
    StartsWithBegan(items, plan, turns, log);
    LegalAt(items, plan, turns, log, j);
    assert WholeAndClear(items, plan, log, j);
  }

  lemma {:induction false} StartsWithBegan(items: Items, plan: Plan, turns: Schedule, log: seq<Event>)
    requires Genuine(items, plan, turns, log)
    ensures StartOf(log) < |log| && log[StartOf(log)].Began?
    decreases |log|
  {
    if !log[|log| - 1].Began? {
      StartsWithBegan(items, plan, turns, log[..|log| - 1]);
    }
  }

  /** What the run itself changes about a connector is its planned ends, or an end on a circle that it deletes. */
  lemma ChangeJustified(items: Items, plan: Plan, turns: Schedule, log: seq<Event>, i: nat, id: ItemId)
    requires Genuine(items, plan, turns, log) && SafeLog(items, plan, log)
    requires StartOf(log) < i < |log| && !log[i].Elapsed?
    requires id in log[i - 1].board.connectors
    ensures id in log[i].board.connectors
    ensures log[i].board.connectors[id] != log[i - 1].board.connectors[id] ==>
      if log[i].PatchSent? then
        log[i].key in plan.rewires && log[i].key in items && items[log[i].key].id == id && JustSeen(items, log[..i], log[i].key, log[i].seen)
      else
        log[i].DeleteSent? && log[i].key in items && Touches(log[i - 1].board.connectors[id], items[log[i].key].id)
  {
    NoneBegan(log, i);
    LegalAt(items, plan, turns, log, i);
    SafeAt(items, plan, log, i);
  }
}
