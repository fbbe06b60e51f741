/** Address counts kept in two places: a whole JSON file of one source, and a journal of recent batches of any.

One writer at a time commits batches to the journal, replaces the JSON file with
everything it knows, then clears the journal; it can be interrupted anywhere.
Any number of readers open the journal first and the JSON file after it. The
journal is a database with a write-ahead log, and a reader that holds the shared
lock and finds no log reads the database file as if it could not change.

A reader misses nothing saved before it began exactly as long as no fetch is
dated before what is saved for its address, and no writer replaces the JSON file
of another source that still holds what the journal does not. */
module CountCache {
  import opened Options
  import opened Runs
  import opened Sets

  datatype Address = Address(id: nat)

  datatype Record = Record(at: int, count: nat)

  type Counts = map<Address, Record>

  /** Newest observation times. */
  type Times = map<Address, int>

  /** Rows replace what they are at least as new as. */
  function Overlay(counts: Counts, rows: Counts): Counts {
    map a | a in counts.Keys + rows.Keys ::
      if a in rows && (a !in counts || rows[a].at >= counts[a].at) then rows[a] else counts[a]
  }

  /** The merge as the source does it, row by row. */
  method Merge(counts0: Counts, rows: Counts) returns (counts: Counts)
    ensures counts == Overlay(counts0, rows)
    ensures forall a :: a in counts <==> a in counts0 || a in rows
    ensures forall a :: a in rows && a in counts && (a !in counts0 || counts0[a].at <= rows[a].at) ==> counts[a] == rows[a]
    ensures forall a :: a in counts0 && a in counts && (a !in rows || rows[a].at < counts0[a].at) ==> counts[a] == counts0[a]
  {
    counts := counts0;
    var todo := rows.Keys;
    while todo != {}
      invariant todo <= rows.Keys
      invariant forall a :: a in counts <==> a in counts0 || (a in rows && a !in todo)
      invariant forall a :: a in counts ==>
        counts[a] == if a in rows && a !in todo && (a !in counts0 || rows[a].at >= counts0[a].at) then rows[a] else counts0[a]
      decreases todo
    {
      var a := Pick(todo);
      if a !in counts || rows[a].at >= counts[a].at {
        counts := counts[a := rows[a]];
      }
      todo := todo - {a};
    }
    SameMap(counts, Overlay(counts0, rows));
  }

  predicate AtLeast(counts: Counts, a: Address, time: int) {
    a in counts && counts[a].at >= time
  }

  /** A merge is as new as either side. */
  lemma OverlayIsNewest(counts: Counts, rows: Counts, a: Address, time: int)
    ensures AtLeast(Overlay(counts, rows), a, time) <==> AtLeast(counts, a, time) || AtLeast(rows, a, time)
  {
  }

  // ---------------------------------------------------------------------------
  // The journal's rows
  // ---------------------------------------------------------------------------

  datatype Source = Source(id: nat)

  datatype Slot = Slot(source: Source, address: Address)

  type Table = map<Slot, Record>

  /** The committed rows of one source, among those of all. */
  function Rows(rows: Table, source: Source): Counts {
    map slot | slot in rows && slot.source == source :: slot.address := rows[slot]
  }

  lemma RowsMean(rows: Table, source: Source, a: Address)
    ensures a in Rows(rows, source) <==> Slot(source, a) in rows
    ensures a in Rows(rows, source) ==> Rows(rows, source)[a] == rows[Slot(source, a)]
  {
  }

  function Put(rows: Table, source: Source, records: Counts): Table {
    rows + map a | a in records :: Slot(source, a) := records[a]
  }

  function Cleared(rows: Table, source: Source): Table {
    map slot | slot in rows && slot.source != source :: rows[slot]
  }

  lemma PutMeans(rows: Table, source: Source, records: Counts, slot: Slot)
    ensures slot in Put(rows, source, records) <==> slot in rows || (slot.source == source && slot.address in records)
    ensures slot in Put(rows, source, records) && slot.source == source && slot.address in records ==>
      Put(rows, source, records)[slot] == records[slot.address]
    ensures slot in rows && !(slot.source == source && slot.address in records) ==> Put(rows, source, records)[slot] == rows[slot]
  {
    if slot.source == source && slot.address in records {
      assert slot == Slot(source, slot.address);
    }
  }

  predicate Replaced(source: Source, records: Counts, todo: set<Address>, slot: Slot) {
    slot.source == source && slot.address in records && slot.address !in todo
  }

  method Upsert(rows: Table, source: Source, records: Counts) returns (after: Table)
    ensures forall slot :: slot in after <==> slot in rows || Replaced(source, records, {}, slot)
    ensures forall slot :: slot in after && Replaced(source, records, {}, slot) ==> after[slot] == records[slot.address]
    ensures forall slot :: slot in rows && slot in after && !Replaced(source, records, {}, slot) ==> after[slot] == rows[slot]
  {
    after := rows;
    var todo := records.Keys;
    while todo != {}
      invariant todo <= records.Keys
      invariant forall slot :: slot in after <==> slot in rows || Replaced(source, records, todo, slot)
      invariant forall slot :: slot in after && Replaced(source, records, todo, slot) ==> after[slot] == records[slot.address]
      invariant forall slot :: slot in rows && slot in after && !Replaced(source, records, todo, slot) ==> after[slot] == rows[slot]
      decreases todo
    {
      var a := Pick(todo);
      after := after[Slot(source, a) := records[a]];
      todo := todo - {a};
    }
  }

  class Journal {
    const source: Source
    var rows: Table

    constructor (source: Source, rows: Table)
      ensures this.source == source && this.rows == rows
    {
      this.source := source;
      this.rows := rows;
    }

    /** Commits one batch; rows of other sources stay. */
    method Write(records: Counts)
      modifies this`rows
      ensures rows == Put(old(rows), source, records)
      ensures Rows(rows, source) == old(Rows(rows, source)) + records
      ensures forall other :: other != source ==> Rows(rows, other) == old(Rows(rows, other))
    {
      ghost var before := rows;
      var after := Upsert(rows, source, records);
      Upserted(before, after, source, records);
      UpsertIsPut(before, after, source, records);
      rows := after;
    }

    /** Deletes the rows of this source only. */
    method Compacted()
      modifies this`rows
      ensures rows == Cleared(old(rows), source)
      ensures Rows(rows, source) == map[]
      ensures forall other :: other != source ==> Rows(rows, other) == old(Rows(rows, other))
    {
      ghost var before := rows;
      rows := Cleared(rows, source);
      forall other | other != source
        ensures Rows(rows, other) == Rows(before, other)
      {
        SameMap(Rows(rows, other), Rows(before, other));
      }
    }
  }

  lemma UpsertIsPut(rows: Table, after: Table, source: Source, records: Counts)
    requires forall slot :: slot in after <==> slot in rows || Replaced(source, records, {}, slot)
    requires forall slot :: slot in after && Replaced(source, records, {}, slot) ==> after[slot] == records[slot.address]
    requires forall slot :: slot in rows && slot in after && !Replaced(source, records, {}, slot) ==> after[slot] == rows[slot]
    ensures after == Put(rows, source, records)
  {
    forall slot
      ensures slot in after <==> slot in Put(rows, source, records)
    {
      PutMeans(rows, source, records, slot);
    }
    forall slot | slot in after
      ensures after[slot] == Put(rows, source, records)[slot]
    {
      PutMeans(rows, source, records, slot);
    }
    SameMap(after, Put(rows, source, records));
  }

  lemma Upserted(rows: Table, after: Table, source: Source, records: Counts)
    requires forall slot :: slot in after <==> slot in rows || Replaced(source, records, {}, slot)
    requires forall slot :: slot in after && Replaced(source, records, {}, slot) ==> after[slot] == records[slot.address]
    requires forall slot :: slot in rows && slot in after && !Replaced(source, records, {}, slot) ==> after[slot] == rows[slot]
    ensures Rows(after, source) == Rows(rows, source) + records
    ensures forall other :: other != source ==> Rows(after, other) == Rows(rows, other)
  {
    forall a
      ensures a in Rows(after, source) <==> a in Rows(rows, source) + records
    {
      RowsMean(after, source, a);
      RowsMean(rows, source, a);
    }
    forall a | a in Rows(after, source)
      ensures Rows(after, source)[a] == (Rows(rows, source) + records)[a]
    {
      RowsMean(after, source, a);
      RowsMean(rows, source, a);
    }
    SameMap(Rows(after, source), Rows(rows, source) + records);
    forall other | other != source
      ensures Rows(after, other) == Rows(rows, other)
    {
      SameMap(Rows(after, other), Rows(rows, other));
    }
  }

  // ---------------------------------------------------------------------------
  // The store
  // ---------------------------------------------------------------------------

  /** The JSON file names its source, and is empty to readers of any other. */
  datatype Json = Json(source: Source, counts: Counts)

  function Legacy(json: Option<Json>, source: Source): Counts {
    if json.Some? && json.value.source == source then json.value.counts else map[]
  }

  /** The database file, and its log while there is one; the log stands for the file with all commits applied. */
  datatype Db = Db(main: Table, log: Option<Table>)

  function Committed(db: Db): Table {
    if db.log.Some? then db.log.value else db.main
  }

  datatype Phase = Fetching | Exported | Done

  /** The writer holds the exclusive lock while it is on. */
  datatype Writer = Off | On(source: Source, counts: Counts, pending: Counts, phase: Phase)

  /** `shared` says the reader holds the shared lock; `fixed` that it reads the database file as unchanging. */
  datatype Mode = Mode(source: Source, shared: bool, fixed: bool)

  /** `floor` records the newest times saved for the reader's source before it began. */
  datatype Reader =
    | Opened(mode: Mode)
    | Began(mode: Mode, snapshot: Table, floor: Times)
    | Loaded(mode: Mode, snapshot: Table, floor: Times, json: Counts)
    | Finished(source: Source, result: Counts, floor: Times)

  datatype ReaderId = ReaderId(id: nat)

  /** Newest times per source and address. */
  type Best = map<Slot, int>

  /** `best` records, for the statements below, the newest time ever saved in either place. */
  datatype State = State(json: Option<Json>, db: Db, writer: Writer, readers: map<ReaderId, Reader>, best: Best)

  predicate HoldsShared(reader: Reader) {
    !reader.Finished? && reader.mode.shared
  }

  function Start(): State {
    State(None, Db(map[], None), Off, map[], map[])
  }

  function Newest(best: Best, source: Source, saved: Counts): Best {
    map slot | slot in best.Keys + (set a | a in saved :: Slot(source, a)) ::
      if slot.source == source && slot.address in saved && (slot !in best || saved[slot.address].at >= best[slot])
      then saved[slot.address].at else best[slot]
  }

  function FloorOf(best: Best, source: Source): Times {
    map slot | slot in best && slot.source == source :: slot.address := best[slot]
  }

  /** What both places hold for a source. */
  function Saved(s: State, source: Source): Counts {
    Overlay(Legacy(s.json, source), Rows(Committed(s.db), source))
  }

  // ---------------------------------------------------------------------------
  // Steps
  // ---------------------------------------------------------------------------

  datatype Action =
    /** Take the lock, and merge both saved places with what the case and its reviews hold. */
    | BeginRun(source: Source, base: Counts, reviews: Counts)
    | Fetch(address: Address, record: Record)
    | Checkpoint
    | Export
    | Clear
    /** Release the lock; `tidy` when the log could be folded into the database file. */
    | EndRun(tidy: bool)
    | Crash
    | FoldLog
    /** A reader tries the shared lock; `locking` is false when there is no lock file yet. */
    | Open(reader: ReaderId, reading: Source, locking: bool)
    | Begin(reader: ReaderId)
    | Load(reader: ReaderId)
    | Finish(reader: ReaderId)
    | Leave(reader: ReaderId)
    /** A reader's connection leaves an empty log behind. */
    | TouchLog

  predicate Enabled(s: State, action: Action) {
    match action
    case BeginRun(_, _, _) => s.writer.Off? && forall r :: r in s.readers ==> !HoldsShared(s.readers[r])
    case Fetch(_, _) => s.writer.On? && s.writer.phase.Fetching?
    case Checkpoint => s.writer.On? && s.writer.phase.Fetching?
    case Export => s.writer.On? && s.writer.phase.Fetching? && s.writer.pending == map[]
    case Clear => s.writer.On? && s.writer.phase.Exported?
    case EndRun(_) => s.writer.On?
    case Crash => s.writer.On?
    case FoldLog => s.writer.On?
    case Open(r, _, _) => r !in s.readers
    case Begin(r) => r in s.readers && s.readers[r].Opened?
    case Load(r) => r in s.readers && s.readers[r].Began?
    case Finish(r) => r in s.readers && s.readers[r].Loaded?
    case Leave(r) => r in s.readers
    case TouchLog => true
  }

  function Seen(db: Db, mode: Mode, snapshot: Table): Table {
    if mode.fixed then db.main else snapshot
  }

  function After(s: State, action: Action): State
    requires Enabled(s, action)
  {
    match action
    case BeginRun(source, base, reviews) =>
      s.(writer := On(source, Overlay(Overlay(base, Saved(s, source)), reviews), map[], Fetching))
    case Fetch(a, record) =>
      s.(writer := s.writer.(counts := s.writer.counts[a := record], pending := s.writer.pending[a := record]))
    case Checkpoint =>
      s.(db := s.db.(log := Some(Put(Committed(s.db), s.writer.source, s.writer.pending))),
        best := Newest(s.best, s.writer.source, s.writer.pending), writer := s.writer.(pending := map[]))
    case Export =>
      s.(json := Some(Json(s.writer.source, s.writer.counts)), best := Newest(s.best, s.writer.source, s.writer.counts),
        writer := s.writer.(phase := Exported))
    case Clear =>
      s.(db := s.db.(log := Some(Cleared(Committed(s.db), s.writer.source))), writer := s.writer.(phase := Done))
    case EndRun(tidy) =>
      s.(writer := Off, db := if tidy then Db(Committed(s.db), None) else s.db)
    case Crash =>
      s.(writer := Off)
    case FoldLog =>
      s.(db := s.db.(main := Committed(s.db)))
    case Open(r, source, locking) =>
      var shared := locking && s.writer.Off?;
      s.(readers := s.readers[r := Opened(Mode(source, shared, shared && s.db.log.None?))])
    case Begin(r) =>
      var mode := s.readers[r].mode;
      s.(readers := s.readers[r := Began(mode, Committed(s.db), FloorOf(s.best, mode.source))])
    case Load(r) =>
      var reader := s.readers[r];
      s.(readers := s.readers[r := Loaded(reader.mode, reader.snapshot, reader.floor, Legacy(s.json, reader.mode.source))])
    case Finish(r) =>
      var reader := s.readers[r];
      s.(readers := s.readers[r := Finished(reader.mode.source, Overlay(reader.json, Rows(Seen(s.db, reader.mode, reader.snapshot), reader.mode.source)), reader.floor)])
    case Leave(r) =>
      s.(readers := s.readers - {r})
    case TouchLog =>
      s.(db := s.db.(log := Some(Committed(s.db))))
  }

  function Next(s: State, action: Action): State {
    if Enabled(s, action) then After(s, action) else s
  }

  function Steps(): Machine<State, Action> {
    Machine(Enabled, Next)
  }

  // ---------------------------------------------------------------------------
  // What every careful step keeps
  // ---------------------------------------------------------------------------

  predicate HasRow(rows: Table, slot: Slot, time: int) {
    slot in rows && rows[slot].at >= time
  }

  /** One of the two places has an observation this new. */
  predicate Covered(json: Counts, rows: Table, slot: Slot, time: int) {
    AtLeast(json, slot.address, time) || HasRow(rows, slot, time)
  }

  /** For all addresses of a source, one of the two has an observation as new as the floor. */
  ghost predicate FloorCovered(json: Counts, rows: Table, source: Source, floor: Times) {
    forall a :: a in floor ==> Covered(json, rows, Slot(source, a), floor[a])
  }

  ghost predicate BestCovered(json: Option<Json>, rows: Table, best: Best) {
    forall slot :: slot in best ==> Covered(Legacy(json, slot.source), rows, slot, best[slot])
  }

  /** Nothing saved is newer than recorded. */
  ghost predicate BestReached(json: Option<Json>, rows: Table, best: Best) {
    && (forall slot :: slot in rows ==> slot in best && rows[slot].at <= best[slot])
    && (forall source, a :: a in Legacy(json, source) ==> Slot(source, a) in best && Legacy(json, source)[a].at <= best[Slot(source, a)])
  }

  /** The writer knows all that is saved for its source. */
  ghost predicate HoldsBest(source: Source, counts: Counts, best: Best) {
    forall slot :: slot in best && slot.source == source ==> AtLeast(counts, slot.address, best[slot])
  }

  ghost predicate AllAtLeast(counts: Counts, times: Times) {
    forall a :: a in times ==> AtLeast(counts, a, times[a])
  }

  ghost predicate NoNewer(source: Source, floor: Times, best: Best) {
    forall a :: a in floor ==> Slot(source, a) in best && floor[a] <= best[Slot(source, a)]
  }

  ghost predicate BestGrows(best: Best, more: Best) {
    forall slot :: slot in best ==> slot in more && best[slot] <= more[slot]
  }

  ghost predicate WriterOk(s: State) {
    s.writer.On? ==>
      && HoldsBest(s.writer.source, s.writer.counts, s.best)
      && (forall a :: a in s.writer.pending ==> a in s.writer.counts && s.writer.pending[a] == s.writer.counts[a])
      && (s.writer.phase.Exported? ==> s.json == Some(Json(s.writer.source, s.writer.counts)))
  }

  /** A reader sees enough, whatever the writer does next. */
  ghost predicate ReaderOk(s: State, reader: Reader) {
    && (!reader.Finished? && reader.mode.fixed ==> reader.mode.shared && s.db.main == Committed(s.db))
    && (HoldsShared(reader) ==> s.writer.Off?)
    && (reader.Began? ==> NoNewer(reader.mode.source, reader.floor, s.best))
    && (reader.Began? ==>
          FloorCovered(Legacy(s.json, reader.mode.source), Seen(s.db, reader.mode, reader.snapshot), reader.mode.source, reader.floor))
    && (reader.Loaded? ==> FloorCovered(reader.json, Seen(s.db, reader.mode, reader.snapshot), reader.mode.source, reader.floor))
    && (reader.Finished? ==> AllAtLeast(reader.result, reader.floor))
  }

  ghost predicate ReadersOk(s: State) {
    forall r :: r in s.readers ==> ReaderOk(s, s.readers[r])
  }

  ghost predicate Sound(s: State) {
    && BestCovered(s.json, Committed(s.db), s.best) && BestReached(s.json, Committed(s.db), s.best)
    && WriterOk(s) && ReadersOk(s)
  }

  // ---------------------------------------------------------------------------
  // What it takes to be careful
  // ---------------------------------------------------------------------------

  /** A fetched observation is no older than what the two places hold for its address. */
  predicate Fresh(s: State, a: Address, record: Record)
    requires s.writer.On?
  {
    a in Saved(s, s.writer.source) ==> record.at >= Saved(s, s.writer.source)[a].at
  }

  /** A reader of another source that has begun but not loaded has all it needs in its snapshot. */
  predicate Provided(s: State, reader: Reader)
    requires s.writer.On?
  {
    reader.Began? && reader.mode.source != s.writer.source ==>
      forall a :: a in reader.floor ==> HasRow(Seen(s.db, reader.mode, reader.snapshot), Slot(reader.mode.source, a), reader.floor[a])
  }

  /** The journal has all that the JSON file of another source holds, and so have the readers under way. */
  predicate Spares(s: State)
    requires s.writer.On?
  {
    && (s.json.Some? && s.json.value.source != s.writer.source ==>
          forall a :: a in s.json.value.counts ==> HasRow(Committed(s.db), Slot(s.json.value.source, a), s.json.value.counts[a].at))
    && (forall r :: r in s.readers ==> Provided(s, s.readers[r]))
  }

  predicate Careful(s: State, action: Action) {
    && (action.Fetch? && s.writer.On? ==> Fresh(s, action.address, action.record))
    && (action.Export? && s.writer.On? ==> Spares(s))
  }

  lemma StartSound()
    ensures Sound(Start())
  {
  }

  /** Everything saved is in one of the two places, and so in their merge. */
  lemma SavedCovers(s: State, slot: Slot, time: int)
    ensures AtLeast(Saved(s, slot.source), slot.address, time) <==>
      Covered(Legacy(s.json, slot.source), Committed(s.db), slot, time)
  {
    OverlayIsNewest(Legacy(s.json, slot.source), Rows(Committed(s.db), slot.source), slot.address, time);
    RowsMean(Committed(s.db), slot.source, slot.address);
  }

  // ---------------------------------------------------------------------------
  // The writer's steps
  // ---------------------------------------------------------------------------

  /** A run starts from all that is saved. */
  lemma BeginRunKeeps(s: State, source: Source, base: Counts, reviews: Counts)
    requires Sound(s) && Enabled(s, BeginRun(source, base, reviews))
    ensures Sound(After(s, BeginRun(source, base, reviews)))
  {
    var t := After(s, BeginRun(source, base, reviews));
    forall slot | slot in s.best && slot.source == source
      ensures AtLeast(t.writer.counts, slot.address, s.best[slot])
    {
      SavedCovers(s, slot, s.best[slot]);
      OverlayIsNewest(base, Saved(s, source), slot.address, s.best[slot]);
      OverlayIsNewest(Overlay(base, Saved(s, source)), reviews, slot.address, s.best[slot]);
    }
  }

  lemma FetchHeld(source: Source, counts: Counts, best: Best, a: Address, record: Record)
    requires HoldsBest(source, counts, best)
    requires Slot(source, a) in best ==> record.at >= best[Slot(source, a)]
    ensures HoldsBest(source, counts[a := record], best)
  {
    forall slot | slot in best && slot.source == source
      ensures AtLeast(counts[a := record], slot.address, best[slot])
    {
      if slot.address == a {
        assert slot == Slot(source, a);
      }
    }
  }

  lemma FetchKeeps(s: State, a: Address, record: Record)
    requires Sound(s) && Enabled(s, Fetch(a, record)) && Fresh(s, a, record)
    ensures Sound(After(s, Fetch(a, record)))
  {
    var t := After(s, Fetch(a, record));
    var slot := Slot(s.writer.source, a);
    if slot in s.best {
      SavedCovers(s, slot, s.best[slot]);
    }
    FetchHeld(s.writer.source, s.writer.counts, s.best, a, record);
    forall r | r in t.readers
      ensures ReaderOk(t, t.readers[r])
    {
      CommitSpares(s, t, s.readers[r]);
    }
  }

  lemma CommitCovers(s: State, slot: Slot)
    requires Sound(s) && Enabled(s, Checkpoint) && slot in After(s, Checkpoint).best
    ensures Covered(Legacy(s.json, slot.source), Committed(After(s, Checkpoint).db), slot, After(s, Checkpoint).best[slot])
  {
    PutMeans(Committed(s.db), s.writer.source, s.writer.pending, slot);
  }

  lemma CommitReaches(s: State, slot: Slot)
    requires Sound(s) && Enabled(s, Checkpoint) && slot in Committed(After(s, Checkpoint).db)
    ensures slot in After(s, Checkpoint).best
    ensures Committed(After(s, Checkpoint).db)[slot].at <= After(s, Checkpoint).best[slot]
  {
    PutMeans(Committed(s.db), s.writer.source, s.writer.pending, slot);
    NewestMeans(s.best, s.writer.source, s.writer.pending, slot);
  }

  lemma NewestMeans(best: Best, source: Source, saved: Counts, slot: Slot)
    ensures slot in Newest(best, source, saved) <==> slot in best || (slot.source == source && slot.address in saved)
    ensures slot in best ==> slot in Newest(best, source, saved) && Newest(best, source, saved)[slot] >= best[slot]
    ensures slot.source == source && slot.address in saved ==>
      slot in Newest(best, source, saved) && Newest(best, source, saved)[slot] >= saved[slot.address].at
    ensures slot.source != source && slot in best ==> Newest(best, source, saved)[slot] == best[slot]
  {
    if slot.source == source && slot.address in saved {
      assert slot == Slot(source, slot.address);
    }
  }

  lemma NewestGrows(best: Best, source: Source, saved: Counts)
    ensures BestGrows(best, Newest(best, source, saved))
  {
    forall slot | slot in best
      ensures slot in Newest(best, source, saved) && best[slot] <= Newest(best, source, saved)[slot]
    {
      NewestMeans(best, source, saved, slot);
    }
  }

  /** While the writer is on, its commits reach only readers that begin later. */
  lemma CommitSpares(s: State, t: State, reader: Reader)
    requires s.writer.On? && ReaderOk(s, reader)
    requires t.writer.On? && t.json == s.json && BestGrows(s.best, t.best)
    ensures ReaderOk(t, reader)
  {
  }

  lemma CommitHeld(s: State)
    requires Sound(s) && Enabled(s, Checkpoint)
    ensures WriterOk(After(s, Checkpoint)) && BestGrows(s.best, After(s, Checkpoint).best)
  {
    var best := After(s, Checkpoint).best;
    NewestGrows(s.best, s.writer.source, s.writer.pending);
    forall slot | slot in best && slot.source == s.writer.source
      ensures AtLeast(s.writer.counts, slot.address, best[slot])
    {
      NewestMeans(s.best, s.writer.source, s.writer.pending, slot);
    }
  }

  lemma CommitReachesJson(s: State)
    requires Sound(s) && Enabled(s, Checkpoint)
    ensures BestReached(s.json, Committed(After(s, Checkpoint).db), After(s, Checkpoint).best)
  {
    var t := After(s, Checkpoint);
    forall slot | slot in Committed(t.db)
      ensures slot in t.best && Committed(t.db)[slot].at <= t.best[slot]
    {
      CommitReaches(s, slot);
    }
    forall source, a | a in Legacy(s.json, source)
      ensures Slot(source, a) in t.best && Legacy(s.json, source)[a].at <= t.best[Slot(source, a)]
    {
      NewestMeans(s.best, s.writer.source, s.writer.pending, Slot(source, a));
    }
  }

  lemma CheckpointKeeps(s: State)
    requires Sound(s) && Enabled(s, Checkpoint)
    ensures Sound(After(s, Checkpoint))
  {
    var t := After(s, Checkpoint);
    CommitHeld(s);
    CommitReachesJson(s);
    forall slot | slot in t.best
      ensures Covered(Legacy(t.json, slot.source), Committed(t.db), slot, t.best[slot])
    {
      CommitCovers(s, slot);
    }
    forall r | r in t.readers
      ensures ReaderOk(t, t.readers[r])
    {
      CommitSpares(s, t, s.readers[r]);
    }
  }

  lemma ExportCovers(s: State, slot: Slot)
    requires Sound(s) && Enabled(s, Export) && Spares(s) && slot in After(s, Export).best
    ensures Covered(Legacy(After(s, Export).json, slot.source), Committed(s.db), slot, After(s, Export).best[slot])
  {
    NewestMeans(s.best, s.writer.source, s.writer.counts, slot);
    if slot.source == s.writer.source {
      assert AtLeast(s.writer.counts, slot.address, After(s, Export).best[slot]);
    } else {
      assert Covered(Legacy(s.json, slot.source), Committed(s.db), slot, s.best[slot]);
    }
  }

  lemma ExportSpares(s: State, reader: Reader)
    requires Sound(s) && Enabled(s, Export) && ReaderOk(s, reader) && Provided(s, reader)
    ensures ReaderOk(After(s, Export), reader)
  {
    NewestGrows(s.best, s.writer.source, s.writer.counts);
    if reader.Began? && reader.mode.source == s.writer.source {
      forall a | a in reader.floor
        ensures AtLeast(s.writer.counts, a, reader.floor[a])
      {
        assert Slot(s.writer.source, a) in s.best;
      }
    }
  }

  /** Replacing the JSON file harms nobody, as long as it spares what only the old file held of another source. */
  lemma ExportKeeps(s: State)
    requires Sound(s) && Enabled(s, Export) && Spares(s)
    ensures Sound(After(s, Export))
  {
    var t := After(s, Export);
    NewestGrows(s.best, s.writer.source, s.writer.counts);
    forall slot | slot in t.best
      ensures Covered(Legacy(t.json, slot.source), Committed(t.db), slot, t.best[slot])
    {
      ExportCovers(s, slot);
    }
    forall source, a | a in Legacy(t.json, source)
      ensures Slot(source, a) in t.best && Legacy(t.json, source)[a].at <= t.best[Slot(source, a)]
    {
      NewestMeans(s.best, s.writer.source, s.writer.counts, Slot(source, a));
    }
    forall r | r in t.readers
      ensures ReaderOk(t, t.readers[r])
    {
      assert ReaderOk(s, s.readers[r]) && Provided(s, s.readers[r]);
      ExportSpares(s, s.readers[r]);
    }
    forall slot | slot in t.best && slot.source == s.writer.source
      ensures AtLeast(s.writer.counts, slot.address, t.best[slot])
    {
      NewestMeans(s.best, s.writer.source, s.writer.counts, slot);
    }
  }

  /** Clearing the journal after the export loses nothing of its source and touches no other. */
  lemma ClearKeeps(s: State)
    requires Sound(s) && Enabled(s, Clear)
    ensures Sound(After(s, Clear))
  {
    var t := After(s, Clear);
    forall slot | slot in t.best
      ensures Covered(Legacy(t.json, slot.source), Committed(t.db), slot, t.best[slot])
    {
      assert Covered(Legacy(s.json, slot.source), Committed(s.db), slot, s.best[slot]);
    }
    forall r | r in t.readers
      ensures ReaderOk(t, t.readers[r])
    {
      CommitSpares(s, t, s.readers[r]);
    }
  }

  /** Folding or leaving the log changes no committed row, and happens only while no reader takes the file as fixed. */
  lemma FoldKeeps(s: State, action: Action)
    requires Sound(s) && Enabled(s, action) && (action.EndRun? || action.Crash? || action.FoldLog? || action.TouchLog?)
    ensures Sound(After(s, action))
  {
    var t := After(s, action);
    assert Committed(t.db) == Committed(s.db);
    forall r | r in t.readers
      ensures ReaderOk(t, t.readers[r])
    {
      assert ReaderOk(s, s.readers[r]);
    }
  }

  // ---------------------------------------------------------------------------
  // A reader's steps
  // ---------------------------------------------------------------------------

  /** A step of one reader leaves the others as they are. */
  lemma ReaderStep(s: State, r: ReaderId, reader: Reader)
    requires Sound(s) && ReaderOk(s, reader)
    ensures Sound(s.(readers := s.readers[r := reader]))
  {
    var t := s.(readers := s.readers[r := reader]);
    forall k | k in t.readers
      ensures ReaderOk(t, t.readers[k])
    {
      if k != r {
        assert ReaderOk(s, s.readers[k]);
      }
    }
  }

  /** Only under the shared lock, and only without a log, is the file taken as fixed. */
  lemma OpenKeeps(s: State, r: ReaderId, source: Source, locking: bool)
    requires Sound(s) && Enabled(s, Open(r, source, locking))
    ensures Sound(After(s, Open(r, source, locking)))
    ensures After(s, Open(r, source, locking)).readers[r].mode.fixed ==> s.writer.Off? && s.db.log.None?
  {
    ReaderStep(s, r, After(s, Open(r, source, locking)).readers[r]);
  }

  lemma BeginKeeps(s: State, r: ReaderId)
    requires Sound(s) && Enabled(s, Begin(r))
    ensures Sound(After(s, Begin(r)))
  {
    assert ReaderOk(s, s.readers[r]);
    var reader := After(s, Begin(r)).readers[r];
    forall a | a in reader.floor
      ensures Covered(Legacy(s.json, reader.mode.source), Committed(s.db), Slot(reader.mode.source, a), reader.floor[a])
    {
      assert Slot(reader.mode.source, a) in s.best;
    }
    ReaderStep(s, r, reader);
  }

  lemma LoadKeeps(s: State, r: ReaderId)
    requires Sound(s) && Enabled(s, Load(r))
    ensures Sound(After(s, Load(r)))
  {
    assert ReaderOk(s, s.readers[r]);
    ReaderStep(s, r, After(s, Load(r)).readers[r]);
  }

  lemma FinishKeeps(s: State, r: ReaderId)
    requires Sound(s) && Enabled(s, Finish(r))
    ensures Sound(After(s, Finish(r)))
  {
    var reader := s.readers[r];
    assert ReaderOk(s, reader);
    var rows := Seen(s.db, reader.mode, reader.snapshot);
    var result := Overlay(reader.json, Rows(rows, reader.mode.source));
    forall a | a in reader.floor
      ensures AtLeast(result, a, reader.floor[a])
    {
      assert Covered(reader.json, rows, Slot(reader.mode.source, a), reader.floor[a]);
      RowsMean(rows, reader.mode.source, a);
      OverlayIsNewest(reader.json, Rows(rows, reader.mode.source), a, reader.floor[a]);
    }
    ReaderStep(s, r, Finished(reader.mode.source, result, reader.floor));
  }

  lemma LeaveKeeps(s: State, r: ReaderId)
    requires Sound(s) && Enabled(s, Leave(r))
    ensures Sound(After(s, Leave(r)))
  {
    var t := After(s, Leave(r));
    forall k | k in t.readers
      ensures ReaderOk(t, t.readers[k])
    {
      assert ReaderOk(s, s.readers[k]);
    }
  }

  /** Every careful step, of the writer, of any reader, or a crash, keeps what the readers rely on. */
  lemma StepKeeps(s: State, action: Action)
    requires Sound(s) && Enabled(s, action) && Careful(s, action)
    ensures Sound(After(s, action))
  {
    match action
    case BeginRun(source, base, reviews) => BeginRunKeeps(s, source, base, reviews);
    case Fetch(a, record) => FetchKeeps(s, a, record);
    case Checkpoint => CheckpointKeeps(s);
    case Export => ExportKeeps(s);
    case Clear => ClearKeeps(s);
    case EndRun(_) => FoldKeeps(s, action);
    case Crash => FoldKeeps(s, action);
    case FoldLog => FoldKeeps(s, action);
    case Open(r, source, locking) => OpenKeeps(s, r, source, locking);
    case Begin(r) => BeginKeeps(s, r);
    case Load(r) => LoadKeeps(s, r);
    case Finish(r) => FinishKeeps(s, r);
    case Leave(r) => LeaveKeeps(s, r);
    case TouchLog => FoldKeeps(s, action);
  }

  // ---------------------------------------------------------------------------
  // Whole runs
  // ---------------------------------------------------------------------------

  ghost predicate SeesAll(reader: Reader) {
    reader.Finished? ==> AllAtLeast(reader.result, reader.floor)
  }

  /** Every reader that has finished has, for every address, an observation as new as any saved before it began. */
  ghost predicate AllSee(s: State) {
    forall r :: r in s.readers ==> SeesAll(s.readers[r])
  }

  /** A run that can happen and is careful at every step. */
  ghost predicate CarefulRun(s: State, actions: seq<Action>) {
    Possible(Steps(), s, actions) && Throughout(Steps(), s, actions, Careful)
  }

  function End(s: State, actions: seq<Action>): State {
    AfterAll(Steps(), s, actions)
  }

  lemma CarefulRunKeeps(s: State, actions: seq<Action>)
    requires Sound(s) && CarefulRun(s, actions)
    ensures Sound(End(s, actions)) && AllSee(End(s, actions))
  {
    forall t, action | Sound(t) && Enabled(t, action) && Careful(t, action)
      ensures Sound(Next(t, action))
    {
      StepKeeps(t, action);
    }
    AllowedRunKeeps(Steps(), s, actions, Careful, Sound);
    var t := End(s, actions);
    forall r | r in t.readers
      ensures SeesAll(t.readers[r])
    {
      assert ReaderOk(t, t.readers[r]);
    }
  }

  /** Over every careful run, whatever the interleaving, no finished reader misses anything saved before it began. */
  lemma ReadersSeeAll(actions: seq<Action>)
    requires CarefulRun(Start(), actions)
    ensures AllSee(End(Start(), actions))
  {
    StartSound();
    CarefulRunKeeps(Start(), actions);
  }

  // ---------------------------------------------------------------------------
  // Careful is exactly what is needed
  // ---------------------------------------------------------------------------

  lemma CarefulNone(s: State)
    ensures CarefulRun(s, []) && End(s, []) == s
  {
  }

  lemma CarefulNext(s: State, actions: seq<Action>, action: Action)
    requires CarefulRun(s, actions) && Enabled(End(s, actions), action) && Careful(End(s, actions), action)
    ensures CarefulRun(s, actions + [action]) && End(s, actions + [action]) == After(End(s, actions), action)
  {
    RunNext(Steps(), s, actions, action);
    AllowedNext(Steps(), s, actions, action, Careful);
  }

  lemma FreshReader(readers: set<ReaderId>) returns (r: ReaderId)
    ensures r !in readers
  {
    var bound := Above(readers);
    r := ReaderId(bound);
  }

  /** Some number is above all identities. */
  lemma {:induction false} Above(readers: set<ReaderId>) returns (bound: nat)
    ensures forall r :: r in readers ==> r.id < bound
    decreases readers
  {
    if readers == {} {
      bound := 0;
    } else {
      var r :| r in readers;
      bound := Above(readers - {r});
      bound := if r.id < bound then bound else r.id + 1;
    }
  }

  /** A new reader that has opened and begun holds all commits, and what is saved is its floor. */
  lemma VisitBegins(s: State, actions: seq<Action>, r: ReaderId, source: Source) returns (more: seq<Action>, mode: Mode)
    requires CarefulRun(s, actions) && r !in End(s, actions).readers
    ensures CarefulRun(s, more) && mode.source == source
    ensures more == actions + [Open(r, source, true)] + [Begin(r)]
    ensures var t := End(s, actions);
      && (mode.fixed ==> t.db.main == Committed(t.db))
      && End(s, more) == t.(readers := t.readers[r := Began(mode, Committed(t.db), FloorOf(t.best, source))])
  {
    var t := End(s, actions);
    more := actions + [Open(r, source, true)];
    CarefulNext(s, actions, Open(r, source, true));
    mode := End(s, more).readers[r].mode;
    CarefulNext(s, more, Begin(r));
    more := more + [Begin(r)];
  }

  lemma VisitEnds(s: State, actions: seq<Action>, r: ReaderId) returns (more: seq<Action>)
    requires CarefulRun(s, actions)
    requires r in End(s, actions).readers && End(s, actions).readers[r].Began?
    ensures CarefulRun(s, more) && more == actions + [Load(r)] + [Finish(r)]
    ensures var t := End(s, actions);
      var reader := t.readers[r];
      var rows := Rows(Seen(t.db, reader.mode, reader.snapshot), reader.mode.source);
      End(s, more) == t.(readers := t.readers[r := Finished(reader.mode.source, Overlay(Legacy(t.json, reader.mode.source), rows), reader.floor)])
  {
    var t := End(s, actions);
    more := actions + [Load(r)];
    CarefulNext(s, actions, Load(r));
    CarefulNext(s, more, Finish(r));
    more := more + [Finish(r)];
  }

  function Visit(r: ReaderId, source: Source): seq<Action> {
    [] + [Open(r, source, true)] + [Begin(r)] + [Load(r)] + [Finish(r)]
  }

  /** A new reader left undisturbed sees exactly what both places hold. */
  lemma Visited(s: State, actions: seq<Action>, r: ReaderId, source: Source) returns (more: seq<Action>)
    requires CarefulRun(s, actions) && r !in End(s, actions).readers
    ensures CarefulRun(s, more) && (actions == [] ==> more == Visit(r, source))
    ensures var t := End(s, actions);
      r in End(s, more).readers && End(s, more).readers[r] == Finished(source, Saved(t, source), FloorOf(t.best, source))
  {
    var mode;
    more, mode := VisitBegins(s, actions, r, source);
    more := VisitEnds(s, more, r);
  }

  /** Nothing careful can happen any more that makes a reader miss something. */
  ghost predicate Safe(s: State) {
    forall actions :: CarefulRun(s, actions) ==> AllSee(End(s, actions))
  }

  /** What is newer than both places hold for it is missed by the next reader. */
  lemma HiddenIsMissed(s: State, actions: seq<Action>, slot: Slot)
    requires CarefulRun(s, actions)
    requires slot in End(s, actions).best && !AtLeast(Saved(End(s, actions), slot.source), slot.address, End(s, actions).best[slot])
    ensures !Safe(s)
  {
    var t := End(s, actions);
    var r := FreshReader(t.readers.Keys);
    var more := Visited(s, actions, r, slot.source);
    assert slot == Slot(slot.source, slot.address);
    var reader := End(s, more).readers[r];
    assert slot.address in reader.floor && reader.floor[slot.address] == t.best[slot];
    assert !SeesAll(reader);
  }

  /** With the JSON file of its own source, or none, a writer harms no reader of another. */
  lemma OwnFileIsEnough(s: State)
    requires Sound(s) && s.writer.On?
    requires s.json.None? || s.json.value.source == s.writer.source
    ensures Spares(s)
  {
    forall r | r in s.readers
      ensures Provided(s, s.readers[r])
    {
      var reader := s.readers[r];
      assert ReaderOk(s, reader);
      if reader.Began? && reader.mode.source != s.writer.source {
        forall a | a in reader.floor
          ensures HasRow(Seen(s.db, reader.mode, reader.snapshot), Slot(reader.mode.source, a), reader.floor[a])
        {
          assert Covered(map[], Seen(s.db, reader.mode, reader.snapshot), Slot(reader.mode.source, a), reader.floor[a]);
        }
      }
    }
  }

  /** A fetch no older than what the writer itself holds for the address is fresh. */
  lemma HeldIsEnough(s: State, a: Address, record: Record)
    requires Sound(s) && s.writer.On?
    requires a in s.writer.counts ==> record.at >= s.writer.counts[a].at
    ensures Fresh(s, a, record)
  {
    if a in Saved(s, s.writer.source) {
      var slot := Slot(s.writer.source, a);
      var time := Saved(s, s.writer.source)[a].at;
      SavedCovers(s, slot, time);
      assert slot in s.best && s.best[slot] >= time;
    }
  }

  function Stale(s: State, a: Address, record: Record): State
    requires Enabled(s, Fetch(a, record))
  {
    After(After(s, Fetch(a, record)), Checkpoint)
  }

  lemma StaleRecorded(best: Best, source: Source, saved: Counts, a: Address)
    requires Slot(source, a) in best && a in saved && saved[a].at < best[Slot(source, a)]
    ensures Slot(source, a) in Newest(best, source, saved)
    ensures Newest(best, source, saved)[Slot(source, a)] == best[Slot(source, a)]
  {
  }

  /** What the older fetch leaves after its commit. */
  lemma StaleCommitted(s: State, a: Address, record: Record)
    requires Enabled(s, Fetch(a, record))
    requires var slot := Slot(s.writer.source, a); slot in s.best && s.best[slot] > record.at
    ensures var t := Stale(s, a, record);
      var slot := Slot(s.writer.source, a);
      && slot in t.best && t.best[slot] == s.best[slot]
      && slot in Committed(t.db) && Committed(t.db)[slot] == record
  {
    var slot := Slot(s.writer.source, a);
    var pending := s.writer.pending[a := record];
    PutMeans(Committed(s.db), s.writer.source, pending, slot);
    StaleRecorded(s.best, s.writer.source, pending, a);
  }

  lemma StaleShadows(t: State, slot: Slot, record: Record)
    requires slot in Committed(t.db) && Committed(t.db)[slot] == record && Legacy(t.json, slot.source) == map[]
    requires slot in t.best && t.best[slot] > record.at
    ensures !AtLeast(Saved(t, slot.source), slot.address, t.best[slot])
  {
    SavedCovers(t, slot, t.best[slot]);
  }

  lemma StaleSpares(s: State, a: Address, record: Record)
    requires Sound(s) && Enabled(s, Fetch(a, record)) && s.json.Some? && s.json.value.source == s.writer.source
    ensures Spares(Stale(s, a, record))
  {
    OwnFileIsEnough(s);
    SparesStay(s, Stale(s, a, record));
  }

  lemma SparesStay(s: State, t: State)
    requires s.writer.On? && t.writer.On? && t.writer.source == s.writer.source && t.db.main == s.db.main
    requires t.json == s.json && s.json.Some? && s.json.value.source == s.writer.source
    requires t.readers == s.readers && Spares(s)
    ensures Spares(t)
  {
    forall r | r in t.readers
      ensures Provided(t, t.readers[r])
    {
      assert Provided(s, s.readers[r]);
    }
  }

  lemma StaleCleared(t: State, slot: Slot)
    requires Enabled(t, Export) && t.writer.source == slot.source && slot.address in t.writer.counts
    requires slot in t.best && t.best[slot] > t.writer.counts[slot.address].at
    ensures var u := After(After(t, Export), Clear);
      && slot in u.best
      && !AtLeast(Saved(u, slot.source), slot.address, u.best[slot])
  {
    var u := After(After(t, Export), Clear);
    NewestMeans(t.best, slot.source, t.writer.counts, slot);
    SavedCovers(u, slot, u.best[slot]);
  }

  /** After an older fetch is committed only the JSON file can still hold the newer observation, and the export takes it from there. */
  lemma StaleIsMissed(s: State, a: Address, record: Record)
    requires Sound(s) && Enabled(s, Fetch(a, record)) && !Fresh(s, a, record)
    ensures !Safe(After(s, Fetch(a, record)))
  {
    var slot := Slot(s.writer.source, a);
    var t := After(s, Fetch(a, record));
    var time := Saved(s, s.writer.source)[a].at;
    SavedCovers(s, slot, time);
    assert slot in s.best && s.best[slot] >= time > record.at;
    CarefulNone(t);
    CarefulNext(t, [], Checkpoint);
    var u := After(t, Checkpoint);
    StaleCommitted(s, a, record);
    if s.json.Some? && s.json.value.source == s.writer.source {
      StaleSpares(s, a, record);
      CarefulNext(t, [] + [Checkpoint], Export);
      CarefulNext(t, [] + [Checkpoint] + [Export], Clear);
      StaleCleared(u, slot);
      HiddenIsMissed(t, [] + [Checkpoint] + [Export] + [Clear], slot);
    } else {
      StaleShadows(u, slot, record);
      HiddenIsMissed(t, [] + [Checkpoint], slot);
    }
  }


  /** An export over the file of another source is missed by its next reader, if only the file had it. */
  lemma OverwrittenIsMissed(s: State, a: Address)
    requires Sound(s) && Enabled(s, Export)
    requires s.json.Some? && s.json.value.source != s.writer.source && a in s.json.value.counts
    requires !HasRow(Committed(s.db), Slot(s.json.value.source, a), s.json.value.counts[a].at)
    ensures !Safe(After(s, Export))
  {
    var t := After(s, Export);
    var slot := Slot(s.json.value.source, a);
    assert a in Legacy(s.json, slot.source);
    NewestMeans(s.best, s.writer.source, s.writer.counts, slot);
    SavedCovers(t, slot, t.best[slot]);
    CarefulNone(t);
    HiddenIsMissed(t, [], slot);
  }

  /** An export over the file of another source is missed by a reader that has begun, if its snapshot lacks it. */
  lemma UnprovidedMisses(s: State, r: ReaderId)
    requires Sound(s) && Enabled(s, Export) && r in s.readers && !Provided(s, s.readers[r])
    ensures !Safe(After(s, Export))
  {
    var t := After(s, Export);
    var reader := s.readers[r];
    var rows := Seen(s.db, reader.mode, reader.snapshot);
    var a :| a in reader.floor && !HasRow(rows, Slot(reader.mode.source, a), reader.floor[a]);
    CarefulNone(t);
    var more := VisitEnds(t, [], r);
    RowMissed(rows, reader.mode.source, a, reader.floor[a]);
    var result := Overlay(map[], Rows(rows, reader.mode.source));
    assert !AllAtLeast(result, reader.floor) && End(t, more).readers[r] == Finished(reader.mode.source, result, reader.floor);
  }

  lemma RowMissed(rows: Table, source: Source, a: Address, time: int)
    requires !HasRow(rows, Slot(source, a), time)
    ensures !AtLeast(Overlay(map[], Rows(rows, source)), a, time)
  {
    RowsMean(rows, source, a);
    OverlayIsNewest(map[], Rows(rows, source), a, time);
  }

  lemma CarefulIsSafe(s: State, action: Action)
    requires Sound(s) && Enabled(s, action) && Careful(s, action)
    ensures Safe(After(s, action))
  {
    StepKeeps(s, action);
    forall actions | CarefulRun(After(s, action), actions)
      ensures AllSee(End(After(s, action), actions))
    {
      CarefulRunKeeps(After(s, action), actions);
    }
  }

  lemma CarelessIsUnsafe(s: State, action: Action)
    requires Sound(s) && Enabled(s, action) && !Careful(s, action)
    ensures !Safe(After(s, action))
  {
    if action.Fetch? {
      StaleIsMissed(s, action.address, action.record);
    } else if exists r :: r in s.readers && !Provided(s, s.readers[r]) {
      var r :| r in s.readers && !Provided(s, s.readers[r]);
      UnprovidedMisses(s, r);
    } else {
      var a :| a in s.json.value.counts && !HasRow(Committed(s.db), Slot(s.json.value.source, a), s.json.value.counts[a].at);
      OverwrittenIsMissed(s, a);
    }
  }

  /** A step that a careful run may take next is careful exactly when no careful run from there on makes a reader miss anything. */
  lemma CarefulIsExact(run: seq<Action>, action: Action)
    requires CarefulRun(Start(), run) && Enabled(End(Start(), run), action)
    ensures Careful(End(Start(), run), action) <==> Safe(After(End(Start(), run), action))
  {
    var s := End(Start(), run);
    StartSound();
    CarefulRunKeeps(Start(), run);
    if Careful(s, action) {
      CarefulIsSafe(s, action);
    } else {
      CarelessIsUnsafe(s, action);
    }
  }

  /** What a writer can check itself: a fetch no older than what it holds, an export over no other source's file. */
  predicate Checked(s: State, action: Action) {
    && (action.Fetch? && s.writer.On? && action.address in s.writer.counts ==> action.record.at >= s.writer.counts[action.address].at)
    && (action.Export? && s.writer.On? && s.json.Some? ==> s.json.value.source == s.writer.source)
  }

  lemma CheckedIsCareful(s: State, action: Action)
    requires Sound(s) && Checked(s, action)
    ensures Careful(s, action)
  {
    if action.Fetch? && s.writer.On? {
      HeldIsEnough(s, action.address, action.record);
    } else if action.Export? && s.writer.On? {
      OwnFileIsEnough(s);
    }
  }

  lemma CheckedRunsSeeAll(actions: seq<Action>)
    requires Possible(Steps(), Start(), actions) && Throughout(Steps(), Start(), actions, Checked)
    ensures AllSee(End(Start(), actions))
  {
    StartSound();
    forall t, action | Sound(t) && Enabled(t, action) && Checked(t, action)
      ensures Sound(Next(t, action))
    {
      CheckedIsCareful(t, action);
      StepKeeps(t, action);
    }
    AllowedRunKeeps(Steps(), Start(), actions, Checked, Sound);
    CarefulNone(End(Start(), actions));
    CarefulRunKeeps(End(Start(), actions), []);
  }

  // ---------------------------------------------------------------------------
  // Two runs that lose an observation
  // ---------------------------------------------------------------------------

  function Fetched(source: Source, a: Address, record: Record): seq<Action> {
    [] + [BeginRun(source, map[], map[])] + [Fetch(a, record)]
  }

  function Exporting(source: Source, a: Address, record: Record): seq<Action> {
    Fetched(source, a, record) + [Checkpoint] + [Export]
  }

  /** One undisturbed run that fetches a single observation. */
  function Saving(source: Source, a: Address, record: Record): seq<Action> {
    Exporting(source, a, record) + [Clear] + [EndRun(true)]
  }

  /** Nobody is about, and the journal is empty. */
  predicate Quiet(s: State) {
    s.writer.Off? && s.readers == map[] && Committed(s.db) == map[]
  }

  ghost predicate Recorded(s: State, t: State, slot: Slot, time: int) {
    BestGrows(s.best, t.best) && slot in t.best && t.best[slot] >= time
  }

  ghost predicate ExportedBy(s: State, t: State, source: Source, a: Address, record: Record) {
    && t.json == Some(Json(source, Saved(s, source)[a := record])) && Committed(t.db) == Put(map[], source, map[a := record])
    && t.writer.On? && t.writer.source == source && t.writer.phase.Exported? && t.readers == map[]
    && Recorded(s, t, Slot(source, a), record.at)
  }

  /** Where such a run ends: all the source has is in the JSON file. */
  ghost predicate SavedBy(s: State, t: State, source: Source, a: Address, record: Record) {
    t.json == Some(Json(source, Saved(s, source)[a := record])) && Quiet(t) && Recorded(s, t, Slot(source, a), record.at)
  }

  lemma FetchedAlone(s: State, source: Source, a: Address, record: Record)
    requires Quiet(s)
    ensures Possible(Steps(), s, Fetched(source, a, record))
    ensures End(s, Fetched(source, a, record))
      == s.(writer := On(source, Saved(s, source)[a := record], map[a := record], Fetching))
  {
    var held := Overlay(Overlay(map[], Saved(s, source)), map[]);
    SameMap(held, Saved(s, source));
    RunNext(Steps(), s, [], BeginRun(source, map[], map[]));
    RunNext(Steps(), s, [] + [BeginRun(source, map[], map[])], Fetch(a, record));
  }

  lemma RecordedAlone(best: Best, source: Source, pending: Counts, counts: Counts, a: Address)
    requires a in counts
    ensures var after := Newest(Newest(best, source, pending), source, counts);
      BestGrows(best, after) && Slot(source, a) in after && after[Slot(source, a)] >= counts[a].at
  {
    NewestGrows(best, source, pending);
    NewestGrows(Newest(best, source, pending), source, counts);
    NewestMeans(Newest(best, source, pending), source, counts, Slot(source, a));
  }

  lemma ExportedAlone(s: State, t: State, source: Source, a: Address, record: Record)
    requires Quiet(s) && t == s.(writer := On(source, Saved(s, source)[a := record], map[a := record], Fetching))
    ensures ExportedBy(s, After(After(t, Checkpoint), Export), source, a, record)
  {
    var u := After(t, Checkpoint);
    assert u.writer == On(source, Saved(s, source)[a := record], map[], Fetching);
    assert u.json == s.json && u.readers == map[] && Committed(u.db) == Put(map[], source, map[a := record]);
    RecordedAlone(t.best, source, t.writer.pending, t.writer.counts, a);
    assert Recorded(s, After(u, Export), Slot(source, a), record.at);
  }

  lemma ClearedAlone(source: Source, a: Address, record: Record)
    ensures Cleared(Put(map[], source, map[a := record]), source) == map[]
  {
    forall slot
      ensures slot !in Cleared(Put(map[], source, map[a := record]), source)
    {
      PutMeans(map[], source, map[a := record], slot);
    }
  }

  lemma ExportingEnds(s: State, source: Source, a: Address, record: Record)
    requires Quiet(s)
    ensures Possible(Steps(), s, Exporting(source, a, record))
    ensures ExportedBy(s, End(s, Exporting(source, a, record)), source, a, record)
  {
    FetchedAlone(s, source, a, record);
    var run := Fetched(source, a, record);
    var t := End(s, run);
    RunNext(Steps(), s, run, Checkpoint);
    RunNext(Steps(), s, run + [Checkpoint], Export);
    ExportedAlone(s, t, source, a, record);
  }

  lemma SavedAlone(s: State, t: State, source: Source, a: Address, record: Record)
    requires ExportedBy(s, t, source, a, record)
    ensures SavedBy(s, After(After(t, Clear), EndRun(true)), source, a, record)
  {
    ClearedAlone(source, a, record);
    var u := After(t, Clear);
    assert Committed(u.db) == map[] && u.json == t.json && u.best == t.best && u.readers == map[];
    var v := After(u, EndRun(true));
    assert Quiet(v) && v.json == t.json && v.best == t.best;
  }

  lemma TidyEnds(s: State, run: seq<Action>)
    requires Possible(Steps(), s, run) && Enabled(End(s, run), Clear)
    ensures Possible(Steps(), s, run + [Clear] + [EndRun(true)])
    ensures End(s, run + [Clear] + [EndRun(true)]) == After(After(End(s, run), Clear), EndRun(true))
  {
    RunNext(Steps(), s, run, Clear);
    RunNext(Steps(), s, run + [Clear], EndRun(true));
  }

  lemma SavingEnds(s: State, source: Source, a: Address, record: Record)
    requires Quiet(s)
    ensures Possible(Steps(), s, Saving(source, a, record))
    ensures SavedBy(s, End(s, Saving(source, a, record)), source, a, record)
  {
    ExportingEnds(s, source, a, record);
    var run := Exporting(source, a, record);
    TidyEnds(s, run);
    SavedAlone(s, End(s, run), source, a, record);
  }

  /** Two runs and a visit. */
  lemma TwoSavings(first: Source, a: Address, one: Record, second: Source, b: Address, two: Record, r: ReaderId)
    ensures var run := Saving(first, a, one) + Saving(second, b, two) + Visit(r, first);
      var s := End(Start(), Saving(first, a, one));
      var t := End(s, Saving(second, b, two));
      && Possible(Steps(), Start(), run)
      && SavedBy(Start(), s, first, a, one) && SavedBy(s, t, second, b, two)
      && r in End(Start(), run).readers
      && End(Start(), run).readers[r] == Finished(first, Saved(t, first), FloorOf(t.best, first))
  {
    SavingEnds(Start(), first, a, one);
    var s := End(Start(), Saving(first, a, one));
    SavingEnds(s, second, b, two);
    RunsJoin(Steps(), Start(), Saving(first, a, one), Saving(second, b, two));
    var t := End(s, Saving(second, b, two));
    CarefulNone(t);
    var more := Visited(t, [], r, first);
    RunsJoin(Steps(), Start(), Saving(first, a, one) + Saving(second, b, two), Visit(r, first));
  }

  /** A refresh whose observation is dated earlier, say 3 after 5, replaces the newer one for good. */
  lemma OlderFetchIsLost(source: Source, a: Address, newer: Record, older: Record, r: ReaderId)
    requires older.at < newer.at
    ensures var run := Saving(source, a, newer) + Saving(source, a, older) + Visit(r, source);
      Possible(Steps(), Start(), run) && !AllSee(End(Start(), run))
  {
    TwoSavings(source, a, newer, source, a, older, r);
    var s := End(Start(), Saving(source, a, newer));
    var t := End(s, Saving(source, a, older));
    MissedFloor(t, source, a, newer.at);
  }

  /** A run for another source replaces the file that alone held what the first one saved. */
  lemma OtherSourceIsLost(first: Source, a: Address, one: Record, second: Source, b: Address, two: Record, r: ReaderId)
    requires first != second
    ensures var run := Saving(first, a, one) + Saving(second, b, two) + Visit(r, first);
      Possible(Steps(), Start(), run) && !AllSee(End(Start(), run))
  {
    TwoSavings(first, a, one, second, b, two, r);
    var s := End(Start(), Saving(first, a, one));
    var t := End(s, Saving(second, b, two));
    MissedFloor(t, first, a, one.at);
  }

  lemma MissedFloor(t: State, source: Source, a: Address, time: int)
    requires Slot(source, a) in t.best && t.best[Slot(source, a)] >= time && Committed(t.db) == map[]
    requires !AtLeast(Legacy(t.json, source), a, time)
    ensures !SeesAll(Finished(source, Saved(t, source), FloorOf(t.best, source)))
  {
    var slot := Slot(source, a);
    SavedCovers(t, slot, t.best[slot]);
    assert slot.address in FloorOf(t.best, source);
  }
}
