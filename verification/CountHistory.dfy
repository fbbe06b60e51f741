/** What a reader of the count cache holds was observed for that very source and address, and saved.

A history goes along with the store: the observations that runs were given or
fetched, and those of them that a commit or an export saved. No merge may make up
a record of its own. */
module CountHistory {
  import opened CountCache
  import opened Options
  import opened Runs

  datatype Entry = Entry(slot: Slot, record: Record)

  function Entries(source: Source, counts: Counts): set<Entry> {
    set a | a in counts :: Entry(Slot(source, a), counts[a])
  }

  datatype History = History(now: State, given: set<Entry>, saved: set<Entry>)

  function Empty(): History {
    History(Start(), {}, {})
  }

  /** The observations that come in with an action. */
  function Given(s: State, action: Action): set<Entry> {
    match action
    case BeginRun(source, base, reviews) => Entries(source, base) + Entries(source, reviews)
    case Fetch(a, record) => if s.writer.On? then {Entry(Slot(s.writer.source, a), record)} else {}
    case _ => {}
  }

  /** The observations that an action saves. */
  function Kept(s: State, action: Action): set<Entry> {
    if s.writer.Off? then {}
    else if action.Checkpoint? then Entries(s.writer.source, s.writer.pending)
    else if action.Export? then Entries(s.writer.source, s.writer.counts)
    else {}
  }

  predicate Can(h: History, action: Action) {
    Enabled(h.now, action)
  }

  function Record1(h: History, action: Action): History {
    History(Next(h.now, action), h.given + Given(h.now, action), h.saved + Kept(h.now, action))
  }

  function Recording(): Machine<History, Action> {
    Machine(Can, Record1)
  }

  /** The history of a run from the empty store. */
  function Past(actions: seq<Action>): History {
    AfterAll(Recording(), Empty(), actions)
  }

  // ---------------------------------------------------------------------------
  // Nothing is made up
  // ---------------------------------------------------------------------------

  predicate AllIn(source: Source, counts: Counts, known: set<Entry>) {
    forall a :: a in counts ==> Entry(Slot(source, a), counts[a]) in known
  }

  predicate TableIn(rows: Table, known: set<Entry>) {
    forall slot :: slot in rows ==> Entry(slot, rows[slot]) in known
  }

  predicate JsonIn(json: Option<Json>, known: set<Entry>) {
    json.Some? ==> AllIn(json.value.source, json.value.counts, known)
  }

  predicate DbIn(db: Db, known: set<Entry>) {
    TableIn(db.main, known) && TableIn(Committed(db), known)
  }

  predicate WriterIn(writer: Writer, known: set<Entry>) {
    writer.On? ==> AllIn(writer.source, writer.counts, known) && AllIn(writer.source, writer.pending, known)
  }

  predicate ReaderIn(reader: Reader, known: set<Entry>) {
    match reader
    case Opened(_) => true
    case Began(_, snapshot, _) => TableIn(snapshot, known)
    case Loaded(mode, snapshot, _, json) => TableIn(snapshot, known) && AllIn(mode.source, json, known)
    case Finished(source, result, _) => AllIn(source, result, known)
  }

  predicate ReadersIn(readers: map<ReaderId, Reader>, known: set<Entry>) {
    forall r :: r in readers ==> ReaderIn(readers[r], known)
  }

  /** The files and readers hold only what was saved, the writer only what was given, and only what was given was saved. */
  predicate Genuine(h: History) {
    && h.saved <= h.given
    && JsonIn(h.now.json, h.saved) && DbIn(h.now.db, h.saved) && ReadersIn(h.now.readers, h.saved)
    && WriterIn(h.now.writer, h.given)
  }

  lemma OverlayIn(source: Source, counts: Counts, rows: Counts, known: set<Entry>)
    requires AllIn(source, counts, known) && AllIn(source, rows, known)
    ensures AllIn(source, Overlay(counts, rows), known)
  {
  }

  lemma InMore(source: Source, counts: Counts, known: set<Entry>, more: set<Entry>)
    requires AllIn(source, counts, known) && known <= more
    ensures AllIn(source, counts, more)
  {
  }

  lemma LegacyIn(json: Option<Json>, source: Source, known: set<Entry>)
    requires JsonIn(json, known)
    ensures AllIn(source, Legacy(json, source), known)
  {
  }

  lemma RowsIn(rows: Table, source: Source, known: set<Entry>)
    requires TableIn(rows, known)
    ensures AllIn(source, Rows(rows, source), known)
  {
    forall a | a in Rows(rows, source)
      ensures Entry(Slot(source, a), Rows(rows, source)[a]) in known
    {
      RowsMean(rows, source, a);
    }
  }

  lemma PutIn(rows: Table, source: Source, records: Counts, known: set<Entry>)
    requires TableIn(rows, known) && AllIn(source, records, known)
    ensures TableIn(Put(rows, source, records), known)
  {
    forall slot | slot in Put(rows, source, records)
      ensures Entry(slot, Put(rows, source, records)[slot]) in known
    {
      PutMeans(rows, source, records, slot);
      assert slot.source == source && slot.address in records ==> slot == Slot(source, slot.address);
    }
  }

  lemma SavedIn(s: State, source: Source, known: set<Entry>)
    requires JsonIn(s.json, known) && DbIn(s.db, known)
    ensures AllIn(source, Saved(s, source), known)
  {
    LegacyIn(s.json, source, known);
    RowsIn(Committed(s.db), source, known);
    OverlayIn(source, Legacy(s.json, source), Rows(Committed(s.db), source), known);
  }

  lemma ReadersInMore(readers: map<ReaderId, Reader>, known: set<Entry>, more: set<Entry>)
    requires ReadersIn(readers, known) && known <= more
    ensures ReadersIn(readers, more)
  {
    forall r | r in readers
      ensures ReaderIn(readers[r], more)
    {
      assert ReaderIn(readers[r], known);
    }
  }

  lemma BeginRunGenuine(h: History, source: Source, base: Counts, reviews: Counts)
    requires Genuine(h) && Can(h, BeginRun(source, base, reviews))
    ensures Genuine(Record1(h, BeginRun(source, base, reviews)))
  {
    var given := Record1(h, BeginRun(source, base, reviews)).given;
    SavedIn(h.now, source, h.saved);
    InMore(source, Saved(h.now, source), h.saved, given);
    InMore(source, base, Entries(source, base), given);
    InMore(source, reviews, Entries(source, reviews), given);
    OverlayIn(source, base, Saved(h.now, source), given);
    OverlayIn(source, Overlay(base, Saved(h.now, source)), reviews, given);
  }

  lemma SaveGenuine(h: History, action: Action)
    requires Genuine(h) && Can(h, action) && (action.Checkpoint? || action.Export?)
    ensures Genuine(Record1(h, action))
  {
    var t := Record1(h, action);
    var w := h.now.writer;
    ReadersInMore(h.now.readers, h.saved, t.saved);
    if action.Checkpoint? {
      InMore(w.source, w.pending, Entries(w.source, w.pending), t.saved);
      PutIn(Committed(h.now.db), w.source, w.pending, t.saved);
    } else {
      InMore(w.source, w.counts, Entries(w.source, w.counts), t.saved);
    }
  }

  lemma ReaderGenuine(h: History, action: Action)
    requires Genuine(h) && Can(h, action)
    requires action.Open? || action.Begin? || action.Load? || action.Finish? || action.Leave?
    ensures Genuine(Record1(h, action))
  {
    var readers := After(h.now, action).readers;
    if !action.Leave? {
      var reader := readers[action.reader];
      assert ReaderIn(reader, h.saved) by {
        match action
        case Open(_, _, _) =>
        case Begin(_) =>
        case Load(r) =>
          assert ReaderIn(h.now.readers[r], h.saved);
          LegacyIn(h.now.json, reader.mode.source, h.saved);
        case Finish(r) => FinishIn(h, r);
      }
    }
    forall r | r in readers
      ensures ReaderIn(readers[r], h.saved)
    {
      if action.Leave? || r != action.reader {
        assert ReaderIn(h.now.readers[r], h.saved);
      }
    }
    assert Record1(h, action) == History(h.now.(readers := readers), h.given, h.saved);
  }

  lemma FinishIn(h: History, r: ReaderId)
    requires Genuine(h) && Can(h, Finish(r))
    ensures ReaderIn(After(h.now, Finish(r)).readers[r], h.saved)
  {
    var reader := h.now.readers[r];
    assert ReaderIn(reader, h.saved);
    var rows := Seen(h.now.db, reader.mode, reader.snapshot);
    RowsIn(rows, reader.mode.source, h.saved);
    OverlayIn(reader.mode.source, reader.json, Rows(rows, reader.mode.source), h.saved);
  }

  lemma StepGenuine(h: History, action: Action)
    requires Genuine(h) && Can(h, action)
    ensures Genuine(Record1(h, action))
  {
    match action
    case BeginRun(source, base, reviews) => BeginRunGenuine(h, source, base, reviews);
    case Checkpoint => SaveGenuine(h, action);
    case Export => SaveGenuine(h, action);
    case Open(_, _, _) => ReaderGenuine(h, action);
    case Begin(_) => ReaderGenuine(h, action);
    case Load(_) => ReaderGenuine(h, action);
    case Finish(_) => ReaderGenuine(h, action);
    case Leave(_) => ReaderGenuine(h, action);
    case _ =>
  }

  /** The history is that of the run itself. */
  lemma {:induction false} SameRun(h: History, actions: seq<Action>)
    ensures Possible(Recording(), h, actions) <==> Possible(Steps(), h.now, actions)
    ensures AfterAll(Recording(), h, actions).now == End(h.now, actions)
    decreases |actions|
  {
    if actions != [] {
      SameRun(Record1(h, actions[0]), actions[1..]);
    }
  }

  /** Over every run, careful or not, each record that a finished reader holds is one that was observed for its
  source and address and then saved. */
  lemma ReadersHoldSaved(actions: seq<Action>, r: ReaderId, a: Address)
    requires Possible(Steps(), Start(), actions)
    requires r in End(Start(), actions).readers && End(Start(), actions).readers[r].Finished?
    requires a in End(Start(), actions).readers[r].result
    ensures var reader := End(Start(), actions).readers[r];
      Entry(Slot(reader.source, a), reader.result[a]) in Past(actions).saved
    ensures Past(actions).saved <= Past(actions).given && Past(actions).now == End(Start(), actions)
  {
    SameRun(Empty(), actions);
    forall h, action | Genuine(h) && Can(h, action)
      ensures Genuine(Record1(h, action))
    {
      StepGenuine(h, action);
    }
    RunKeeps(Recording(), Empty(), actions, Genuine);
    assert ReaderIn(End(Start(), actions).readers[r], Past(actions).saved);
  }

  /** The newest times cover all that was saved. */
  predicate Covering(h: History) {
    forall e :: e in h.saved ==> e.slot in h.now.best && h.now.best[e.slot] >= e.record.at
  }

  lemma StepCovering(h: History, action: Action)
    requires Covering(h) && Can(h, action)
    ensures Covering(Record1(h, action))
  {
    var t := Record1(h, action);
    var w := h.now.writer;
    if action.Checkpoint? || action.Export? {
      forall e | e in t.saved
        ensures e.slot in t.now.best && t.now.best[e.slot] >= e.record.at
      {
        NewestMeans(h.now.best, w.source, if action.Checkpoint? then w.pending else w.counts, e.slot);
      }
    }
  }

  /** A reader that begins after a run is owed every observation of its source that the run saved. */
  lemma FloorIsAllSaved(actions: seq<Action>, r: ReaderId, e: Entry)
    requires Possible(Steps(), Start(), actions) && Enabled(End(Start(), actions), Begin(r))
    requires e in Past(actions).saved
    ensures var reader := After(End(Start(), actions), Begin(r)).readers[r];
      reader.Began? && (e.slot.source == reader.mode.source ==> e.slot.address in reader.floor && reader.floor[e.slot.address] >= e.record.at)
  {
    SameRun(Empty(), actions);
    forall h, action | Covering(h) && Can(h, action)
      ensures Covering(Record1(h, action))
    {
      StepCovering(h, action);
    }
    RunKeeps(Recording(), Empty(), actions, Covering);
    assert e.slot == Slot(e.slot.source, e.slot.address);
  }

  /** After a careful run a finished reader holds, for everything saved before it began, a saved record as new. */
  lemma ReadersHoldNewest(actions: seq<Action>, r: ReaderId, a: Address)
    requires CarefulRun(Start(), actions)
    requires r in End(Start(), actions).readers && End(Start(), actions).readers[r].Finished?
    requires a in End(Start(), actions).readers[r].floor
    ensures var reader := End(Start(), actions).readers[r];
      && a in reader.result && reader.result[a].at >= reader.floor[a]
      && Entry(Slot(reader.source, a), reader.result[a]) in Past(actions).saved
  {
    ReadersSeeAll(actions);
    var reader := End(Start(), actions).readers[r];
    assert SeesAll(reader) && AtLeast(reader.result, a, reader.floor[a]);
    ReadersHoldSaved(actions, r, a);
  }
}
