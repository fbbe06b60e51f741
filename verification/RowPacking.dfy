/** Placing the rows of one component from the top, and moving components apart. */
module RowPacking {
  import opened Measures
  import opened Sequences
  import opened Sets
  import opened Groups
  import opened RowOrder
  import opened HorizontalFloor
  import opened ChangeRows

  /** A row as the packer sees it: where it would like to be, its height and its horizontal reserve. */
  datatype Row = Row(desired: real, height: real, span: Span)

  type Rows = map<Name, Row>

  ghost predicate Spanned(rows: Rows) {
    forall r :: r in rows ==> rows[r].span.left < rows[r].span.right
  }

  function Bottom(rows: Rows, placed: map<Name, real>, r: Name): real
    requires r in rows && r in placed
  {
    placed[r] + rows[r].height / 2.0
  }

  /** Row `t` sits at least the spacing beneath row `s`. */
  predicate Beneath(rows: Rows, placed: map<Name, real>, s: Name, t: Name)
    requires s in rows && s in placed && t in rows && t in placed
  {
    placed[t] - rows[t].height / 2.0 >= Bottom(rows, placed, s) + SPACING
  }

  /** The placed rows respect their wishes, their order, and each other. */
  ghost predicate Packed(rows: Rows, previous: Links, placed: map<Name, real>) {
    && (forall r :: r in placed ==> r in rows && placed[r] >= rows[r].desired)
    && (forall s, t :: t in placed && t in rows && t in previous && s in previous[t] ==> s in placed && s in rows && Beneath(rows, placed, s, t))
    && (forall r, s :: r in placed && r in rows && s in placed && s in rows && r != s && Overlap(rows[r].span, rows[s].span) ==>
          Beneath(rows, placed, r, s) || Beneath(rows, placed, s, r))
  }

  /** Put at `y`, the row lies beneath every placed row whose reserve it shares. */
  ghost predicate UnderAll(rows: Rows, placed: map<Name, real>, root: Name, y: real)
    requires root in rows
  {
    forall s :: s in placed && s in rows && s != root && Overlap(rows[s].span, rows[root].span) ==>
      Beneath(rows, placed[root := y], s, root)
  }

  /** The row's turn comes before the other's: by its wish, then by its key. */
  predicate Sooner(rows: Rows, r: Name, s: Name)
    requires r in rows && s in rows
  {
    rows[r].desired < rows[s].desired || (rows[r].desired == rows[s].desired && r.rank <= s.rank)
  }

  /** Nothing before the row is left to place. */
  ghost predicate Free(previous: Links, placed: seq<Name>, r: Name) {
    r in previous && r !in placed && forall s :: s in previous[r] ==> s in placed
  }

  /** At its turn the row was free, and of all free rows the one to come first. */
  ghost predicate InTurn(rows: Rows, previous: Links, order: seq<Name>, i: nat)
    requires i < |order|
  {
    && order[i] in rows && Free(previous, order[..i], order[i])
    && forall r :: r in rows && Free(previous, order[..i], r) ==> Sooner(rows, order[i], r)
  }

  /** The rows were placed in this order, each in its turn, and each beneath the earlier ones whose reserve it shares. */
  ghost predicate FellInOrder(rows: Rows, previous: Links, placed: map<Name, real>, order: seq<Name>) {
    && Distinct(order) && (forall r :: r in placed <==> r in order)
    && (forall i: nat :: i < |order| ==> InTurn(rows, previous, order, i))
    && (forall i, j ::
          (0 <= i < j < |order| && order[i] in rows && order[j] in rows && order[i] in placed && order[j] in placed
            && Overlap(rows[order[i]].span, rows[order[j]].span))
          ==> Beneath(rows, placed, order[i], order[j]))
  }

  lemma FellGrow(rows: Rows, previous: Links, placed: map<Name, real>, order: seq<Name>, root: Name, y: real)
    requires FellInOrder(rows, previous, placed, order) && root in rows && root !in placed && UnderAll(rows, placed, root, y)
    requires Free(previous, order, root) && forall r :: r in rows && Free(previous, order, r) ==> Sooner(rows, root, r)
    ensures FellInOrder(rows, previous, placed[root := y], order + [root])
  {
    var more, after := order + [root], placed[root := y];
    forall i: nat | i < |more|
      ensures InTurn(rows, previous, more, i)
    {
      assert more[..i] == order[..i];
      if i < |order| {
        assert InTurn(rows, previous, order, i);
      } else {
        assert order[..i] == order;
      }
    }
    forall i, j | 0 <= i < j < |more| && more[i] in rows && more[j] in rows && more[i] in after && more[j] in after
        && Overlap(rows[more[i]].span, rows[more[j]].span)
      ensures Beneath(rows, after, more[i], more[j])
    {
      assert more[i] in placed;
      if j < |order| {
        assert Beneath(rows, placed, order[i], order[j]);
      }
    }
  }

  /** `s` holds up `r`: it comes before it or lies under it, exactly the spacing away. */
  predicate Holds(rows: Rows, previous: Links, placed: map<Name, real>, s: Name, r: Name)
    requires r in rows && r in placed && r in previous
  {
    && s in rows && s in placed && s != r && (s in previous[r] || Overlap(rows[s].span, rows[r].span))
    && placed[r] - rows[r].height / 2.0 == Bottom(rows, placed, s) + SPACING
  }

  /** No row hangs lower than it must: it has its wish, or some other row holds it up. */
  ghost predicate Settled(rows: Rows, previous: Links, placed: map<Name, real>) {
    forall r :: r in placed && r in rows && r in previous ==>
      placed[r] == rows[r].desired || exists s :: Holds(rows, previous, placed, s, r)
  }

  /** The update was made by a placed row. */
  ghost predicate LiftedBy(rows: Rows, placed: map<Name, real>, u: Lift) {
    exists r :: r in placed && r in rows && u == Lift(rows[r].span, At(Bottom(rows, placed, r)))
  }

  /** Every placed row has raised the floor to its bottom, and nothing else has. */
  ghost predicate Floored(rows: Rows, placed: map<Name, real>, updates: seq<Lift>) {
    && (forall r :: r in placed && r in rows ==> Lift(rows[r].span, At(Bottom(rows, placed, r))) in updates)
    && (forall u :: u in updates ==> LiftedBy(rows, placed, u))
  }

  lemma LiftedByMore(rows: Rows, placed: map<Name, real>, root: Name, y: real, u: Lift)
    requires LiftedBy(rows, placed, u) && root !in placed
    ensures LiftedBy(rows, placed[root := y], u)
  {
    var r :| r in placed && r in rows && u == Lift(rows[r].span, At(Bottom(rows, placed, r)));
    assert Bottom(rows, placed[root := y], r) == Bottom(rows, placed, r);
  }

  lemma FlooredGrow(rows: Rows, placed: map<Name, real>, updates: seq<Lift>, root: Name, y: real)
    requires Floored(rows, placed, updates) && root in rows && root !in placed
    ensures Floored(rows, placed[root := y], updates + [Lift(rows[root].span, At(y + rows[root].height / 2.0))])
  {
    var more, own := placed[root := y], Lift(rows[root].span, At(y + rows[root].height / 2.0));
    forall r | r in more && r in rows
      ensures Lift(rows[r].span, At(Bottom(rows, more, r))) in updates + [own]
    {
      if r != root {
        assert Lift(rows[r].span, At(Bottom(rows, placed, r))) in updates;
      }
    }
    forall u | u in updates
      ensures LiftedBy(rows, more, u)
    {
      LiftedByMore(rows, placed, root, y, u);
    }
    assert Bottom(rows, more, root) == y + rows[root].height / 2.0;
    assert LiftedBy(rows, more, own);
  }

  /** A row that falls onto its wish, a parent or the floor comes to rest. */
  lemma SettledGrow(rows: Rows, previous: Links, placed: map<Name, real>, updates: seq<Lift>, root: Name, y: real, floor: Height)
    requires Settled(rows, previous, placed) && Floored(rows, placed, updates) && root in rows && root !in placed && root in previous
    requires IsFloor(updates, rows[root].span, floor)
    requires
      || y == rows[root].desired
      || (floor.At? && y == floor.y + rows[root].height / 2.0 + SPACING)
      || exists s :: s in previous[root] && s in placed && s in rows && y == placed[s] + (rows[s].height + rows[root].height) / 2.0 + SPACING
    ensures Settled(rows, previous, placed[root := y])
  {
    var more := placed[root := y];
    forall r | r in more && r in rows && r in previous
      ensures more[r] == rows[r].desired || exists s :: Holds(rows, previous, more, s, r)
    {
      if r != root {
        if placed[r] != rows[r].desired {
          var s :| Holds(rows, previous, placed, s, r);
          assert Holds(rows, previous, more, s, r);
        }
      } else if y != rows[root].desired {
        if s :| s in previous[root] && s in placed && s in rows && y == placed[s] + (rows[s].height + rows[root].height) / 2.0 + SPACING {
          assert Holds(rows, previous, more, s, root);
        } else {
          var u :| u in updates && Overlap(u.span, rows[root].span) && u.height == floor;
          assert LiftedBy(rows, placed, u);
          var s :| s in placed && s in rows && u == Lift(rows[s].span, At(Bottom(rows, placed, s)));
          assert Holds(rows, previous, more, s, root);
        }
      }
    }
  }

  /** A row placed below its parents and below the floor keeps the packing. */
  lemma PackedGrow(rows: Rows, previous: Links, placed: map<Name, real>, updates: seq<Lift>, root: Name, y: real, floor: Height)
    requires Packed(rows, previous, placed) && Floored(rows, placed, updates) && root in rows && root !in placed && root in previous
    requires y >= rows[root].desired && IsFloor(updates, rows[root].span, floor)
    requires floor.At? ==> y >= floor.y + rows[root].height / 2.0 + SPACING
    requires forall s :: s in previous[root] ==>
      s in placed && s in rows && y >= placed[s] + (rows[s].height + rows[root].height) / 2.0 + SPACING
    ensures Packed(rows, previous, placed[root := y]) && UnderAll(rows, placed, root, y)
  {
    var more := placed[root := y];
    forall s | s in placed && s in rows && Overlap(rows[s].span, rows[root].span)
      ensures Beneath(rows, more, s, root)
    {
      var lift := Lift(rows[s].span, At(Bottom(rows, placed, s)));
      assert lift in updates && Overlap(lift.span, rows[root].span);
      assert AtMost(lift.height, floor);
    }
    forall s, t | t in more && t in rows && t in previous && s in previous[t]
      ensures s in more && s in rows && Beneath(rows, more, s, t)
    {
      if t != root {
        assert t in placed;
        assert Beneath(rows, placed, s, t);
      }
    }
    forall r, s | r in more && r in rows && s in more && s in rows && r != s && Overlap(rows[r].span, rows[s].span)
      ensures Beneath(rows, more, r, s) || Beneath(rows, more, s, r)
    {
      if r != root && s != root {
        assert Beneath(rows, placed, r, s) || Beneath(rows, placed, s, r);
      }
    }
  }

  lemma PlacedGrow(rows: Rows, previous: Links, placed: map<Name, real>, updates: seq<Lift>, root: Name, y: real, floor: Height)
    requires Packed(rows, previous, placed) && Settled(rows, previous, placed) && Floored(rows, placed, updates)
    requires root in rows && root !in placed && root in previous
    requires y >= rows[root].desired && IsFloor(updates, rows[root].span, floor)
    requires floor.At? ==> y >= floor.y + rows[root].height / 2.0 + SPACING
    requires forall s :: s in previous[root] ==>
      s in placed && s in rows && y >= placed[s] + (rows[s].height + rows[root].height) / 2.0 + SPACING
    requires
      || y == rows[root].desired
      || (floor.At? && y == floor.y + rows[root].height / 2.0 + SPACING)
      || exists s :: s in previous[root] && s in placed && s in rows && y == placed[s] + (rows[s].height + rows[root].height) / 2.0 + SPACING
    ensures Packed(rows, previous, placed[root := y]) && Settled(rows, previous, placed[root := y])
    ensures UnderAll(rows, placed, root, y)
    ensures Floored(rows, placed[root := y], updates + [Lift(rows[root].span, At(y + rows[root].height / 2.0))])
  {
    PackedGrow(rows, previous, placed, updates, root, y, floor);
    SettledGrow(rows, previous, placed, updates, root, y, floor);
    FlooredGrow(rows, placed, updates, root, y);
  }

  /** The next row off the heap: least wish, then least key. */
  method Topmost(rows: Rows, ready: set<Name>) returns (root: Name)
    requires ready != {} && forall r :: r in ready ==> r in rows
    ensures root in ready
    ensures root in rows && forall r :: r in ready && r in rows ==> Sooner(rows, root, r)
  {
    root := Pick(ready);
    var todo := ready - {root};
    while todo != {}
      invariant todo <= ready && root in ready
      invariant forall r :: r in ready && r in rows && r !in todo ==> Sooner(rows, root, r)
      decreases todo
    {
      var r := Pick(todo);
      if rows[r].desired < rows[root].desired || (rows[r].desired == rows[root].desired && r.rank < root.rank) {
        root := r;
      }
      todo := todo - {r};
    }
  }

  /** The wish of a row, pushed below all its parents. */
  method BelowParents(rows: Rows, placed: map<Name, real>, parents: set<Name>, root: Name) returns (y: real)
    requires root in rows && forall s :: s in parents ==> s in rows && s in placed
    ensures y >= rows[root].desired
    ensures forall s :: s in parents && s in placed && s in rows ==> y >= placed[s] + (rows[s].height + rows[root].height) / 2.0 + SPACING
    ensures y == rows[root].desired ||
      exists s :: s in parents && s in placed && s in rows && y == placed[s] + (rows[s].height + rows[root].height) / 2.0 + SPACING
  {
    y := rows[root].desired;
    var todo := parents;
    while todo != {}
      invariant todo <= parents && y >= rows[root].desired
      invariant forall s :: s in parents && s !in todo && s in placed && s in rows ==> y >= placed[s] + (rows[s].height + rows[root].height) / 2.0 + SPACING
      invariant y == rows[root].desired ||
        exists s :: s in parents && s in placed && s in rows && y == placed[s] + (rows[s].height + rows[root].height) / 2.0 + SPACING
      decreases todo
    {
      var s := Pick(todo);
      var low := placed[s] + (rows[s].height + rows[root].height) / 2.0 + SPACING;
      if low > y {
        y := low;
      }
      todo := todo - {s};
    }
  }

  /** The given spans as a list. */
  method Listed(spans: map<Name, Span>) returns (list: seq<Span>)
    ensures forall r :: r in spans ==> spans[r] in list
  {
    list := [];
    var todo := spans.Keys;
    while todo != {}
      invariant todo <= spans.Keys && forall r :: r in spans && r !in todo ==> spans[r] in list
      decreases todo
    {
      var r := Pick(todo);
      list := list + [spans[r]];
      todo := todo - {r};
    }
  }

  ghost predicate AllKnown(rows: Rows, coordinates: seq<real>) {
    forall r :: r in rows ==> Known(coordinates, rows[r].span)
  }

  ghost predicate ReservesKnown(reserves: map<Name, Span>, coordinates: seq<real>) {
    forall r :: r in reserves ==> Known(coordinates, reserves[r])
  }

  /** An untouched floor under the given reserves. */
  method FloorUnder(reserves: map<Name, Span>) returns (floor: Floor)
    requires forall r :: r in reserves ==> reserves[r].left < reserves[r].right
    ensures fresh(floor) && fresh(floor.maximum) && fresh(floor.lazy)
    ensures floor.Valid() && floor.updates == [] && ReservesKnown(reserves, floor.coordinates)
  {
    var spans := Listed(reserves);
    floor := new Floor(spans);
    forall r | r in reserves
      ensures Known(floor.coordinates, reserves[r])
    {
      var i :| 0 <= i < |spans| && spans[i] == reserves[r];
    }
  }

  method FloorFor(rows: Rows) returns (floor: Floor)
    requires Spanned(rows)
    ensures fresh(floor) && fresh(floor.maximum) && fresh(floor.lazy)
    ensures floor.Valid() && floor.updates == [] && AllKnown(rows, floor.coordinates)
  {
    var reserves := map r | r in rows :: rows[r].span;
    floor := FloorUnder(reserves);
    assert forall r :: r in rows ==> reserves[r] == rows[r].span;
  }

  /** Where a row comes to rest. */
  method FallTo(rows: Rows, previous: Links, placed: map<Name, real>, floor: Floor, root: Name) returns (y: real)
    requires floor.Valid() && AllKnown(rows, floor.coordinates)
    requires Packed(rows, previous, placed) && Settled(rows, previous, placed) && Floored(rows, placed, floor.updates)
    requires root in rows && root !in placed && root in previous && forall s :: s in previous[root] ==> s in placed
    ensures Packed(rows, previous, placed[root := y]) && Settled(rows, previous, placed[root := y])
    ensures UnderAll(rows, placed, root, y)
    ensures Floored(rows, placed[root := y], floor.updates + [Lift(rows[root].span, At(y + rows[root].height / 2.0))])
  {
    y := BelowParents(rows, placed, previous[root], root);
    var under := floor.Range(rows[root].span);
    if under.At? && under.y + rows[root].height / 2.0 + SPACING > y {
      y := under.y + rows[root].height / 2.0 + SPACING;
    }
    PlacedGrow(rows, previous, placed, floor.updates, root, y, under);
  }

  /** Lets one row fall: below its wish, its parents and everything already under its span. */
  method PlaceOne(rows: Rows, previous: Links, placed: map<Name, real>, floor: Floor, root: Name) returns (y: real)
    requires floor.Valid() && AllKnown(rows, floor.coordinates)
    requires Packed(rows, previous, placed) && Settled(rows, previous, placed) && Floored(rows, placed, floor.updates)
    requires root in rows && root !in placed && root in previous && forall s :: s in previous[root] ==> s in placed
    modifies floor, floor.maximum, floor.lazy
    ensures floor.Valid()
    ensures Packed(rows, previous, placed[root := y]) && Settled(rows, previous, placed[root := y])
    ensures UnderAll(rows, placed, root, y)
    ensures Floored(rows, placed[root := y], floor.updates)
  {
    y := FallTo(rows, previous, placed, floor, root);
    floor.Update(rows[root].span, y + rows[root].height / 2.0);
  }

  lemma ReadyIsFree(rows: Rows, previous: Links, done: set<Name>, ready: set<Name>, order: seq<Name>, root: Name)
    requires (forall r :: r in done <==> r in order) && previous.Keys == rows.Keys && root in ready && root in rows
    requires forall r :: r in rows ==> (r in ready <==> r !in done && previous[r] <= done)
    requires forall r :: r in ready && r in rows ==> Sooner(rows, root, r)
    ensures Free(previous, order, root) && forall r :: r in rows && Free(previous, order, r) ==> Sooner(rows, root, r)
  {
    forall r | r in rows && Free(previous, order, r)
      ensures r in ready
    {
      assert previous[r] <= done;
    }
  }

  /** Lets each row fall to its place, parents first. All rows are placed when none waits for itself. */
  method PlaceRows(rows: Rows, following: Links, previous: Links) returns (placed: map<Name, real>, order: seq<Name>)
    requires Spanned(rows) && Mirrored(rows.Keys, following, previous)
    ensures Packed(rows, previous, placed) && Settled(rows, previous, placed)
    ensures forall r :: r in rows ==> (r in placed <==> !Trapped(previous, r))
    ensures FellInOrder(rows, previous, placed, order)
  {
    var floor := FloorFor(rows);
    var indegree, ready := Start(rows.Keys, following, previous);
    ghost var time: map<Name, nat> := map[];
    ghost var done: set<Name> := {};
    placed, order := map[], [];
    while ready != {}
      invariant floor.Valid() && fresh(floor) && fresh(floor.maximum) && fresh(floor.lazy) && AllKnown(rows, floor.coordinates)
      invariant Draining(rows.Keys, following, previous, done, ready, indegree, time)
      invariant forall r :: r in done <==> r in placed
      invariant Packed(rows, previous, placed) && Settled(rows, previous, placed) && Floored(rows, placed, floor.updates)
      invariant FellInOrder(rows, previous, placed, order)
      decreases rows.Keys - done
    {
      var root := Topmost(rows, ready);
      ReadyMeans(rows.Keys, following, previous, done, ready, indegree, time);
      ReadyIsFree(rows, previous, done, ready, order, root);
      indegree, ready := Turn(rows.Keys, following, previous, done, ready, indegree, time, root);
      time, done := time[root := |done|], done + {root};
      var y := PlaceOne(rows, previous, placed, floor, root);
      FellGrow(rows, previous, placed, order, root, y);
      placed, order := placed[root := y], order + [root];
    }
    LeftAreTrapped(rows.Keys, following, previous, done, indegree, time);
  }

  // ---------------------------------------------------------------------------
  // Moving components apart
  // ---------------------------------------------------------------------------

  /** A row of the whole drawing: where it reaches vertically, its reserve, and its component. */
  datatype Strip = Strip(top: real, bottom: real, span: Span, component: Name)

  type Strips = map<Name, Strip>

  predicate Clear(strips: Strips, shifts: map<Name, real>, r: Name, s: Name)
    requires r in strips && s in strips && strips[r].component in shifts && strips[s].component in shifts
  {
    strips[s].top + shifts[strips[s].component] >= strips[r].bottom + shifts[strips[r].component] + COMPONENT_SPACING
  }

  /** Rows of different moved components that overlap are the component spacing apart. */
  ghost predicate Apart(strips: Strips, shifts: map<Name, real>) {
    && (forall c :: c in shifts ==> shifts[c] >= 0.0)
    && (forall r, s ::
          (r in strips && s in strips && strips[r].component in shifts && strips[s].component in shifts
            && strips[r].component != strips[s].component && Overlap(strips[r].span, strips[s].span))
          ==> Clear(strips, shifts, r, s) || Clear(strips, shifts, s, r))
  }

  /** Row `s` of another component stops row `r`: they overlap, exactly the component spacing apart. */
  predicate Stops(strips: Strips, shifts: map<Name, real>, s: Name, r: Name)
    requires r in strips && strips[r].component in shifts
  {
    && s in strips && strips[s].component in shifts && strips[s].component != strips[r].component
    && Overlap(strips[s].span, strips[r].span)
    && strips[r].top + shifts[strips[r].component] == strips[s].bottom + shifts[strips[s].component] + COMPONENT_SPACING
  }

  ghost predicate Ahead(order: seq<Name>, c: Name, d: Name) {
    exists i, j :: 0 <= i < j < |order| && order[i] == c && order[j] == d
  }

  /** Of two components with rows that overlap, the one that comes first stays above. */
  ghost predicate Stacked(strips: Strips, shifts: map<Name, real>, order: seq<Name>) {
    forall r, s ::
      (r in strips && s in strips && strips[r].component in shifts && strips[s].component in shifts
        && Ahead(order, strips[r].component, strips[s].component) && Overlap(strips[r].span, strips[s].span))
      ==> Clear(strips, shifts, r, s)
  }

  /** A component that came before stops this one. */
  ghost predicate Stopped(strips: Strips, shifts: map<Name, real>, order: seq<Name>, c: Name) {
    exists r, s :: r in strips && strips[r].component == c && c in shifts && Stops(strips, shifts, s, r)
      && Ahead(order, strips[s].component, c)
  }

  /** No component moves farther than it must. */
  ghost predicate LeastShifts(strips: Strips, shifts: map<Name, real>, order: seq<Name>) {
    forall c :: c in shifts && shifts[c] != 0.0 ==> Stopped(strips, shifts, order, c)
  }

  /** The component is the next to move: those in place come before it, and it before none of them. */
  ghost predicate NextToMove(shifts: map<Name, real>, order: seq<Name>, component: Name) {
    component !in shifts && !Ahead(order, component, component)
    && forall c :: c in shifts ==> Ahead(order, c, component) && !Ahead(order, component, c)
  }

  ghost predicate StripLift(strips: Strips, shifts: map<Name, real>, u: Lift) {
    exists r :: r in strips && strips[r].component in shifts
      && u == Lift(strips[r].span, At(strips[r].bottom + shifts[strips[r].component]))
  }

  ghost predicate Lifted(strips: Strips, shifts: map<Name, real>, updates: seq<Lift>) {
    && (forall r :: r in strips && strips[r].component in shifts ==>
          Lift(strips[r].span, At(strips[r].bottom + shifts[strips[r].component])) in updates)
    && (forall u :: u in updates ==> StripLift(strips, shifts, u))
  }

  ghost predicate StripsKnown(strips: Strips, coordinates: seq<real>) {
    forall r :: r in strips ==> Known(coordinates, strips[r].span)
  }

  predicate Touches(strips: Strips, updates: seq<Lift>, component: Name, shift: real, r: Name, u: Lift) {
    && r in strips && strips[r].component == component && u in updates && Overlap(u.span, strips[r].span) && u.height.At?
    && strips[r].top + shift == u.height.y + COMPONENT_SPACING
  }

  /** The shift clears every row of the component from what lies under it. */
  ghost predicate Clears(strips: Strips, updates: seq<Lift>, component: Name, shift: real) {
    && shift >= 0.0
    && (forall r, u ::
          (r in strips && strips[r].component == component && u in updates && Overlap(u.span, strips[r].span) && u.height.At?)
          ==> strips[r].top + shift >= u.height.y + COMPONENT_SPACING)
    && (shift != 0.0 ==> exists r, u :: Touches(strips, updates, component, shift, r, u))
  }

  lemma StopsGrow(strips: Strips, shifts: map<Name, real>, component: Name, shift: real, s: Name, r: Name)
    requires component !in shifts && r in strips && strips[r].component in shifts && Stops(strips, shifts, s, r)
    ensures Stops(strips, shifts[component := shift], s, r)
  {
  }

  lemma StripLiftGrow(strips: Strips, shifts: map<Name, real>, component: Name, shift: real, u: Lift)
    requires component !in shifts && StripLift(strips, shifts, u)
    ensures StripLift(strips, shifts[component := shift], u)
  {
    var r :| r in strips && strips[r].component in shifts && u == Lift(strips[r].span, At(strips[r].bottom + shifts[strips[r].component]));
    var c := strips[r].component;
    assert shifts[component := shift][c] == shifts[c];
  }

  /** A row touching an update of the floor is stopped by the row that made it. */
  lemma TouchStops(strips: Strips, shifts: map<Name, real>, order: seq<Name>, updates: seq<Lift>, component: Name, shift: real, r: Name, u: Lift)
    requires Lifted(strips, shifts, updates) && NextToMove(shifts, order, component) && Touches(strips, updates, component, shift, r, u)
    ensures Stopped(strips, shifts[component := shift], order, component)
  {
    assert StripLift(strips, shifts, u);
    var s :| s in strips && strips[s].component in shifts && u == Lift(strips[s].span, At(strips[s].bottom + shifts[strips[s].component]));
    assert Stops(strips, shifts[component := shift], s, r);
  }

  lemma LeastGrow(strips: Strips, shifts: map<Name, real>, order: seq<Name>, updates: seq<Lift>, component: Name, shift: real)
    requires LeastShifts(strips, shifts, order) && Lifted(strips, shifts, updates) && NextToMove(shifts, order, component)
    requires Clears(strips, updates, component, shift)
    ensures LeastShifts(strips, shifts[component := shift], order)
  {
    var more := shifts[component := shift];
    forall c | c in more && more[c] != 0.0
      ensures Stopped(strips, more, order, c)
    {
      if c == component {
        var r, u :| Touches(strips, updates, component, shift, r, u);
        TouchStops(strips, shifts, order, updates, component, shift, r, u);
      } else {
        assert Stopped(strips, shifts, order, c);
        var r, s :| r in strips && strips[r].component == c && c in shifts && Stops(strips, shifts, s, r)
          && Ahead(order, strips[s].component, c);
        StopsGrow(strips, shifts, component, shift, s, r);
      }
    }
  }

  lemma StackedGrow(strips: Strips, shifts: map<Name, real>, order: seq<Name>, updates: seq<Lift>, component: Name, shift: real)
    requires Stacked(strips, shifts, order) && Lifted(strips, shifts, updates) && NextToMove(shifts, order, component)
    requires Clears(strips, updates, component, shift)
    ensures Stacked(strips, shifts[component := shift], order)
  {
    var more := shifts[component := shift];
    forall r, s | r in strips && s in strips && strips[r].component in more && strips[s].component in more
      && Ahead(order, strips[r].component, strips[s].component) && Overlap(strips[r].span, strips[s].span)
      ensures Clear(strips, more, r, s)
    {
      if strips[s].component == component {
        assert Lift(strips[r].span, At(strips[r].bottom + shifts[strips[r].component])) in updates;
      } else {
        assert Clear(strips, shifts, r, s);
      }
    }
  }

  lemma ApartGrow(strips: Strips, shifts: map<Name, real>, updates: seq<Lift>, component: Name, shift: real)
    requires Apart(strips, shifts) && Lifted(strips, shifts, updates) && component !in shifts
    requires Clears(strips, updates, component, shift)
    ensures Apart(strips, shifts[component := shift])
  {
    var more := shifts[component := shift];
    forall r, s | r in strips && s in strips && strips[r].component in more && strips[s].component in more
      && strips[r].component != strips[s].component && Overlap(strips[r].span, strips[s].span)
      ensures Clear(strips, more, r, s) || Clear(strips, more, s, r)
    {
      if strips[r].component == component {
        assert Lift(strips[s].span, At(strips[s].bottom + shifts[strips[s].component])) in updates;
      } else if strips[s].component == component {
        assert Lift(strips[r].span, At(strips[r].bottom + shifts[strips[r].component])) in updates;
      } else {
        assert Clear(strips, shifts, r, s) || Clear(strips, shifts, s, r);
      }
    }
  }

  /** Moved by the shift, one row is clear of the floor. */
  ghost predicate RowClears(strip: Strip, updates: seq<Lift>, shift: real) {
    forall u :: u in updates && Overlap(u.span, strip.span) && u.height.At? ==> strip.top + shift >= u.height.y + COMPONENT_SPACING
  }

  method ShiftOne(strips: Strips, component: Name, floor: Floor, r: Name, shift0: real) returns (shift: real)
    requires floor.Valid() && StripsKnown(strips, floor.coordinates)
    requires r in strips && strips[r].component == component && shift0 >= 0.0
    ensures shift >= shift0 && RowClears(strips[r], floor.updates, shift)
    ensures shift == shift0 || exists u :: Touches(strips, floor.updates, component, shift, r, u)
  {
    shift := shift0;
    var under := floor.Range(strips[r].span);
    if under.At? && under.y + COMPONENT_SPACING - strips[r].top > shift {
      shift := under.y + COMPONENT_SPACING - strips[r].top;
      ghost var u :| u in floor.updates && Overlap(u.span, strips[r].span) && u.height == under;
      assert Touches(strips, floor.updates, component, shift, r, u);
    }
    forall u | u in floor.updates && Overlap(u.span, strips[r].span) && u.height.At?
      ensures strips[r].top + shift >= u.height.y + COMPONENT_SPACING
    {
      assert AtMost(u.height, under);
    }
  }

  /** The least shift that clears the floor under every row of the component. */
  method ShiftFor(strips: Strips, members: set<Name>, component: Name, floor: Floor) returns (shift: real)
    requires floor.Valid() && StripsKnown(strips, floor.coordinates)
    requires forall r :: r in members <==> r in strips && strips[r].component == component
    ensures Clears(strips, floor.updates, component, shift)
  {
    shift := 0.0;
    var todo := members;
    while todo != {}
      invariant todo <= members && shift >= 0.0
      invariant forall r :: r in members && r !in todo ==> RowClears(strips[r], floor.updates, shift)
      invariant shift != 0.0 ==> exists r, u :: Touches(strips, floor.updates, component, shift, r, u)
      decreases todo
    {
      var r := Pick(todo);
      shift := ShiftOne(strips, component, floor, r, shift);
      todo := todo - {r};
    }
  }

  /** Part of a moved component has raised the floor. */
  ghost predicate Lifting(strips: Strips, shifts: map<Name, real>, component: Name, todo: set<Name>, updates: seq<Lift>)
    requires component in shifts
  {
    && (forall r :: r in strips && strips[r].component in shifts && r !in todo ==>
          Lift(strips[r].span, At(strips[r].bottom + shifts[strips[r].component])) in updates)
    && (forall u :: u in updates ==> StripLift(strips, shifts, u))
  }

  lemma LiftingStart(strips: Strips, shifts: map<Name, real>, component: Name, shift: real, members: set<Name>, updates: seq<Lift>)
    requires Lifted(strips, shifts, updates) && component !in shifts
    requires forall r :: r in members <==> r in strips && strips[r].component == component
    ensures Lifting(strips, shifts[component := shift], component, members, updates)
  {
    forall u | u in updates
      ensures StripLift(strips, shifts[component := shift], u)
    {
      StripLiftGrow(strips, shifts, component, shift, u);
    }
  }

  lemma LiftingStep(strips: Strips, shifts: map<Name, real>, component: Name, todo: set<Name>, updates: seq<Lift>, r: Name)
    requires component in shifts && Lifting(strips, shifts, component, todo, updates) && r in strips && strips[r].component == component
    ensures Lifting(strips, shifts, component, todo - {r}, updates + [Lift(strips[r].span, At(strips[r].bottom + shifts[component]))])
  {
    assert StripLift(strips, shifts, Lift(strips[r].span, At(strips[r].bottom + shifts[component])));
  }

  lemma LiftingEnd(strips: Strips, shifts: map<Name, real>, component: Name, updates: seq<Lift>)
    requires component in shifts && Lifting(strips, shifts, component, {}, updates)
    ensures Lifted(strips, shifts, updates)
  {
  }

  method RaiseRow(strips: Strips, ghost shifts: map<Name, real>, ghost component: Name, ghost todo: set<Name>, floor: Floor, r: Name, shift: real)
    requires floor.Valid() && StripsKnown(strips, floor.coordinates) && component in shifts && shifts[component] == shift
    requires Lifting(strips, shifts, component, todo, floor.updates) && r in strips && strips[r].component == component
    modifies floor, floor.maximum, floor.lazy
    ensures floor.Valid() && Lifting(strips, shifts, component, todo - {r}, floor.updates)
  {
    LiftingStep(strips, shifts, component, todo, floor.updates, r);
    floor.Update(strips[r].span, strips[r].bottom + shift);
  }

  /** Raises the floor under a component that has been moved into place. */
  method RaiseComponent(strips: Strips, members: set<Name>, component: Name, shift: real, floor: Floor, ghost shifts: map<Name, real>)
    requires floor.Valid() && StripsKnown(strips, floor.coordinates) && Lifted(strips, shifts, floor.updates) && component !in shifts
    requires forall r :: r in members <==> r in strips && strips[r].component == component
    modifies floor, floor.maximum, floor.lazy
    ensures floor.Valid() && Lifted(strips, shifts[component := shift], floor.updates)
  {
    var todo := members;
    ghost var more := shifts[component := shift];
    LiftingStart(strips, shifts, component, shift, members, floor.updates);
    while todo != {}
      invariant todo <= members && floor.Valid() && Lifting(strips, more, component, todo, floor.updates)
      decreases todo
    {
      var r := Pick(todo);
      RaiseRow(strips, more, component, todo, floor, r, shift);
      todo := todo - {r};
    }
    LiftingEnd(strips, more, component, floor.updates);
  }

  /** Moves one more component clear of the rows already in place. */
  method MoveComponent(strips: Strips, component: Name, floor: Floor, ghost shifts: map<Name, real>, ghost order: seq<Name>)
      returns (shift: real)
    requires floor.Valid() && StripsKnown(strips, floor.coordinates) && Lifted(strips, shifts, floor.updates)
    requires NextToMove(shifts, order, component)
    requires Apart(strips, shifts) && Stacked(strips, shifts, order) && LeastShifts(strips, shifts, order)
    modifies floor, floor.maximum, floor.lazy
    ensures floor.Valid() && Lifted(strips, shifts[component := shift], floor.updates)
    ensures Apart(strips, shifts[component := shift]) && Stacked(strips, shifts[component := shift], order)
    ensures LeastShifts(strips, shifts[component := shift], order)
  {
    var members := set r | r in strips && strips[r].component == component;
    shift := ShiftFor(strips, members, component, floor);
    ApartGrow(strips, shifts, floor.updates, component, shift);
    StackedGrow(strips, shifts, order, floor.updates, component, shift);
    LeastGrow(strips, shifts, order, floor.updates, component, shift);
    RaiseComponent(strips, members, component, shift, floor, shifts);
  }

  method FloorForStrips(strips: Strips) returns (floor: Floor)
    requires forall r :: r in strips ==> strips[r].span.left < strips[r].span.right
    ensures fresh(floor) && fresh(floor.maximum) && fresh(floor.lazy)
    ensures floor.Valid() && floor.updates == [] && StripsKnown(strips, floor.coordinates)
  {
    var reserves := map r | r in strips :: strips[r].span;
    floor := FloorUnder(reserves);
    assert forall r :: r in strips ==> reserves[r] == strips[r].span;
  }

  lemma NextIsNew(order: seq<Name>, i: nat, shifts: map<Name, real>)
    requires i < |order| && Distinct(order) && forall c :: c in shifts <==> c in order[..i]
    ensures NextToMove(shifts, order, order[i]) && order[..i + 1] == order[..i] + [order[i]]
  {
    forall c | c in shifts
      ensures Ahead(order, c, order[i]) && !Ahead(order, order[i], c)
    {
      var k :| 0 <= k < i && order[k] == c;
      assert order[k] == c && order[i] == order[i];
    }
  }

  /** One component after another, each moved down just far enough to clear those that came before. */
  method SeparateComponents(strips: Strips, order: seq<Name>) returns (shifts: map<Name, real>)
    requires forall r :: r in strips ==> strips[r].span.left < strips[r].span.right
    requires Distinct(order)
    ensures forall c :: c in shifts <==> c in order
    ensures Apart(strips, shifts) && Stacked(strips, shifts, order) && LeastShifts(strips, shifts, order)
  {
    var floor := FloorForStrips(strips);
    shifts := map[];
    for i := 0 to |order|
      invariant floor.Valid() && fresh(floor) && fresh(floor.maximum) && fresh(floor.lazy)
      invariant StripsKnown(strips, floor.coordinates)
      invariant forall c :: c in shifts <==> c in order[..i]
      invariant Apart(strips, shifts) && Stacked(strips, shifts, order) && LeastShifts(strips, shifts, order)
      invariant Lifted(strips, shifts, floor.updates)
    {
      NextIsNew(order, i, shifts);
      var shift := MoveComponent(strips, order[i], floor, shifts, order);
      shifts := shifts[order[i] := shift];
    }
    assert order[..|order|] == order;
  }

  /** The first component never moves. */
  lemma FirstStays(strips: Strips, shifts: map<Name, real>, order: seq<Name>)
    requires LeastShifts(strips, shifts, order) && Distinct(order) && order != [] && order[0] in shifts
    ensures shifts[order[0]] == 0.0
  {
    FirstFree(order);
  }

  lemma FirstFree(order: seq<Name>)
    requires Distinct(order) && order != []
    ensures forall c :: !Ahead(order, c, order[0])
  {
  }
}
