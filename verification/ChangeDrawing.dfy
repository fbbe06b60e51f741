/** The whole change layout of a drawing, and what it promises object by object. */
module ChangeDrawing {
  import opened Measures
  import opened Sequences
  import opened Sets
  import opened Groups
  import opened RowOrder
  import opened HorizontalFloor
  import opened ChangeRows
  import opened ChangeConstraints
  import opened RowPacking
  import opened ChangeLayout
  import opened ChangePlacement

  // ---------------------------------------------------------------------------
  // Where rows reach after packing
  // ---------------------------------------------------------------------------

  ghost predicate Bounds(main: Main, keys: set<Name>, top: real, bottom: real) {
    && (forall k :: k in keys && k in main ==> top <= Top(main, k) && Foot(main, k) <= bottom)
    && (exists k :: k in keys && k in main && top == Top(main, k))
    && (exists k :: k in keys && k in main && bottom == Foot(main, k))
  }

  method BoundsOf(main: Main, keys: set<Name>) returns (top: real, bottom: real)
    requires keys != {} && forall k :: k in keys ==> k in main
    ensures Bounds(main, keys, top, bottom)
  {
    var first := Pick(keys);
    top, bottom := Top(main, first), Foot(main, first);
    var todo := keys - {first};
    while todo != {}
      invariant todo <= keys
      invariant forall k :: k in keys && k !in todo && k in main ==> top <= Top(main, k) && Foot(main, k) <= bottom
      invariant exists k :: k in keys && k in main && top == Top(main, k)
      invariant exists k :: k in keys && k in main && bottom == Foot(main, k)
      decreases todo
    {
      var k := Pick(todo);
      top := if Top(main, k) < top then Top(main, k) else top;
      bottom := if Foot(main, k) > bottom then Foot(main, k) else bottom;
      todo := todo - {k};
    }
  }

  ghost predicate StripOf(main: Main, keys: set<Name>, strip: Strip) {
    Bounds(main, keys, strip.top, strip.bottom) && SpanOf(main, keys, strip.span) && strip.span.left < strip.span.right
  }

  ghost predicate StripsOf(main: Main, members: map<Name, set<Name>>, home: Parents, strips: Strips) {
    && (forall r :: r in strips <==> r in members)
    && (forall r :: r in strips && r in members ==> StripOf(main, members[r], strips[r]))
    && (forall r :: r in strips ==> r in home && strips[r].component == home[r])
  }

  method StripsFor(main: Main, members: map<Name, set<Name>>, home: Parents) returns (strips: Strips)
    requires Sized(main) && forall r :: r in members ==> members[r] != {} && r in home
    requires forall r, k :: r in members && k in members[r] ==> k in main
    ensures StripsOf(main, members, home, strips)
  {
    strips := map[];
    var todo := members.Keys;
    while todo != {}
      invariant todo <= members.Keys && forall r :: r in strips <==> r in members && r !in todo
      invariant forall r :: r in strips && r in members ==> StripOf(main, members[r], strips[r])
      invariant forall r :: r in strips ==> r in home && strips[r].component == home[r]
      decreases todo
    {
      var r := Pick(todo);
      var shape := Shape(main, members[r]);
      var top, bottom := BoundsOf(main, members[r]);
      strips := strips[r := Strip(top, bottom, shape.span, home[r])];
      todo := todo - {r};
    }
  }

  // ---------------------------------------------------------------------------
  // Components from the top
  // ---------------------------------------------------------------------------

  predicate Higher(tops: map<Name, real>, a: Name, b: Name)
    requires a in tops && b in tops
  {
    tops[a] < tops[b] || (tops[a] == tops[b] && a.rank <= b.rank)
  }

  method Highest(tops: map<Name, real>, todo0: set<Name>) returns (first: Name)
    requires todo0 != {} && forall c :: c in todo0 ==> c in tops
    ensures first in todo0 && forall c :: c in todo0 && c in tops ==> Higher(tops, first, c)
  {
    first := Pick(todo0);
    var todo := todo0 - {first};
    while todo != {}
      invariant todo <= todo0 && first in todo0
      invariant forall c :: c in todo0 && c !in todo && c in tops ==> Higher(tops, first, c)
      decreases todo
    {
      var c := Pick(todo);
      if Higher(tops, c, first) {
        first := c;
      }
      todo := todo - {c};
    }
  }

  /** From the top down; level components by their root. */
  ghost predicate TopDown(tops: map<Name, real>, order: seq<Name>) {
    && (forall i :: 0 <= i < |order| ==> order[i] in tops)
    && (forall i, j :: 0 <= i < j < |order| && order[i] in tops && order[j] in tops ==>
          order[i] != order[j] && Higher(tops, order[i], order[j]))
  }

  method SortTops(tops: map<Name, real>) returns (order: seq<Name>)
    ensures TopDown(tops, order) && forall c :: c in order <==> c in tops
  {
    order := [];
    var todo := tops.Keys;
    while todo != {}
      invariant todo <= tops.Keys && TopDown(tops, order)
      invariant forall c :: c in order <==> c in tops && c !in todo
      invariant forall i, c :: 0 <= i < |order| && order[i] in tops && c in todo && c in tops ==> Higher(tops, order[i], c)
      decreases todo
    {
      var first := Highest(tops, todo);
      assert first !in order;
      order := order + [first];
      todo := todo - {first};
    }
  }

  ghost predicate TopsOf(main: Main, home: Parents, tops: map<Name, real>) {
    && (forall c :: c in tops <==> exists k :: k in home && home[k] == c)
    && (forall c :: c in tops ==>
          (forall k :: k in home && home[k] == c && k in main ==> tops[c] <= Top(main, k))
          && (exists k :: k in home && home[k] == c && k in main && tops[c] == Top(main, k)))
  }

  /** Component `c` reaches up at least to `top`, and no higher. */
  ghost predicate TopOf(main: Main, home: Parents, c: Name, top: real) {
    && (forall k :: k in home && home[k] == c && k in main ==> top <= Top(main, k))
    && (exists k :: k in home && home[k] == c && k in main && top == Top(main, k))
  }

  /** The first component reaches higher up; level ones go by their least key. */
  ghost predicate UpperComponent(main: Main, home: Parents, c: Name, d: Name) {
    exists one, two :: TopOf(main, home, c, one) && TopOf(main, home, d, two) && (one < two || (one == two && c.rank < d.rank))
  }

  /** All components once, each behind those above it. */
  ghost predicate FromTop(main: Main, home: Parents, order: seq<Name>) {
    && Distinct(order) && (forall c :: c in order <==> exists k :: k in home && home[k] == c)
    && (forall i, j :: 0 <= i < j < |order| ==> UpperComponent(main, home, order[i], order[j]))
  }

  lemma SortedFromTop(main: Main, home: Parents, tops: map<Name, real>, order: seq<Name>)
    requires TopsOf(main, home, tops) && TopDown(tops, order) && forall c :: c in order <==> c in tops
    ensures FromTop(main, home, order)
  {
    forall i, j | 0 <= i < j < |order|
      ensures order[i] != order[j] && UpperComponent(main, home, order[i], order[j])
    {
      var c, d := order[i], order[j];
      assert TopOf(main, home, c, tops[c]) && TopOf(main, home, d, tops[d]);
      assert c == Name(c.rank) && d == Name(d.rank);
    }
  }

  /** Of two components one is the upper, and it comes first. */
  lemma UpperIsAhead(main: Main, home: Parents, order: seq<Name>, c: Name, d: Name)
    requires FromTop(main, home, order) && UpperComponent(main, home, c, d) && c in order && d in order
    ensures Ahead(order, c, d)
  {
    var i :| 0 <= i < |order| && order[i] == c;
    var j :| 0 <= j < |order| && order[j] == d;
    NotBothUpper(main, home, c, d);
    assert i != j && !(j < i);
  }

  lemma NotBothUpper(main: Main, home: Parents, c: Name, d: Name)
    requires UpperComponent(main, home, c, d)
    ensures !UpperComponent(main, home, d, c) && c != d
  {
    forall top, other, k | TopOf(main, home, k, top) && TopOf(main, home, k, other)
      ensures top == other
    {
    }
  }

  /** The upper edge of every component. */
  method Tops(main: Main, home: Parents) returns (tops: map<Name, real>)
    requires home.Keys == main.Keys
    ensures TopsOf(main, home, tops)
  {
    tops := map[];
    var todo := set k | k in home :: home[k];
    while todo != {}
      invariant forall c :: c in todo ==> exists k :: k in home && home[k] == c
      invariant forall c :: (exists k :: k in home && home[k] == c) <==> c in tops || c in todo
      invariant forall c :: c in tops ==>
        (forall k :: k in home && home[k] == c && k in main ==> tops[c] <= Top(main, k))
        && (exists k :: k in home && home[k] == c && k in main && tops[c] == Top(main, k))
      decreases todo
    {
      var c := Pick(todo);
      var keys := Members(home, c);
      assert keys != {} by {
        var k :| k in home && home[k] == c;
        assert k in keys;
      }
      var top, bottom := BoundsOf(main, keys);
      tops := tops[c := top];
      todo := todo - {c};
    }
  }

  // ---------------------------------------------------------------------------
  // Moving the objects
  // ---------------------------------------------------------------------------

  ghost predicate ShiftedBy(before: Main, home: Parents, shifts: map<Name, real>, after: Main) {
    && (forall k :: k in after <==> k in before)
    && (forall k :: k in before && k in after && k in home && home[k] in shifts ==>
          after[k] == before[k].(y := before[k].y + shifts[home[k]]))
  }

  method ShiftAll(before: Main, home: Parents, shifts: map<Name, real>) returns (after: Main)
    requires forall k :: k in before ==> k in home && home[k] in shifts
    ensures ShiftedBy(before, home, shifts, after)
  {
    after := before;
    var todo := before.Keys;
    while todo != {}
      invariant todo <= before.Keys && forall k :: k in after <==> k in before
      invariant forall k :: k in before && k in after && k in home && home[k] in shifts ==>
        after[k] == if k in todo then before[k] else before[k].(y := before[k].y + shifts[home[k]])
      decreases todo
    {
      var k := Pick(todo);
      after := after[k := before[k].(y := before[k].y + shifts[home[k]])];
      todo := todo - {k};
    }
  }

  // ---------------------------------------------------------------------------
  // What the finished drawing promises
  // ---------------------------------------------------------------------------

  type Spans = map<Name, Span>

  /** The horizontal reserve of every row. */
  ghost predicate SpansOf(main: Main, members: map<Name, set<Name>>, spans: Spans) {
    && (forall r :: r in spans <==> r in members)
    && (forall r :: r in spans && r in members ==> SpanOf(main, members[r], spans[r]))
  }

  ghost predicate ReservesMeet(rows: Parents, spans: Spans, j: Name, k: Name) {
    j in rows && k in rows && rows[j] in spans && rows[k] in spans && Overlap(spans[rows[j]], spans[rows[k]])
  }

  predicate GapBetween(after: Main, j: Name, k: Name, gap: real)
    requires j in after && k in after
  {
    Top(after, k) >= Foot(after, j) + gap || Top(after, j) >= Foot(after, k) + gap
  }

  /** Only heights on the board change, and components no proposal touches move rigidly. */
  ghost predicate OnlyVertical(main: Main, home: Parents, touched: set<Name>, shifts: map<Name, real>, after: Main) {
    && (forall k :: k in after <==> k in main)
    && (forall k :: k in main && k in after ==> after[k] == main[k].(y := after[k].y))
    && (forall k :: k in main && k in after && k in home && home[k] in shifts ==> shifts[home[k]] >= 0.0)
    && (forall k :: k in main && k in after && k in home && home[k] in shifts && home[k] !in touched ==>
          after[k].y == main[k].y + shifts[home[k]])
  }

  ghost predicate RowsLevel(kept: seq<Proposal>, after: Main) {
    forall p, k :: p in kept && k in p.row ==> k in after && p.source in after && after[k].y == after[p.source].y
  }

  ghost predicate BelowIsBelow(kept: seq<Proposal>, rows: Parents, after: Main) {
    forall p, k, j :: p in kept && k in p.below && j in rows && p.source in rows && rows[j] == rows[p.source] ==>
      k in after && j in after && Top(after, k) >= Foot(after, j) + SPACING
  }

  /** Different rows of a component that a proposal touches. */
  ghost predicate RowsSpaced(rows: Parents, home: Parents, touched: set<Name>, spans: Spans, after: Main) {
    forall j, k :: (j in after && k in after && ReservesMeet(rows, spans, j, k) && rows[j] != rows[k]
        && j in home && k in home && home[j] == home[k] && home[j] in touched)
      ==> GapBetween(after, j, k, SPACING)
  }

  ghost predicate ComponentsSpaced(rows: Parents, home: Parents, spans: Spans, after: Main) {
    forall j, k :: (j in after && k in after && ReservesMeet(rows, spans, j, k) && j in home && k in home && home[j] != home[k])
      ==> GapBetween(after, j, k, COMPONENT_SPACING)
  }

  /** Objects in line with one another: closer than the spacing horizontally. */
  predicate InLine(main: Main, j: Name, k: Name)
    requires j in main && k in main
  {
    LeftEnd(main, k) < RightEnd(main, j) + SPACING && LeftEnd(main, j) < RightEnd(main, k) + SPACING
  }

  lemma InLineMeets(main: Main, rows: Parents, members: map<Name, set<Name>>, spans: Spans, j: Name, k: Name)
    requires MembersOf(rows, members) && SpansOf(main, members, spans)
    requires j in main && k in main && j in rows && k in rows && InLine(main, j, k)
    ensures ReservesMeet(rows, spans, j, k)
  {
    assert j in members[rows[j]] && k in members[rows[k]];
    assert SpanOf(main, members[rows[j]], spans[rows[j]]) && SpanOf(main, members[rows[k]], spans[rows[k]]);
  }

  // ---------------------------------------------------------------------------
  // Why
  // ---------------------------------------------------------------------------

  /** An object of a packed component sits where its row was placed, within the row's height. */
  lemma InPack(main: Main, rows: Parents, home: Parents, pass: Pass, packs: Packs, middle: Main, k: Name)
    requires Household(main, rows, home, pass.members) && MembersOf(rows, pass.members)
    requires PacksOf(main, pass, home, packs) && PackedDrawing(main, rows, home, packs, middle)
    requires k in main && k in home && home[k] in packs
    ensures k in rows && rows[k] in packs[home[k]].placed && rows[k] in packs[home[k]].rows && rows[k] in pass.members
    ensures k in middle && middle[k].y == packs[home[k]].placed[rows[k]]
    ensures middle[k].height == main[k].height && main[k].height <= packs[home[k]].rows[rows[k]].height
    ensures ShapeOf(main, pass.members[rows[k]], packs[home[k]].rows[rows[k]])
  {
    assert AtHome(rows, home, k);
    var pack := packs[home[k]];
    assert PackOf(main, pass, home, home[k], pack);
    PackHolds(main, pass, home, home[k], pack, rows[k]);
    assert k in Members(rows, rows[k]);
    InShape(main, pass.members[rows[k]], pack.rows[rows[k]], k);
  }

  lemma PackHolds(main: Main, pass: Pass, home: Parents, c: Name, pack: Pack, r: Name)
    requires PackOf(main, pass, home, c, pack) && r in pass.members && r in home && home[r] == c
    ensures r in pack.rows && r in pack.placed && ShapeOf(main, pass.members[r], pack.rows[r])
  {
  }

  lemma InShape(main: Main, keys: set<Name>, row: Row, k: Name)
    requires ShapeOf(main, keys, row) && k in keys && k in main
    ensures main[k].height <= row.height
  {
  }

  lemma SpanUnique(main: Main, keys: set<Name>, a: Span, b: Span)
    requires SpanOf(main, keys, a) && SpanOf(main, keys, b)
    ensures a == b
  {
  }

  /** The object sits in its row, `shift` lower than the packer placed it. */
  ghost predicate Sits(pack: Pack, rows: Parents, after: Main, shift: real, k: Name) {
    && k in rows && rows[k] in pack.rows && rows[k] in pack.placed && k in after
    && after[k].y == pack.placed[rows[k]] + shift && after[k].height <= pack.rows[rows[k]].height
  }

  lemma SitsAfter(main: Main, rows: Parents, home: Parents, pass: Pass, packs: Packs, middle: Main, shifts: map<Name, real>,
      after: Main, k: Name)
    requires Household(main, rows, home, pass.members) && MembersOf(rows, pass.members)
    requires PacksOf(main, pass, home, packs) && PackedDrawing(main, rows, home, packs, middle) && ShiftedBy(middle, home, shifts, after)
    requires k in main && k in home && home[k] in packs && home[k] in shifts
    ensures Sits(packs[home[k]], rows, after, shifts[home[k]], k)
  {
    InPack(main, rows, home, pass, packs, middle, k);
  }

  lemma BeneathGap(pack: Pack, rows: Parents, after: Main, shift: real, j: Name, k: Name)
    requires Sits(pack, rows, after, shift, j) && Sits(pack, rows, after, shift, k)
    requires Beneath(pack.rows, pack.placed, rows[j], rows[k])
    ensures Top(after, k) >= Foot(after, j) + SPACING
  {
  }

  lemma InOrder(main: Main, pass: Pass, home: Parents, c: Name, pack: Pack, s: Name, t: Name)
    requires PackOf(main, pass, home, c, pack) && t in pack.rows && t in pass.previous && s in pass.previous[t]
    ensures s in pack.rows && s in pack.placed && t in pack.placed && Beneath(pack.rows, pack.placed, s, t)
  {
    PackedInOrder(pack.rows, Restrict(pass.previous, pack.rows.Keys), pack.placed, s, t);
  }

  lemma PackedInOrder(rows: Rows, previous: Links, placed: map<Name, real>, s: Name, t: Name)
    requires Packed(rows, previous, placed) && t in placed && t in previous && s in previous[t]
    ensures s in rows && s in placed && t in rows && Beneath(rows, placed, s, t)
  {
  }

  lemma OutOfTheWay(main: Main, pass: Pass, home: Parents, c: Name, pack: Pack, spans: Spans, s: Name, t: Name)
    requires PackOf(main, pass, home, c, pack) && SpansOf(main, pass.members, spans)
    requires s in pack.rows && t in pack.rows && s != t && s in spans && t in spans && Overlap(spans[s], spans[t])
    ensures s in pack.placed && t in pack.placed
    ensures Beneath(pack.rows, pack.placed, s, t) || Beneath(pack.rows, pack.placed, t, s)
  {
    assert ShapeOf(main, pass.members[s], pack.rows[s]) && ShapeOf(main, pass.members[t], pack.rows[t]);
    SpanUnique(main, pass.members[s], spans[s], pack.rows[s].span);
    SpanUnique(main, pass.members[t], spans[t], pack.rows[t].span);
  }

  lemma LevelRows(main: Main, kept: seq<Proposal>, rows: Parents, home: Parents, pass: Pass, packs: Packs, middle: Main,
      shifts: map<Name, real>, after: Main, p: Proposal, k: Name)
    requires Settles(main, kept, rows, home, pass) && PacksOf(main, pass, home, packs)
    requires PackedDrawing(main, rows, home, packs, middle) && ShiftedBy(middle, home, shifts, after)
    requires (forall j :: j in home ==> home[j] in shifts) && p in kept && home[p.source] in packs && k in p.row
    ensures k in after && p.source in after && after[k].y == after[p.source].y
  {
    OneRow(main, kept, rows, home, pass, p, k);
    AllAtHome(main, kept, rows, home, pass);
    SitsAfter(main, rows, home, pass, packs, middle, shifts, after, k);
    SitsAfter(main, rows, home, pass, packs, middle, shifts, after, p.source);
  }

  lemma OneRow(main: Main, kept: seq<Proposal>, rows: Parents, home: Parents, pass: Pass, p: Proposal, k: Name)
    requires Settles(main, kept, rows, home, pass) && p in kept && k in p.row
    ensures k in rows && p.source in rows && rows[k] == rows[p.source]
    ensures k in main && p.source in main && k in home && p.source in home && home[k] == home[p.source]
  {
    assert RowTogether(rows, p) && RowTogether(home, p);
  }

  lemma BelowRows(main: Main, kept: seq<Proposal>, rows: Parents, home: Parents, pass: Pass, packs: Packs, middle: Main,
      shifts: map<Name, real>, after: Main, p: Proposal, k: Name, j: Name)
    requires Settles(main, kept, rows, home, pass) && PacksOf(main, pass, home, packs)
    requires PackedDrawing(main, rows, home, packs, middle) && ShiftedBy(middle, home, shifts, after)
    requires (forall i :: i in home ==> home[i] in shifts) && p in kept && home[p.source] in packs && k in p.below
    requires j in rows && rows[j] == rows[p.source]
    ensures k in after && j in after && Top(after, k) >= Foot(after, j) + SPACING
  {
    var c := home[p.source];
    SourceRow(main, kept, rows, home, pass, p, k, j);
    AllAtHome(main, kept, rows, home, pass);
    SitsAfter(main, rows, home, pass, packs, middle, shifts, after, k);
    SitsAfter(main, rows, home, pass, packs, middle, shifts, after, j);
    assert PackOf(main, pass, home, c, packs[c]);
    InOrder(main, pass, home, c, packs[c], rows[j], rows[k]);
    BeneathGap(packs[c], rows, after, shifts[c], j, k);
  }

  lemma SourceRow(main: Main, kept: seq<Proposal>, rows: Parents, home: Parents, pass: Pass, p: Proposal, k: Name, j: Name)
    requires Settles(main, kept, rows, home, pass) && p in kept && k in p.below && j in rows && rows[j] == rows[p.source]
    ensures j in main && k in main && j in home && k in home && home[j] == home[p.source] == home[k]
    ensures k in rows && rows[k] in pass.previous && rows[j] in pass.previous[rows[k]]
  {
    assert BelowTogether(home, p);
    RowsAreLocal(kept, rows, home, p.source, j);
    assert RootKnown(main, rows, k);
    assert Precedes(kept, rows, rows[j], rows[k]);
  }

  lemma SpacedRows(main: Main, rows: Parents, home: Parents, pass: Pass, packs: Packs, middle: Main,
      shifts: map<Name, real>, after: Main, spans: Spans, j: Name, k: Name)
    requires Household(main, rows, home, pass.members) && MembersOf(rows, pass.members) && PacksOf(main, pass, home, packs)
    requires PackedDrawing(main, rows, home, packs, middle) && ShiftedBy(middle, home, shifts, after)
    requires SpansOf(main, pass.members, spans) && j in main && k in main && j in home && k in home
    requires home[j] == home[k] && home[j] in packs && home[j] in shifts && ReservesMeet(rows, spans, j, k) && rows[j] != rows[k]
    ensures j in after && k in after && GapBetween(after, j, k, SPACING)
  {
    var c := home[j];
    SitsAfter(main, rows, home, pass, packs, middle, shifts, after, k);
    SitsAfter(main, rows, home, pass, packs, middle, shifts, after, j);
    assert PackOf(main, pass, home, c, packs[c]);
    OutOfTheWay(main, pass, home, c, packs[c], spans, rows[j], rows[k]);
    if Beneath(packs[c].rows, packs[c].placed, rows[j], rows[k]) {
      BeneathGap(packs[c], rows, after, shifts[c], j, k);
    } else {
      BeneathGap(packs[c], rows, after, shifts[c], k, j);
    }
  }

  /** Packing moves objects only vertically, so reserves stay what they were. */
  lemma SpanKept(main: Main, middle: Main, keys: set<Name>, span: Span)
    requires (forall k :: k in middle <==> k in main) && forall k :: k in main && k in middle ==> middle[k] == main[k].(y := middle[k].y)
    requires SpanOf(middle, keys, span)
    ensures SpanOf(main, keys, span)
  {
    assert forall k :: k in main && k in middle ==> LeftEnd(main, k) == LeftEnd(middle, k) && RightEnd(main, k) == RightEnd(middle, k);
  }

  lemma StripSpansKept(main: Main, middle: Main, members: map<Name, set<Name>>, home: Parents, strips: Strips)
    requires (forall k :: k in middle <==> k in main) && forall k :: k in main && k in middle ==> middle[k] == main[k].(y := middle[k].y)
    requires StripsOf(middle, members, home, strips)
    ensures SpansOf(main, members, map r | r in strips :: strips[r].span)
  {
    forall r | r in strips && r in members
      ensures SpanOf(main, members[r], strips[r].span)
    {
      SpanKept(main, middle, members[r], strips[r].span);
    }
  }

  lemma SpacedComponents(middle: Main, rows: Parents, home: Parents, members: map<Name, set<Name>>, strips: Strips,
      shifts: map<Name, real>, after: Main, j: Name, k: Name)
    requires Household(middle, rows, home, members) && MembersOf(rows, members) && StripsOf(middle, members, home, strips)
    requires Apart(strips, shifts) && ShiftedBy(middle, home, shifts, after)
    requires j in middle && k in middle && j in home && k in home && home[j] != home[k] && home[j] in shifts && home[k] in shifts
    requires j in rows && k in rows && rows[j] in strips && rows[k] in strips && Overlap(strips[rows[j]].span, strips[rows[k]].span)
    ensures j in after && k in after && GapBetween(after, j, k, COMPONENT_SPACING)
  {
    assert AtHome(rows, home, j) && AtHome(rows, home, k);
    assert j in members[rows[j]] && k in members[rows[k]];
    var r, s := rows[j], rows[k];
    assert Bounds(middle, members[r], strips[r].top, strips[r].bottom);
    assert Bounds(middle, members[s], strips[s].top, strips[s].bottom);
    assert Clear(strips, shifts, r, s) || Clear(strips, shifts, s, r);
  }

  // ---------------------------------------------------------------------------
  // The whole layout
  // ---------------------------------------------------------------------------

  /** The component of every object. */
  method Homes(components: Grouping) returns (home: Parents)
    requires components.Valid()
    modifies components`parent
    ensures components.Valid() && home == components.roots
  {
    home := map[];
    var todo := components.parent.Keys;
    while todo != {}
      invariant components.Valid() && forall k :: k in todo ==> k in components.roots
      invariant forall k :: k in home <==> k in components.roots && k !in todo
      invariant forall k :: k in home && k in components.roots ==> home[k] == components.roots[k]
      decreases todo
    {
      var k := Pick(todo);
      var root := components.Find(k);
      home := home[k := root];
      todo := todo - {k};
    }
    SameMap(home, components.roots);
  }

  /** Components from the top down, each just clear of the rows already in place. */
  method Separate(main: Main, middle: Main, ghost rows: Parents, members: map<Name, set<Name>>, home: Parents)
      returns (ghost strips: Strips, ghost order: seq<Name>, shifts: map<Name, real>, after: Main)
    requires Sized(middle) && Rooted(middle, rows) && MembersOf(rows, members) && home.Keys == middle.Keys && home.Keys == main.Keys
    ensures StripsOf(middle, members, home, strips)
    ensures FromTop(main, home, order)
    ensures Apart(strips, shifts) && Stacked(strips, shifts, order) && LeastShifts(strips, shifts, order)
    ensures forall k :: k in home ==> home[k] in shifts
    ensures ShiftedBy(middle, home, shifts, after)
  {
    MembersKnown(middle, rows, members);
    var reach := StripsFor(middle, members, home);
    strips := reach;
    var tops := Tops(main, home);
    var sorted := SortTops(tops);
    SortedFromTop(main, home, tops, sorted);
    order := sorted;
    assert forall r :: r in reach ==> StripOf(middle, members[r], reach[r]);
    shifts := SeparateComponents(reach, sorted);
    after := ShiftAll(middle, home, shifts);
  }

  /** Everything the finished drawing promises about the kept proposals. */
  ghost predicate Honoured(main: Main, kept: seq<Proposal>, rows: Parents, home: Parents, spans: Spans, shifts: map<Name, real>, after: Main) {
    var touched := Touched(home, kept);
    && OnlyVertical(main, home, touched, shifts, after)
    && RowsLevel(kept, after) && BelowIsBelow(kept, rows, after)
    && RowsSpaced(rows, home, touched, spans, after) && ComponentsSpaced(rows, home, spans, after)
  }

  ghost function Touched(home: Parents, kept: seq<Proposal>): set<Name> {
    set p | p in kept && p.source in home :: home[p.source]
  }

  /** Packing and separating honour every kept proposal. */
  lemma AllHonoured(main: Main, kept: seq<Proposal>, rows: Parents, home: Parents, pass: Pass, packs: Packs, middle: Main,
      strips: Strips, spans: Spans, shifts: map<Name, real>, after: Main)
    requires Settles(main, kept, rows, home, pass) && PacksOf(main, pass, home, packs) && packs.Keys == Touched(home, kept)
    requires PackedDrawing(main, rows, home, packs, middle) && ShiftedBy(middle, home, shifts, after)
    requires (forall k :: k in home ==> home[k] in shifts) && StripsOf(middle, pass.members, home, strips) && Apart(strips, shifts)
    requires spans == map r | r in strips :: strips[r].span
    ensures SpansOf(main, pass.members, spans) && Honoured(main, kept, rows, home, spans, shifts, after)
  {
    StripSpansKept(main, middle, pass.members, home, strips);
    AllAtHome(main, kept, rows, home, pass);
    RowsHonoured(main, kept, rows, home, pass, packs, middle, shifts, after);
    AllRowsSpaced(main, rows, home, pass, packs, middle, shifts, after, spans);
    AllAtHomeStill(main, middle, rows, home, pass.members);
    AllComponentsSpaced(middle, rows, home, pass.members, strips, shifts, after);
    ShiftsVertical(main, rows, home, packs, middle, strips, shifts, after);
  }

  lemma AllRowsSpaced(main: Main, rows: Parents, home: Parents, pass: Pass, packs: Packs, middle: Main,
      shifts: map<Name, real>, after: Main, spans: Spans)
    requires Household(main, rows, home, pass.members) && MembersOf(rows, pass.members) && PacksOf(main, pass, home, packs)
    requires PackedDrawing(main, rows, home, packs, middle) && ShiftedBy(middle, home, shifts, after)
    requires SpansOf(main, pass.members, spans) && forall k :: k in home ==> home[k] in shifts
    ensures RowsSpaced(rows, home, packs.Keys, spans, after)
  {
    forall j, k | j in after && k in after && ReservesMeet(rows, spans, j, k) && rows[j] != rows[k]
        && j in home && k in home && home[j] == home[k] && home[j] in packs.Keys
      ensures GapBetween(after, j, k, SPACING)
    {
      SpacedRows(main, rows, home, pass, packs, middle, shifts, after, spans, j, k);
    }
  }

  lemma AllComponentsSpaced(middle: Main, rows: Parents, home: Parents, members: map<Name, set<Name>>, strips: Strips,
      shifts: map<Name, real>, after: Main)
    requires Household(middle, rows, home, members) && MembersOf(rows, members) && StripsOf(middle, members, home, strips)
    requires Apart(strips, shifts) && ShiftedBy(middle, home, shifts, after) && forall k :: k in home ==> home[k] in shifts
    ensures ComponentsSpaced(rows, home, map r | r in strips :: strips[r].span, after)
  {
    var spans := map r | r in strips :: strips[r].span;
    forall j, k | j in after && k in after && ReservesMeet(rows, spans, j, k) && j in home && k in home && home[j] != home[k]
      ensures GapBetween(after, j, k, COMPONENT_SPACING)
    {
      SpacedComponents(middle, rows, home, members, strips, shifts, after, j, k);
    }
  }

  lemma ShiftsVertical(main: Main, rows: Parents, home: Parents, packs: Packs, middle: Main, strips: Strips,
      shifts: map<Name, real>, after: Main)
    requires PackedDrawing(main, rows, home, packs, middle) && ShiftedBy(middle, home, shifts, after)
    requires home.Keys == main.Keys && (forall k :: k in home ==> home[k] in shifts) && Apart(strips, shifts)
    ensures OnlyVertical(main, home, packs.Keys, shifts, after)
  {
  }

  lemma AllAtHomeStill(main: Main, middle: Main, rows: Parents, home: Parents, members: map<Name, set<Name>>)
    requires Household(main, rows, home, members) && forall k :: k in middle <==> k in main
    ensures Household(middle, rows, home, members)
  {
    forall k | k in middle
      ensures AtHome(rows, home, k) && rows[k] in members
    {
      assert k in main && AtHome(rows, home, k);
    }
  }

  lemma SourceTouched(home: Parents, kept: seq<Proposal>, p: Proposal)
    requires Local(home, kept) && p in kept
    ensures p.source in home && home[p.source] in Touched(home, kept)
  {
    assert RowTogether(home, p);
  }

  lemma RowsHonoured(main: Main, kept: seq<Proposal>, rows: Parents, home: Parents, pass: Pass, packs: Packs, middle: Main,
      shifts: map<Name, real>, after: Main)
    requires Settles(main, kept, rows, home, pass) && PacksOf(main, pass, home, packs) && packs.Keys == Touched(home, kept)
    requires PackedDrawing(main, rows, home, packs, middle) && ShiftedBy(middle, home, shifts, after)
    requires forall k :: k in home ==> home[k] in shifts
    ensures RowsLevel(kept, after) && BelowIsBelow(kept, rows, after)
  {
    forall p, k | p in kept && k in p.row
      ensures k in after && p.source in after && after[k].y == after[p.source].y
    {
      SourceTouched(home, kept, p);
      LevelRows(main, kept, rows, home, pass, packs, middle, shifts, after, p, k);
    }
    forall p, k, j | p in kept && k in p.below && j in rows && p.source in rows && rows[j] == rows[p.source]
      ensures k in after && j in after && Top(after, k) >= Foot(after, j) + SPACING
    {
      SourceTouched(home, kept, p);
      BelowRows(main, kept, rows, home, pass, packs, middle, shifts, after, p, k, j);
    }
  }

  ghost predicate NoCollision(main: Main, rows: Parents) {
    forall k :: !Collides(main, rows, k)
  }

  /** Exactly the proposals of blocks without a collision and without a cycle are kept. */
  ghost predicate KeptBy(main: Main, proposals: seq<Proposal>, kept: seq<Proposal>, rows: Parents, blocks: Parents, previous: Links) {
    && Grouped(main, proposals, rows, blocks) && OrderOf(main, proposals, rows, previous)
    && (forall p :: p in kept <==> p in proposals && p.source in blocks && !Bad(main, rows, blocks, previous, blocks[p.source]))
  }

  lemma KeptFits(main: Main, proposals: seq<Proposal>, kept: seq<Proposal>, home: Parents)
    requires Drawn(main, proposals) && Local(home, proposals) && Among(kept, proposals)
    ensures Drawn(main, kept) && Local(home, kept)
  {
  }

  /** After one pass, a second pass over what is kept has nothing to reject, and its rows can be packed. */
  lemma SecondPassSettles(main: Main, proposals: seq<Proposal>, home: Parents, first: Pass, rows1: Parents, blocks1: Parents,
      done: set<Name>, time: map<Name, nat>, second: Pass, rows: Parents, blocks: Parents)
    requires Drawn(main, proposals) && Local(home, proposals) && home.Keys == main.Keys
    requires PassOf(main, proposals, rows1, blocks1, first)
    requires Drained(first.previous, done, time) && forall u :: u in first.previous && !Trapped(first.previous, u) ==> u in done
    requires PassOf(main, first.kept, rows, blocks, second)
    ensures Settles(main, first.kept, rows, home, second) && NoCollision(main, rows)
  {
    assert Among(first.kept, proposals);
    KeptFits(main, proposals, first.kept, home);
    assert KeptGood(main, first.kept, rows1, blocks1, first.previous);
    SecondPassRejectsNothing(main, proposals, first.kept, rows1, blocks1, first.previous, done, time, rows, second.previous);
  }

  lemma FirstKeeps(main: Main, proposals: seq<Proposal>, first: Pass, rows: Parents, blocks: Parents)
    requires PassOf(main, proposals, rows, blocks, first)
    ensures KeptBy(main, proposals, first.kept, rows, blocks, first.previous) && Among(first.kept, proposals)
  {
  }

  /** The rows and blocks that a judgement rests on. */
  datatype Grounds = Grounds(rows: Parents, blocks: Parents, previous: Links)

  /** Every proposal is judged, then the rows of the kept ones are worked out again. */
  method Judge(main: Main, proposals: seq<Proposal>, ghost home: Parents)
      returns (kept: seq<Proposal>, pass: Pass, ghost rows: Parents, ghost grounds: Grounds)
    requires Drawn(main, proposals) && Local(home, proposals) && home.Keys == main.Keys
    ensures Settles(main, kept, rows, home, pass) && NoCollision(main, rows)
    ensures KeptBy(main, proposals, kept, grounds.rows, grounds.blocks, grounds.previous)
  {
    var first, rows1, blocks1, done, time := Constraints(main, proposals);
    FirstKeeps(main, proposals, first, rows1, blocks1);
    kept, grounds := first.kept, Grounds(rows1, blocks1, first.previous);
    KeptFits(main, proposals, kept, home);
    var second, rows2, blocks2, done2, time2 := Constraints(main, kept);
    SecondPassSettles(main, proposals, home, first, rows1, blocks1, done, time, second, rows2, blocks2);
    pass, rows := second, rows2;
  }

  /** Everything behind a finished drawing: the rows, where they were packed, the packed drawing, and how far each component moved. */
  datatype Layout = Layout(pass: Pass, rows: Parents, packs: Packs, middle: Main, strips: Strips, order: seq<Name>,
    shifts: map<Name, real>)

  /** The drawing is the packed one with every component moved by its shift; packing and shifts are as tight as they can be. */
  ghost predicate LaidOut(main: Main, kept: seq<Proposal>, home: Parents, l: Layout, after: Main) {
    && Settles(main, kept, l.rows, home, l.pass) && NoCollision(main, l.rows)
    && l.packs.Keys == Touched(home, kept) && PacksOf(main, l.pass, home, l.packs)
    && PackedDrawing(main, l.rows, home, l.packs, l.middle)
    && StripsOf(l.middle, l.pass.members, home, l.strips) && FromTop(main, home, l.order)
    && Apart(l.strips, l.shifts) && Stacked(l.strips, l.shifts, l.order) && LeastShifts(l.strips, l.shifts, l.order)
    && (forall k :: k in home ==> home[k] in l.shifts)
    && ShiftedBy(l.middle, home, l.shifts, after)
  }

  function Reserves(strips: Strips): Spans {
    map r | r in strips :: strips[r].span
  }

  /** Lays out the kept change rows of a drawing. */
  method LayOut(main: Main, kept: seq<Proposal>, home: Parents, pass: Pass, ghost rows: Parents) returns (after: Main, ghost layout: Layout)
    requires Settles(main, kept, rows, home, pass) && NoCollision(main, rows) && Sized(main)
    ensures LaidOut(main, kept, home, layout, after)
  {
    var packs, middle := PackRows(main, kept, rows, home, pass);
    TouchedPacked(home, kept, packs);
    SizedStill(main, rows, home, packs, middle);
    ghost var strips;
    var shifts;
    ghost var order;
    strips, order, shifts, after := Separate(main, middle, rows, pass.members, home);
    layout := Layout(pass, rows, packs, middle, strips, order, shifts);
  }

  lemma TouchedPacked(home: Parents, kept: seq<Proposal>, packs: Packs)
    requires forall c :: c in packs <==> exists p :: p in kept && p.source in home && home[p.source] == c
    ensures packs.Keys == Touched(home, kept)
  {
  }

  lemma SizedStill(main: Main, rows: Parents, home: Parents, packs: Packs, middle: Main)
    requires Sized(main) && PackedDrawing(main, rows, home, packs, middle)
    ensures Sized(middle) && middle.Keys == main.Keys && (Rooted(main, rows) ==> Rooted(middle, rows))
  {
    if Rooted(main, rows) {
      forall k | k in middle
        ensures RootKnown(middle, rows, k)
      {
        assert RootKnown(main, rows, k);
      }
    }
  }

  /** Objects of one row are side by side. */
  lemma SideBySide(main: Main, rows: Parents, j: Name, k: Name)
    requires NoCollision(main, rows) && j in main && k in main && j in rows && k in rows && rows[j] == rows[k] && j != k
    ensures LeftEnd(main, k) >= RightEnd(main, j) || LeftEnd(main, j) >= RightEnd(main, k)
  {
    assert j == Name(j.rank) && k == Name(k.rank);
    assert !Collides(main, rows, j) && !Collides(main, rows, k);
    assert Before(main, j, k) || Before(main, k, j);
    assert !Crowds(main, j, k) && !Crowds(main, k, j);
  }

  /** No object of a touched component ends up over another object, of its own component or any other. */
  lemma NothingCovered(main: Main, kept: seq<Proposal>, rows: Parents, home: Parents, members: map<Name, set<Name>>, spans: Spans,
      shifts: map<Name, real>, after: Main, j: Name, k: Name)
    requires Honoured(main, kept, rows, home, spans, shifts, after) && NoCollision(main, rows)
    requires MembersOf(rows, members) && SpansOf(main, members, spans) && home.Keys == main.Keys && rows.Keys == main.Keys
    requires j in main && k in main && j != k && (home[j] != home[k] || home[j] in Touched(home, kept))
    requires OverAnother(main, j, k)
    ensures j in after && k in after && GapBetween(after, j, k, if home[j] != home[k] then COMPONENT_SPACING else SPACING)
  {
    if rows[j] == rows[k] && home[j] == home[k] {
      SideBySide(main, rows, j, k);
    } else {
      assert InLine(main, j, k);
      InLineMeets(main, rows, members, spans, j, k);
      if home[j] != home[k] {
        assert GapBetween(after, j, k, COMPONENT_SPACING);
      } else {
        assert GapBetween(after, j, k, SPACING);
      }
    }
  }

  /** The objects reach over a common height. */
  predicate OverAnother(main: Main, j: Name, k: Name)
    requires j in main && k in main
  {
    LeftEnd(main, k) < RightEnd(main, j) && LeftEnd(main, j) < RightEnd(main, k)
  }

  /** Objects in one another's way are apart vertically: by the component spacing across components, by the spacing within a touched one. */
  ghost predicate Uncovered(main: Main, home: Parents, touched: set<Name>, after: Main) {
    forall j, k :: (j in main && k in main && j in after && k in after && j in home && k in home && j != k && OverAnother(main, j, k)
        && (home[j] != home[k] || home[j] in touched))
      ==> GapBetween(after, j, k, if home[j] != home[k] then COMPONENT_SPACING else SPACING)
  }

  /** Components that no kept proposal touches only move down, as one. */
  ghost predicate Rigid(main: Main, home: Parents, touched: set<Name>, after: Main) {
    forall j, k :: (j in main && k in main && j in after && k in after && j in home && k in home && home[j] == home[k] && home[j] !in touched)
      ==> after[j].y - main[j].y == after[k].y - main[k].y >= 0.0
  }

  /** What the finished drawing promises, object by object. */
  ghost predicate Finished(main: Main, kept: seq<Proposal>, rows: Parents, home: Parents, after: Main) {
    && (forall k :: k in after <==> k in main)
    && (forall k :: k in main && k in after ==> after[k] == main[k].(y := after[k].y))
    && RowsLevel(kept, after) && BelowIsBelow(kept, rows, after)
    && Uncovered(main, home, Touched(home, kept), after) && Rigid(main, home, Touched(home, kept), after)
    && UpperStays(main, home, after)
  }

  /** Where two components reach over a common height sideways, what belongs to the upper one stays above. */
  ghost predicate UpperStays(main: Main, home: Parents, after: Main) {
    forall j, k :: (j in main && k in main && j in after && k in after && j in home && k in home && OverAnother(main, j, k)
        && UpperComponent(main, home, home[j], home[k]))
      ==> Top(after, k) >= Foot(after, j) + COMPONENT_SPACING
  }

  /** A laid-out drawing honours its rows and components. */
  lemma LaidOutHonours(main: Main, kept: seq<Proposal>, home: Parents, l: Layout, after: Main)
    requires LaidOut(main, kept, home, l, after)
    ensures SpansOf(main, l.pass.members, Reserves(l.strips))
    ensures Honoured(main, kept, l.rows, home, Reserves(l.strips), l.shifts, after)
  {
    AllHonoured(main, kept, l.rows, home, l.pass, l.packs, l.middle, l.strips, Reserves(l.strips), l.shifts, after);
  }

  lemma AllUncovered(main: Main, kept: seq<Proposal>, rows: Parents, home: Parents, members: map<Name, set<Name>>, spans: Spans,
      shifts: map<Name, real>, after: Main)
    requires Honoured(main, kept, rows, home, spans, shifts, after) && NoCollision(main, rows)
    requires MembersOf(rows, members) && SpansOf(main, members, spans) && home.Keys == main.Keys && rows.Keys == main.Keys
    ensures Uncovered(main, home, Touched(home, kept), after)
  {
    forall j, k | j in main && k in main && j in after && k in after && j in home && k in home && j != k && OverAnother(main, j, k)
        && (home[j] != home[k] || home[j] in Touched(home, kept))
      ensures GapBetween(after, j, k, if home[j] != home[k] then COMPONENT_SPACING else SPACING)
    {
      NothingCovered(main, kept, rows, home, members, spans, shifts, after, j, k);
    }
  }

  lemma VerticalIsRigid(main: Main, home: Parents, touched: set<Name>, shifts: map<Name, real>, after: Main)
    requires OnlyVertical(main, home, touched, shifts, after) && forall k :: k in home ==> home[k] in shifts
    ensures Rigid(main, home, touched, after)
  {
  }

  lemma RowKeys(main: Main, rows: Parents)
    requires Rooted(main, rows)
    ensures rows.Keys == main.Keys
  {
  }

  /** A laid-out drawing keeps its promises for every object and every pair of objects. */
  lemma LaidOutIsFinished(main: Main, kept: seq<Proposal>, home: Parents, l: Layout, after: Main)
    requires LaidOut(main, kept, home, l, after)
    ensures Finished(main, kept, l.rows, home, after)
  {
    LaidOutHonours(main, kept, home, l, after);
    RowKeys(main, l.rows);
    AllUncovered(main, kept, l.rows, home, l.pass.members, Reserves(l.strips), l.shifts, after);
    VerticalIsRigid(main, home, Touched(home, kept), l.shifts, after);
    AllUpperStay(main, kept, home, l, after);
  }

  lemma UpperStaysAbove(middle: Main, rows: Parents, home: Parents, members: map<Name, set<Name>>, strips: Strips, order: seq<Name>,
      shifts: map<Name, real>, after: Main, j: Name, k: Name)
    requires Household(middle, rows, home, members) && MembersOf(rows, members) && StripsOf(middle, members, home, strips)
    requires Stacked(strips, shifts, order) && ShiftedBy(middle, home, shifts, after)
    requires j in middle && k in middle && j in home && k in home && home[j] in shifts && home[k] in shifts
    requires Ahead(order, home[j], home[k])
    requires j in rows && k in rows && rows[j] in strips && rows[k] in strips && Overlap(strips[rows[j]].span, strips[rows[k]].span)
    ensures j in after && k in after && Top(after, k) >= Foot(after, j) + COMPONENT_SPACING
  {
    assert AtHome(rows, home, j) && AtHome(rows, home, k);
    assert j in members[rows[j]] && k in members[rows[k]];
    var r, s := rows[j], rows[k];
    assert Bounds(middle, members[r], strips[r].top, strips[r].bottom);
    assert Bounds(middle, members[s], strips[s].top, strips[s].bottom);
    assert Clear(strips, shifts, r, s);
  }

  lemma AllUpperStay(main: Main, kept: seq<Proposal>, home: Parents, l: Layout, after: Main)
    requires LaidOut(main, kept, home, l, after) && SpansOf(main, l.pass.members, Reserves(l.strips))
    ensures UpperStays(main, home, after)
  {
    AllAtHome(main, kept, l.rows, home, l.pass);
    AllAtHomeStill(main, l.middle, l.rows, home, l.pass.members);
    RowKeys(main, l.rows);
    forall j, k | j in main && k in main && j in after && k in after && j in home && k in home && OverAnother(main, j, k)
        && UpperComponent(main, home, home[j], home[k])
      ensures Top(after, k) >= Foot(after, j) + COMPONENT_SPACING
    {
      UpperIsAhead(main, home, l.order, home[j], home[k]);
      assert InLine(main, j, k);
      InLineMeets(main, l.rows, l.pass.members, Reserves(l.strips), j, k);
      UpperStaysAbove(l.middle, l.rows, home, l.pass.members, l.strips, l.order, l.shifts, after, j, k);
    }
  }

  /** Judges the proposals and lays out those kept; without any, the drawing stays as it is. */
  method Apply(main: Main, proposals: seq<Proposal>, components: Grouping)
      returns (kept: seq<Proposal>, after: Main, ghost grounds: Grounds, ghost layout: Layout)
    requires Drawn(main, proposals) && Sized(main)
    requires components.Valid() && components.roots.Keys == main.Keys && Local(components.roots, proposals)
    modifies components`parent
    ensures KeptBy(main, proposals, kept, grounds.rows, grounds.blocks, grounds.previous)
    ensures kept == [] ==> after == main
    ensures kept != [] ==> LaidOut(main, kept, components.roots, layout, after) && Finished(main, kept, layout.rows, components.roots, after)
  {
    var home := Homes(components);
    var pass;
    ghost var rows;
    kept, pass, rows, grounds := Judge(main, proposals, home);
    after, layout := main, Layout(pass, rows, map[], main, map[], [], map[]);
    if kept != [] {
      after, layout := LayOut(main, kept, home, pass, rows);
      LaidOutIsFinished(main, kept, home, layout, after);
    }
  }
}
