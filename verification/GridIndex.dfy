/** A grid of cells that finds the boxes near a box without looking at all of them.

Very large boxes are kept aside and always considered. Work is limited by a
budget shared with other indexes: a query that would exceed a limit gives no
answer at all, never an incomplete one. */
module GridIndex {
  import opened Options
  import opened Sequences
  import opened Sets
  import opened Groups
  import opened Boxes

  const CELL := 512.0
  const ENTRY_CELLS := 64
  const QUERY_CELLS := 4096
  const QUERY_ITEMS := 4096

  datatype Square = Square(x: int, y: int)

  function Column(x: real): int {
    (x / CELL).Floor
  }

  /** The squares a box reaches. */
  function Reach(b: Box): set<Square> {
    set x: int, y: int | Column(b.left) <= x <= Column(b.right) && Column(b.top) <= y <= Column(b.bottom) :: Square(x, y)
  }

  function SquareCount(b: Box): int {
    (Column(b.right) - Column(b.left) + 1) * (Column(b.bottom) - Column(b.top) + 1)
  }

  /** The squares of a box, unless there are too many. */
  function Squares(b: Box, maximum: int): Option<set<Square>> {
    if SquareCount(b) > maximum then None else Some(Reach(b))
  }

  lemma ColumnMonotone(x: real, y: real)
    requires x <= y
    ensures Column(x) <= Column(y)
  {
    assert x / CELL <= y / CELL;
  }

  /** A point common to two boxes lies in a square that both reach. */
  lemma SharedSquare(a: Box, b: Box) returns (s: Square)
    requires Meet(a, b)
    ensures s in Reach(a) && s in Reach(b)
  {
    var x: real, y: real :| Holds(a, x, y) && Holds(b, x, y);
    s := Square(Column(x), Column(y));
    ColumnMonotone(a.left, x);
    ColumnMonotone(x, a.right);
    ColumnMonotone(b.left, x);
    ColumnMonotone(x, b.right);
    ColumnMonotone(a.top, y);
    ColumnMonotone(y, a.bottom);
    ColumnMonotone(b.top, y);
    ColumnMonotone(y, b.bottom);
  }

  class Budget {
    var remaining: int
    var truncated: bool

    constructor (size: nat)
      ensures remaining == (if size * 40 > 250000 then size * 40 else 250000) && !truncated
    {
      remaining := if size * 40 > 250000 then size * 40 else 250000;
      truncated := false;
    }

    method Spend() returns (granted: bool)
      modifies this
      ensures remaining == old(remaining) - 1 && granted == (old(remaining) > 0)
      ensures truncated == (old(truncated) || !granted)
    {
      remaining := remaining - 1;
      if remaining < 0 {
        truncated := true;
        return false;
      }
      return true;
    }
  }

  type Cells = map<Square, set<Name>>
  type Memberships = map<Name, Option<set<Square>>>

  predicate InCell(cells: Cells, s: Square, k: Name) {
    s in cells && k in cells[s]
  }

  predicate Enters(memberships: Memberships, s: Square, k: Name) {
    k in memberships && memberships[k].Some? && s in memberships[k].value
  }

  /** Buckets hold exactly the keys that enter them, and no bucket is empty. */
  ghost predicate CellsMatch(cells: Cells, memberships: Memberships) {
    && (forall s, k :: InCell(cells, s, k) <==> Enters(memberships, s, k))
    && (forall s :: s in cells ==> cells[s] != {})
  }

  ghost predicate Filed(boxes: map<Name, Box>, memberships: Memberships, overflow: set<Name>) {
    && (forall k :: k in memberships <==> k in boxes)
    && (forall k :: k in boxes ==> k in memberships && memberships[k] == Squares(boxes[k], ENTRY_CELLS))
    && (forall k :: k in overflow <==> k in memberships && memberships[k].None?)
  }

  /** Cells while a key is being filed or unfiled: it is only in the cells of `part`. */
  ghost predicate Partly(cells: Cells, memberships: Memberships, key: Name, part: set<Square>) {
    && (forall s, k :: InCell(cells, s, k) <==> (k != key && Enters(memberships, s, k)) || (k == key && s in part))
    && (forall s :: s in cells ==> cells[s] != {})
  }

  function Enter(cells: Cells, s: Square, key: Name): Cells {
    cells[s := (if s in cells then cells[s] else {}) + {key}]
  }

  function Leave(cells: Cells, s: Square, key: Name): Cells {
    if s !in cells then cells
    else if cells[s] - {key} == {} then cells - {s}
    else cells[s := cells[s] - {key}]
  }

  lemma EnterStep(cells: Cells, memberships: Memberships, key: Name, part: set<Square>, s: Square)
    requires Partly(cells, memberships, key, part)
    ensures Partly(Enter(cells, s, key), memberships, key, part + {s})
  {
    var after := Enter(cells, s, key);
    forall t, k
      ensures InCell(after, t, k) <==> (k != key && Enters(memberships, t, k)) || (k == key && t in part + {s})
    {
      assert InCell(cells, t, k) <==> (k != key && Enters(memberships, t, k)) || (k == key && t in part);
    }
  }

  lemma LeaveStep(cells: Cells, memberships: Memberships, key: Name, part: set<Square>, s: Square)
    requires Partly(cells, memberships, key, part)
    ensures Partly(Leave(cells, s, key), memberships, key, part - {s})
  {
    var after := Leave(cells, s, key);
    forall t, k
      ensures InCell(after, t, k) <==> (k != key && Enters(memberships, t, k)) || (k == key && t in part - {s})
    {
      assert InCell(cells, t, k) <==> (k != key && Enters(memberships, t, k)) || (k == key && t in part);
      if s in cells && k != key && t == s && k in cells[s] {
        assert k in cells[s] - {key};
      }
    }
  }

  method EnterAll(cells0: Cells, ghost memberships: Memberships, key: Name, squares: set<Square>) returns (cells: Cells)
    requires Partly(cells0, memberships, key, {})
    ensures Partly(cells, memberships, key, squares)
  {
    cells := cells0;
    var todo := squares;
    ghost var part: set<Square> := {};
    while todo != {}
      invariant part == squares - todo && todo <= squares && Partly(cells, memberships, key, part)
      decreases todo
    {
      var s := Pick(todo);
      EnterStep(cells, memberships, key, part, s);
      cells := Enter(cells, s, key);
      part, todo := part + {s}, todo - {s};
    }
  }

  method LeaveAll(cells0: Cells, ghost memberships: Memberships, key: Name, squares: set<Square>) returns (cells: Cells)
    requires Partly(cells0, memberships, key, squares)
    ensures Partly(cells, memberships, key, {})
  {
    cells := cells0;
    var todo := squares;
    while todo != {}
      invariant Partly(cells, memberships, key, todo)
      decreases todo
    {
      var s := Pick(todo);
      LeaveStep(cells, memberships, key, todo, s);
      cells := Leave(cells, s, key);
      todo := todo - {s};
    }
  }

  // ---------------------------------------------------------------------------
  // What a query considers
  // ---------------------------------------------------------------------------

  /** A stored box is considered when it was too large to file, or is filed in a square of the query. */
  ghost predicate Considered(memberships: Memberships, squares: set<Square>, k: Name) {
    k in memberships && (memberships[k].None? || exists s :: s in squares && s in memberships[k].value)
  }

  ghost function Candidates(memberships: Memberships, squares: set<Square>): set<Name> {
    set k | k in memberships && Considered(memberships, squares, k)
  }

  /** Every stored box that meets the query box is considered. */
  lemma MeetingIsConsidered(boxes: map<Name, Box>, memberships: Memberships, overflow: set<Name>, box: Box, k: Name)
    requires Filed(boxes, memberships, overflow) && k in boxes && Meet(boxes[k], box)
    ensures Considered(memberships, Reach(box), k)
  {
    var s := SharedSquare(boxes[k], box);
  }

  /** A query is answered exactly when nothing it looks at is too large and the budget lasts. */
  ghost predicate Answerable(cells: Cells, memberships: Memberships, overflow: set<Name>, box: Box, remaining: int) {
    && SquareCount(box) <= QUERY_CELLS && remaining >= 0
    && |overflow| <= QUERY_ITEMS && (forall s :: s in Reach(box) && s in cells ==> |cells[s]| <= QUERY_ITEMS)
    && |Candidates(memberships, Reach(box))| <= QUERY_ITEMS && |Candidates(memberships, Reach(box))| <= remaining
  }

  /** Of the boxes seen so far, `found` lists exactly the near ones, once each. */
  ghost predicate Found(boxes: map<Name, Box>, box: Box, seen: set<Name>, found: seq<Name>) {
    Distinct(found) && forall k :: k in found <==> k in seen && k in boxes && Near(boxes[k], box)
  }

  // ---------------------------------------------------------------------------
  // Looking through the buckets
  // ---------------------------------------------------------------------------

  ghost predicate Known(boxes: map<Name, Box>, bucket: set<Name>) {
    forall k :: k in bucket ==> k in boxes
  }

  lemma FoundStep(boxes: map<Name, Box>, box: Box, seen: set<Name>, found: seq<Name>, k: Name)
    requires Found(boxes, box, seen, found) && k !in seen && k in boxes
    ensures Found(boxes, box, seen + {k}, if Near(boxes[k], box) then found + [k] else found)
  {
  }

  /** What a scan keeps: everything counted was paid for, and the near boxes are listed. */
  ghost predicate Scanning(boxes: map<Name, Box>, box: Box, seen: set<Name>, found: seq<Name>, start: int, remaining: int) {
    Found(boxes, box, seen, found) && remaining == start - |seen| && remaining >= 0 && |seen| <= QUERY_ITEMS
  }

  /** Takes up one key, unless it is one too many. */
  method Visit(boxes: map<Name, Box>, box: Box, key: Name, budget: Budget, seen: set<Name>, found0: seq<Name>, ghost start: int)
      returns (ok: bool, found: seq<Name>)
    requires key in boxes && key !in seen && Scanning(boxes, box, seen, found0, start, budget.remaining)
    modifies budget
    ensures ok ==> Scanning(boxes, box, seen + {key}, found, start, budget.remaining) && budget.truncated == old(budget.truncated)
    ensures !ok ==> |seen + {key}| > QUERY_ITEMS || |seen + {key}| > start
    ensures budget.remaining <= old(budget.remaining)
  {
    found := found0;
    if |seen + {key}| > QUERY_ITEMS {
      return false, found;
    }
    var granted := budget.Spend();
    if !granted {
      return false, found;
    }
    FoundStep(boxes, box, seen, found, key);
    if Near(boxes[key], box) {
      found := found + [key];
    }
    return true, found;
  }

  /** Looks through one bucket for keys not seen yet. */
  method Scan(boxes: map<Name, Box>, box: Box, bucket: set<Name>, budget: Budget, seen0: set<Name>, found0: seq<Name>, ghost start: int)
      returns (ok: bool, seen: set<Name>, found: seq<Name>)
    requires Known(boxes, bucket) && Scanning(boxes, box, seen0, found0, start, budget.remaining)
    modifies budget
    ensures ok ==> seen == seen0 + bucket && Scanning(boxes, box, seen, found, start, budget.remaining)
    ensures ok ==> budget.truncated == old(budget.truncated) && |bucket| <= QUERY_ITEMS
    ensures !ok ==> |bucket| > QUERY_ITEMS || |seen0 + bucket| > QUERY_ITEMS || |seen0 + bucket| > start
    ensures budget.remaining <= old(budget.remaining)
  {
    if |bucket| > QUERY_ITEMS {
      return false, seen0, found0;
    }
    ok, seen, found := VisitAll(boxes, box, bucket - seen0, seen0 + bucket, budget, seen0, found0, start);
  }

  method VisitAll(boxes: map<Name, Box>, box: Box, unseen: set<Name>, ghost whole: set<Name>, budget: Budget, seen0: set<Name>,
      found0: seq<Name>, ghost start: int) returns (ok: bool, seen: set<Name>, found: seq<Name>)
    requires Known(boxes, unseen) && unseen !! seen0 && whole == seen0 + unseen
    requires Scanning(boxes, box, seen0, found0, start, budget.remaining)
    modifies budget
    ensures ok ==> seen == whole && Scanning(boxes, box, seen, found, start, budget.remaining) && budget.truncated == old(budget.truncated)
    ensures !ok ==> |whole| > QUERY_ITEMS || |whole| > start
    ensures budget.remaining <= old(budget.remaining)
  {
    ok, seen, found := true, seen0, found0;
    var todo := unseen;
    while todo != {}
      invariant forall k :: k in whole <==> k in seen || k in todo
      invariant Known(boxes, todo) && forall k :: k in todo ==> k !in seen
      invariant Scanning(boxes, box, seen, found, start, budget.remaining)
      invariant budget.truncated == old(budget.truncated) && budget.remaining <= old(budget.remaining)
      decreases todo
    {
      var key := Pick(todo);
      ok, found := Visit(boxes, box, key, budget, seen, found, start);
      if !ok {
        SubsetSize(seen + {key}, whole);
        return;
      }
      seen, todo := seen + {key}, todo - {key};
    }
    ok := true;
    SameElements(seen, whole);
  }

  function Bucket(cells: Cells, s: Square): set<Name> {
    if s in cells then cells[s] else {}
  }

  /** The boxes considered once the overflow and all squares outside `todo` are looked through. */
  ghost predicate Looked(cells: Cells, overflow: set<Name>, squares: set<Square>, todo: set<Square>, seen: set<Name>) {
    forall k :: k in seen <==> k in overflow || exists s :: s in squares && s !in todo && InCell(cells, s, k)
  }

  lemma LookedStep(cells: Cells, overflow: set<Name>, squares: set<Square>, todo: set<Square>, seen: set<Name>, s: Square)
    requires Looked(cells, overflow, squares, todo, seen) && s in todo && s in squares
    ensures Looked(cells, overflow, squares, todo - {s}, seen + Bucket(cells, s))
  {
    forall k
      ensures k in seen + Bucket(cells, s) <==> k in overflow || exists t :: t in squares && t !in todo - {s} && InCell(cells, t, k)
    {
      if k in Bucket(cells, s) {
        assert InCell(cells, s, k);
      }
    }
  }

  lemma LookedAll(boxes: map<Name, Box>, cells: Cells, memberships: Memberships, overflow: set<Name>, squares: set<Square>, seen: set<Name>)
    requires CellsMatch(cells, memberships) && Filed(boxes, memberships, overflow) && Looked(cells, overflow, squares, {}, seen)
    ensures seen == Candidates(memberships, squares)
  {
    forall k
      ensures k in seen <==> k in Candidates(memberships, squares)
    {
      if s :| s in squares && InCell(cells, s, k) {
        assert Enters(memberships, s, k);
      }
      if k in Candidates(memberships, squares) && memberships[k].Some? {
        var s :| s in squares && s in memberships[k].value;
        assert Enters(memberships, s, k) && InCell(cells, s, k);
      }
    }
  }

  lemma SeenAreCandidates(boxes: map<Name, Box>, cells: Cells, memberships: Memberships, overflow: set<Name>, squares: set<Square>,
      todo: set<Square>, seen: set<Name>)
    requires CellsMatch(cells, memberships) && Filed(boxes, memberships, overflow) && Looked(cells, overflow, squares, todo, seen)
    ensures seen <= Candidates(memberships, squares)
  {
    forall k | k in seen
      ensures k in Candidates(memberships, squares)
    {
      if s :| s in squares && s !in todo && InCell(cells, s, k) {
        assert Enters(memberships, s, k);
      }
    }
  }

  lemma BucketKnown(boxes: map<Name, Box>, cells: Cells, memberships: Memberships, overflow: set<Name>, s: Square)
    requires CellsMatch(cells, memberships) && Filed(boxes, memberships, overflow)
    ensures Known(boxes, Bucket(cells, s))
  {
    forall k | k in Bucket(cells, s)
      ensures k in boxes
    {
      assert InCell(cells, s, k) && Enters(memberships, s, k);
    }
  }

  // ---------------------------------------------------------------------------
  // The index
  // ---------------------------------------------------------------------------

  class Index {
    const budget: Budget
    var boxes: map<Name, Box>
    var cells: Cells
    var memberships: Memberships
    var overflow: set<Name>

    ghost predicate Valid()
      reads this
    {
      CellsMatch(cells, memberships) && Filed(boxes, memberships, overflow)
    }

    constructor (budget: Budget)
      ensures Valid() && boxes == map[] && this.budget == budget
    {
      this.budget := budget;
      boxes := map[];
      cells := map[];
      memberships := map[];
      overflow := {};
    }

    method Remove(key: Name)
      requires Valid()
      modifies this
      ensures Valid() && boxes == old(boxes) - {key}
    {
      if key !in boxes {
        return;
      }
      var squares := memberships[key];
      var others := memberships - {key};
      if squares.None? {
        overflow := overflow - {key};
        StillMatches(cells, memberships, key, {});
      } else {
        StillMatches(cells, memberships, key, squares.value);
        cells := LeaveAll(cells, memberships, key, squares.value);
      }
      UnfiledMatches(cells, memberships, key);
      memberships := others;
      boxes := boxes - {key};
    }

    method Add(key: Name, box: Box)
      requires Valid()
      modifies this
      ensures Valid() && boxes == old(boxes)[key := box]
    {
      Remove(key);
      var squares := Squares(box, ENTRY_CELLS);
      NotFiled(cells, memberships, key);
      if squares.None? {
        overflow := overflow + {key};
      } else {
        cells := EnterAll(cells, memberships, key, squares.value);
      }
      FiledMatches(cells, memberships, key, squares);
      boxes := boxes[key := box];
      memberships := memberships[key := squares];
    }

    /** The stored boxes near a box, or none when a limit was met. */
    method Query(box: Box) returns (answer: Option<seq<Name>>)
      requires Valid()
      modifies budget
      ensures answer.Some? <==> Answerable(cells, memberships, overflow, box, old(budget.remaining))
      ensures answer.Some? ==> Found(boxes, box, Candidates(memberships, Reach(box)), answer.value)
      ensures answer.Some? ==> budget.truncated == old(budget.truncated)
      ensures answer.Some? ==> budget.remaining == old(budget.remaining) - |Candidates(memberships, Reach(box))|
      ensures answer.None? ==> budget.truncated && budget.remaining <= old(budget.remaining)
    {
      var squares := Squares(box, QUERY_CELLS);
      if squares.None? || budget.remaining < 0 {
        budget.truncated := true;
        return None;
      }
      var ok, found := LookThrough(box, squares.value);
      if !ok {
        budget.truncated := true;
        return None;
      }
      return Some(found);
    }

    method LookThrough(box: Box, squares: set<Square>) returns (ok: bool, found: seq<Name>)
      requires Valid() && budget.remaining >= 0 && squares == Reach(box) && SquareCount(box) <= QUERY_CELLS
      modifies budget
      ensures ok <==> Answerable(cells, memberships, overflow, box, old(budget.remaining))
      ensures ok ==> Found(boxes, box, Candidates(memberships, squares), found)
      ensures ok ==> budget.truncated == old(budget.truncated)
      ensures ok ==> budget.remaining == old(budget.remaining) - |Candidates(memberships, squares)|
      ensures budget.remaining <= old(budget.remaining)
    {
      ghost var start, all := budget.remaining, Candidates(memberships, squares);
      var seen;
      assert Known(boxes, overflow);
      assert overflow <= all;
      ok, seen, found := Scan(boxes, box, overflow, budget, {}, [], start);
      if !ok {
        assert {} + overflow == overflow;
        SubsetSize(overflow, all);
        return;
      }
      var todo := squares;
      while todo != {}
        invariant todo <= squares && Looked(cells, overflow, squares, todo, seen)
        invariant Scanning(boxes, box, seen, found, start, budget.remaining)
        invariant |overflow| <= QUERY_ITEMS && forall s :: s in squares && s !in todo && s in cells ==> |cells[s]| <= QUERY_ITEMS
        invariant budget.truncated == old(budget.truncated) && budget.remaining <= start
        decreases todo
      {
        var s := Pick(todo);
        BucketKnown(boxes, cells, memberships, overflow, s);
        LookedStep(cells, overflow, squares, todo, seen, s);
        SeenAreCandidates(boxes, cells, memberships, overflow, squares, todo - {s}, seen + Bucket(cells, s));
        SubsetSize(seen + Bucket(cells, s), all);
        ok, seen, found := Scan(boxes, box, Bucket(cells, s), budget, seen, found, start);
        if !ok {
          return;
        }
        todo := todo - {s};
      }
      ok := true;
      LookedAll(boxes, cells, memberships, overflow, squares, seen);
    }
  }

  /** An answer lists every stored box that meets the query box, and only boxes near it. */
  lemma AnswerIsComplete(boxes: map<Name, Box>, memberships: Memberships, overflow: set<Name>, box: Box, found: seq<Name>)
    requires Filed(boxes, memberships, overflow) && Found(boxes, box, Candidates(memberships, Reach(box)), found)
    ensures Distinct(found)
    ensures forall k :: k in found ==> k in boxes && Near(boxes[k], box)
    ensures forall k :: k in boxes && Meet(boxes[k], box) ==> k in found
  {
    forall k | k in boxes && Meet(boxes[k], box)
      ensures k in found
    {
      MeetingIsConsidered(boxes, memberships, overflow, box, k);
      MeetingIsNear(boxes[k], box);
    }
  }

  lemma MeetingIsNear(a: Box, b: Box)
    requires Meet(a, b)
    ensures Near(a, b)
  {
    var x: real, y: real :| Holds(a, x, y) && Holds(b, x, y);
  }

  lemma StillMatches(cells: Cells, memberships: Memberships, key: Name, squares: set<Square>)
    requires CellsMatch(cells, memberships) && key in memberships
    requires squares == if memberships[key].Some? then memberships[key].value else {}
    ensures Partly(cells, memberships, key, squares)
  {
    forall s, k
      ensures InCell(cells, s, k) <==> (k != key && Enters(memberships, s, k)) || (k == key && s in squares)
    {
      assert InCell(cells, s, k) <==> Enters(memberships, s, k);
    }
  }

  lemma UnfiledMatches(cells: Cells, memberships: Memberships, key: Name)
    requires Partly(cells, memberships, key, {})
    ensures CellsMatch(cells, memberships - {key})
  {
    forall s, k
      ensures InCell(cells, s, k) <==> Enters(memberships - {key}, s, k)
    {
      assert InCell(cells, s, k) <==> (k != key && Enters(memberships, s, k)) || (k == key && s in {});
    }
  }

  lemma NotFiled(cells: Cells, memberships: Memberships, key: Name)
    requires CellsMatch(cells, memberships) && key !in memberships
    ensures Partly(cells, memberships, key, {})
  {
    forall s, k
      ensures InCell(cells, s, k) <==> (k != key && Enters(memberships, s, k)) || (k == key && s in {})
    {
      assert InCell(cells, s, k) <==> Enters(memberships, s, k);
    }
  }

  lemma FiledMatches(cells: Cells, memberships: Memberships, key: Name, squares: Option<set<Square>>)
    requires Partly(cells, memberships, key, if squares.Some? then squares.value else {}) && key !in memberships
    ensures CellsMatch(cells, memberships[key := squares])
  {
    var part := if squares.Some? then squares.value else {};
    forall s, k
      ensures InCell(cells, s, k) <==> Enters(memberships[key := squares], s, k)
    {
      assert InCell(cells, s, k) <==> (k != key && Enters(memberships, s, k)) || (k == key && s in part);
    }
  }
}
