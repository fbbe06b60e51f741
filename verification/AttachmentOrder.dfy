/** Counting the pairs of ports on one side of an object whose connectors must cross.

A Fenwick tree over the ranks of the opposite coordinates makes the count fast.
It is proved equal to the number of inverted pairs, which does not depend on
the order of the rows nor on which coordinate is called the opposite one. */
module AttachmentOrder {
  import opened Sets
  import opened HorizontalFloor

  datatype Point = Point(x: real, y: real)

  /** One port: its height, the height of the opposite end, and where it sits. */
  datatype Port = Port(local: real, opposite: real, point: Point)

  // ---------------------------------------------------------------------------
  // Inverted pairs
  // ---------------------------------------------------------------------------

  predicate Inverted(a: Port, b: Port) {
    (a.local < b.local && a.opposite > b.opposite) || (b.local < a.local && b.opposite > a.opposite)
  }

  function Against(rows: seq<Port>, x: Port): nat {
    if rows == [] then 0
    else Against(rows[..|rows| - 1], x) + (if Inverted(rows[|rows| - 1], x) then 1 else 0)
  }

  /** Each row is counted against the rows before it. */
  function Inversions(rows: seq<Port>): nat {
    if rows == [] then 0
    else Inversions(rows[..|rows| - 1]) + Against(rows[..|rows| - 1], rows[|rows| - 1])
  }

  type Indices = (nat, nat)

  ghost function InvertedPairs(rows: seq<Port>): set<Indices> {
    set i: nat, j: nat | i < j < |rows| && Inverted(rows[i], rows[j]) :: (i, j)
  }

  ghost function InvertedWith(rows: seq<Port>, x: Port, n: nat): set<Indices> {
    set i: nat | i < |rows| && Inverted(rows[i], x) :: (i, n)
  }

  lemma {:induction false} AgainstIsCount(rows: seq<Port>, x: Port, n: nat)
    ensures |InvertedWith(rows, x, n)| == Against(rows, x)
    decreases |rows|
  {
    if rows != [] {
      var front, k := rows[..|rows| - 1], |rows| - 1;
      AgainstIsCount(front, x, n);
      var last: set<Indices> := if Inverted(rows[k], x) then {(k, n)} else {};
      assert InvertedWith(rows, x, n) == InvertedWith(front, x, n) + last;
    }
  }

  /** The running count is the number of inverted pairs. */
  lemma {:induction false} InversionsArePairs(rows: seq<Port>)
    ensures Inversions(rows) == |InvertedPairs(rows)|
    decreases |rows|
  {
    if rows != [] {
      var front, n: nat := rows[..|rows| - 1], |rows| - 1;
      InversionsArePairs(front);
      AgainstIsCount(front, rows[n], n);
      assert InvertedPairs(rows) == InvertedPairs(front) + InvertedWith(front, rows[n], n);
    }
  }

  // ---------------------------------------------------------------------------
  // Neither the order of the rows nor the choice of sides matters
  // ---------------------------------------------------------------------------

  function Without(rows: seq<Port>, i: nat): seq<Port>
    requires i < |rows|
  {
    rows[..i] + rows[i + 1..]
  }

  lemma {:induction false} AgainstWithout(rows: seq<Port>, i: nat, x: Port)
    requires i < |rows|
    ensures Against(rows, x) == Against(Without(rows, i), x) + (if Inverted(rows[i], x) then 1 else 0)
    decreases |rows|
  {
    var n := |rows| - 1;
    if i < n {
      AgainstWithout(rows[..n], i, x);
      assert Without(rows, i)[..n - 1] == Without(rows[..n], i);
    } else {
      assert Without(rows, i) == rows[..n];
    }
  }

  lemma {:induction false} InversionsWithout(rows: seq<Port>, i: nat)
    requires i < |rows|
    ensures Inversions(rows) == Inversions(Without(rows, i)) + Against(Without(rows, i), rows[i])
    decreases |rows|
  {
    var n := |rows| - 1;
    if i < n {
      InversionsWithout(rows[..n], i);
      AgainstWithout(rows[..n], i, rows[n]);
      assert Without(rows, i)[..n - 1] == Without(rows[..n], i);
    } else {
      assert Without(rows, i) == rows[..n];
    }
  }

  lemma WithoutMultiset(rows: seq<Port>, i: nat)
    requires i < |rows|
    ensures multiset(Without(rows, i)) == multiset(rows) - multiset{rows[i]}
  {
    assert rows == rows[..i] + [rows[i]] + rows[i + 1..];
  }

  lemma {:induction false} AgainstPermuted(a: seq<Port>, b: seq<Port>, x: Port)
    requires multiset(a) == multiset(b)
    ensures Against(a, x) == Against(b, x)
    decreases |a|
  {
    if a == [] {
      assert |multiset(b)| == 0;
    } else {
      var n := |a| - 1;
      assert a[n] in multiset(b);
      var i :| 0 <= i < |b| && b[i] == a[n];
      WithoutMultiset(a, n);
      WithoutMultiset(b, i);
      assert Without(a, n) == a[..n];
      AgainstPermuted(a[..n], Without(b, i), x);
      AgainstWithout(b, i, x);
    }
  }

  /** Input order is irrelevant. */
  lemma {:induction false} InversionsPermuted(a: seq<Port>, b: seq<Port>)
    requires multiset(a) == multiset(b)
    ensures Inversions(a) == Inversions(b)
    decreases |a|
  {
    if a == [] {
      assert |multiset(b)| == 0;
    } else {
      var n := |a| - 1;
      assert a[n] in multiset(b);
      var i :| 0 <= i < |b| && b[i] == a[n];
      WithoutMultiset(a, n);
      WithoutMultiset(b, i);
      assert Without(a, n) == a[..n];
      InversionsPermuted(a[..n], Without(b, i));
      AgainstPermuted(a[..n], Without(b, i), a[n]);
      InversionsWithout(b, i);
    }
  }

  function Mirror(p: Port): Port {
    Port(p.opposite, p.local, p.point)
  }

  function MirrorAll(rows: seq<Port>): seq<Port> {
    seq(|rows|, i requires 0 <= i < |rows| => Mirror(rows[i]))
  }

  lemma {:induction false} AgainstMirrored(rows: seq<Port>, x: Port)
    ensures Against(MirrorAll(rows), Mirror(x)) == Against(rows, x)
    decreases |rows|
  {
    if rows != [] {
      AgainstMirrored(rows[..|rows| - 1], x);
      assert MirrorAll(rows)[..|rows| - 1] == MirrorAll(rows[..|rows| - 1]);
    }
  }

  /** Seen from the opposite side, the same pairs are inverted. */
  lemma {:induction false} InversionsMirrored(rows: seq<Port>)
    ensures Inversions(MirrorAll(rows)) == Inversions(rows)
    decreases |rows|
  {
    if rows != [] {
      InversionsMirrored(rows[..|rows| - 1]);
      AgainstMirrored(rows[..|rows| - 1], rows[|rows| - 1]);
      assert MirrorAll(rows)[..|rows| - 1] == MirrorAll(rows[..|rows| - 1]);
    }
  }

  // ---------------------------------------------------------------------------
  // The tree
  // ---------------------------------------------------------------------------

  /** The least significant bit of a positive number, `i & -i`. */
  function LowBit(i: nat): (bit: nat)
    requires i > 0
    ensures 0 < bit <= i
  {
    if i % 2 == 1 then 1 else 2 * LowBit(i / 2)
  }

  /** Node `i` of the tree counts rank `k`. */
  predicate Covers(i: nat, k: nat)
    requires i > 0
  {
    i - LowBit(i) < k <= i
  }

  /** Climbing by the low bit visits exactly the nodes that count a rank. */
  lemma {:induction false} CoversNext(i: nat, k: nat)
    requires i > 0 && k > 0 && i != k
    ensures Covers(i, k) <==> Covers(i, k + LowBit(k))
    decreases k
  {
    if k % 2 == 0 {
      if i % 2 == 0 {
        CoversNext(i / 2, k / 2);
        assert i == 2 * (i / 2) && k == 2 * (k / 2);
      }
    } else if i % 2 == 0 {
      assert LowBit(i) == 2 * LowBit(i / 2);
    }
  }

  /** How many ranks lie in the range. */
  function Within(ranks: seq<nat>, low: int, high: int): nat {
    if ranks == [] then 0
    else Within(ranks[..|ranks| - 1], low, high) + (if low < ranks[|ranks| - 1] <= high then 1 else 0)
  }

  lemma {:induction false} WithinSplits(ranks: seq<nat>, low: int, middle: int, high: int)
    requires low <= middle <= high
    ensures Within(ranks, low, high) == Within(ranks, low, middle) + Within(ranks, middle, high)
    decreases |ranks|
  {
    if ranks != [] {
      WithinSplits(ranks[..|ranks| - 1], low, middle, high);
    }
  }

  /** A cell of the tree, `pending` being a rank that has not reached it yet. */
  predicate CellCounts(tree: seq<nat>, ranks: seq<nat>, pending: nat, i: nat)
    requires 0 < i < |tree|
  {
    tree[i] + (if Covers(i, pending) then 1 else 0) == Within(ranks, i - LowBit(i), i)
  }

  /** Every node counts the ranks it covers, less a rank still climbing from `pending`. */
  ghost predicate Climbing(tree: seq<nat>, ranks: seq<nat>, pending: nat) {
    forall i {:trigger CellCounts(tree, ranks, pending, i)} :: 0 < i < |tree| ==> CellCounts(tree, ranks, pending, i)
  }

  /** Every node counts the ranks it covers. */
  ghost predicate Tree(tree: seq<nat>, ranks: seq<nat>) {
    |tree| > 0 && Climbing(tree, ranks, |tree|)
  }

  lemma TreeCell(tree: seq<nat>, ranks: seq<nat>, i: nat)
    requires Tree(tree, ranks) && 0 < i < |tree|
    ensures tree[i] == Within(ranks, i - LowBit(i), i)
  {
    assert CellCounts(tree, ranks, |tree|, i);
  }

  lemma TreeStarts(tree: seq<nat>)
    requires |tree| > 0 && forall i :: 0 <= i < |tree| ==> tree[i] == 0
    ensures Tree(tree, [])
  {
    forall i | 0 < i < |tree|
      ensures CellCounts(tree, [], |tree|, i)
    {
    }
  }

  lemma InsertStarts(tree: seq<nat>, ranks: seq<nat>, k: nat)
    requires Tree(tree, ranks) && 0 < k < |tree|
    ensures Climbing(tree, ranks + [k], k)
  {
    assert (ranks + [k])[..|ranks|] == ranks;
    forall i | 0 < i < |tree|
      ensures CellCounts(tree, ranks + [k], k, i)
    {
      TreeCell(tree, ranks, i);
    }
  }

  lemma InsertStep(tree: seq<nat>, ranks: seq<nat>, index: nat)
    requires 0 < index < |tree| && Climbing(tree, ranks, index)
    ensures Climbing(tree[index := tree[index] + 1], ranks, index + LowBit(index))
  {
    var after, next := tree[index := tree[index] + 1], index + LowBit(index);
    forall i | 0 < i < |after|
      ensures CellCounts(after, ranks, next, i)
    {
      assert CellCounts(tree, ranks, index, i);
      if i != index {
        CoversNext(i, index);
      }
    }
  }

  lemma InsertEnds(tree: seq<nat>, ranks: seq<nat>, index: nat)
    requires 0 < |tree| <= index && Climbing(tree, ranks, index)
    ensures Tree(tree, ranks)
  {
    forall i | 0 < i < |tree|
      ensures CellCounts(tree, ranks, |tree|, i)
    {
      assert CellCounts(tree, ranks, index, i);
    }
  }

  /** How many of the inserted ranks are at most `rank`. */
  method Query(tree: array<nat>, ghost ranks: seq<nat>, rank: nat) returns (count: nat)
    requires Tree(tree[..], ranks) && rank < tree.Length
    ensures count == Within(ranks, 0, rank)
  {
    var index := rank;
    count := 0;
    WithinSplits(ranks, 0, rank, rank);
    while index > 0
      invariant 0 <= index <= rank && count == Within(ranks, index, rank)
    {
      TreeCell(tree[..], ranks, index);
      WithinSplits(ranks, index - LowBit(index), index, rank);
      count := count + tree[index];
      index := index - LowBit(index);
    }
  }

  method Insert(tree: array<nat>, ghost ranks: seq<nat>, rank: nat)
    requires Tree(tree[..], ranks) && 0 < rank < tree.Length
    modifies tree
    ensures Tree(tree[..], ranks + [rank])
  {
    var index := rank;
    InsertStarts(tree[..], ranks, rank);
    while index < tree.Length
      invariant index > 0 && Climbing(tree[..], ranks + [rank], index)
      decreases tree.Length - index
    {
      InsertStep(tree[..], ranks + [rank], index);
      tree[index] := tree[index] + 1;
      index := index + LowBit(index);
    }
    InsertEnds(tree[..], ranks + [rank], index);
  }

  // ---------------------------------------------------------------------------
  // Ranks and order
  // ---------------------------------------------------------------------------

  type Ranks = map<real, nat>

  /** Ranks follow the order of the values, and fit the tree. */
  ghost predicate Ranked(ranks: Ranks, size: nat) {
    && (forall v :: v in ranks ==> 0 < ranks[v] <= size)
    && (forall v, w :: v in ranks && w in ranks ==> (v <= w <==> ranks[v] <= ranks[w]))
  }

  ghost predicate AllRanked(rows: seq<Port>, ranks: Ranks) {
    forall p :: p in rows ==> p.opposite in ranks
  }

  /** The rank of each distinct opposite coordinate, from one. */
  method Rank(rows: seq<Port>) returns (ranks: Ranks, size: nat)
    ensures Ranked(ranks, size) && AllRanked(rows, ranks)
  {
    var values := Opposites(rows);
    size := |values|;
    ranks := map[];
    for i := 0 to |values|
      invariant forall v :: v in ranks <==> v in values[..i]
      invariant forall j :: 0 <= j < i ==> values[j] in ranks && ranks[values[j]] == j + 1
    {
      ranks := ranks[values[i] := i + 1];
    }
    assert values[..|values|] == values;
    forall v, w | v in ranks && w in ranks
      ensures v <= w <==> ranks[v] <= ranks[w]
    {
      var i :| 0 <= i < |values| && values[i] == v;
      var j :| 0 <= j < |values| && values[j] == w;
    }
  }

  method Opposites(rows: seq<Port>) returns (values: seq<real>)
    ensures Increasing(values) && forall p :: p in rows ==> p.opposite in values
  {
    values := [];
    for i := 0 to |rows|
      invariant Increasing(values) && forall p :: p in rows[..i] ==> p.opposite in values
    {
      assert rows[..i + 1] == rows[..i] + [rows[i]];
      values := HorizontalFloor.Insert(values, rows[i].opposite);
    }
    assert rows[..|rows|] == rows;
  }

  ghost predicate ByLocal(rows: seq<Port>) {
    forall i, j :: 0 <= i < j < |rows| ==> rows[i].local <= rows[j].local
  }

  method InsertRow(rows: seq<Port>, p: Port) returns (more: seq<Port>)
    requires ByLocal(rows)
    ensures multiset(more) == multiset(rows) + multiset{p}
    ensures ByLocal(more)
  {
    var i := |rows|;
    while i > 0 && rows[i - 1].local > p.local
      invariant 0 <= i <= |rows| && forall j :: i <= j < |rows| ==> rows[j].local > p.local
    {
      i := i - 1;
    }
    more := rows[..i] + [p] + rows[i..];
    SplicedIn(rows, i, p);
  }

  lemma SplicedIn(rows: seq<Port>, i: nat, p: Port)
    requires i <= |rows|
    ensures multiset(rows[..i] + [p] + rows[i..]) == multiset(rows) + multiset{p}
  {
    assert rows == rows[..i] + rows[i..];
  }

  /** The rows by local coordinate; the order among equals is immaterial. */
  method Sort(rows: seq<Port>) returns (sorted: seq<Port>)
    ensures ByLocal(sorted) && multiset(sorted) == multiset(rows)
  {
    sorted := [];
    for i := 0 to |rows|
      invariant ByLocal(sorted) && multiset(sorted) == multiset(rows[..i])
    {
      assert rows[..i + 1] == rows[..i] + [rows[i]];
      sorted := InsertRow(sorted, rows[i]);
    }
    assert rows[..|rows|] == rows;
  }

  // ---------------------------------------------------------------------------
  // The count
  // ---------------------------------------------------------------------------

  function RanksOf(rows: seq<Port>, ranks: Ranks): seq<nat>
    requires AllRanked(rows, ranks)
  {
    seq(|rows|, i requires 0 <= i < |rows| => assert rows[i] in rows; ranks[rows[i].opposite])
  }

  /** Against rows that all lie strictly before it, a port is inverted with those of higher rank. */
  lemma {:induction false} AgainstEarlier(rows: seq<Port>, ranks: Ranks, size: nat, x: Port)
    requires Ranked(ranks, size) && AllRanked(rows, ranks) && x.opposite in ranks
    requires forall p :: p in rows ==> p.local < x.local
    ensures Against(rows, x) == |rows| - Within(RanksOf(rows, ranks), 0, ranks[x.opposite])
    decreases |rows|
  {
    if rows != [] {
      var n := |rows| - 1;
      var last := rows[n];
      assert last in rows;
      AgainstEarlier(rows[..n], ranks, size, x);
      assert RanksOf(rows, ranks)[..n] == RanksOf(rows[..n], ranks);
    }
  }

  /** Ports at one local height are not inverted with one another. */
  lemma {:induction false} AgainstLevel(rows: seq<Port>, i: nat, x: Port)
    requires i <= |rows| && forall j :: i <= j < |rows| ==> rows[j].local == x.local
    ensures Against(rows, x) == Against(rows[..i], x)
    decreases |rows|
  {
    if i < |rows| {
      AgainstLevel(rows[..|rows| - 1], i, x);
      assert rows[..|rows| - 1][..i] == rows[..i];
    } else {
      assert rows[..i] == rows;
    }
  }

  /** The ports from `i` to `j` are those of one local height. */
  ghost predicate TieGroup(rows: seq<Port>, i: nat, j: nat) {
    && i < j <= |rows|
    && (forall k :: i <= k < j ==> rows[k].local == rows[i].local)
    && (forall k :: 0 <= k < i ==> rows[k].local < rows[i].local)
    && (forall k :: j <= k < |rows| ==> rows[k].local > rows[i].local)
  }

  lemma CountOne(rows: seq<Port>, ranks: Ranks, size: nat, i: nat, j: nat, k: nat)
    requires Ranked(ranks, size) && AllRanked(rows, ranks) && TieGroup(rows, i, j) && i <= k < j
    ensures AllRanked(rows[..i], ranks) && rows[k].opposite in ranks
    ensures Inversions(rows[..k + 1]) == Inversions(rows[..k]) + i - Within(RanksOf(rows[..i], ranks), 0, ranks[rows[k].opposite])
  {
    assert rows[k] in rows;
    CountLevel(rows, i, j, k);
    AgainstEarlier(rows[..i], ranks, size, rows[k]);
  }

  /** A port of a tie group is counted against the rows before the group. */
  lemma CountLevel(rows: seq<Port>, i: nat, j: nat, k: nat)
    requires TieGroup(rows, i, j) && i <= k < j
    ensures Inversions(rows[..k + 1]) == Inversions(rows[..k]) + Against(rows[..i], rows[k])
  {
    AgainstLevel(rows[..k], i, rows[k]);
    assert rows[..k][..i] == rows[..i] && rows[..k + 1][..k] == rows[..k];
  }

  /** Counts a whole tie group against the rows before it, before any of it is inserted. */
  method CountGroup(rows: seq<Port>, ranks: Ranks, ghost size: nat, tree: array<nat>, i: nat, j: nat, total0: nat) returns (total: nat)
    requires Ranked(ranks, size) && AllRanked(rows, ranks) && TieGroup(rows, i, j) && tree.Length == size + 1
    requires AllRanked(rows[..i], ranks) && Tree(tree[..], RanksOf(rows[..i], ranks))
    requires total0 == Inversions(rows[..i])
    ensures total == Inversions(rows[..j])
  {
    total := total0;
    for k := i to j
      invariant total == Inversions(rows[..k])
    {
      CountOne(rows, ranks, size, i, j, k);
      var below := Query(tree, RanksOf(rows[..i], ranks), ranks[rows[k].opposite]);
      total := total + i - below;
    }
  }

  method InsertGroup(rows: seq<Port>, ranks: Ranks, ghost size: nat, tree: array<nat>, i: nat, j: nat)
    requires Ranked(ranks, size) && AllRanked(rows, ranks) && i <= j <= |rows| && tree.Length == size + 1
    requires AllRanked(rows[..i], ranks) && Tree(tree[..], RanksOf(rows[..i], ranks))
    modifies tree
    ensures AllRanked(rows[..j], ranks) && Tree(tree[..], RanksOf(rows[..j], ranks))
  {
    for k := i to j
      invariant AllRanked(rows[..k], ranks) && Tree(tree[..], RanksOf(rows[..k], ranks))
    {
      assert rows[k] in rows;
      assert RanksOf(rows[..k + 1], ranks) == RanksOf(rows[..k], ranks) + [ranks[rows[k].opposite]];
      Insert(tree, RanksOf(rows[..k], ranks), ranks[rows[k].opposite]);
    }
  }

  method GroupEnd(rows: seq<Port>, i: nat) returns (j: nat)
    requires ByLocal(rows) && i < |rows| && forall k :: 0 <= k < i ==> rows[k].local < rows[i].local
    ensures TieGroup(rows, i, j)
  {
    j := i + 1;
    while j < |rows| && rows[j].local == rows[i].local
      invariant i < j <= |rows| && forall k :: i <= k < j ==> rows[k].local == rows[i].local
    {
      j := j + 1;
    }
  }

  /** Counts the inverted pairs, in whatever order the rows are given. */
  method CountInversions(rows: seq<Port>) returns (total: nat)
    ensures total == |InvertedPairs(rows)|
  {
    InversionsArePairs(rows);
    if |rows| < 2 {
      return 0;
    }
    var ranks, size := Rank(rows);
    var sorted := Sort(rows);
    InversionsPermuted(rows, sorted);
    assert forall p :: p in sorted ==> p in multiset(sorted);
    total := SweepSorted(sorted, ranks, size);
  }

  method SweepSorted(sorted: seq<Port>, ranks: Ranks, size: nat) returns (total: nat)
    requires ByLocal(sorted) && Ranked(ranks, size) && AllRanked(sorted, ranks)
    ensures total == Inversions(sorted)
  {
    var tree := new nat[size + 1](_ => 0);
    TreeStarts(tree[..]);
    total := 0;
    var i := 0;
    while i < |sorted|
      invariant 0 <= i <= |sorted| && total == Inversions(sorted[..i])
      invariant i < |sorted| ==> forall k :: 0 <= k < i ==> sorted[k].local < sorted[i].local
      invariant AllRanked(sorted[..i], ranks) && Tree(tree[..], RanksOf(sorted[..i], ranks))
    {
      var j := GroupEnd(sorted, i);
      total := CountGroup(sorted, ranks, size, tree, i, j, total);
      InsertGroup(sorted, ranks, size, tree, i, j);
      i := j;
    }
    assert sorted[..i] == sorted;
  }

  // ---------------------------------------------------------------------------
  // Ports in one place
  // ---------------------------------------------------------------------------

  function At(rows: seq<Port>, point: Point): nat {
    if rows == [] then 0 else At(rows[..|rows| - 1], point) + (if rows[|rows| - 1].point == point then 1 else 0)
  }

  /** Pairs of ports in one place, that place being among `points`. */
  ghost function Coinciding(rows: seq<Port>, points: set<Point>): set<Indices> {
    set i: nat, j: nat | i < j < |rows| && rows[i].point == rows[j].point && rows[j].point in points :: (i, j)
  }

  ghost function Sharing(rows: seq<Port>, point: Point, n: nat): set<Indices> {
    set i: nat | i < |rows| && rows[i].point == point :: (i, n)
  }

  lemma {:induction false} AtIsCount(rows: seq<Port>, point: Point, n: nat)
    ensures |Sharing(rows, point, n)| == At(rows, point)
    decreases |rows|
  {
    if rows != [] {
      var front, k := rows[..|rows| - 1], |rows| - 1;
      AtIsCount(front, point, n);
      var last: set<Indices> := if rows[k].point == point then {(k, n)} else {};
      assert Sharing(rows, point, n) == Sharing(front, point, n) + last;
    }
  }

  /** How many pairs there are among `c` things. */
  function Choose2(c: nat): (pairs: int) {
    c * (c - 1) / 2
  }

  lemma Choose2Next(c: nat)
    ensures Choose2(c + 1) == Choose2(c) + c
  {
    assert (c + 1) * c == c * (c - 1) + 2 * c;
  }

  /** A place with c ports holds c(c-1)/2 coinciding pairs. */
  lemma {:induction false} OnePlace(rows: seq<Port>, point: Point)
    ensures |Coinciding(rows, {point})| == Choose2(At(rows, point))
    decreases |rows|
  {
    if rows != [] {
      var front, n: nat := rows[..|rows| - 1], |rows| - 1;
      OnePlace(front, point);
      if rows[n].point == point {
        AtIsCount(front, point, n);
        Choose2Next(At(front, point));
        NextPlace(rows, point);
      } else {
        assert Coinciding(rows, {point}) == Coinciding(front, {point});
      }
    }
  }

  lemma NextPlace(rows: seq<Port>, point: Point)
    requires rows != [] && rows[|rows| - 1].point == point
    ensures var front, n: nat := rows[..|rows| - 1], |rows| - 1;
      |Coinciding(rows, {point})| == |Coinciding(front, {point})| + |Sharing(front, point, n)|
  {
    var front, n: nat := rows[..|rows| - 1], |rows| - 1;
    assert Coinciding(rows, {point}) == Coinciding(front, {point}) + Sharing(front, point, n);
  }

  /** Pairs in different places are counted apart. */
  lemma MorePlaces(rows: seq<Port>, points: set<Point>, point: Point)
    requires point !in points
    ensures |Coinciding(rows, points + {point})| == |Coinciding(rows, points)| + |Coinciding(rows, {point})|
  {
    assert Coinciding(rows, points + {point}) == Coinciding(rows, points) + Coinciding(rows, {point});
  }

  ghost predicate Counter(rows: seq<Port>, counts: map<Point, nat>) {
    && (forall p :: p in counts <==> Occupied(rows, p))
    && (forall p :: p in counts ==> counts[p] == At(rows, p))
  }

  ghost predicate Occupied(rows: seq<Port>, p: Point) {
    exists i :: 0 <= i < |rows| && rows[i].point == p
  }

  lemma OneMore(rows: seq<Port>, i: nat, q: Point)
    requires i < |rows|
    ensures Occupied(rows[..i + 1], q) <==> q == rows[i].point || Occupied(rows[..i], q)
  {
    if Occupied(rows[..i], q) {
      var j :| 0 <= j < i && rows[..i][j].point == q;
      assert rows[..i + 1][j].point == q;
    }
    assert rows[..i + 1][i] == rows[i];
    if Occupied(rows[..i + 1], q) {
      var j :| 0 <= j < i + 1 && rows[..i + 1][j].point == q;
      assert j < i ==> rows[..i][j].point == q;
    }
  }

  lemma {:induction false} NoneAt(rows: seq<Port>, point: Point)
    requires forall i :: 0 <= i < |rows| ==> rows[i].point != point
    ensures At(rows, point) == 0
    decreases |rows|
  {
    if rows != [] {
      NoneAt(rows[..|rows| - 1], point);
    }
  }

  method CountPlaces(rows: seq<Port>) returns (counts: map<Point, nat>)
    ensures Counter(rows, counts)
  {
    counts := map[];
    for i := 0 to |rows|
      invariant Counter(rows[..i], counts)
    {
      var p := rows[i].point;
      assert rows[..i + 1][..i] == rows[..i];
      if p !in counts {
        NoneAt(rows[..i], p);
      }
      counts := counts[p := (if p in counts then counts[p] else 0) + 1];
      forall q
        ensures Occupied(rows[..i + 1], q) <==> q == p || Occupied(rows[..i], q)
      {
        OneMore(rows, i, q);
      }
    }
    assert rows[..|rows|] == rows;
  }

  /** Counts the pairs of ports that share a place. */
  method CountCoinciding(rows: seq<Port>) returns (total: nat)
    ensures total == |(set i: nat, j: nat | i < j < |rows| && rows[i].point == rows[j].point :: (i, j))|
  {
    var counts := CountPlaces(rows);
    total := 0;
    ghost var done: set<Point> := {};
    var todo := counts.Keys;
    assert Coinciding(rows, {}) == {};
    while todo != {}
      invariant forall p :: p in counts <==> p in todo || p in done
      invariant todo !! done && total == |Coinciding(rows, done)|
      decreases todo
    {
      var p := Pick(todo);
      OnePlace(rows, p);
      MorePlaces(rows, done, p);
      total := total + Choose2(counts[p]);
      done, todo := done + {p}, todo - {p};
    }
    assert Coinciding(rows, done) == set i: nat, j: nat | i < j < |rows| && rows[i].point == rows[j].point :: (i, j);
  }
}
